// The Service Worker's key registry for one token: the in-memory entry, its row in
// IndexedDB, one register or release at a time, pages that close and workers that
// are killed at any await.
module KeyRegistry {
  import opened Bytes

  type Client = nat

  /** What the worker knows of one file; resume is "" until a download taught it a token. */
  datatype FileMeta = FileMeta(plaintextSize: nat, chunkSize: nat, resume: string)

  datatype Entry = Entry(key: nat, files: map<nat, FileMeta>, clients: set<Client>, expiresAt: nat)

  /** A page's file as it registers it; sizes are checked before anything is stored. */
  datatype Listed = Listed(plaintextSize: int, chunkSize: int)

  /** expiresAt is what the page sent: None when it is not a finite number. */
  datatype Op =
    | Register(key: nat, files: map<nat, Listed>, expiresAt: Option<int>, client: Option<Client>)
    | Release(client: Option<Client>)

  /** How far the running operation got; every change of stage is an await. */
  datatype Work =
    | Idle
    | Loaded(op: Op, existing: Option<Entry>, at: nat)   // register: validated, at this time
    | Pruned(op: Op, entry: Entry, at: nat)              // register: not in the registry yet
    | Stored(op: Op, entry: Entry, at: nat)              // register: in the registry, not on disk yet
    | Deleted(op: Op)                                    // release: the client is out of the entry
    | Shrunk(op: Op)                                     // release: closed pages are out too
    | Dropped(op: Op)                                    // release: out of the registry, not off the disk yet

  datatype State = State(
    now: nat, mem: Option<Entry>, row: Option<Entry>, queue: seq<Op>, work: Work, live: set<Client>, seen: set<Client>,
    // History: pages whose registration was acked and not released, the last resume token learned of each file, and
    // the last registration that made it to disk.
    acked: set<Client>, learned: map<nat, string>, last: Option<Registration>)

  /** A registration, with the time at which it was validated. */
  datatype Registration = Registration(op: Op, at: nat)

  const FRESH := State(0, None, None, [], Idle, {}, {}, {}, map[], None)

  /** How long a key without an expiry of its own is kept, in milliseconds. */
  const FALLBACK := 30 * 24 * 3600 * 1000

  function Deadline(expiresAt: Option<int>, at: nat): nat {
    if expiresAt.Some? && expiresAt.value > 0 then expiresAt.value else at + FALLBACK
  }

  datatype Step =
    | Tick
    | OpenPage(client: Client)
    | ClosePage(client: Client)
    | Enqueue(op: Op)
    | Begin
    | Prune(ok: bool)
    | Continue
    | Kill
    | Learn(file: nat, token: string)

  predicate ValidFiles(files: map<nat, Listed>) {
    forall f <- files :: files[f].plaintextSize > 0 && files[f].chunkSize > 0
  }

  function Sources(client: Option<Client>): set<Client> {
    if client.Some? then {client.value} else {}
  }

  /** Operations start at the head of the token's queue, and only when the one before has ended. */
  predicate Enabled(s: State, x: Step) {
    WellFormed(s) && Allowed(s, x)
  }

  predicate Allowed(s: State, x: Step) {
    match x
    case Tick => true
    case OpenPage(p) => p !in s.seen
    case ClosePage(p) => p in s.live
    case Enqueue(op) => Sources(op.client) <= s.live
    case Begin => s.work.Idle? && s.queue != []
    case Prune(_) => s.work.Loaded? || s.work.Deleted?
    case Continue => s.work.Pruned? || s.work.Stored? || s.work.Shrunk? || s.work.Dropped?
    case Kill => true
    case Learn(f, token) => s.work.Idle? && s.queue == [] && token != "" && s.mem.Some? && f in s.mem.value.files
  }

  predicate IsExpired(s: State) {
    s.mem.None? && s.row.Some? && s.row.value.expiresAt < s.now
  }

  /** REGISTRY.get(token) || loadEntry(token): an expired row is forgotten, and with it everything it held. */
  function Looked(s: State): State {
    if s.mem.Some? || s.row.None? then s
    else if IsExpired(s) then s.(row := None, acked := {}, learned := map[], last := None)
    else s.(mem := s.row)
  }

  function Prunes(clients: set<Client>, s: State, ok: bool): set<Client> {
    if ok then clients * s.live else clients
  }

  /** The file map of a registration: what was known of a file's resume token carries over. */
  function FileMap(files: map<nat, Listed>, existing: Option<Entry>): map<nat, FileMeta>
    requires ValidFiles(files)
  {
    map f | f in files :: FileMeta(files[f].plaintextSize, files[f].chunkSize,
                                   if existing.Some? && f in existing.value.files
                                   then existing.value.files[f].resume else "")
  }

  function NewEntry(op: Op, existing: Option<Entry>, kept: set<Client>, at: nat): Entry
    requires op.Register? && ValidFiles(op.files)
  {
    Entry(op.key, FileMap(op.files, existing), kept + Sources(op.client), Deadline(op.expiresAt, at))
  }

  function WithClients(e: Entry, clients: set<Client>): Entry {
    e.(clients := clients)
  }

  function Restricted(m: map<nat, string>, keys: set<nat>): map<nat, string> {
    map f | f in m && f in keys :: m[f]
  }

  predicate WellFormed(s: State) {
    match s.work
    case Idle => true
    case Loaded(op, _, _) => op.Register? && ValidFiles(op.files)
    case Pruned(op, _, _) => op.Register?
    case Stored(op, _, _) => op.Register?
    case Deleted(op) => op.Release? && s.mem.Some?
    case Shrunk(op) => op.Release? && s.mem.Some?
    case Dropped(op) => op.Release?
  }

  function Apply(s: State, x: Step): State
    requires Enabled(s, x)
  {
    match x
    case Tick => s.(now := s.now + 1)
    case OpenPage(p) => s.(live := s.live + {p}, seen := s.seen + {p})
    case ClosePage(p) => s.(live := s.live - {p})
    case Enqueue(op) => s.(queue := s.queue + [op])
    case Begin => Begun(Looked(s).(queue := s.queue[1..]), s.queue[0])
    case Prune(ok) =>
      if s.work.Loaded? then
        var kept := Prunes(if s.work.existing.Some? then s.work.existing.value.clients else {}, s, ok);
        s.(work := Pruned(s.work.op, NewEntry(s.work.op, s.work.existing, kept, s.work.at), s.work.at))
      else s.(mem := Some(WithClients(s.mem.value, Prunes(s.mem.value.clients, s, ok))), work := Shrunk(s.work.op))
    case Continue => Continued(s)
    case Kill => s.(mem := None, queue := [], work := Idle)
    case Learn(f, token) =>
      var e := s.mem.value.(files := s.mem.value.files[f := s.mem.value.files[f].(resume := token)]);
      s.(mem := Some(e), row := Some(e), learned := s.learned[f := token])
  }

  /** The start of an operation, the entry looked up. A registration with a bad file entry throws here. */
  function Begun(s: State, op: Op): State {
    match op
    case Register(_, files, _, _) => if ValidFiles(files) then s.(work := Loaded(op, s.mem, s.now)) else s
    case Release(client) =>
      if s.mem.None? then s.(acked := s.acked - Sources(client))
      else s.(mem := Some(WithClients(s.mem.value, s.mem.value.clients - Sources(client))), work := Deleted(op))
  }

  function Continued(s: State): State
    requires Enabled(s, Continue)
  {
    match s.work
    case Pruned(op, entry, at) => s.(mem := Some(entry), work := Stored(op, entry, at))
    case Stored(op, entry, at) =>
      s.(row := Some(entry), work := Idle, acked := s.acked + Sources(op.client), last := Some(Registration(op, at)),
         learned := Restricted(s.learned, entry.files.Keys))
    case Shrunk(op) =>
      if s.mem.value.clients != {} then s.(row := s.mem, work := Idle, acked := s.acked - Sources(op.client))
      else s.(mem := None, work := Dropped(op))
    case Dropped(op) =>
      s.(row := None, work := Idle, acked := s.acked - Sources(op.client), learned := map[], last := None)
    case _ => s
  }

  // --- What every run keeps ---

  /** Pages that registered, were told so, are still open and have not let go. */
  function Holders(s: State): set<Client> {
    s.acked * s.live
  }

  predicate Holds(e: Option<Entry>, holders: set<Client>) {
    holders != {} ==> e.Some? && holders <= e.value.clients
  }

  predicate Remembers(files: map<nat, FileMeta>, learned: map<nat, string>) {
    forall f <- learned :: f in files ==> files[f].resume == learned[f]
  }

  predicate EntryRemembers(e: Option<Entry>, learned: map<nat, string>) {
    if e.Some? then Remembers(e.value.files, learned) && learned.Keys <= e.value.files.Keys else learned == map[]
  }

  predicate WorkOk(s: State) {
    match s.work
    case Idle => s.mem.Some? ==> s.row == s.mem
    case Loaded(op, existing, _) => s.mem == existing == s.row
    case Pruned(op, entry, at) =>
      && s.mem == s.row && Holders(s) <= entry.clients && Sources(op.client) <= entry.clients
      && Remembers(entry.files, s.learned)
    case Stored(op, entry, at) =>
      && s.mem == Some(entry) && Holders(s) <= entry.clients && Sources(op.client) <= entry.clients
      && Remembers(entry.files, s.learned)
    case Deleted(op) => SameButClients(s, op)
    case Shrunk(op) => SameButClients(s, op)
    case Dropped(op) => s.mem == None && Holders(s) <= Sources(op.client)
  }

  /** A release under way has only touched the clients of the entry in memory, and kept the other holders. */
  predicate SameButClients(s: State, op: Op) {
    && s.mem.Some? && s.row.Some? && s.mem.value == WithClients(s.row.value, s.mem.value.clients)
    && Holders(s) - Sources(op.client) <= s.mem.value.clients
  }

  /** The entry has the key, the deadline and the files of this registration, each file with the sizes listed. */
  predicate Carries(e: Entry, r: Registration) {
    && r.op.Register? && e.key == r.op.key
    && e.expiresAt == (if r.op.expiresAt.Some? && r.op.expiresAt.value > 0 then r.op.expiresAt.value
                       else r.at + 30 * 24 * 3600 * 1000)
    && e.files.Keys == r.op.files.Keys
    && forall f <- e.files ::
         e.files[f].plaintextSize == r.op.files[f].plaintextSize && e.files[f].chunkSize == r.op.files[f].chunkSize
  }

  /** What is on disk is what was registered last, and what is being registered is on its way there. */
  predicate CarriesOk(s: State) {
    && (s.row.Some? <==> s.last.Some?)
    && (s.row.Some? ==> Carries(s.row.value, s.last.value))
    && (s.work.Pruned? || s.work.Stored? ==> Carries(s.work.entry, Registration(s.work.op, s.work.at)))
  }

  predicate Inv(s: State) {
    && WellFormed(s) && WorkOk(s) && Holds(s.row, Holders(s)) && EntryRemembers(s.row, s.learned)
    && s.live <= s.seen && s.acked <= s.seen
    && (forall i | 0 <= i < |s.queue| :: Sources(s.queue[i].client) <= s.seen)
    && (!s.work.Idle? ==> Sources(s.work.op.client) <= s.seen)
    && CarriesOk(s)
  }

  lemma LookedKeeps(s: State)
    requires Inv(s) && s.work.Idle?
    ensures Inv(Looked(s)) && Looked(s).mem == Looked(s).row && Looked(s).work.Idle? && Looked(s).queue == s.queue
    ensures Looked(s).seen == s.seen
  {}

  lemma BegunKeeps(s: State, op: Op)
    requires Inv(s) && s.work.Idle? && s.mem == s.row && Sources(op.client) <= s.seen
    ensures Inv(Begun(s, op))
  {}

  lemma BeginKeeps(s: State)
    requires Inv(s) && Enabled(s, Begin)
    ensures Inv(Apply(s, Begin))
  {
    LookedKeeps(s);
    BegunKeeps(Looked(s).(queue := s.queue[1..]), s.queue[0]);
  }

  lemma PruneKeeps(s: State, ok: bool)
    requires Inv(s) && Enabled(s, Prune(ok))
    ensures Inv(Apply(s, Prune(ok)))
  {}

  lemma ContinueKeeps(s: State)
    requires Inv(s) && Enabled(s, Continue)
    ensures Inv(Apply(s, Continue))
  {}

  lemma StepKeeps(s: State, x: Step)
    requires Inv(s) && Enabled(s, x)
    ensures Inv(Apply(s, x))
  {
    match x
    case Begin => BeginKeeps(s);
    case Prune(ok) => PruneKeeps(s, ok);
    case Continue => ContinueKeeps(s);
    case _ =>
  }

  predicate Possible(s: State, run: seq<Step>)
    decreases run
  {
    run == [] || (Enabled(s, run[0]) && Possible(Apply(s, run[0]), run[1..]))
  }

  function After(s: State, run: seq<Step>): State
    requires Possible(s, run)
    decreases run
  {
    if run == [] then s else After(Apply(s, run[0]), run[1..])
  }

  lemma {:induction false} RunKeeps(s: State, run: seq<Step>)
    requires Inv(s) && Possible(s, run)
    ensures Inv(After(s, run))
    decreases run
  {
    if run != [] {
      StepKeeps(s, run[0]);
      RunKeeps(Apply(s, run[0]), run[1..]);
    }
  }

  // --- Theorems ---

  /** Whenever an operation has just ended, what is on disk is what is in memory. */
  lemma DiskAgreesAfterEachOperation(run: seq<Step>, x: Step)
    requires Possible(FRESH, run) && Enabled(After(FRESH, run), x) && (x.Begin? || x.Continue?)
    ensures var t := Apply(After(FRESH, run), x); t.work.Idle? ==> t.row == t.mem
  {
    RunKeeps(FRESH, run);
    StepKeeps(After(FRESH, run), x);
  }

  /** A page that registered, is open and has not let go can count on the key, even across a kill. */
  lemma HeldKeyStays(run: seq<Step>, p: Client)
    requires Possible(FRESH, run) && p in Holders(After(FRESH, run))
    ensures var s := After(FRESH, run); s.row.Some? && p in s.row.value.clients
    ensures var s := After(FRESH, run); s.work.Idle? && !IsExpired(s) ==> Looked(s).mem == s.row
  {
    RunKeeps(FRESH, run);
  }

  /** And the key it finds is the one last registered, with that registration's deadline, files and sizes. */
  lemma HeldKeyIsTheRegistered(run: seq<Step>, p: Client)
    requires Possible(FRESH, run) && p in Holders(After(FRESH, run))
    ensures var s := After(FRESH, run); s.row.Some? && s.last.Some? && Carries(s.row.value, s.last.value)
    ensures var s := After(FRESH, run); s.mem.Some? && s.work.Idle? ==> Carries(s.mem.value, s.last.value)
  {
    RunKeeps(FRESH, run);
  }

  /** An entry read back from disk is one in time; one past its deadline is forgotten there and then. */
  lemma LoadedOnlyInTime(run: seq<Step>)
    requires Possible(FRESH, run) && Enabled(After(FRESH, run), Begin)
    requires After(FRESH, run).mem.None? && After(FRESH, run).row.Some?
    ensures var s, t := After(FRESH, run), Apply(After(FRESH, run), Begin);
            && (s.row.value.expiresAt < s.now ==> t.row == t.mem == None && t.acked == {})
            && (s.row.value.expiresAt >= s.now ==> t.row == s.row && t.mem.Some? && t.mem.value.key == s.row.value.key)
  {
    RunKeeps(FRESH, run);
  }

  /** The stored entry goes only on expiry, or when a release finds no other open page that holds it. */
  lemma ForgottenOnlyWhenFree(run: seq<Step>, x: Step)
    requires Possible(FRESH, run) && Enabled(After(FRESH, run), x)
    requires After(FRESH, run).row.Some? && Apply(After(FRESH, run), x).row.None?
    ensures var s := After(FRESH, run);
            || (x.Begin? && s.mem.None? && s.row.value.expiresAt < s.now)
            || (x.Continue? && s.work.Dropped? && Holders(s) <= Sources(s.work.op.client))
  {
    RunKeeps(FRESH, run);
  }

  /** A resume token once learned is on disk until its file is no longer registered or the entry is gone. */
  lemma ResumeTokensSurvive(run: seq<Step>, x: Step, f: nat)
    requires Possible(FRESH, run) && f in After(FRESH, run).learned
    ensures var s := After(FRESH, run);
            s.row.Some? && f in s.row.value.files && s.row.value.files[f].resume == s.learned[f]
    ensures Enabled(After(FRESH, run), x) ==>
              var s, t := After(FRESH, run), Apply(After(FRESH, run), x);
              || (f in t.learned && (t.learned[f] == s.learned[f] || x == Learn(f, t.learned[f])))
              || t.row.None?
              || (x.Continue? && s.work.Stored? && f !in s.work.entry.files)
  {
    RunKeeps(FRESH, run);
  }

  // --- The operations as the worker runs them, start to end ---

  /** The entry after a whole registration. */
  function Registered(found: Option<Entry>, op: Op, live: set<Client>, at: nat): Entry
    requires op.Register? && ValidFiles(op.files)
  {
    NewEntry(op, found, if found.Some? then found.value.clients * live else {}, at)
  }

  /** What a whole release leaves. */
  function AfterRelease(found: Option<Entry>, client: Option<Client>, live: set<Client>): Option<Entry> {
    if found.None? then None
    else
      var left := (found.value.clients - Sources(client)) * live;
      if left == {} then None else Some(WithClients(found.value, left))
  }

  function UpTo(ids: seq<nat>, i: nat): set<nat>
    requires i <= |ids|
  {
    set f | f in ids[..i]
  }

  function FoundBy(mem: Option<Entry>, row: Option<Entry>, now: nat): Option<Entry> {
    if mem.Some? then mem else if row.Some? && row.value.expiresAt < now then None else row
  }

  /** A page of the entry in memory or, when there is none, of the one on disk that is still in time. */
  predicate Held(mem: Option<Entry>, row: Option<Entry>, now: nat, p: Client) {
    if mem.Some? then p in mem.value.clients
    else row.Some? && now <= row.value.expiresAt && p in row.value.clients
  }

  /** The resume token such an entry knows of a file, or "". */
  function Known(mem: Option<Entry>, row: Option<Entry>, now: nat, f: nat): string {
    if mem.Some? then (if f in mem.value.files then mem.value.files[f].resume else "")
    else if row.Some? && now <= row.value.expiresAt && f in row.value.files then row.value.files[f].resume
    else ""
  }

  function FileOf(listed: Listed, existing: Option<Entry>, f: nat): FileMeta
    requires listed.plaintextSize > 0 && listed.chunkSize > 0
  {
    FileMeta(listed.plaintextSize, listed.chunkSize,
             if existing.Some? && f in existing.value.files then existing.value.files[f].resume else "")
  }

  /** Run without a kill, the steps of an operation amount to what the methods below do. */
  lemma StepsMakeOperations(s: State)
    requires Inv(s) && Enabled(s, Begin) && s.queue[0].Register? && ValidFiles(s.queue[0].files)
    ensures var t := Apply(Apply(Apply(Apply(s, Begin), Prune(true)), Continue), Continue);
            t.work.Idle? && t.mem == t.row == Some(Registered(FoundBy(s.mem, s.row, s.now), s.queue[0], s.live, s.now))
  {
    var begun := Apply(s, Begin);
    assert begun.work == Loaded(s.queue[0], FoundBy(s.mem, s.row, s.now), s.now);
    var none: set<Client> := {};
    assert none * s.live == none;
  }

  lemma StepsMakeReleases(s: State)
    requires Inv(s) && Enabled(s, Begin) && s.queue[0].Release? && FoundBy(s.mem, s.row, s.now).Some?
    ensures var t := Apply(Apply(Apply(s, Begin), Prune(true)), Continue);
            var left := AfterRelease(FoundBy(s.mem, s.row, s.now), s.queue[0].client, s.live);
            if left.Some? then t.work.Idle? && t.mem == t.row == left
            else Apply(t, Continue).work.Idle? && Apply(t, Continue).mem == Apply(t, Continue).row == None
  {
    var begun := Apply(s, Begin);
    assert begun.work == Deleted(s.queue[0]);
  }

  class Registry {
    var mem: Option<Entry>
    var row: Option<Entry>

    constructor ()
      ensures mem == None && row == None
    {
      mem, row := None, None;
    }

    /** REGISTRY.get(token) || loadEntry(token). */
    method Find(now: nat) returns (found: Option<Entry>)
      modifies this
      ensures found == mem
      ensures old(mem).Some? ==> mem == old(mem) && row == old(row)
      ensures old(mem).None? && old(row).Some? && old(row).value.expiresAt < now ==> mem == None && row == None
      ensures old(mem).None? && !(old(row).Some? && old(row).value.expiresAt < now) ==> mem == row == old(row)
    {
      if mem.None? && row.Some? {
        if row.value.expiresAt < now {
          row := None;
        } else {
          mem := row;
        }
      }
      found := mem;
    }

    /** registerKey inside its queue slot; ids lists the files in the order the page sent them. */
    method RegisterKey(op: Op, ids: seq<nat>, now: nat, live: set<Client>) returns (acked: bool)
      requires op.Register? && UpTo(ids, |ids|) == op.files.Keys
      requires mem.Some? ==> row == mem
      modifies this
      ensures acked <==> ValidFiles(op.files)
      ensures row == mem
      ensures acked ==> mem == Some(Registered(FoundBy(old(mem), old(row), now), op, live, now))
      ensures acked ==> Carries(mem.value, Registration(op, now))
      ensures acked ==> forall p :: p in mem.value.clients <==>
                op.client == Some(p) || (p in live && Held(old(mem), old(row), now, p))
      ensures acked ==> forall f <- mem.value.files :: mem.value.files[f].resume == Known(old(mem), old(row), now, f)
      ensures !acked ==> mem == FoundBy(old(mem), old(row), now)
    {
      var existing := Find(now);
      var fileMap: map<nat, FileMeta> := map[];
      for i := 0 to |ids|
        invariant mem == existing == FoundBy(old(mem), old(row), now) && row == mem
        invariant forall f :: f in fileMap <==> f in UpTo(ids, i)
        invariant forall f | f in UpTo(ids, i) :: op.files[f].plaintextSize > 0 && op.files[f].chunkSize > 0
        invariant forall f | f in UpTo(ids, i) :: fileMap[f] == FileOf(op.files[f], existing, f)
      {
        var f := ids[i];
        assert ids[..i + 1] == ids[..i] + [f];
        assert f in UpTo(ids, |ids|);
        if op.files[f].plaintextSize <= 0 || op.files[f].chunkSize <= 0 {
          return false;
        }
        fileMap := fileMap[f := FileOf(op.files[f], existing, f)];
      }
      assert fileMap == FileMap(op.files, existing);
      var clients := if existing.Some? then existing.value.clients * live else {};
      var entry := Entry(op.key, fileMap, clients + Sources(op.client), Deadline(op.expiresAt, now));
      mem := Some(entry);
      row := Some(entry);
      acked := true;
    }

    /** releaseEntry inside its queue slot. */
    method ReleaseEntry(client: Option<Client>, now: nat, live: set<Client>)
      requires mem.Some? ==> row == mem
      modifies this
      ensures mem == row == AfterRelease(FoundBy(old(mem), old(row), now), client, live)
      ensures mem.Some? <==> exists p <- live :: client != Some(p) && Held(old(mem), old(row), now, p)
      ensures mem.Some? ==>
                forall p :: p in mem.value.clients
                  <==> p in live && client != Some(p) && Held(old(mem), old(row), now, p)
      ensures mem.Some? ==>
                exists e :: (old(mem) == Some(e) || old(row) == Some(e))
                  && mem.value == e.(clients := mem.value.clients)
    {
      var entry := Find(now);
      if entry.None? {
        return;
      }
      var left := (entry.value.clients - Sources(client)) * live;
      assert forall p :: p in left <==> p in live && client != Some(p) && Held(old(mem), old(row), now, p);
      assert left != {} ==> exists p :: p in left;
      mem := Some(WithClients(entry.value, left));
      if left != {} {
        row := mem;
        return;
      }
      mem := None;
      row := None;
    }
  }
}
