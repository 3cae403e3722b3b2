// The stamp that says when a file was last handed to the scanner, and the claims
// on it: first submission, /rescan/ and the reaper, with every read apart from its write.
module ScanClaims {
  import opened Bytes

  const GIB := 1024 * 1024 * 1024

  /** How long a scan may take before it counts as lost. */
  function ScanWaitSeconds(base: nat, perGib: nat, size: int): nat {
    var bytes := if size < 0 then 0 else size;
    base + (bytes * perGib + GIB - 1) / GIB
  }

  /** The budget grows with the size, by no more than it must. */
  lemma ScanWaitIsACeiling(base: nat, perGib: nat, size: nat)
    ensures var extra := ScanWaitSeconds(base, perGib, size) - base;
            extra * 1073741824 >= size * perGib && (extra > 0 ==> (extra - 1) * 1073741824 < size * perGib)
    ensures size <= 0 ==> ScanWaitSeconds(base, perGib, size) == base
  {
    var n := size * perGib;
    assert n == GIB * (n / GIB) + n % GIB;
  }

  datatype Status = Pending | Transient | Final

  /**
   A task's claim, with the clock it wrote as the stamp; seen is the stamp it replaced, verdicts how many
   callbacks had been recorded by then.
   */
  datatype Claim = Claim(task: nat, stamp: nat, seen: Option<nat>, verdicts: nat)

  /** A reaper or rescan between reading a row and claiming it. clock is the time it took at its start. */
  datatype Reader = Reader(reaper: bool, clock: nat, status: Status, seen: Option<nat>)

  /** A reaper between its claim and the broker's answer. */
  datatype Holder = Holder(serial: nat, clock: nat, seen: nat)

  /**
   Tasks are named by a number of their own; clocks has the start of every task so far, reapers which of them
   are reapers.
   */
  datatype State = State(
    now: nat, status: Status, stamp: Option<nat>,
    clocks: map<nat, nat>, reapers: set<nat>,
    begun: set<nat>, readers: map<nat, Reader>, holders: map<nat, Holder>,
    // History: claims not given back, oldest first; claims made; claims whose message the broker took.
    claims: seq<Claim>, made: nat, enqueued: multiset<nat>, verdicts: nat)

  datatype Config = Config(wait: nat, reapFloor: nat)

  const FRESH := State(0, Pending, None, map[], {}, {}, map[], map[], [], 0, multiset{}, 0)

  datatype Step =
    | Tick(seconds: nat)
    | FirstSubmit(task: nat)
    | Begin(task: nat, reaper: bool)
    | Read(task: nat)
    | ClaimRow(task: nat)
    | Send(task: nat, ok: bool)
    | Verdict(status: Status)

  /** What a task that started at clock makes of the row: worth claiming, or left alone. */
  predicate Stale(c: Config, reaper: bool, clock: nat, status: Status, stamp: Option<nat>) {
    if reaper then
      status == Pending && stamp.Some? && stamp.value + c.reapFloor <= clock && stamp.value + c.wait <= clock
    else status == Transient || (status == Pending && (stamp.None? || stamp.value + c.wait <= clock))
  }

  predicate Enabled(c: Config, s: State, x: Step) {
    match x
    case Tick(_) => true
    case FirstSubmit(task) => task !in s.clocks && s.status == Pending && s.stamp == None
    case Begin(task, _) => task !in s.clocks
    case Read(task) =>
      task in s.begun && task in s.clocks && Stale(c, task in s.reapers, s.clocks[task], s.status, s.stamp)
    case ClaimRow(task) => task in s.readers
    case Send(task, _) => task in s.holders
    case Verdict(status) => status != Pending && s.claims != []
  }

  /**
   The reaper's restore would take another task's stamp for its own: the row carries the
   holder's clock, but the last claim on it is another's.
   */
  predicate TakesOver(s: State, task: nat) {
    && task in s.holders && s.claims != []
    && s.stamp == Some(s.holders[task].clock) && s.holders[task].seen != s.holders[task].clock
    && s.claims[|s.claims| - 1].task != task
  }

  /** No refused reaper takes over another's stamp. */
  predicate Orderly(s: State, x: Step) {
    x.Send? && !x.ok ==> !TakesOver(s, x.task)
  }

  function Apply(c: Config, s: State, x: Step): State
    requires Enabled(c, s, x)
  {
    match x
    case Tick(seconds) => s.(now := s.now + seconds)
    case FirstSubmit(task) => Submitted(s.(clocks := s.clocks[task := s.now]), task, s.now)
    case Begin(task, reaper) =>
      s.(clocks := s.clocks[task := s.now], reapers := if reaper then s.reapers + {task} else s.reapers,
         begun := s.begun + {task})
    case Read(task) =>
      s.(begun := s.begun - {task},
         readers := s.readers[task := Reader(task in s.reapers, s.clocks[task], s.status, s.stamp)])
    case ClaimRow(task) =>
      var r := s.readers[task];
      var t := s.(readers := s.readers - {task});
      if s.status != r.status || s.stamp != r.seen then t
      else if r.reaper && r.seen.Some? then
        Claimed(t, task, r.clock).(holders := t.holders[task := Holder(t.made, r.clock, r.seen.value)])
      else Submitted(t, task, r.clock)
    case Send(task, ok) =>
      var h := s.holders[task];
      var t := s.(holders := s.holders - {task});
      if ok then t.(enqueued := t.enqueued + multiset{h.serial})
      else if t.stamp == Some(h.clock) then Withdrawn(t, task, h.seen)
      else t
    case Verdict(status) => if s.status == Pending then s.(status := status, verdicts := s.verdicts + 1) else s
  }

  /** The conditional UPDATE went through. */
  function Claimed(s: State, task: nat, clock: nat): State {
    s.(status := Pending, stamp := Some(clock), claims := s.claims + [Claim(task, clock, s.stamp, s.verdicts)],
       made := s.made + 1)
  }

  /** A claim whose enqueue goes out with its commit. */
  function Submitted(s: State, task: nat, clock: nat): State {
    Claimed(s, task, clock).(enqueued := s.enqueued + multiset{s.made})
  }

  /** Where a task's claim stands in the list, or its end. */
  function Place(claims: seq<Claim>, task: nat): (i: nat)
    ensures i <= |claims| && (i < |claims| ==> claims[i].task == task)
    ensures forall j | 0 <= j < i :: claims[j].task != task
  {
    if claims == [] || claims[0].task == task then 0 else 1 + Place(claims[1..], task)
  }

  function Dropped(claims: seq<Claim>, i: nat): seq<Claim> {
    if i < |claims| then claims[..i] + claims[i + 1..] else claims
  }

  /** The broker refused: the task's claim is void, and the stamp it replaced is given back. */
  function Withdrawn(s: State, task: nat, seen: nat): State {
    s.(stamp := Some(seen), claims := Dropped(s.claims, Place(s.claims, task)))
  }

  // --- What every run keeps ---

  predicate LinkOk(c: Config, claims: seq<Claim>, i: nat)
    requires i < |claims|
  {
    if i == 0 then claims[i].seen == None
    else
      && claims[i].seen == Some(claims[i - 1].stamp)
      && claims[i - 1].verdicts <= claims[i].verdicts
      && (claims[i].stamp >= claims[i - 1].stamp + c.wait || claims[i].verdicts > claims[i - 1].verdicts)
  }

  predicate Unclaimed(claims: seq<Claim>, task: nat) {
    forall i | 0 <= i < |claims| :: claims[i].task != task
  }

  predicate ReaderOk(c: Config, s: State, task: nat) {
    task in s.readers ==>
      var r := s.readers[task];
      && task in s.clocks && s.clocks[task] == r.clock && Stale(c, r.reaper, r.clock, r.status, r.seen)
      && Unclaimed(s.claims, task)
  }

  predicate HolderOk(c: Config, s: State, task: nat) {
    task in s.holders ==>
      var h := s.holders[task];
      && task in s.clocks && s.clocks[task] == h.clock && task !in s.begun && task !in s.readers
      && h.serial < s.made && h.serial !in s.enqueued && h.seen + c.wait <= h.clock && h.seen + c.reapFloor <= h.clock
      && exists i | 0 <= i < |s.claims| :: Stands(s.claims[i], task, h)
  }

  /** The claim a holder waits for. */
  predicate Stands(x: Claim, task: nat, h: Holder) {
    x.task == task && x.stamp == h.clock && x.seen == Some(h.seen)
  }

  predicate ClaimOk(s: State, i: nat)
    requires i < |s.claims|
  {
    s.claims[i].task in s.clocks && s.clocks[s.claims[i].task] == s.claims[i].stamp
  }

  predicate BegunOk(s: State, task: nat) {
    task in s.begun ==> task in s.clocks && task !in s.readers && Unclaimed(s.claims, task)
  }

  ghost predicate Inv(c: Config, s: State) {
    && s.stamp == (if s.claims == [] then None else Some(s.claims[|s.claims| - 1].stamp))
    && (s.status != Pending ==> s.claims != [] && s.claims[|s.claims| - 1].verdicts < s.verdicts)
    && (s.claims != [] ==> s.claims[|s.claims| - 1].verdicts <= s.verdicts)
    && (forall i | 0 <= i < |s.claims| :: LinkOk(c, s.claims, i))
    && (forall i | 0 <= i < |s.claims| :: ClaimOk(s, i))
    && (forall i, j | 0 <= i < j < |s.claims| :: s.claims[i].task != s.claims[j].task)
    && (forall k | k in s.clocks :: s.clocks[k] <= s.now)
    && (forall k :: BegunOk(s, k))
    && (forall k :: ReaderOk(c, s, k))
    && (forall k :: HolderOk(c, s, k))
    && (forall k, l | k in s.holders && l in s.holders && s.holders[k].serial == s.holders[l].serial :: k == l)
    && (forall n | n in s.enqueued :: n < s.made && s.enqueued[n] == 1)
  }

  /** A task that has read the clock but nothing else yet, or is about to claim. */
  predicate Free(s: State, task: nat, clock: nat) {
    && task in s.clocks && s.clocks[task] == clock
    && task !in s.begun && task !in s.readers && task !in s.holders && Unclaimed(s.claims, task)
  }

  /** Nothing moved that the rows of the invariant speak about. */
  lemma SameHistory(c: Config, s: State, t: State)
    requires Inv(c, s)
    requires t.claims == s.claims && t.made == s.made && t.enqueued == s.enqueued && t.clocks == s.clocks
    requires t.now >= s.now
    requires t.begun == s.begun && t.readers.Keys <= s.readers.Keys && t.holders.Keys <= s.holders.Keys
    requires forall k | k in t.readers :: t.readers[k] == s.readers[k]
    requires forall k | k in t.holders :: t.holders[k] == s.holders[k]
    requires t.stamp == s.stamp && t.verdicts >= s.verdicts
    requires (t.status != Pending ==> s.status != Pending || (s.claims != [] && t.verdicts > s.verdicts))
    ensures Inv(c, t)
  {
    forall i | 0 <= i < |t.claims| ensures LinkOk(c, t.claims, i) && ClaimOk(t, i) {
      assert LinkOk(c, s.claims, i) && ClaimOk(s, i);
    }
    forall k ensures BegunOk(t, k) { assert BegunOk(s, k); }
    forall k ensures ReaderOk(c, t, k) { assert ReaderOk(c, s, k); }
    forall k ensures HolderOk(c, t, k) { assert HolderOk(c, s, k); }
  }

  lemma ClaimedKeeps(c: Config, s: State, task: nat, clock: nat)
    requires Inv(c, s) && Free(s, task, clock)
    requires s.stamp.Some? && s.status == Pending ==> s.stamp.value + c.wait <= clock
    ensures Inv(c, Claimed(s, task, clock))
  {
    var t := Claimed(s, task, clock);
    forall i | 0 <= i < |t.claims| ensures LinkOk(c, t.claims, i) && ClaimOk(t, i) {
      if i < |s.claims| { assert LinkOk(c, s.claims, i) && ClaimOk(s, i); }
    }
    forall k ensures BegunOk(t, k) { assert BegunOk(s, k); }
    forall k ensures ReaderOk(c, t, k) { assert ReaderOk(c, s, k); }
    forall k ensures HolderOk(c, t, k) {
      assert HolderOk(c, s, k);
      if k in s.holders {
        var i :| 0 <= i < |s.claims| && Stands(s.claims[i], k, s.holders[k]);
        assert Stands(t.claims[i], k, t.holders[k]);
      }
    }
    assert t.claims[|t.claims| - 1] == Claim(task, clock, s.stamp, s.verdicts);
  }

  lemma EnqueuedKeeps(c: Config, s: State, serial: nat)
    requires Inv(c, s) && serial < s.made && serial !in s.enqueued
    requires forall k | k in s.holders :: s.holders[k].serial != serial
    ensures Inv(c, s.(enqueued := s.enqueued + multiset{serial}))
  {
    var t := s.(enqueued := s.enqueued + multiset{serial});
    forall i | 0 <= i < |t.claims| ensures LinkOk(c, t.claims, i) && ClaimOk(t, i) {
      assert LinkOk(c, s.claims, i) && ClaimOk(s, i);
    }
    forall k ensures BegunOk(t, k) { assert BegunOk(s, k); }
    forall k ensures ReaderOk(c, t, k) { assert ReaderOk(c, s, k); }
    forall k ensures HolderOk(c, t, k) { assert HolderOk(c, s, k); }
  }

  lemma SubmittedKeeps(c: Config, s: State, task: nat, clock: nat)
    requires Inv(c, s) && Free(s, task, clock)
    requires s.stamp.Some? && s.status == Pending ==> s.stamp.value + c.wait <= clock
    ensures Inv(c, Submitted(s, task, clock))
  {
    ClaimedKeeps(c, s, task, clock);
    forall k | k in s.holders ensures s.holders[k].serial < s.made { assert HolderOk(c, s, k); }
    EnqueuedKeeps(c, Claimed(s, task, clock), s.made);
  }

  /** Removing the last claim, or one that changed nothing, and giving back what it replaced. */
  lemma WithdrawnKeeps(c: Config, s: State, task: nat, i: nat, seen: nat)
    requires Inv(c, s) && task !in s.holders
    requires i < |s.claims| && s.claims[i].task == task && s.claims[i].seen == Some(seen)
    requires i == |s.claims| - 1 || (s.claims[i].stamp == seen && s.stamp == Some(seen))
    ensures Inv(c, Withdrawn(s, task, seen))
  {
    var t := Withdrawn(s, task, seen);
    assert Place(s.claims, task) == i && t.claims == s.claims[..i] + s.claims[i + 1..];
    assert LinkOk(c, s.claims, i);
    forall j | 0 <= j < |t.claims| ensures LinkOk(c, t.claims, j) && ClaimOk(t, j) { DroppedLink(c, s, i, j); }
    forall k ensures BegunOk(t, k) && ReaderOk(c, t, k) && HolderOk(c, t, k) { DroppedTask(c, s, i, seen, k); }
  }

  lemma DroppedTask(c: Config, s: State, i: nat, seen: nat, k: nat)
    requires Inv(c, s) && i < |s.claims| && (k in s.holders ==> s.claims[i].task != k)
    ensures var t := s.(stamp := Some(seen), claims := Dropped(s.claims, i));
            BegunOk(t, k) && ReaderOk(c, t, k) && HolderOk(c, t, k)
  {
    assert BegunOk(s, k) && ReaderOk(c, s, k) && HolderOk(c, s, k);
    assert Unclaimed(s.claims, k) ==> Unclaimed(Dropped(s.claims, i), k);
    DroppedHolder(c, s, i, seen, k);
  }

  lemma DroppedHolder(c: Config, s: State, i: nat, seen: nat, k: nat)
    requires HolderOk(c, s, k) && i < |s.claims| && (k in s.holders ==> s.claims[i].task != k)
    ensures HolderOk(c, s.(stamp := Some(seen), claims := Dropped(s.claims, i)), k)
  {
    if k in s.holders {
      var j :| 0 <= j < |s.claims| && Stands(s.claims[j], k, s.holders[k]);
      assert Stands(Dropped(s.claims, i)[if j < i then j else j - 1], k, s.holders[k]);
    }
  }

  lemma DroppedLink(c: Config, s: State, i: nat, j: nat)
    requires Inv(c, s) && i < |s.claims| && j < |s.claims| - 1
    requires i == |s.claims| - 1 || (i > 0 && s.claims[i].seen == Some(s.claims[i].stamp))
    ensures LinkOk(c, Dropped(s.claims, i), j)
    ensures var x := Dropped(s.claims, i)[j]; x.task in s.clocks && s.clocks[x.task] == x.stamp
  {
    if j < i {
      assert LinkOk(c, s.claims, j) && ClaimOk(s, j);
    } else {
      assert LinkOk(c, s.claims, i) && LinkOk(c, s.claims, j + 1) && ClaimOk(s, j + 1);
    }
  }

  /** A task takes its clock. */
  lemma ClockKeeps(c: Config, s: State, task: nat)
    requires Inv(c, s) && task !in s.clocks
    ensures Inv(c, s.(clocks := s.clocks[task := s.now])) && Free(s.(clocks := s.clocks[task := s.now]), task, s.now)
  {
    var t := s.(clocks := s.clocks[task := s.now]);
    forall i | 0 <= i < |t.claims| ensures LinkOk(c, t.claims, i) && ClaimOk(t, i) {
      assert LinkOk(c, s.claims, i) && ClaimOk(s, i);
    }
    forall k ensures BegunOk(t, k) { assert BegunOk(s, k); }
    forall k ensures ReaderOk(c, t, k) { assert ReaderOk(c, s, k); }
    forall k ensures HolderOk(c, t, k) { assert HolderOk(c, s, k); }
    assert BegunOk(s, task) && ReaderOk(c, s, task) && HolderOk(c, s, task);
    forall i | 0 <= i < |s.claims| ensures s.claims[i].task != task { assert ClaimOk(s, i); }
  }

  lemma BegunKeeps(c: Config, s: State, task: nat, reapers: set<nat>)
    requires Inv(c, s) && task in s.clocks && Free(s, task, s.clocks[task])
    ensures Inv(c, s.(reapers := reapers, begun := s.begun + {task}))
  {
    var t := s.(reapers := reapers, begun := s.begun + {task});
    forall i | 0 <= i < |t.claims| ensures LinkOk(c, t.claims, i) && ClaimOk(t, i) {
      assert LinkOk(c, s.claims, i) && ClaimOk(s, i);
    }
    forall k ensures BegunOk(t, k) { assert BegunOk(s, k); }
    forall k ensures ReaderOk(c, t, k) { assert ReaderOk(c, s, k); }
    forall k ensures HolderOk(c, t, k) { assert HolderOk(c, s, k); }
  }

  lemma ReadKeeps(c: Config, s: State, task: nat)
    requires Inv(c, s) && Enabled(c, s, Read(task))
    ensures Inv(c, Apply(c, s, Read(task)))
  {
    var t := Apply(c, s, Read(task));
    assert BegunOk(s, task);
    forall i | 0 <= i < |t.claims| ensures LinkOk(c, t.claims, i) && ClaimOk(t, i) {
      assert LinkOk(c, s.claims, i) && ClaimOk(s, i);
    }
    forall k ensures BegunOk(t, k) { assert BegunOk(s, k); }
    forall k ensures ReaderOk(c, t, k) { assert ReaderOk(c, s, k); }
    forall k ensures HolderOk(c, t, k) { assert HolderOk(c, s, k); }
  }

  lemma HoldKeeps(c: Config, s: State, task: nat, clock: nat, seen: nat)
    requires Inv(c, s) && task in s.clocks && s.clocks[task] == clock && task !in s.begun && task !in s.readers
    requires task !in s.holders
    requires seen + c.wait <= clock && seen + c.reapFloor <= clock
    requires s.made > 0 && s.made - 1 !in s.enqueued && (forall k | k in s.holders :: s.holders[k].serial < s.made - 1)
    requires s.claims != [] && Stands(s.claims[|s.claims| - 1], task, Holder(s.made - 1, clock, seen))
    ensures Inv(c, s.(holders := s.holders[task := Holder(s.made - 1, clock, seen)]))
  {
    var t := s.(holders := s.holders[task := Holder(s.made - 1, clock, seen)]);
    forall i | 0 <= i < |t.claims| ensures LinkOk(c, t.claims, i) && ClaimOk(t, i) {
      assert LinkOk(c, s.claims, i) && ClaimOk(s, i);
    }
    forall k ensures BegunOk(t, k) { assert BegunOk(s, k); }
    forall k ensures ReaderOk(c, t, k) { assert ReaderOk(c, s, k); }
    forall k ensures HolderOk(c, t, k) { assert HolderOk(c, s, k); }
  }

  lemma ReaperWins(c: Config, s: State, task: nat, clock: nat, seen: nat)
    requires Inv(c, s) && Free(s, task, clock) && s.stamp == Some(seen)
    requires seen + c.wait <= clock && seen + c.reapFloor <= clock
    ensures Inv(c, Claimed(s, task, clock).(holders := s.holders[task := Holder(s.made, clock, seen)]))
  {
    ClaimedKeeps(c, s, task, clock);
    forall k | k in s.holders ensures s.holders[k].serial < s.made { assert HolderOk(c, s, k); }
    HoldKeeps(c, Claimed(s, task, clock), task, clock, seen);
  }

  lemma ClaimRowKeeps(c: Config, s: State, task: nat)
    requires Inv(c, s) && task in s.readers
    ensures Inv(c, Apply(c, s, ClaimRow(task)))
  {
    var r := s.readers[task];
    var t := s.(readers := s.readers - {task});
    assert ReaderOk(c, s, task) && HolderOk(c, s, task) && BegunOk(s, task);
    SameHistory(c, s, t);
    if s.status == r.status && s.stamp == r.seen {
      if r.reaper && r.seen.Some? {
        ReaperWins(c, t, task, r.clock, r.seen.value);
      } else {
        SubmittedKeeps(c, t, task, r.clock);
      }
    }
  }

  lemma SendKeeps(c: Config, s: State, task: nat, ok: bool)
    requires Inv(c, s) && task in s.holders && (ok || !TakesOver(s, task))
    ensures Inv(c, Apply(c, s, Send(task, ok)))
  {
    var h := s.holders[task];
    var t := s.(holders := s.holders - {task});
    assert HolderOk(c, s, task);
    SameHistory(c, s, t);
    if ok {
      EnqueuedKeeps(c, t, h.serial);
    } else if t.stamp == Some(h.clock) {
      var i :| 0 <= i < |s.claims| && Stands(s.claims[i], task, h);
      WithdrawnKeeps(c, t, task, i, h.seen);
    }
  }

  /**
   A refused reaper, in any state the invariant allows: afterwards the row's stamp is still that of the
   last standing claim, and the invariant with it, if and only if the reaper did not take over another's.
   */
  lemma RestoreIsRightExactly(c: Config, s: State, task: nat)
    requires Inv(c, s) && task in s.holders
    ensures StampRight(Apply(c, s, Send(task, false))) <==> !TakesOver(s, task)
    ensures Inv(c, Apply(c, s, Send(task, false))) <==> !TakesOver(s, task)
  {
    if TakesOver(s, task) {
      var t := Apply(c, s, Send(task, false));
      assert HolderOk(c, s, task);
      var i :| 0 <= i < |s.claims| && Stands(s.claims[i], task, s.holders[task]);
      assert Place(s.claims, task) == i;
      assert t.claims[|t.claims| - 1] == s.claims[|s.claims| - 1];
    } else {
      SendKeeps(c, s, task, false);
    }
  }

  /** The row's stamp is that of the last claim still standing. */
  predicate StampRight(s: State) {
    s.stamp == if s.claims == [] then None else Some(s.claims[|s.claims| - 1].stamp)
  }

  lemma StepKeeps(c: Config, s: State, x: Step)
    requires Inv(c, s) && Enabled(c, s, x) && Orderly(s, x)
    ensures Inv(c, Apply(c, s, x))
  {
    match x
    case FirstSubmit(task) =>
      ClockKeeps(c, s, task);
      SubmittedKeeps(c, s.(clocks := s.clocks[task := s.now]), task, s.now);
    case Begin(task, reaper) =>
      ClockKeeps(c, s, task);
      BegunKeeps(c, s.(clocks := s.clocks[task := s.now]), task, if reaper then s.reapers + {task} else s.reapers);
    case Read(task) => ReadKeeps(c, s, task);
    case ClaimRow(task) => ClaimRowKeeps(c, s, task);
    case Send(task, ok) => SendKeeps(c, s, task, ok);
    case _ => SameHistory(c, s, Apply(c, s, x));
  }

  predicate Possible(c: Config, s: State, run: seq<Step>)
    decreases run
  {
    run == [] || (Enabled(c, s, run[0]) && Possible(c, Apply(c, s, run[0]), run[1..]))
  }

  predicate OrderlyRun(c: Config, s: State, run: seq<Step>)
    requires Possible(c, s, run)
    decreases run
  {
    run == [] || (Orderly(s, run[0]) && OrderlyRun(c, Apply(c, s, run[0]), run[1..]))
  }

  function After(c: Config, s: State, run: seq<Step>): State
    requires Possible(c, s, run)
    decreases run
  {
    if run == [] then s else After(c, Apply(c, s, run[0]), run[1..])
  }

  lemma {:induction false} RunKeeps(c: Config, s: State, run: seq<Step>)
    requires Inv(c, s) && Possible(c, s, run) && OrderlyRun(c, s, run)
    ensures Inv(c, After(c, s, run))
    decreases run
  {
    if run != [] {
      StepKeeps(c, s, run[0]);
      RunKeeps(c, Apply(c, s, run[0]), run[1..]);
    }
  }

  // --- Theorems ---

  /** Two claims in a row are a whole scan budget apart, unless a verdict came in between. */
  lemma ClaimsAreABudgetApart(c: Config, run: seq<Step>, i: nat)
    requires Possible(c, FRESH, run) && OrderlyRun(c, FRESH, run) && 0 < i < |After(c, FRESH, run).claims|
    ensures var claims := After(c, FRESH, run).claims;
            claims[i].stamp >= claims[i - 1].stamp + c.wait || claims[i].verdicts > claims[i - 1].verdicts
  {
    RunKeeps(c, FRESH, run);
    assert LinkOk(c, After(c, FRESH, run).claims, i);
  }

  /** Two claims on the same stamp: it was written twice, by two tasks that started at the very same instant. */
  lemma OneWinnerAStamp(c: Config, run: seq<Step>, i: nat, j: nat)
    requires Possible(c, FRESH, run) && OrderlyRun(c, FRESH, run)
    requires i < |After(c, FRESH, run).claims| && j < |After(c, FRESH, run).claims|
    requires After(c, FRESH, run).claims[i].seen == After(c, FRESH, run).claims[j].seen
    ensures var s := After(c, FRESH, run);
            || i == j
            || (0 < i && 0 < j && s.claims[i - 1].task != s.claims[j - 1].task
                && s.clocks.Keys >= {s.claims[i - 1].task, s.claims[j - 1].task}
                && s.clocks[s.claims[i - 1].task] == s.clocks[s.claims[j - 1].task])
  {
    RunKeeps(c, FRESH, run);
    var s := After(c, FRESH, run);
    assert LinkOk(c, s.claims, i) && LinkOk(c, s.claims, j);
    if i > 0 && j > 0 { assert ClaimOk(s, i - 1) && ClaimOk(s, j - 1); }
  }

  /** Every message the broker took belongs to one successful claim, which has no other. */
  lemma OneMessageAClaim(c: Config, run: seq<Step>, serial: nat)
    requires Possible(c, FRESH, run) && OrderlyRun(c, FRESH, run)
    ensures var s := After(c, FRESH, run);
            && s.enqueued[serial] <= 1
            && (serial in s.enqueued ==> serial < s.made && forall k | k in s.holders :: s.holders[k].serial != serial)
            && |s.claims| <= s.made
  {
    RunKeeps(c, FRESH, run);
    var s := After(c, FRESH, run);
    forall k | k in s.holders && s.holders[k].serial == serial ensures serial !in s.enqueued {
      assert HolderOk(c, s, k);
    }
    MadeCountsClaims(c, FRESH, run);
  }

  lemma {:induction false} MadeCountsClaims(c: Config, s: State, run: seq<Step>)
    requires Possible(c, s, run) && |s.claims| <= s.made
    ensures |After(c, s, run).claims| <= After(c, s, run).made
    decreases run
  {
    if run != [] { MadeCountsClaims(c, Apply(c, s, run[0]), run[1..]); }
  }

  /** The row's stamp is always that of the last claim still standing. */
  lemma StampIsTheLastClaim(c: Config, run: seq<Step>)
    requires Possible(c, FRESH, run) && OrderlyRun(c, FRESH, run)
    ensures var s := After(c, FRESH, run);
            s.stamp == if s.claims == [] then None else Some(s.claims[|s.claims| - 1].stamp)
  {
    RunKeeps(c, FRESH, run);
  }

  predicate NoFinalReaders(s: State) {
    forall k | k in s.readers :: s.readers[k].status != Final
  }

  /** A final verdict is final against callbacks, reapers and rescans, the disorderly ones included. */
  lemma {:induction false} FinalIsFinal(c: Config, s: State, run: seq<Step>)
    requires Possible(c, s, run) && NoFinalReaders(s) && s.status == Final
    ensures After(c, s, run).status == Final
    decreases run
  {
    if run != [] {
      FinalIsFinal(c, Apply(c, s, run[0]), run[1..]);
    }
  }

  // --- When a refused reaper takes over another's stamp ---

  /** A claim that goes through finds no reaper with its very clock waiting for the broker. */
  predicate Careful(s: State, x: Step) {
    x.ClaimRow? && x.task in s.readers && Wins(s, x.task) ==>
      forall k <- s.holders :: s.holders[k].clock != s.readers[x.task].clock
  }

  predicate Wins(s: State, task: nat)
    requires task in s.readers
  {
    s.status == s.readers[task].status && s.stamp == s.readers[task].seen
  }

  predicate CarefulRun(c: Config, s: State, run: seq<Step>)
    requires Possible(c, s, run)
    decreases run
  {
    run == [] || (Careful(s, run[0]) && CarefulRun(c, Apply(c, s, run[0]), run[1..]))
  }

  /** After a waiting reaper's claim, no claim carries its clock. */
  predicate AloneFrom(claims: seq<Claim>, task: nat) {
    forall i, j | 0 <= i < j < |claims| && claims[i].task == task :: claims[j].stamp != claims[i].stamp
  }

  ghost predicate Alone(s: State) {
    forall k | k in s.holders :: AloneFrom(s.claims, k)
  }

  lemma AloneTakesNothing(c: Config, s: State, task: nat)
    requires Inv(c, s) && Alone(s) && task in s.holders
    ensures !TakesOver(s, task)
  {
    assert HolderOk(c, s, task) && AloneFrom(s.claims, task);
    var i :| 0 <= i < |s.claims| && Stands(s.claims[i], task, s.holders[task]);
  }

  lemma ClaimedAlone(c: Config, s: State, task: nat, clock: nat)
    requires Inv(c, s) && Alone(s) && Unclaimed(s.claims, task)
    requires forall k | k in s.holders :: s.holders[k].clock != clock
    ensures forall k | k in s.holders || k == task :: AloneFrom(Claimed(s, task, clock).claims, k)
  {
    forall k | k in s.holders || k == task ensures AloneFrom(Claimed(s, task, clock).claims, k) {
      if k in s.holders {
        assert HolderOk(c, s, k) && AloneFrom(s.claims, k);
        var i :| 0 <= i < |s.claims| && Stands(s.claims[i], k, s.holders[k]);
      }
    }
  }

  lemma HoldersHaveClaims(c: Config, s: State)
    requires Inv(c, s)
    ensures forall k | k in s.holders :: s.claims != []
  {
    forall k | k in s.holders ensures s.claims != [] { assert HolderOk(c, s, k); }
  }

  lemma DroppedAlone(claims: seq<Claim>, d: nat, task: nat)
    requires AloneFrom(claims, task)
    ensures AloneFrom(Dropped(claims, d), task)
  {
    var t := Dropped(claims, d);
    forall i, j | 0 <= i < j < |t| && t[i].task == task ensures t[j].stamp != t[i].stamp {
      assert t[i] == claims[if i < d then i else i + 1] && t[j] == claims[if j < d then j else j + 1];
    }
  }

  lemma SendAlone(c: Config, s: State, task: nat, ok: bool)
    requires Inv(c, s) && Alone(s) && task in s.holders
    ensures !TakesOver(s, task) && Alone(Apply(c, s, Send(task, ok)))
  {
    var t := Apply(c, s, Send(task, ok));
    AloneTakesNothing(c, s, task);
    forall k | k in t.holders ensures AloneFrom(t.claims, k) {
      assert k in s.holders && AloneFrom(s.claims, k);
      DroppedAlone(s.claims, Place(s.claims, task), k);
    }
  }

  lemma ClaimRowAlone(c: Config, s: State, task: nat)
    requires Inv(c, s) && Alone(s) && task in s.readers && Careful(s, ClaimRow(task))
    ensures Alone(Apply(c, s, ClaimRow(task)))
  {
    assert ReaderOk(c, s, task);
    if Wins(s, task) { ClaimedAlone(c, s, task, s.readers[task].clock); }
    var t := Apply(c, s, ClaimRow(task));
    forall k | k in t.holders ensures AloneFrom(t.claims, k) {}
  }

  lemma StepAlone(c: Config, s: State, x: Step)
    requires Inv(c, s) && Alone(s) && Enabled(c, s, x) && Careful(s, x)
    ensures Orderly(s, x) && Alone(Apply(c, s, x))
  {
    match x
    case FirstSubmit(task) => HoldersHaveClaims(c, s);
    case ClaimRow(task) => ClaimRowAlone(c, s, task);
    case Send(task, ok) => SendAlone(c, s, task, ok);
    case _ =>
      var t := Apply(c, s, x);
      forall k | k in t.holders ensures AloneFrom(t.claims, k) { assert AloneFrom(s.claims, k); }
  }

  /** It takes a claim at the very clock of a reaper still waiting for the broker: runs without one are orderly. */
  lemma {:induction false} CarefulRunsAreOrderly(c: Config, s: State, run: seq<Step>)
    requires Inv(c, s) && Alone(s) && Possible(c, s, run) && CarefulRun(c, s, run)
    ensures OrderlyRun(c, s, run)
    decreases run
  {
    if run != [] {
      StepAlone(c, s, run[0]);
      StepKeeps(c, s, run[0]);
      CarefulRunsAreOrderly(c, Apply(c, s, run[0]), run[1..]);
    }
  }

  /** A tick of the reaper that gets its message out. */
  function ReaperTick(next: nat): seq<Step> {
    [Begin(next, true), Read(next), ClaimRow(next), Send(next, true)]
  }

  /** What can follow a take-over: the refusal, and at once a new reaper's tick. */
  function Aftermath(task: nat, next: nat): seq<Step> {
    [Send(task, false)] + ReaperTick(next)
  }

  /**
   The last two standing claims are less than a budget apart, with no verdict between them, and the last has its
   message.
   */
  predicate TooEarly(c: Config, s: State) {
    && |s.claims| >= 2 && s.made > 0 && s.made - 1 in s.enqueued
    && var x, y := s.claims[|s.claims| - 2], s.claims[|s.claims| - 1];
       y.stamp < x.stamp + c.wait && y.verdicts == x.verdicts
  }

  lemma Extends(c: Config, s: State, x: Step, rest: seq<Step>)
    requires Enabled(c, s, x) && Possible(c, Apply(c, s, x), rest)
    ensures Possible(c, s, [x] + rest) && After(c, s, [x] + rest) == After(c, Apply(c, s, x), rest)
  {
    assert ([x] + rest)[1..] == rest;
  }

  /** A reaper that starts now finds the row overdue, claims it and submits the scan. */
  lemma TickSubmits(c: Config, s: State, next: nat)
    requires s.status == Pending && s.stamp.Some? && s.stamp.value + c.wait <= s.now
    requires s.stamp.value + c.reapFloor <= s.now
    requires next !in s.clocks && next !in s.begun && next !in s.readers && next !in s.holders
    ensures Possible(c, s, ReaperTick(next))
    ensures var t := After(c, s, ReaperTick(next));
            && t.claims == s.claims + [Claim(next, s.now, s.stamp, s.verdicts)] && t.made == s.made + 1
            && t.enqueued == s.enqueued + multiset{s.made}
  {
    var s1 := Apply(c, s, Begin(next, true));
    var s2 := Apply(c, s1, Read(next));
    var s3 := Apply(c, s2, ClaimRow(next));
    Extends(c, s3, Send(next, true), []);
    Extends(c, s2, ClaimRow(next), [Send(next, true)]);
    Extends(c, s1, Read(next), [ClaimRow(next), Send(next, true)]);
    Extends(c, s, Begin(next, true), [Read(next), ClaimRow(next), Send(next, true)]);
    assert [Begin(next, true)] + [Read(next), ClaimRow(next), Send(next, true)] == ReaperTick(next);
  }

  /**
   What a refused reaper leaves that takes over another's stamp: that claim stands, under the stamp its own had
   replaced.
   */
  lemma TakenOver(c: Config, s: State, task: nat)
    requires Inv(c, s) && TakesOver(s, task)
    ensures var t := Apply(c, s, Send(task, false));
            && t.stamp == Some(s.holders[task].seen)
            && t.claims != [] && t.claims[|t.claims| - 1] == s.claims[|s.claims| - 1]
            && t == s.(holders := t.holders, stamp := t.stamp, claims := t.claims) && t.holders.Keys <= s.holders.Keys
  {
    assert HolderOk(c, s, task);
    var i :| 0 <= i < |s.claims| && Stands(s.claims[i], task, s.holders[task]);
    assert Place(s.claims, task) == i;
  }

  /**
   Whatever the state: once a refused reaper takes over the stamp of a scan that is still running
   within its budget, the next tick of the reaper submits that scan a second time.
   */
  lemma TakeOverBreaksTheBudget(c: Config, s: State, task: nat, next: nat)
    requires Inv(c, s) && TakesOver(s, task) && s.status == Pending && next !in s.clocks
    requires s.claims[|s.claims| - 1].verdicts == s.verdicts
    requires s.now < s.holders[task].clock + c.wait
    ensures Possible(c, s, Aftermath(task, next)) && TooEarly(c, After(c, s, Aftermath(task, next)))
  {
    var t := Apply(c, s, Send(task, false));
    TakenOver(c, s, task);
    assert HolderOk(c, s, task) && HolderOk(c, s, next) && BegunOk(s, next) && ReaderOk(c, s, next);
    TickSubmits(c, t, next);
    Extends(c, s, Send(task, false), ReaperTick(next));
  }

  // --- A run with a take-over ---

  const TEN_SECONDS := Config(10, 0)

  /** The row submitted at 0, and at 20 a reaper (1) that has read it and a rescan (2) just started. */
  const BOTH_STARTED :=
    State(20, Pending, Some(0), map[0 := 0, 1 := 20, 2 := 20], {1}, {2},
          map[1 := Reader(true, 20, Pending, Some(0))], map[],
          [Claim(0, 0, None, 0)], 1, multiset{0}, 0)

  lemma BothStart(rest: seq<Step>) returns (run: seq<Step>)
    requires Possible(TEN_SECONDS, BOTH_STARTED, rest)
    ensures Possible(TEN_SECONDS, FRESH, run)
    ensures After(TEN_SECONDS, FRESH, run) == After(TEN_SECONDS, BOTH_STARTED, rest)
  {
    var c := TEN_SECONDS;
    var s1 := Apply(c, FRESH, FirstSubmit(0));
    var s2 := Apply(c, s1, Tick(20));
    var s3 := Apply(c, s2, Begin(1, true));
    var s4 := Apply(c, s3, Begin(2, false));
    assert Apply(c, s4, Read(1)) == BOTH_STARTED;
    Extends(c, s4, Read(1), rest);
    run := [Read(1)] + rest;
    Extends(c, s3, Begin(2, false), run);
    run := [Begin(2, false)] + run;
    Extends(c, s2, Begin(1, true), run);
    run := [Begin(1, true)] + run;
    Extends(c, s1, Tick(20), run);
    run := [Tick(20)] + run;
    Extends(c, FRESH, FirstSubmit(0), run);
    run := [FirstSubmit(0)] + run;
  }

  /**
   The reaper has claimed at 20, and so has the rescan, after a transient verdict of the old job; a second has
   passed.
   */
  const BOTH_CLAIMED :=
    State(21, Pending, Some(20), map[0 := 0, 1 := 20, 2 := 20], {1}, {}, map[], map[1 := Holder(1, 20, 0)],
          [Claim(0, 0, None, 0), Claim(1, 20, Some(0), 0), Claim(2, 20, Some(20), 1)], 3, multiset{0, 2}, 1)

  lemma BothClaim(rest: seq<Step>) returns (run: seq<Step>)
    requires Possible(TEN_SECONDS, BOTH_CLAIMED, rest)
    ensures Possible(TEN_SECONDS, BOTH_STARTED, run)
    ensures After(TEN_SECONDS, BOTH_STARTED, run) == After(TEN_SECONDS, BOTH_CLAIMED, rest)
  {
    var c := TEN_SECONDS;
    var s6 := Apply(c, BOTH_STARTED, ClaimRow(1));
    var s7 := Apply(c, s6, Verdict(Transient));
    var s8 := Apply(c, s7, Read(2));
    var s9 := Apply(c, s8, ClaimRow(2));
    assert Apply(c, s9, Tick(1)) == BOTH_CLAIMED;
    Extends(c, s9, Tick(1), rest);
    run := [Tick(1)] + rest;
    Extends(c, s8, ClaimRow(2), run);
    run := [ClaimRow(2)] + run;
    Extends(c, s7, Read(2), run);
    run := [Read(2)] + run;
    Extends(c, s6, Verdict(Transient), run);
    run := [Verdict(Transient)] + run;
    Extends(c, BOTH_STARTED, ClaimRow(1), run);
    run := [ClaimRow(1)] + run;
  }

  lemma BothClaimedInv()
    ensures Inv(TEN_SECONDS, BOTH_CLAIMED) && TakesOver(BOTH_CLAIMED, 1)
  {
    var c, s := TEN_SECONDS, BOTH_CLAIMED;
    assert LinkOk(c, s.claims, 0) && LinkOk(c, s.claims, 1) && LinkOk(c, s.claims, 2);
    assert ClaimOk(s, 0) && ClaimOk(s, 1) && ClaimOk(s, 2);
    assert Stands(s.claims[1], 1, s.holders[1]);
  }

  /**
   A reaper and a rescan that start at the same instant: the broker refuses the reaper, whose restore takes
   the rescan's stamp for its own, and the next tick submits the file again a second after the rescan did.
   */
  lemma SameInstantSubmitsTwice() returns (run: seq<Step>)
    ensures Possible(TEN_SECONDS, FRESH, run)
    ensures var s := After(TEN_SECONDS, FRESH, run);
            && TooEarly(TEN_SECONDS, s) && s.enqueued == multiset{0, 2, 3}
            && s.claims == [Claim(0, 0, None, 0), Claim(2, 20, Some(20), 1), Claim(3, 21, Some(0), 1)]
  {
    BothClaimedInv();
    TakeOverBreaksTheBudget(TEN_SECONDS, BOTH_CLAIMED, 1, 3);
    AftermathOfBoth();
    var rest := BothClaim(Aftermath(1, 3));
    run := BothStart(rest);
  }

  lemma AftermathOfBoth()
    requires Possible(TEN_SECONDS, BOTH_CLAIMED, Aftermath(1, 3))
    ensures var s := After(TEN_SECONDS, BOTH_CLAIMED, Aftermath(1, 3));
            && s.enqueued == multiset{0, 2, 3}
            && s.claims == [Claim(0, 0, None, 0), Claim(2, 20, Some(20), 1), Claim(3, 21, Some(0), 1)]
  {
    var t := Apply(TEN_SECONDS, BOTH_CLAIMED, Send(1, false));
    assert Place(BOTH_CLAIMED.claims, 1) == 1;
    assert t.claims == [Claim(0, 0, None, 0), Claim(2, 20, Some(20), 1)];
    TickSubmits(TEN_SECONDS, t, 3);
    Extends(TEN_SECONDS, BOTH_CLAIMED, Send(1, false), ReaperTick(3));
  }
}
