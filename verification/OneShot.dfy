// Closing a transfer: the one-shot archive at the last first download, the expiry
// task and the manual button, with every download request cut into its steps.
module OneShot {
  import opened Bytes

  datatype Reason = Manual | Expired | FirstDownload

  /** active is the status the request fetched; Checking means its event is recorded and its archive check is ahead. */
  datatype Request = Fetched(file: nat, active: bool, owner: bool) | Checking(active: bool)

  datatype State = State(
    files: set<nat>, oneShot: bool,
    closed: Option<Reason>,                       // None while ACTIVE, the reason ever after
    downloaded: set<nat>,                         // file ids of the recorded downloads
    requests: map<nat, Request>,
    clicks: nat,                                  // manual requests that saw ACTIVE and have not acted yet
    unlogged: nat,                                // expiry runs that closed the row and have not logged it yet
    firstDownloadEvents: nat, expiryEvents: nat, manualEvents: nat,
    lostClicks: nat)

  function Fresh(files: set<nat>, oneShot: bool): State {
    State(files, oneShot, None, {}, map[], 0, 0, 0, 0, 0, 0)
  }

  datatype Step =
    | Fetch(request: nat, file: nat, owner: bool, resume: bool)
    | Record(request: nat)
    | Check(request: nat)
    | Dies(request: nat)
    | ExpiryCloses
    | ExpiryLogs
    | Click
    | ClickActs

  predicate Enabled(s: State, x: Step) {
    match x
    case Fetch(r, f, _, resume) =>
      && r !in s.requests && f in s.files
      && (s.closed == None || (resume && s.closed == Some(FirstDownload)))
    case Record(r) => r in s.requests && s.requests[r].Fetched?
    case Check(r) => r in s.requests && s.requests[r].Checking?
    case Dies(r) => r in s.requests
    case ExpiryCloses => true
    case ExpiryLogs => s.unlogged > 0
    case Click => s.closed == None
    case ClickActs => s.clicks > 0
  }

  /** _all_files_downloaded_once: it compares counts, not sets. */
  predicate AllDownloadedOnce(s: State) {
    s.files != {} && |s.downloaded| >= |s.files|
  }

  function Apply(s: State, x: Step): State
    requires Enabled(s, x)
  {
    match x
    case Fetch(r, f, owner, _) => s.(requests := s.requests[r := Fetched(f, s.closed == None, owner)])
    case Record(r) =>
      var q := s.requests[r];
      s.(requests := s.requests[r := Checking(q.active)],
         downloaded := if q.owner then s.downloaded else s.downloaded + {q.file})
    case Check(r) =>
      var t := s.(requests := s.requests - {r});
      if s.oneShot && s.requests[r].active && s.closed == None && AllDownloadedOnce(s)
      then t.(closed := Some(FirstDownload), firstDownloadEvents := s.firstDownloadEvents + 1)
      else t
    case Dies(r) => s.(requests := s.requests - {r})
    case ExpiryCloses => if s.closed == None then s.(closed := Some(Expired), unlogged := s.unlogged + 1) else s
    case ExpiryLogs => s.(unlogged := s.unlogged - 1, expiryEvents := s.expiryEvents + 1)
    case Click => s.(clicks := s.clicks + 1)
    case ClickActs =>
      var t := s.(clicks := s.clicks - 1, manualEvents := s.manualEvents + 1);
      if s.closed == None then t.(closed := Some(Manual)) else t.(lostClicks := s.lostClicks + 1)
  }

  function Indicator(b: bool): nat {
    if b then 1 else 0
  }

  predicate EventsOk(s: State) {
    && s.firstDownloadEvents == Indicator(s.closed == Some(FirstDownload))
    && s.expiryEvents + s.unlogged == Indicator(s.closed == Some(Expired))
    && s.manualEvents == Indicator(s.closed == Some(Manual)) + s.lostClicks
  }

  predicate FilesOk(s: State) {
    && s.downloaded <= s.files
    && (forall r | r in s.requests && s.requests[r].Fetched? :: s.requests[r].file in s.files)
    && (forall r | r in s.requests :: s.closed == None ==> s.requests[r].active)
    && (s.closed == Some(FirstDownload) ==> s.oneShot && s.files != {} && s.downloaded == s.files)
  }

  ghost predicate Inv(s: State) {
    EventsOk(s) && FilesOk(s)
  }

  /** As many distinct ids as files, and no other ids: they are the files. */
  lemma {:induction false} AsManyIsAll(a: set<nat>, b: set<nat>)
    requires a <= b && |a| >= |b|
    ensures a == b
    decreases a
  {
    if a == {} {
    } else {
      var x :| x in a;
      AsManyIsAll(a - {x}, b - {x});
      assert a == (a - {x}) + {x};
    }
  }

  lemma FilesKept(s: State, x: Step)
    requires FilesOk(s) && Enabled(s, x)
    ensures FilesOk(Apply(s, x))
  {
    if x.Check? && AllDownloadedOnce(s) { AsManyIsAll(s.downloaded, s.files); }
  }

  lemma EventsKept(s: State, x: Step)
    requires EventsOk(s) && Enabled(s, x)
    ensures EventsOk(Apply(s, x))
  {}

  lemma StepKeeps(s: State, x: Step)
    requires Inv(s) && Enabled(s, x)
    ensures Inv(Apply(s, x))
  {
    FilesKept(s, x);
    EventsKept(s, x);
  }

  predicate Possible(s: State, run: seq<Step>)
    decreases run
  {
    run == [] || (Enabled(s, run[0]) && Possible(Apply(s, run[0]), run[1..]))
  }

  function After(s: State, run: seq<Step>): State
    requires Possible(s, run)
    decreases run
  {
    if run == [] then s else After(Apply(s, run[0]), run[1..])
  }

  lemma {:induction false} RunKeeps(s: State, run: seq<Step>)
    requires Inv(s) && Possible(s, run)
    ensures Inv(After(s, run)) && After(s, run).files == s.files && After(s, run).oneShot == s.oneShot
    decreases run
  {
    if run != [] {
      StepKeeps(s, run[0]);
      RunKeeps(Apply(s, run[0]), run[1..]);
    }
  }

  // --- Theorems ---

  lemma ArchivedMeansAllDownloaded(files: set<nat>, oneShot: bool, run: seq<Step>)
    requires Possible(Fresh(files, oneShot), run) && After(Fresh(files, oneShot), run).closed == Some(FirstDownload)
    ensures oneShot && files != {} && After(Fresh(files, oneShot), run).downloaded == files
  {
    RunKeeps(Fresh(files, oneShot), run);
  }

  /** Every file has a recorded download. */
  predicate Full(s: State) {
    s.files != {} && s.downloaded == s.files
  }

  /** A step that closes the link if it finds it up. */
  predicate Closes(s: State, x: Step)
    requires Enabled(s, x)
  {
    x.ExpiryCloses? || x.ClickActs? || (x.Check? && s.oneShot && s.requests[x.request].active && Full(s))
  }

  /** The source compares counts: where only files of the transfer are recorded, that is the same. */
  lemma CountsTell(s: State)
    requires FilesOk(s)
    ensures AllDownloadedOnce(s) <==> Full(s)
  {
    if AllDownloadedOnce(s) { AsManyIsAll(s.downloaded, s.files); }
  }

  predicate NoneCloses(s: State, run: seq<Step>)
    requires Possible(s, run)
    decreases run
  {
    run == [] || (!Closes(s, run[0]) && NoneCloses(Apply(s, run[0]), run[1..]))
  }

  /** A link is up exactly if it was and no step closed it: nothing else closes one, and nothing reopens it. */
  lemma {:induction false} ClosedExactly(s: State, run: seq<Step>)
    requires Inv(s) && Possible(s, run)
    ensures After(s, run).closed.None? <==> s.closed.None? && NoneCloses(s, run)
    decreases run
  {
    if run != [] {
      CountsTell(s);
      StepKeeps(s, run[0]);
      ClosedExactly(Apply(s, run[0]), run[1..]);
    }
  }

  /** The downloads recorded in a run, those of the transfer's owner aside. */
  function RecordedIn(s: State, run: seq<Step>): set<nat>
    requires Possible(s, run)
    decreases run
  {
    if run == [] then {} else RecordedBy(s, run[0]) + RecordedIn(Apply(s, run[0]), run[1..])
  }

  function RecordedBy(s: State, x: Step): set<nat>
    requires Enabled(s, x)
  {
    if x.Record? && !s.requests[x.request].owner then {s.requests[x.request].file} else {}
  }

  lemma StepRecords(s: State, x: Step)
    requires Enabled(s, x)
    ensures Apply(s, x).downloaded == s.downloaded + RecordedBy(s, x)
  {}

  lemma {:induction false} DownloadedIsRecorded(s: State, run: seq<Step>)
    requires Possible(s, run)
    ensures After(s, run).downloaded == s.downloaded + RecordedIn(s, run)
    decreases run
  {
    if run != [] {
      StepRecords(s, run[0]);
      DownloadedIsRecorded(Apply(s, run[0]), run[1..]);
    }
  }

  /** A request leaves its archive check, one way or the other, with every file recorded. */
  predicate Departs(s: State, x: Step)
    requires Enabled(s, x)
  {
    (x.Check? || (x.Dies? && s.requests[x.request].Checking?)) && Full(s)
  }

  function Departures(s: State, run: seq<Step>): nat
    requires Possible(s, run)
    decreases run
  {
    if run == [] then 0 else Indicator(Departs(s, run[0])) + Departures(Apply(s, run[0]), run[1..])
  }

  /** The departures by which the request died before it could check. */
  function Deaths(s: State, run: seq<Step>): nat
    requires Possible(s, run)
    decreases run
  {
    if run == [] then 0 else Indicator(run[0].Dies? && Departs(s, run[0])) + Deaths(Apply(s, run[0]), run[1..])
  }

  predicate Acted(run: seq<Step>) {
    exists i | 0 <= i < |run| :: run[i].ExpiryCloses? || run[i].ClickActs?
  }

  /**
   A one-shot link is up exactly if neither expiry nor a click has acted, and every request that
   reached its check with all the files recorded died there.
   */
  lemma OneShotIsUpExactly(files: set<nat>, run: seq<Step>)
    requires Possible(Fresh(files, true), run)
    ensures var s := Fresh(files, true);
            After(s, run).closed.None? <==> !Acted(run) && Deaths(s, run) == Departures(s, run)
  {
    UpExactly(Fresh(files, true), run);
  }

  lemma {:induction false} UpExactly(s: State, run: seq<Step>)
    requires Inv(s) && s.oneShot && Possible(s, run)
    ensures Deaths(s, run) <= Departures(s, run)
    ensures After(s, run).closed.None? <==> s.closed.None? && !Acted(run) && Deaths(s, run) == Departures(s, run)
    decreases run
  {
    if run == [] {
    } else {
      var t := Apply(s, run[0]);
      CountsTell(s);
      StepKeeps(s, run[0]);
      UpExactly(t, run[1..]);
      assert Acted(run) <==> run[0].ExpiryCloses? || run[0].ClickActs? || Acted(run[1..]) by {
        if i :| 0 <= i < |run| && (run[i].ExpiryCloses? || run[i].ClickActs?) {
          assert i == 0 || run[1..][i - 1] == run[i];
        }
        if i :| 0 <= i < |run[1..]| && (run[1..][i].ExpiryCloses? || run[1..][i].ClickActs?) {
          assert run[i + 1] == run[1..][i];
        }
      }
    }
  }

  /**
   Once every file is recorded and no request is left, at least one has been through its check:
   so the link is down unless that one, and every other, died there.
   */
  lemma QuietOneShotHadItsCheck(files: set<nat>, run: seq<Step>)
    requires Possible(Fresh(files, true), run) && files != {}
    requires var s := After(Fresh(files, true), run); s.downloaded == files && s.requests == map[]
    ensures var s := Fresh(files, true);
            && Departures(s, run) > 0
            && (After(s, run).closed.None? ==> Deaths(s, run) > 0)
  {
    OneShotIsUpExactly(files, run);
    RunKeeps(Fresh(files, true), run);
    SomeoneDeparts(Fresh(files, true), run);
  }

  lemma {:induction false} SomeoneDeparts(s: State, run: seq<Step>)
    requires Possible(s, run) && (Full(s) ==> exists r :: r in s.requests && s.requests[r].Checking?)
    requires Full(After(s, run)) && After(s, run).requests == map[]
    ensures Departures(s, run) > 0
    decreases run
  {
    if run == [] {
    } else if !Departs(s, run[0]) {
      var t := Apply(s, run[0]);
      if Full(t) {
        if Full(s) {
          var r :| r in s.requests && s.requests[r].Checking?;
          assert r in t.requests && t.requests[r].Checking?;
        } else {
          assert run[0].Record? && t.requests[run[0].request].Checking?;
        }
      }
      SomeoneDeparts(t, run[1..]);
    }
  }

  /**
   A run that leaves the link up: the request that records the last file dies before its check, and the link
   stays up.
   */
  lemma DeadRequestLeavesTheLinkUp()
    ensures var run := [Fetch(0, 7, false, false), Record(0), Dies(0)];
            && Possible(Fresh({7}, true), run)
            && var s := After(Fresh({7}, true), run);
               s.downloaded == {7} && s.requests == map[] && s.closed == None
  {
    var s := Fresh({7}, true);
    var run := [Fetch(0, 7, false, false), Record(0), Dies(0)];
    var s1 := Apply(s, run[0]);
    var s2 := Apply(s1, run[1]);
    var s3 := Apply(s2, run[2]);
    assert run[1..] == [Record(0), Dies(0)];
    assert run[1..][1..] == [Dies(0)];
    assert run[1..][1..][1..] == [];
    assert Possible(s2, [Dies(0)]) && After(s2, [Dies(0)]) == s3;
    assert Possible(s1, [Record(0), Dies(0)]) && After(s1, [Record(0), Dies(0)]) == s3;
  }

  /**
   A closed link has exactly one event from the automatic feeds or the button, and one more for each click that
   came too late.
   */
  lemma OneDeactivationEvent(files: set<nat>, oneShot: bool, run: seq<Step>)
    requires Possible(Fresh(files, oneShot), run)
    ensures var s := After(Fresh(files, oneShot), run);
            && s.firstDownloadEvents + s.expiryEvents + s.unlogged + s.manualEvents
               == Indicator(s.closed.Some?) + s.lostClicks
            && s.firstDownloadEvents == Indicator(s.closed == Some(FirstDownload))
            && s.expiryEvents + s.unlogged == Indicator(s.closed == Some(Expired))
  {
    RunKeeps(Fresh(files, oneShot), run);
    match After(Fresh(files, oneShot), run).closed
    case None =>
    case Some(Manual) =>
    case Some(Expired) =>
    case Some(FirstDownload) =>
  }

  function Clicks(run: seq<Step>): nat {
    if run == [] then 0 else Indicator(run[0].ClickActs?) + Clicks(run[1..])
  }

  function LateClicks(s: State, run: seq<Step>): nat
    requires Possible(s, run)
    decreases run
  {
    if run == [] then 0
    else Indicator(run[0].ClickActs? && s.closed.Some?) + LateClicks(Apply(s, run[0]), run[1..])
  }

  /**
   Every click that acts is logged as a deactivation, those included that found the row closed;
   at most one of them closed it.
   */
  lemma EveryClickIsLogged(files: set<nat>, oneShot: bool, run: seq<Step>)
    requires Possible(Fresh(files, oneShot), run)
    ensures var s := Fresh(files, oneShot);
            && After(s, run).manualEvents == Clicks(run)
            && After(s, run).lostClicks == LateClicks(s, run)
            && Clicks(run) == LateClicks(s, run) + Indicator(After(s, run).closed == Some(Manual))
  {
    RunKeeps(Fresh(files, oneShot), run);
    ClicksCounted(Fresh(files, oneShot), run);
  }

  lemma {:induction false} ClicksCounted(s: State, run: seq<Step>)
    requires Possible(s, run)
    ensures After(s, run).manualEvents == s.manualEvents + Clicks(run)
    ensures After(s, run).lostClicks == s.lostClicks + LateClicks(s, run)
    decreases run
  {
    if run != [] { ClicksCounted(Apply(s, run[0]), run[1..]); }
  }

  /** After the button or the expiry task, no request begins any more; after a first download, only resumes do. */
  lemma {:induction false} NoRequestBegins(s: State, run: seq<Step>)
    requires Possible(s, run) && (s.closed == Some(Manual) || s.closed == Some(Expired))
    ensures After(s, run).requests.Keys <= s.requests.Keys && After(s, run).closed == s.closed
    decreases run
  {
    if run != [] { NoRequestBegins(Apply(s, run[0]), run[1..]); }
  }
}
