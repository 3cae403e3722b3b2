// The download receipt of one recipient: download requests that arm it, delayed and
// immediate tasks that claim it, failures that release it, workers that die.
module DownloadReceipts {
  import opened Bytes

  /** A queued task: the delayed or the immediate one, and how often it was retried. */
  datatype Task = Task(delayed: bool, retries: nat)

  const MAX_RETRIES := 3

  /**
   A download request: notified is what the recipient row said when it was resolved; taken the files it later
   counted.
   */
  datatype Request = Resolved(notified: bool) | Recorded(notified: bool) | Counted(taken: nat)

  datatype State = State(
    fileCount: nat, downloaded: set<nat>,
    notified: bool, armed: bool,                  // download_notified_at, delayed_receipt_armed_at
    requests: map<nat, Request>, queue: multiset<Task>,
    sending: map<nat, Task>,                      // claimed, email not yet sent
    sent: nat, died: nat, exhausted: nat,
    asked: bool,                                  // some request got as far as asking for a receipt
    issued: set<Task>)                            // every message the broker was ever handed

  function Fresh(fileCount: nat): State {
    State(fileCount, {}, false, false, map[], multiset{}, map[], 0, 0, 0, false, {})
  }

  datatype Step =
    | Resolve(request: nat)
    | Record(request: nat, file: nat)
    | Count(request: nat)
    | Queue(request: nat)
    | Claim(task: Task, worker: nat)
    | SendOk(worker: nat)
    | SendFails(worker: nat)
    | Dies(worker: nat)
    | Redeliver(task: Task)

  predicate Enabled(s: State, x: Step) {
    match x
    case Resolve(r) => r !in s.requests
    case Record(r, _) => r in s.requests && s.requests[r].Resolved?
    case Count(r) => r in s.requests && s.requests[r].Recorded?
    case Queue(r) => r in s.requests && s.requests[r].Counted?
    case Claim(task, worker) => task in s.queue && worker !in s.sending
    case SendOk(worker) => worker in s.sending
    case SendFails(worker) => worker in s.sending
    case Dies(worker) => worker in s.sending
    case Redeliver(task) => task in s.issued
  }

  function Queued(s: State, task: Task): State {
    s.(queue := s.queue + multiset{task}, issued := s.issued + {task})
  }

  function Apply(s: State, x: Step): State
    requires Enabled(s, x)
  {
    match x
    case Resolve(r) => s.(requests := s.requests[r := Resolved(s.notified)])
    case Record(r, f) => s.(requests := s.requests[r := Recorded(s.requests[r].notified)],
                            downloaded := s.downloaded + {f})
    case Count(r) =>
      if s.requests[r].notified || s.fileCount == 0 then s.(requests := s.requests - {r})
      else s.(requests := s.requests[r := Counted(|s.downloaded|)])
    case Queue(r) =>
      var t := s.(requests := s.requests - {r}, asked := true);
      if s.requests[r].taken >= s.fileCount then Queued(t, Task(false, 0))
      else if s.armed then t
      else Queued(t.(armed := true), Task(true, 0))
    case Claim(task, worker) =>
      var t := s.(queue := s.queue - multiset{task});
      if s.notified then t else t.(notified := true, sending := s.sending[worker := task])
    case SendOk(worker) => s.(sending := s.sending - {worker}, sent := s.sent + 1)
    case SendFails(worker) =>
      var task := s.sending[worker];
      var t := s.(sending := s.sending - {worker}, notified := false, armed := false);
      if task.retries < MAX_RETRIES then Queued(t, task.(retries := task.retries + 1))
      else t.(exhausted := s.exhausted + 1)
    case Dies(worker) => s.(sending := s.sending - {worker}, died := s.died + 1)
    case Redeliver(task) => s.(queue := s.queue + multiset{task})
  }

  predicate DelayedQueued(s: State) {
    exists task | task in s.queue :: task.delayed
  }

  /** The stamp is on exactly while one run holds it, or for good once one sent the email or died with it. */
  predicate ClaimOk(s: State) {
    |s.sending| + s.sent + s.died == if s.notified then 1 else 0
  }

  predicate ArmedOk(s: State) {
    s.armed ==> s.notified || DelayedQueued(s)
  }

  /** A receipt asked for is under way, or settled, or out of retries. */
  predicate AskedOk(s: State) {
    s.asked ==> s.notified || s.queue != multiset{} || s.exhausted > 0
  }

  predicate Inv(s: State) {
    ClaimOk(s) && ArmedOk(s) && AskedOk(s)
  }

  lemma ClaimKept(s: State, x: Step)
    requires ClaimOk(s) && Enabled(s, x)
    ensures ClaimOk(Apply(s, x))
  {
    match x
    case SendOk(worker) => Removed(s.sending, worker);
    case SendFails(worker) => Removed(s.sending, worker);
    case Dies(worker) => Removed(s.sending, worker);
    case _ =>
  }

  lemma QueueGrows(s: State, t: State)
    requires s.queue <= t.queue
    ensures DelayedQueued(s) ==> DelayedQueued(t)
    ensures s.queue != multiset{} ==> t.queue != multiset{}
  {
    if DelayedQueued(s) { var task :| task in s.queue && task.delayed; assert task in t.queue; }
    if s.queue != multiset{} { var task :| task in s.queue; assert task in t.queue; }
  }

  lemma ArmedKept(s: State, x: Step)
    requires ClaimOk(s) && ArmedOk(s) && Enabled(s, x)
    ensures ArmedOk(Apply(s, x))
  {
    var t := Apply(s, x);
    if x.Claim? {
      assert t.notified;
    } else {
      QueueGrows(s, t);
      if x.Queue? && !s.armed && t.armed { assert Task(true, 0) in t.queue; }
    }
  }

  lemma AskedKept(s: State, x: Step)
    requires ClaimOk(s) && ArmedOk(s) && AskedOk(s) && Enabled(s, x)
    ensures AskedOk(Apply(s, x))
  {
    var t := Apply(s, x);
    if x.Claim? {
      assert t.notified;
    } else {
      QueueGrows(s, t);
    }
  }

  lemma StepKeeps(s: State, x: Step)
    requires Inv(s) && Enabled(s, x)
    ensures Inv(Apply(s, x))
  {
    ClaimKept(s, x);
    ArmedKept(s, x);
    AskedKept(s, x);
  }

  lemma Removed(m: map<nat, Task>, k: nat)
    requires k in m
    ensures |m - {k}| == |m| - 1
  {
    assert m == (m - {k})[k := m[k]];
  }

  predicate Possible(s: State, run: seq<Step>)
    decreases run
  {
    run == [] || (Enabled(s, run[0]) && Possible(Apply(s, run[0]), run[1..]))
  }

  function After(s: State, run: seq<Step>): State
    requires Possible(s, run)
    decreases run
  {
    if run == [] then s else After(Apply(s, run[0]), run[1..])
  }

  lemma {:induction false} RunKeeps(s: State, run: seq<Step>)
    requires Inv(s) && Possible(s, run)
    ensures Inv(After(s, run))
    decreases run
  {
    if run != [] {
      StepKeeps(s, run[0]);
      RunKeeps(Apply(s, run[0]), run[1..]);
    }
  }

  lemma OneReceiptARecipient(fileCount: nat, run: seq<Step>)
    requires Possible(Fresh(fileCount), run)
    ensures After(Fresh(fileCount), run).sent <= 1
  {
    RunKeeps(Fresh(fileCount), run);
  }

  lemma ArmedMeansADelayedTask(fileCount: nat, run: seq<Step>)
    requires Possible(Fresh(fileCount), run)
    ensures var s := After(Fresh(fileCount), run); s.armed ==> s.notified || DelayedQueued(s)
  {
    RunKeeps(Fresh(fileCount), run);
  }

  lemma NoReceiptIsForgotten(fileCount: nat, run: seq<Step>)
    requires Possible(Fresh(fileCount), run)
    ensures var s := After(Fresh(fileCount), run);
            s.asked ==> |s.sending| + s.sent + s.died == 1 || s.queue != multiset{} || s.exhausted > 0
  {
    RunKeeps(Fresh(fileCount), run);
  }

  // --- Which of the two tasks is used ---

  /** The files of the downloads recorded in a run. */
  function FilesOf(run: seq<Step>): set<nat> {
    if run == [] then {} else FileOf(run[0]) + FilesOf(run[1..])
  }

  function FileOf(x: Step): set<nat> {
    if x.Record? then {x.file} else {}
  }

  lemma StepRecords(s: State, x: Step)
    requires Enabled(s, x)
    ensures Apply(s, x).downloaded == s.downloaded + FileOf(x) && Apply(s, x).fileCount == s.fileCount
  {
    assert s.downloaded + {} == s.downloaded;
    match x
    case Record(_, file) => assert FileOf(x) == {file};
    case SendFails(_) =>
    case _ =>
  }

  lemma {:induction false} RecordedFiles(s: State, run: seq<Step>)
    requires Possible(s, run)
    ensures After(s, run).downloaded == s.downloaded + FilesOf(run) && After(s, run).fileCount == s.fileCount
    decreases run
  {
    if run != [] {
      StepRecords(s, run[0]);
      RecordedFiles(Apply(s, run[0]), run[1..]);
    }
  }

  predicate MessagesIssued(s: State) {
    && (forall task | task in s.queue :: task in s.issued)
    && (forall worker | worker in s.sending :: s.sending[worker] in s.issued)
  }

  /** A request counts what was recorded by then, and an immediate task means that was everything. */
  predicate CountOk(s: State) {
    && (forall r | r in s.requests && s.requests[r].Counted? :: s.requests[r].taken <= |s.downloaded|)
    && (forall task | task in s.issued && !task.delayed :: |s.downloaded| >= s.fileCount)
  }

  lemma MoreRecorded(downloaded: set<nat>, f: nat)
    ensures |downloaded| <= |downloaded + {f}|
  {
    if f in downloaded { assert downloaded + {f} == downloaded; }
  }

  lemma QueuedKeeps(s: State, task: Task)
    requires MessagesIssued(s) && CountOk(s) && (task.delayed || |s.downloaded| >= s.fileCount)
    ensures MessagesIssued(Queued(s, task)) && CountOk(Queued(s, task))
  {}

  lemma RecordKeeps(s: State, r: nat, f: nat)
    requires MessagesIssued(s) && CountOk(s) && Enabled(s, Record(r, f))
    ensures MessagesIssued(Apply(s, Record(r, f))) && CountOk(Apply(s, Record(r, f)))
  {
    MoreRecorded(s.downloaded, f);
  }

  lemma QueueKeeps(s: State, r: nat)
    requires MessagesIssued(s) && CountOk(s) && Enabled(s, Queue(r))
    ensures MessagesIssued(Apply(s, Queue(r))) && CountOk(Apply(s, Queue(r)))
  {
    var t := s.(requests := s.requests - {r}, asked := true);
    assert s.requests[r].taken <= |s.downloaded|;
    assert MessagesIssued(t) && CountOk(t);
    if s.requests[r].taken >= s.fileCount {
      QueuedKeeps(t, Task(false, 0));
    } else if !s.armed {
      QueuedKeeps(t.(armed := true), Task(true, 0));
    }
  }

  lemma FailureKeeps(s: State, worker: nat)
    requires MessagesIssued(s) && CountOk(s) && Enabled(s, SendFails(worker))
    ensures MessagesIssued(Apply(s, SendFails(worker))) && CountOk(Apply(s, SendFails(worker)))
  {
    var task := s.sending[worker];
    var t := s.(sending := s.sending - {worker}, notified := false, armed := false);
    assert task in s.issued;
    assert MessagesIssued(t) && CountOk(t);
    if task.retries < MAX_RETRIES { QueuedKeeps(t, task.(retries := task.retries + 1)); }
  }

  lemma ClaimKeeps(s: State, task: Task, worker: nat)
    requires MessagesIssued(s) && CountOk(s) && Enabled(s, Claim(task, worker))
    ensures MessagesIssued(Apply(s, Claim(task, worker))) && CountOk(Apply(s, Claim(task, worker)))
  {
    assert forall other | other in s.queue - multiset{task} :: other in s.queue;
  }

  lemma StepCounts(s: State, x: Step)
    requires Enabled(s, x) && MessagesIssued(s) && CountOk(s)
    ensures MessagesIssued(Apply(s, x)) && CountOk(Apply(s, x))
  {
    match x
    case Record(r, f) => RecordKeeps(s, r, f);
    case Queue(r) => QueueKeeps(s, r);
    case SendFails(worker) => FailureKeeps(s, worker);
    case Claim(task, worker) => ClaimKeeps(s, task, worker);
    case Redeliver(task) => assert task in s.issued;
    case _ =>
  }

  lemma {:induction false} RunCounts(s: State, run: seq<Step>)
    requires Possible(s, run) && MessagesIssued(s) && CountOk(s)
    ensures MessagesIssued(After(s, run)) && CountOk(After(s, run))
    decreases run
  {
    if run != [] {
      StepCounts(s, run[0]);
      RunCounts(Apply(s, run[0]), run[1..]);
    }
  }

  /** No immediate task before every file has been taken, whether queued, retried, redelivered or being sent. */
  lemma ImmediateMeansAll(fileCount: nat, run: seq<Step>, task: Task)
    requires Possible(Fresh(fileCount), run) && |FilesOf(run)| < fileCount
    ensures var s := After(Fresh(fileCount), run);
            && (task in s.queue ==> task.delayed)
            && (forall worker | worker in s.sending :: s.sending[worker].delayed)
  {
    RunCounts(Fresh(fileCount), run);
    RecordedFiles(Fresh(fileCount), run);
  }

  lemma {:induction false} CountedStays(s: State, run: seq<Step>, r: nat)
    requires Possible(s, run) && Queue(r) !in run && r in s.requests && s.requests[r].Counted?
    ensures r in After(s, run).requests && After(s, run).requests[r] == s.requests[r]
    decreases run
  {
    if run != [] { CountedStays(Apply(s, run[0]), run[1..], r); }
  }

  /**
   A download request that counts its recipient's files and, whatever happens in between, queues its receipt: the
   one that found all files taken queues the immediate task and arms nothing; one that found fewer queues the
   delayed task if and only if none was armed by then.
   */
  lemma TheLastFileMailsAtOnce(fileCount: nat, run: seq<Step>, r: nat, between: seq<Step>)
    requires Possible(Fresh(fileCount), run) && fileCount > 0
    requires var s := After(Fresh(fileCount), run);
             && r in s.requests && s.requests[r] == Recorded(false)
             && Possible(Apply(s, Count(r)), between) && Queue(r) !in between
    ensures var u := After(Apply(After(Fresh(fileCount), run), Count(r)), between);
            && Enabled(u, Queue(r))
            && var v := Apply(u, Queue(r));
               if |FilesOf(run)| >= fileCount
               then v.queue == u.queue + multiset{Task(false, 0)} && v.armed == u.armed
               else v.armed && v.queue == if u.armed then u.queue else u.queue + multiset{Task(true, 0)}
  {
    var s := After(Fresh(fileCount), run);
    RecordedFiles(Fresh(fileCount), run);
    RecordedFiles(Apply(s, Count(r)), between);
    CountedStays(Apply(s, Count(r)), between, r);
  }

  lemma {:induction false} ResolvedStays(s: State, run: seq<Step>, r: nat)
    requires Possible(s, run) && Count(r) !in run && r in s.requests && !s.requests[r].Counted?
    ensures var u := After(s, run);
            r in u.requests && !u.requests[r].Counted? && u.requests[r].notified == s.requests[r].notified
    decreases run
  {
    if run != [] { ResolvedStays(Apply(s, run[0]), run[1..], r); }
  }

  /**
   A request that resolves a recipient already notified records its download and asks for nothing, whatever happens
   between: not even if the notification is taken back by then.
   */
  lemma LateRequestsAskForNothing(fileCount: nat, run: seq<Step>, r: nat, between: seq<Step>)
    requires Possible(Fresh(fileCount), run) && Enabled(After(Fresh(fileCount), run), Resolve(r))
    requires After(Fresh(fileCount), run).notified
    requires Possible(Apply(After(Fresh(fileCount), run), Resolve(r)), between) && Count(r) !in between
    requires Enabled(After(Apply(After(Fresh(fileCount), run), Resolve(r)), between), Count(r))
    ensures var u := After(Apply(After(Fresh(fileCount), run), Resolve(r)), between);
            Apply(u, Count(r)) == u.(requests := u.requests - {r})
  {
    ResolvedStays(Apply(After(Fresh(fileCount), run), Resolve(r)), between, r);
  }

  // --- How often a failed send is retried ---

  function Failures(run: seq<Step>): nat {
    if run == [] then 0 else Failure(run[0]) + Failures(run[1..])
  }

  function Failure(x: Step): nat {
    if x.SendFails? then 1 else 0
  }

  predicate RetriesOk(s: State, failures: nat) {
    && MessagesIssued(s) && CountOk(s)
    && (forall task | task in s.issued :: task.retries <= 3 && task.retries <= failures)
    && (s.exhausted > 0 ==> failures >= 4)
  }

  lemma StepRetries(s: State, failures: nat, x: Step)
    requires Enabled(s, x) && RetriesOk(s, failures)
    ensures RetriesOk(Apply(s, x), failures + Failure(x))
  {
    StepCounts(s, x);
    if x.SendFails? { assert s.sending[x.worker] in s.issued; }
  }

  lemma {:induction false} RunRetries(s: State, failures: nat, run: seq<Step>)
    requires Possible(s, run) && RetriesOk(s, failures)
    ensures RetriesOk(After(s, run), failures + Failures(run))
    decreases run
  {
    if run != [] {
      StepRetries(s, failures, run[0]);
      RunRetries(Apply(s, run[0]), failures + Failure(run[0]), run[1..]);
    }
  }

  /** A send is retried three times at most, and given up only after four failures. */
  lemma GivenUpAfterFourFailures(fileCount: nat, run: seq<Step>, task: Task)
    requires Possible(Fresh(fileCount), run)
    ensures After(Fresh(fileCount), run).exhausted > 0 ==> Failures(run) >= 4
    ensures task in After(Fresh(fileCount), run).queue ==> task.retries <= 3
  {
    RunRetries(Fresh(fileCount), 0, run);
  }

  /** A failed send that may be retried is, and the stamps are released for later downloads. */
  lemma FailedSendIsRetried(fileCount: nat, run: seq<Step>, worker: nat)
    requires Possible(Fresh(fileCount), run) && worker in After(Fresh(fileCount), run).sending
    ensures var s := After(Fresh(fileCount), run);
            var v := Apply(s, SendFails(worker));
            && !v.notified && !v.armed && v.sent == s.sent
            && (s.sending[worker].retries < 3 ==>
                  v.queue == s.queue + multiset{s.sending[worker].(retries := s.sending[worker].retries + 1)})
            && (s.sending[worker].retries >= 3 ==> v.queue == s.queue && v.exhausted == s.exhausted + 1)
  {}
}
