/** What becomes of files, drafts and objects: where a verdict comes from, what stays, what is left behind. */
module FileOutcomes {
  import opened Bytes
  import opened World
  import opened Steps
  import opened Invariant
  import opened Evolution
  import opened Guarantees
  import opened RowFacts
  import Outcomes

  // --- Where a scan status comes from ---

  /** The bytes of a file have landed: complete-upload, or the end of its import. */
  predicate IsLanding(x: Step, f: Id) {
    match x
    case OnDraft(Completes(_, g, outcome)) => g == f && outcome == Landed
    case OnImport(Saves(g)) => g == f
    case _ => false
  }

  /** A finalize that marks the files of its draft SKIPPED. */
  predicate IsSkipping(w: World, x: Step, f: Id)
    requires f in w.files
  {
    match x
    case OnFinalize(Answers(d, _, _)) => d in w.polls && w.polls[d].body.confidential && w.files[f].parent == InDraft(d)
    case _ => false
  }

  predicate IsRescan(x: Step, f: Id) {
    match x
    case OnDraft(Rescans(_, rearmed)) => f in rearmed
    case _ => false
  }

  predicate IsVerdictOn(x: Step, f: Id, s: ScanStatus) {
    match x
    case OnScan(Calls(u, verdict, _)) => u.file == f && verdict == s
    case _ => false
  }

  /** A status may become another only like this. */
  predicate Justified(c: Settings, w: World, x: Step, f: Id, s: ScanStatus)
    requires f in w.files
  {
    match s
    case Pending => w.files[f].scan == ScanError && w.files[f].kind != FileBound && IsRescan(x, f)
    case Skipped =>
      w.files[f].scan == Pending && ((!c.scanEnabled && IsLanding(x, f)) || (c.scanEnabled && IsSkipping(w, x, f)))
    case TooLarge => w.files[f].scan == Pending && c.scanEnabled && w.files[f].overScanCap && IsLanding(x, f)
    case _ => w.files[f].scan == Pending && IsVerdictOn(x, f, s)
  }

  lemma DraftStatus(c: Settings, w: World, x: DraftStep, f: Id)
    requires Inv(c, w) && DraftEnabled(w, x) && f in w.files && f in ApplyDraft(c, w, x).files
    ensures var s := ApplyDraft(c, w, x).files[f].scan; s == w.files[f].scan || Justified(c, w, OnDraft(x), f, s)
  {
    assert FileOk(c, w, f);
    match x
    case Adds(d, g, drive, overScanCap) => AddedRow(w, d, g, drive, overScanCap, f); assert FileOk(c, w, g);
    case Completes(d, g, outcome) => CompletedRow(c, w, d, g, outcome, f);
    case Removes(d, g, kept) => RemovedRow(w, d, g, kept, f);
    case Discards(d, kept, _) => DiscardedRow(w, d, kept, f);
    case Rescans(d, rearmed) => RescannedRow(w, d, rearmed, f);
  }

  lemma FinalizeStatus(c: Settings, w: World, x: FinalizeStep, f: Id)
    requires Inv(c, w) && FinalizeEnabled(w, x) && f in w.files && f in ApplyFinalize(c, w, x).files
    ensures var s := ApplyFinalize(c, w, x).files[f].scan;
            s == w.files[f].scan || Justified(c, w, OnFinalize(x), f, s)
  {
    if x.Answers? { AnswerStatus(c, w, x.d, x.b, x.t, f); } else { UnansweredRow(w, x, f); }
  }

  lemma AnswerStatus(c: Settings, w: World, d: Id, b: Id, t: Id, f: Id)
    requires Inv(c, w) && FinalizeEnabled(w, Answers(d, b, t)) && f in w.files
    ensures f in FinalizeWrite(c, w, d, b, t).files
    ensures var s := FinalizeWrite(c, w, d, b, t).files[f].scan;
            s == w.files[f].scan || Justified(c, w, OnFinalize(Answers(d, b, t)), f, s)
  {
    FinalizeRow(c, w, d, b, t, f);
    var p, answer := w.polls[d], FinalizeAnswer(c, w.polls[d], w.drafts[d].key);
    if (answer == StillScanning || answer == Created) && f in Skipping(c, p) { SkippedHadLanded(c, w, d, f); }
    AnsweredKeeps(c, p, t, answer, f, w.files[f]);
  }

  lemma ImportStatus(c: Settings, w: World, x: ImportStep, f: Id)
    requires Inv(c, w) && ImportEnabled(w, x) && f in w.files && f in ApplyImport(c, w, x).files
    ensures var s := ApplyImport(c, w, x).files[f].scan; s == w.files[f].scan || Justified(c, w, OnImport(x), f, s)
  {
    match x
    case Imports(g) => if g !in w.files || w.files[g].completed { LostRow(w, g); } else { BegunStatus(w, g, f); }
    case Lands(g) => assert ImportLand(w, g).files == w.files;
    case Saves(g) => assert ImportOk(w, g) && FileOk(c, w, g);
    case Fails(g, kept) =>
    case Crashes(g) => assert ImportCrash(w, g).files == w.files;
  }

  lemma BegunStatus(w: World, g: Id, f: Id)
    requires g in w.files && f in w.files
    ensures f in ImportBegun(w, g).files && ImportBegun(w, g).files[f].scan == w.files[f].scan
  {}

  /** Every change of a file's status, by any actor, is a landing, a confidential finalize, a callback or a rescan. */
  lemma StatusComesFrom(c: Settings, w: World, x: Step, f: Id)
    requires Inv(c, w) && Enabled(w, x) && f in w.files && f in Apply(c, w, x).files
    ensures var s := Apply(c, w, x).files[f].scan; s == w.files[f].scan || Justified(c, w, x, f, s)
  {
    match x
    case OnDraft(y) => DraftStatus(c, w, y, f);
    case OnFinalize(y) => FinalizeStatus(c, w, y, f);
    case OnImport(y) => ImportStatus(c, w, y, f);
    case OnScan(y) => ScanRow(w, y, f);
    case OnLink(y) => LinkRow(c, w, y, f);
    case OnSweep(y) => SweepRow(w, y, f);
    case Ticks(_) =>
  }

  /** The first callback on a PENDING row decides, in every later state; on any other row it changes nothing. */
  lemma FirstVerdictDecides(c: Settings, w: World, u: Use, s: ScanStatus, k: ErrorKind, v: World)
    requires Reachable(c, w) && ScanEnabled(w, Calls(u, s, k)) && Leads(c, Webhook(w, u, s, k), v)
    requires u.file in w.files && u.file in v.files && (s != ScanError || k == FileBound)
    ensures w.files[u.file].scan == Pending ==> v.files[u.file].scan == s && v.files[u.file].kind == k
    ensures w.files[u.file].scan != Pending ==> Webhook(w, u, s, k) == w
  {
    ReachedNext(c, w, OnScan(Calls(u, s, k)), true);
    ScanRow(w, Calls(u, s, k), u.file);
    if w.files[u.file].scan == Pending { VerdictsAreFinal(c, Webhook(w, u, s, k), v, u.file); }
  }

  /** How a file lands: SKIPPED without a scanner, TOO_LARGE over its cap, and otherwise still to be scanned. */
  lemma LandsAs(c: Settings, w: World, x: Step, f: Id)
    requires Inv(c, w) && Enabled(w, x) && IsLanding(x, f) && f in w.files
    ensures var v := Apply(c, w, x);
            && f in v.files && v.files[f].completed && !v.files[f].uploadOpen
            && v.files[f].scan
               == (if !c.scanEnabled then Skipped else if w.files[f].overScanCap then TooLarge else Pending)
            && f in v.bucket
  {
    assert FileOk(c, w, f) && ImportOk(w, f);
  }

  // --- A failed import ---

  lemma {:induction false} FailureStays(c: Settings, w: World, run: seq<Step>, f: Id)
    requires Inv(c, w) && Possible(c, w, run) && OrderlyRun(c, w, run)
    requires f in w.files && w.files[f].importFailed && f in After(c, w, run).files
    ensures After(c, w, run).files[f].importFailed
    decreases run
  {
    if run != [] {
      var v := Apply(c, w, run[0]);
      StepKeeps(c, w, run[0]);
      RunKeeps(c, v, run[1..]);
      AllKnown(c, w);
      assert FileEvolves(v, After(c, v, run[1..]), f) && FileEvolves(w, v, f);
      FailureKept(c, w, run[0], f);
      FailureStays(c, v, run[1..], f);
    }
  }

  lemma FailureKept(c: Settings, w: World, x: Step, f: Id)
    requires Inv(c, w) && Enabled(w, x) && f in w.files && w.files[f].importFailed && f in Apply(c, w, x).files
    ensures Apply(c, w, x).files[f].importFailed
  {
    match x
    case OnDraft(y) => DraftFailureKept(c, w, y, f);
    case OnFinalize(y) => FinalizeFailureKept(c, w, y, f);
    case OnImport(y) => ImportRow(c, w, y, f);
    case OnScan(y) => ScanRow(w, y, f);
    case OnLink(y) => LinkRow(c, w, y, f);
    case OnSweep(y) => SweepRow(w, y, f);
    case Ticks(_) =>
  }

  lemma DraftFailureKept(c: Settings, w: World, x: DraftStep, f: Id)
    requires Inv(c, w) && DraftEnabled(w, x) && f in w.files && w.files[f].importFailed
    requires f in ApplyDraft(c, w, x).files
    ensures ApplyDraft(c, w, x).files[f].importFailed
  {
    match x
    case Adds(d, g, drive, overScanCap) => AddedRow(w, d, g, drive, overScanCap, f); assert FileOk(c, w, f);
    case Completes(d, g, outcome) => CompletedRow(c, w, d, g, outcome, f);
    case Removes(d, g, kept) => RemovedRow(w, d, g, kept, f);
    case Discards(d, kept, _) => DiscardedRow(w, d, kept, f);
    case Rescans(d, rearmed) => RescannedRow(w, d, rearmed, f);
  }

  lemma FinalizeFailureKept(c: Settings, w: World, x: FinalizeStep, f: Id)
    requires Inv(c, w) && FinalizeEnabled(w, x) && f in w.files && w.files[f].importFailed
    requires f in ApplyFinalize(c, w, x).files
    ensures ApplyFinalize(c, w, x).files[f].importFailed
  {
    if x.Answers? { AnswerFailureKept(c, w, x.d, x.b, x.t, f); } else { UnansweredRow(w, x, f); }
  }

  lemma AnswerFailureKept(c: Settings, w: World, d: Id, b: Id, t: Id, f: Id)
    requires Inv(c, w) && FinalizeEnabled(w, Answers(d, b, t)) && f in w.files && w.files[f].importFailed
    ensures f in FinalizeWrite(c, w, d, b, t).files && FinalizeWrite(c, w, d, b, t).files[f].importFailed
  {
    FinalizeRow(c, w, d, b, t, f);
    AnsweredKeeps(c, w.polls[d], t, FinalizeAnswer(c, w.polls[d], w.drafts[d].key), f, w.files[f]);
  }

  /**
   A failed import stays failed as long as its row is there: it never lands, cannot be completed by a client, is never
   published, and every finalize that reads the draft from then on is refused, until the user removes the file.
   */
  lemma FailedImportStays(c: Settings, w: World, f: Id, kept: bool, v: World, d: Id, body: Body, parked: string)
    requires Reachable(c, w) && f in w.importing && f in w.files && Leads(c, ImportFail(w, f, kept), v) && f in v.files
    requires v.files[f].parent == InDraft(d) ==> Unlocked(v, d)
    ensures v.files[f].importFailed && !v.files[f].completed && v.files[f].parent.InDraft?
    ensures !CanCompleteUpload(v, d, f) && !CanSaveImport(v, f)
    ensures v.files[f].parent == InDraft(d) ==>
              FinalizeAnswer(c, FinalizeRead(v, d, body).polls[d], parked) == BadRequest
  {
    var u := ImportFail(w, f, kept);
    ReachedNext(c, w, OnImport(Fails(f, kept)), true);
    ReachableInv(c, u);
    LaterEvolves(c, u, v);
    var run :| Possible(c, u, run) && OrderlyRun(c, u, run) && v == After(c, u, run);
    FailureStays(c, u, run, f);
    FactsRunFrom(c, u, run, f);
    assert FileOk(c, v, f);
    if v.files[f].parent == InDraft(d) { assert f in FinalizeRead(v, d, body).polls[d].rows; }
  }

  lemma FactsRunFrom(c: Settings, u: World, run: seq<Step>, f: Id)
    requires Reachable(c, u) && Inv(c, u) && Possible(c, u, run) && OrderlyRun(c, u, run)
    ensures FileFacts(c, After(c, u, run), f)
  {
    FactsHold(c, u, f);
    FactsRun(c, u, run, f);
  }

  /** A client can complete a Drive row only once its import was accepted: before that it has no upload. */
  lemma DriveRowsOpenWithTheirImport(c: Settings, w: World, d: Id, f: Id)
    requires Reachable(c, w) && CanCompleteUpload(w, d, f) && w.files[f].drive
    ensures f in w.accepted && w.files[f].importStarted
  {
    FactsHold(c, w, f);
    ReachableInv(c, w);
    assert StampOk(w, f);
  }

  /** An import once accepted is queued or running, exactly once, until it lands, fails or loses its row. */
  lemma AcceptedImportsAreNotForgotten(c: Settings, w: World, f: Id)
    requires Reachable(c, w) && f in w.accepted && f in w.files && !w.files[f].completed && !w.files[f].importFailed
    ensures w.importQueue[f] + (if f in w.importing then 1 else 0) == 1
  {
    FactsHold(c, w, f);
    ReachableInv(c, w);
    assert StampOk(w, f);
  }

  // --- Scan messages ---

  /** How many scan messages of a file a step adds; -1 when a worker takes one. */
  function MessagesAdded(c: Settings, w: World, x: Step, f: Id): int
    requires Enabled(w, x)
  {
    match x
    case OnDraft(Rescans(_, rearmed)) => if f in rearmed then 1 else 0
    case OnFinalize(Answers(d, _, _)) =>
      var answer := FinalizeAnswer(c, w.polls[d], w.drafts[d].key);
      if f in w.files && Outcomes.ToScan(c, w, d, f) && (answer == StillScanning || answer == Created) then 1 else 0
    case OnScan(StartsScan(g)) => if g == f then -1 else 0
    case OnScan(PostsScan(u, answer)) => if u.file == f && answer == Retried then 1 else 0
    case OnScan(Reaps(g)) => if g == f then 1 else 0
    case _ => 0
  }

  /** Rescan, reaper, finalize and a failed POST each queue one message, a worker takes one, and no other step does. */
  lemma ScanMessagesAreCounted(c: Settings, w: World, x: Step, f: Id)
    requires Reachable(c, w) && Enabled(w, x)
    ensures Apply(c, w, x).scanQueue[f] == w.scanQueue[f] + MessagesAdded(c, w, x, f)
  {
    match x
    case OnDraft(y) => DraftMessages(c, w, y, f);
    case OnFinalize(y) => FinalizeMessages(c, w, y, f);
    case OnImport(y) => ImportMessages(c, w, y);
    case OnScan(y) => ScanMessages(c, w, y, f);
    case OnLink(y) => LinkMessages(c, w, y);
    case OnSweep(y) => assert ApplySweep(w, y).scanQueue == w.scanQueue;
    case Ticks(_) =>
  }

  lemma DraftMessages(c: Settings, w: World, x: DraftStep, f: Id)
    requires DraftEnabled(w, x)
    ensures ApplyDraft(c, w, x).scanQueue[f] == w.scanQueue[f] + MessagesAdded(c, w, OnDraft(x), f)
  {
    match x
    case Adds(d, g, drive, overScanCap) =>
    case Completes(d, g, outcome) => CompleteMessages(c, w, d, g, outcome);
    case Removes(d, g, kept) =>
    case Discards(d, kept, _) =>
    case Rescans(d, rearmed) =>
  }

  lemma CompleteMessages(c: Settings, w: World, d: Id, f: Id, outcome: Completion)
    requires CanCompleteUpload(w, d, f)
    ensures CompleteUpload(c, w, d, f, outcome).scanQueue == w.scanQueue
  {
    match outcome
    case Landed =>
    case HeadFails =>
    case S3Rejects =>
    case SizeMismatch(kept) =>
  }

  lemma FinalizeMessages(c: Settings, w: World, x: FinalizeStep, f: Id)
    requires Reachable(c, w) && FinalizeEnabled(w, x)
    ensures ApplyFinalize(c, w, x).scanQueue[f] == w.scanQueue[f] + MessagesAdded(c, w, OnFinalize(x), f)
  {
    match x
    case Finalizes(d, body) =>
    case Answers(d, b, t) => AnswerMessages(c, w, d, b, t, f);
    case GivesUp(d) =>
    case Sends(b, g, ok) => SentMessages(w, b, g, ok);
    case EndsBatch(b) =>
  }

  lemma SentMessages(w: World, b: Id, g: Id, ok: bool)
    requires b in w.batches && g in w.batches[b].todo
    ensures BatchSend(w, b, g, ok).scanQueue == w.scanQueue
  {}

  lemma AnswerMessages(c: Settings, w: World, d: Id, b: Id, t: Id, f: Id)
    requires Reachable(c, w) && FinalizeEnabled(w, Answers(d, b, t))
    ensures FinalizeWrite(c, w, d, b, t).scanQueue[f]
         == w.scanQueue[f] + MessagesAdded(c, w, OnFinalize(Answers(d, b, t)), f)
  {
    ReachableInv(c, w);
    Snapshotted(c, w, d, f);
    if f in w.files {
      Outcomes.ScansAreSubmittedOnce(c, w, d, b, t, f);
    } else {
      Outcomes.QueuedByAnswer(c, w, d, b, t);
    }
  }

  lemma ImportMessages(c: Settings, w: World, x: ImportStep)
    requires ImportEnabled(w, x)
    ensures ApplyImport(c, w, x).scanQueue == w.scanQueue
  {
    match x
    case Imports(g) => StartMessages(w, g);
    case Lands(g) =>
    case Saves(g) =>
    case Fails(g, kept) =>
    case Crashes(g) =>
  }

  lemma StartMessages(w: World, g: Id)
    requires g in w.importQueue && g !in w.importing
    ensures ImportStart(w, g).scanQueue == w.scanQueue
  {
    assert ImportLost(w, g).scanQueue == w.scanQueue;
  }

  lemma ScanMessages(c: Settings, w: World, x: ScanStep, f: Id)
    requires ScanEnabled(w, x)
    ensures ApplyScan(w, x).scanQueue[f] == w.scanQueue[f] + MessagesAdded(c, w, OnScan(x), f)
  {
    match x
    case StartsScan(g) =>
    case PostsScan(u, answer) => PostMessages(w, u, answer);
    case Calls(u, verdict, errorKind) =>
    case Reaps(g) =>
  }

  lemma PostMessages(w: World, u: Use, answer: PostOutcome)
    requires u in w.submitting
    ensures SubmitPost(w, u, answer).scanQueue
         == w.scanQueue + if answer == Retried then multiset{u.file} else multiset{}
  {
    match answer
    case Accepted =>
    case Retried =>
    case GivenUp =>
  }

  lemma LinkMessages(c: Settings, w: World, x: LinkStep)
    requires LinkEnabled(w, x)
    ensures ApplyLink(c, w, x).scanQueue == w.scanQueue
  {
    match x
    case Deactivates(t, reason) =>
    case ReadsPurge =>
    case Wipes(t, kept) => WipeMessages(w, t, kept);
    case Flips(t) =>
    case Destroys(t, kept) => DestroyMessages(w, t, kept);
  }

  lemma WipeMessages(w: World, t: Id, kept: set<Id>)
    requires t in w.purging
    ensures PurgeWipe(w, t, kept).scanQueue == w.scanQueue
  {
    var v := DeleteObjects(w, FilesOf(w, InTransfer(t)), kept);
    assert v.scanQueue == w.scanQueue && v.purging == w.purging;
    assert Marked(v, w.purging, w.wiped + {t}).scanQueue == w.scanQueue;
    assert Marked(v, w.purging - {t}, w.wiped - {t}).scanQueue == w.scanQueue;
  }

  lemma DestroyMessages(w: World, t: Id, kept: set<Id>)
    requires t in w.transfers
    ensures Destroy(w, t, kept).scanQueue == w.scanQueue
  {
    var v := DeleteObjects(DestroyAsked(w, t), FilesOf(w, InTransfer(t)), kept);
    assert v.scanQueue == w.scanQueue;
    assert DropTransfer(v, t).scanQueue == w.scanQueue == DropTransfer(w, t).scanQueue;
  }

  /** The use a worker makes of a scan message: the landed, waiting file with the key of its draft, if it has one. */
  predicate WorthSubmitting(w: World, f: Id, u: Use) {
    && u.file == f && f in w.files && w.files[f].completed && w.files[f].scan == Pending
    && u.home == w.files[f].home && u.home in w.firstKey && u.key == w.firstKey[u.home]
  }

  /** A worker that takes a scan message goes on to submit the file exactly if it is still worth it. */
  lemma TakenMessages(c: Settings, w: World, f: Id, u: Use)
    requires Reachable(c, w) && f in w.scanQueue
    ensures u in SubmitStart(w, f).submitting <==> u in w.submitting || WorthSubmitting(w, f, u)
  {
    ReachableInv(c, w);
    SubmittedUse(c, w, f, u);
  }

  lemma SubmittedUse(c: Settings, w: World, f: Id, u: Use)
    requires Inv(c, w)
    ensures Submittable(w, f) && u == Use(f, w.files[f].home, ParentKey(w, w.files[f])) <==> WorthSubmitting(w, f, u)
  {
    if f in w.files { KeyOf(c, w, f); }
  }

  /** What the scanner accepted is a job it may call back for; nothing else becomes one. */
  lemma AcceptedSubmissions(w: World, u: Use, answer: PostOutcome)
    requires u in w.submitting
    ensures u !in SubmitPost(w, u, answer).submitting
    ensures SubmitPost(w, u, answer).jobs == w.jobs + if answer == Accepted then {u} else {}
  {
    match answer
    case Accepted =>
    case Retried =>
    case GivenUp =>
  }

  /** A row's parent has a key exactly if its draft was first finalized with one, and then that one. */
  lemma KeyOf(c: Settings, w: World, f: Id)
    requires Inv(c, w) && f in w.files
    ensures ParentKey(w, w.files[f]) != "" <==> w.files[f].home in w.firstKey
    ensures w.files[f].home in w.firstKey ==> ParentKey(w, w.files[f]) == w.firstKey[w.files[f].home]
  {
    assert FileOk(c, w, f) && DraftOk(w, w.files[f].home);
    match w.files[f].parent
    case InDraft(d) => assert DraftOk(w, d);
    case InTransfer(t) => assert LinkOk(w, t);
  }
}
