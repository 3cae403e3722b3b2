/** The steps by who takes them, when each can happen, and runs of them. */
module Steps {
  import opened World

  datatype DraftStep =
    | Adds(d: Id, f: Id, drive: bool, overScanCap: bool)
    | Completes(d: Id, f: Id, outcome: Completion)
    | Removes(d: Id, f: Id, objectKept: bool)
    | Discards(d: Id, kept: set<Id>, cleanup: bool)
    | Rescans(d: Id, rearmed: set<Id>)

  datatype FinalizeStep =
    | Finalizes(d: Id, body: Body)
    | Answers(d: Id, b: Id, t: Id)
    | GivesUp(d: Id)
    | Sends(b: Id, f: Id, ok: bool)
    | EndsBatch(b: Id)

  datatype ImportStep =
    | Imports(f: Id)
    | Lands(f: Id)
    | Saves(f: Id)
    | Fails(f: Id, objectKept: bool)
    | Crashes(f: Id)

  datatype ScanStep =
    | StartsScan(f: Id)
    | PostsScan(u: Use, answer: PostOutcome)
    | Calls(u: Use, verdict: ScanStatus, errorKind: ErrorKind)
    | Reaps(f: Id)

  datatype LinkStep =
    | Deactivates(t: Id, reason: Reason)
    | ReadsPurge
    | Wipes(t: Id, kept: set<Id>)
    | Flips(t: Id)
    | Destroys(t: Id, kept: set<Id>)

  datatype SweepStep =
    | Starts(s: Id, minAgeHours: nat)
    | Lists(s: Id, f: Id)
    | Deletes(s: Id, f: Id)

  datatype Step =
    | Ticks(seconds: nat)
    | OnDraft(draftStep: DraftStep)
    | OnFinalize(finalizeStep: FinalizeStep)
    | OnImport(importStep: ImportStep)
    | OnScan(scanStep: ScanStep)
    | OnLink(linkStep: LinkStep)
    | OnSweep(sweepStep: SweepStep)

  // When the code lets a step happen. Ids of new rows and batches are fresh.

  predicate DraftEnabled(w: World, x: DraftStep) {
    match x
    case Adds(d, f, _, _) => CanAddFile(w, d, f)
    case Completes(d, f, _) => CanCompleteUpload(w, d, f)
    case Removes(d, f, _) => CanRemoveFile(w, d, f)
    case Discards(d, _, cleanup) => CanDiscard(w, d, cleanup)
    case Rescans(d, rearmed) => Unlocked(w, d) && forall f <- rearmed :: CanRearm(w, d, f)
  }

  predicate FinalizeEnabled(w: World, x: FinalizeStep) {
    match x
    case Finalizes(d, body) => Unlocked(w, d) && body.Accepted()
    case Answers(d, b, t) => d in w.polls && d in w.drafts && b !in w.used && t !in w.used && b != t
    case GivesUp(d) => d in w.polls
    case Sends(b, f, _) => b in w.batches && f in w.batches[b].todo
    case EndsBatch(b) => b in w.batches && w.batches[b].todo == {}
  }

  predicate ImportEnabled(w: World, x: ImportStep) {
    match x
    case Imports(f) => f in w.importQueue && f !in w.importing
    case Lands(f) => CanLand(w, f)
    case Saves(f) => CanSaveImport(w, f)
    case Fails(f, _) => f in w.importing
    case Crashes(f) => f in w.importing
  }

  predicate ScanEnabled(w: World, x: ScanStep) {
    match x
    case StartsScan(f) => f in w.scanQueue
    case PostsScan(u, _) => u in w.submitting
    case Calls(u, verdict, errorKind) => u in w.jobs && IsVerdict(verdict, errorKind)
    case Reaps(f) => f in w.files && w.files[f].scan == Pending && w.files[f].submitted
  }

  predicate LinkEnabled(w: World, x: LinkStep) {
    match x
    case Deactivates(t, reason) => t in w.transfers && (reason == Expired ==> w.transfers[t].expiresAt <= w.now)
    case ReadsPurge => true
    case Wipes(t, _) => t in w.purging
    case Flips(t) => t in w.wiped
    case Destroys(t, _) => t in w.transfers
  }

  predicate SweepEnabled(w: World, x: SweepStep) {
    match x
    case Starts(s, _) => s !in w.sweeps
    case Lists(s, f) => s in w.sweeps && IsOrphan(w, w.sweeps[s], f)
    case Deletes(s, f) => s in w.sweeps && f in w.sweeps[s].batch
  }

  predicate Enabled(w: World, x: Step) {
    match x
    case Ticks(_) => true
    case OnDraft(y) => DraftEnabled(w, y)
    case OnFinalize(y) => FinalizeEnabled(w, y)
    case OnImport(y) => ImportEnabled(w, y)
    case OnScan(y) => ScanEnabled(w, y)
    case OnLink(y) => LinkEnabled(w, y)
    case OnSweep(y) => SweepEnabled(w, y)
  }

  function ApplyDraft(c: Settings, w: World, x: DraftStep): World
    requires DraftEnabled(w, x)
  {
    match x
    case Adds(d, f, drive, overScanCap) => AddFile(w, d, f, drive, overScanCap)
    case Completes(d, f, outcome) => CompleteUpload(c, w, d, f, outcome)
    case Removes(d, f, objectKept) => RemoveFile(w, d, f, objectKept)
    case Discards(d, kept, _) => DiscardDraft(w, d, kept)
    case Rescans(d, rearmed) => Rescan(w, d, rearmed)
  }

  function ApplyFinalize(c: Settings, w: World, x: FinalizeStep): World
    requires FinalizeEnabled(w, x)
  {
    match x
    case Finalizes(d, body) => FinalizeRead(w, d, body)
    case Answers(d, b, t) => FinalizeWrite(c, w, d, b, t)
    case GivesUp(d) => w.(polls := w.polls - {d})
    case Sends(b, f, ok) => BatchSend(w, b, f, ok)
    case EndsBatch(b) => BatchEnd(w, b)
  }

  function ApplyImport(c: Settings, w: World, x: ImportStep): World
    requires ImportEnabled(w, x)
  {
    match x
    case Imports(f) => ImportStart(w, f)
    case Lands(f) => ImportLand(w, f)
    case Saves(f) => ImportSave(c, w, f)
    case Fails(f, objectKept) => ImportFail(w, f, objectKept)
    case Crashes(f) => ImportCrash(w, f)
  }

  function ApplyScan(w: World, x: ScanStep): World
    requires ScanEnabled(w, x)
  {
    match x
    case StartsScan(f) => SubmitStart(w, f)
    case PostsScan(u, answer) => SubmitPost(w, u, answer)
    case Calls(u, verdict, errorKind) => Webhook(w, u, verdict, errorKind)
    case Reaps(f) => Reap(w, f)
  }

  function ApplyLink(c: Settings, w: World, x: LinkStep): World
    requires LinkEnabled(w, x)
  {
    match x
    case Deactivates(t, reason) => Deactivate(c, w, t, reason)
    case ReadsPurge => PurgeRead(w)
    case Wipes(t, kept) => PurgeWipe(w, t, kept)
    case Flips(t) => PurgeFlip(w, t)
    case Destroys(t, kept) => Destroy(w, t, kept)
  }

  function ApplySweep(w: World, x: SweepStep): World
    requires SweepEnabled(w, x)
  {
    match x
    case Starts(s, minAgeHours) => SweepStart(w, s, minAgeHours)
    case Lists(s, f) => SweepList(w, s, f)
    case Deletes(_, f) => SweepDelete(w, f)
  }

  function Apply(c: Settings, w: World, x: Step): World
    requires Enabled(w, x)
  {
    match x
    case Ticks(seconds) => Later(w, seconds)
    case OnDraft(y) => ApplyDraft(c, w, y)
    case OnFinalize(y) => ApplyFinalize(c, w, y)
    case OnImport(y) => ApplyImport(c, w, y)
    case OnScan(y) => ApplyScan(w, y)
    case OnLink(y) => ApplyLink(c, w, y)
    case OnSweep(y) => ApplySweep(w, y)
  }

  /**
   How the system is used: no client completes the very upload a running Drive import holds
   open (Guarantees.CompletionIsSafeExactly), and an orphan sweep has an age limit, as the
   daily task has (Guarantees.AgeLimitProtectsNewFiles).
   */
  predicate Orderly(w: World, x: Step) {
    match x
    case OnDraft(Completes(_, f, outcome)) => CompletesSafely(w, f, outcome)
    case OnSweep(Starts(_, minAgeHours)) => minAgeHours > 0
    case _ => true
  }

  /** A completion that S3 turns down, or of a file no import is working on. */
  predicate CompletesSafely(w: World, f: Id, outcome: Completion) {
    outcome == Landed ==> f !in w.importing
  }

  /** The code lets the steps follow one another from w. */
  predicate Possible(c: Settings, w: World, run: seq<Step>)
    decreases run
  {
    run == [] || (Enabled(w, run[0]) && Possible(c, Apply(c, w, run[0]), run[1..]))
  }

  predicate OrderlyRun(c: Settings, w: World, run: seq<Step>)
    requires Possible(c, w, run)
    decreases run
  {
    run == [] || (Orderly(w, run[0]) && OrderlyRun(c, Apply(c, w, run[0]), run[1..]))
  }

  function After(c: Settings, w: World, run: seq<Step>): World
    requires Possible(c, w, run)
    decreases run
  {
    if run == [] then w else After(c, Apply(c, w, run[0]), run[1..])
  }
}
