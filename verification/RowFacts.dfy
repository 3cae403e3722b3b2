/** Smaller invariants, one row at a time: oversized files, failed imports, what a finalize knows of submissions. */
module RowFacts {
  import opened Bytes
  import opened World
  import opened Steps
  import opened Invariant
  import opened Evolution
  import Guarantees

  // --- What a finalize does to one row ---

  /** The row of a file of the draft, after an answer that was not a refusal. */
  function AnsweredRow(c: Settings, p: Poll, t: Id, answer: Answer, f: Id, r: FileRow): FileRow {
    match answer
    case BadRequest => r
    case StillImporting => if f in Starting(p) then r.(importStarted := true) else r
    case StillScanning => ScannedRow(c, p, f, r)
    case Created => ScannedRow(c, p, f, r).(parent := InTransfer(t))
  }

  function ScannedRow(c: Settings, p: Poll, f: Id, r: FileRow): FileRow {
    Scanned(f in Skipping(c, p), f in Submitting(c, p), r)
  }

  function Scanned(skipped: bool, submitted: bool, r: FileRow): FileRow {
    r.(scan := if skipped then Skipped else r.scan, submitted := submitted || r.submitted)
  }

  /** Neither time nor objects nor import work has moved. */
  predicate SameElse(w: World, v: World) {
    && v.files.Keys == w.files.Keys && v.now == w.now && v.bucket == w.bucket && v.polls == w.polls
    && v.importing == w.importing && v.importQueue == w.importQueue && v.accepted == w.accepted
  }

  lemma ScannedRows(c: Settings, w: World, p: Poll, f: Id)
    ensures var v := ScansSubmitted(w, Submitting(c, p), Skipping(c, p));
            && SameElse(w, v) && v.transfers == w.transfers && v.drafts == w.drafts && v.firstKey == w.firstKey
            && (f in w.files ==> v.files[f] == ScannedRow(c, p, f, w.files[f]))
  {}

  lemma BatchedRow(w: World, starting: set<Id>, b: Id, f: Id)
    ensures var v := ImportsBatched(w, starting, b);
            && SameElse(w, v) && v.transfers == w.transfers && v.drafts == w.drafts && v.firstKey == w.firstKey
            && (f in w.files ==>
                  v.files[f] == if f in starting then w.files[f].(importStarted := true) else w.files[f])
  {
    if starting == {} { assert f !in starting; }
  }

  lemma CreatedRow(w: World, d: Id, t: Id, body: Body, f: Id)
    requires d in w.drafts
    ensures var v := CreateTransfer(w, d, t, body);
            && SameElse(w, v) && v.drafts == w.drafts - {d} && v.firstKey == w.firstKey
            && v.transfers == w.transfers[t := TransferRow(d, w.drafts[d].key, body.confidential, w.now + body.lifetime,
                                                           Active, None, None)]
            && (f in w.files ==>
                  v.files[f] == if w.files[f].parent == InDraft(d) then w.files[f].(parent := InTransfer(t))
                                else w.files[f])
  {}

  lemma WrittenRow(c: Settings, w: World, d: Id, p: Poll, b: Id, t: Id, answer: Answer, f: Id)
    requires d in w.drafts && (f in w.files ==> (f in p.rows <==> w.files[f].parent == InDraft(d)))
    ensures var v := Written(c, w, d, p, b, t, answer);
            && SameElse(w, v)
            && (f in w.files ==>
                  v.files[f] == if w.files[f].parent == InDraft(d) then AnsweredRow(c, p, t, answer, f, w.files[f])
                                else w.files[f])
  {
    match answer
    case BadRequest =>
    case StillImporting => BatchedRow(w, Starting(p), b, f);
    case StillScanning => ScannedRows(c, w, p, f);
    case Created =>
      ScannedRows(c, w, p, f);
      CreatedRow(ScansSubmitted(w, Submitting(c, p), Skipping(c, p)), d, t, p.body, f);
  }

  lemma ParkedRows(w: World, d: Id, body: Body)
    requires d in w.drafts
    ensures var v := Parked(w, d, body); SameElse(w, v) && v.files == w.files && d in v.drafts
  {
    if !body.confidential && w.drafts[d].key == "" { assert SameElse(w, KeyParked(w, d, body.key)); }
  }

  /** A finalize's snapshot has exactly the draft's rows. */
  lemma Snapshotted(c: Settings, w: World, d: Id, f: Id)
    requires Inv(c, w) && d in w.polls
    ensures d in w.drafts && (f in w.polls[d].rows <==> f in w.files && w.files[f].parent == InDraft(d))
  {
    assert PollOk(w, d);
    assert SnapOk(w, d, w.polls[d], f);
  }

  /** Files, and what else a finalize touches, seen from one row. */
  lemma FinalizeRow(c: Settings, w: World, d: Id, b: Id, t: Id, f: Id)
    requires Inv(c, w) && d in w.polls && d in w.drafts
    ensures var p, v := w.polls[d], FinalizeWrite(c, w, d, b, t);
            && SameElse(w.(polls := w.polls - {d}), v)
            && (f in w.files ==>
                  v.files[f] == if w.files[f].parent == InDraft(d)
                                then AnsweredRow(c, p, t, FinalizeAnswer(c, p, w.drafts[d].key), f, w.files[f])
                                else w.files[f])
  {
    var p, u := w.polls[d], w.(polls := w.polls - {d});
    var answer := FinalizeAnswer(c, p, w.drafts[d].key);
    Snapshotted(c, w, d, f);
    if answer != BadRequest {
      ParkedRows(u, d, p.body);
      WrittenRow(c, Parked(u, d, p.body), d, p, b, t, answer, f);
    }
  }

  /** What no answer changes of a row. */
  lemma AnsweredKeeps(c: Settings, p: Poll, t: Id, answer: Answer, f: Id, r: FileRow)
    ensures var q := AnsweredRow(c, p, t, answer, f, r);
            && q.home == r.home && q.drive == r.drive && q.completed == r.completed && q.uploadOpen == r.uploadOpen
            && q.importFailed == r.importFailed && q.kind == r.kind
            && q.scan
               == (if (answer == StillScanning || answer == Created) && f in Skipping(c, p) then Skipped else r.scan)
  {
    ScannedKeeps(c, p, f, r);
    match answer
    case BadRequest =>
    case StillImporting =>
    case StillScanning =>
    case Created =>
  }

  lemma ScannedKeeps(c: Settings, p: Poll, f: Id, r: FileRow)
    ensures var q := ScannedRow(c, p, f, r);
            && q.home == r.home && q.drive == r.drive && q.completed == r.completed && q.uploadOpen == r.uploadOpen
            && q.importFailed == r.importFailed && q.kind == r.kind
            && q.scan == if f in Skipping(c, p) then Skipped else r.scan
  {}

  lemma SentRow(w: World, b: Id, g: Id, ok: bool)
    requires b in w.batches && g in w.batches[b].todo
    ensures var v := BatchSend(w, b, g, ok); v.files == w.files && v.bucket == w.bucket && v.drafts == w.drafts
  {}

  /** A finalize that does not answer changes no row but for the stamps its callback takes back. */
  lemma UnansweredRow(w: World, x: FinalizeStep, f: Id)
    requires FinalizeEnabled(w, x) && !x.Answers?
    ensures var v := (match x
                      case Finalizes(d, body) => FinalizeRead(w, d, body)
                      case GivesUp(d) => w.(polls := w.polls - {d})
                      case Sends(b, g, ok) => BatchSend(w, b, g, ok)
                      case EndsBatch(b) => BatchEnd(w, b));
            && v.files.Keys == w.files.Keys && v.bucket == w.bucket && v.drafts == w.drafts
            && (f in w.files ==> v.files[f] == w.files[f].(importStarted := v.files[f].importStarted))
  {
    match x
    case Finalizes(d, body) =>
    case GivesUp(d) =>
    case Sends(b, g, ok) => SentRow(w, b, g, ok);
    case EndsBatch(b) =>
  }

  // --- What the other steps do to one row ---

  /** Queues, workers and snapshots are as they were. */
  predicate SameWork(w: World, v: World) {
    v.importing == w.importing && v.importQueue == w.importQueue && v.accepted == w.accepted && v.polls == w.polls
  }

  predicate SameLinks(w: World, v: World) {
    v.transfers == w.transfers && v.now == w.now
  }

  /** The row is as it was, or gone. */
  predicate Untouched(w: World, v: World, f: Id) {
    f in v.files ==> f in w.files && v.files[f] == w.files[f]
  }

  lemma AddedRow(w: World, d: Id, g: Id, drive: bool, overScanCap: bool, f: Id)
    requires CanAddFile(w, d, g)
    ensures var v := AddFile(w, d, g, drive, overScanCap);
            && SameWork(w, v) && (f != g ==> Untouched(w, v, f)) && g in v.files
            && v.files[g].parent == InDraft(d) && v.files[g].drive == drive && v.files[g].uploadOpen == !drive
            && !v.files[g].completed && !v.files[g].importFailed && v.files[g].scan == Pending && !v.files[g].submitted
  {}

  lemma CompletedRow(c: Settings, w: World, d: Id, g: Id, outcome: Completion, f: Id)
    requires CanCompleteUpload(w, d, g)
    ensures var v := CompleteUpload(c, w, d, g, outcome);
            && SameWork(w, v)
            && (if outcome == Landed && f == g
                then f in v.files && v.files[f] == w.files[f].(completed := true, uploadOpen := false,
                                                               scan := LandedScan(c, w.files[f]))
                else Untouched(w, v, f))
  {
    match outcome
    case Landed =>
    case HeadFails =>
    case S3Rejects =>
    case SizeMismatch(kept) =>
  }

  lemma RemovedRow(w: World, d: Id, g: Id, kept: bool, f: Id)
    requires CanRemoveFile(w, d, g)
    ensures var v := RemoveFile(w, d, g, kept); SameWork(w, v) && Untouched(w, v, f)
  {}

  lemma DiscardedRow(w: World, d: Id, kept: set<Id>, f: Id)
    ensures var v := DiscardDraft(w, d, kept); SameWork(w, v) && Untouched(w, v, f)
  {}

  lemma RescannedRow(w: World, d: Id, rearmed: set<Id>, f: Id)
    requires forall g <- rearmed :: CanRearm(w, d, g)
    ensures var v := Rescan(w, d, rearmed);
            && SameWork(w, v) && (f in v.files <==> f in w.files)
            && (f in w.files ==>
                  v.files[f] == if f in rearmed then w.files[f].(scan := Pending, kind := NoKind, submitted := true)
                                else w.files[f])
  {}

  lemma DeletedRow(w: World, files: set<Id>, kept: set<Id>, f: Id)
    ensures var v := DeleteObjects(w, files, kept); SameWork(w, v) && SameLinks(w, v) && v.files == w.files
  {}

  lemma MarkedRow(w: World, purging: set<Id>, wiped: set<Id>)
    ensures var v := Marked(w, purging, wiped);
            SameWork(w, v) && SameLinks(w, v) && v.files == w.files && v.bucket == w.bucket
  {}

  lemma LinkSetRow(w: World, t: Id, row: TransferRow)
    ensures var v := LinkSet(w, t, row); SameWork(w, v) && v.files == w.files
  {}

  lemma DroppedRow(w: World, t: Id, f: Id)
    ensures var v := DropTransfer(w, t); SameWork(w, v) && Untouched(w, v, f)
    ensures f in w.files && w.files[f].parent != InTransfer(t) ==> f in DropTransfer(w, t).files
    ensures f in w.files && w.files[f].parent == InTransfer(t) ==> f !in DropTransfer(w, t).files
  {}

  lemma WipedRow(w: World, t: Id, kept: set<Id>)
    requires t in w.purging
    ensures var v := PurgeWipe(w, t, kept); SameWork(w, v) && SameLinks(w, v) && v.files == w.files
  {
    var files := FilesOf(w, InTransfer(t));
    var v := DeleteObjects(w, files, kept);
    DeletedRow(w, files, kept, t);
    MarkedRow(v, w.purging, w.wiped + {t});
    MarkedRow(v, w.purging - {t}, w.wiped - {t});
  }

  lemma FlippedRow(w: World, t: Id)
    requires t in w.wiped
    ensures var v := PurgeFlip(w, t); SameWork(w, v) && v.files == w.files
  {
    if t in w.transfers {
      var row := w.transfers[t].(status := Deactivated, purgeAt := None);
      LinkSetRow(w, t, row);
      MarkedRow(LinkSet(w, t, row), w.purging - {t}, w.wiped - {t});
    } else {
      MarkedRow(w, w.purging - {t}, w.wiped - {t});
    }
  }

  lemma DestroyedRow(w: World, t: Id, kept: set<Id>, f: Id)
    requires t in w.transfers
    ensures var v := Destroy(w, t, kept); SameWork(w, v) && Untouched(w, v, f)
  {
    var files := FilesOf(w, InTransfer(t));
    var v := DeleteObjects(DestroyAsked(w, t), files, kept);
    DeletedRow(DestroyAsked(w, t), files, kept, f);
    assert SameWork(w, DestroyAsked(w, t)) && DestroyAsked(w, t).files == w.files;
    DroppedRow(v, t, f);
    DroppedRow(w, t, f);
  }

  lemma LinkRow(c: Settings, w: World, x: LinkStep, f: Id)
    requires LinkEnabled(w, x)
    ensures var v := ApplyLink(c, w, x); SameWork(w, v) && Untouched(w, v, f)
  {
    match x
    case Deactivates(t, reason) =>
      LinkSetRow(w, t, w.transfers[t].(status := PendingFileDeletion, reason := Some(reason),
                                       purgeAt := Some(w.now + c.purgeDelay)));
    case ReadsPurge =>
    case Wipes(t, kept) => WipedRow(w, t, kept);
    case Flips(t) => FlippedRow(w, t);
    case Destroys(t, kept) => DestroyedRow(w, t, kept, f);
  }

  /** What the import of a file may change of its row. */
  predicate ImportTouched(r: FileRow, q: FileRow) {
    && q == r.(uploadOpen := q.uploadOpen, completed := q.completed, importFailed := q.importFailed, scan := q.scan)
    && (r.importFailed ==> q.importFailed)
  }

  lemma BegunRow(w: World, g: Id, f: Id)
    requires g in w.files
    ensures var v := ImportBegun(w, g);
            && v.polls == w.polls && SameLinks(w, v) && v.files.Keys == w.files.Keys
            && (f in w.files ==> ImportTouched(w.files[f], v.files[f]))
  {}

  lemma LostRow(w: World, g: Id)
    ensures var v := ImportLost(w, g); v.polls == w.polls && SameLinks(w, v) && v.files == w.files
  {}

  lemma ImportRow(c: Settings, w: World, x: ImportStep, f: Id)
    requires ImportEnabled(w, x)
    ensures var v := ApplyImport(c, w, x);
            && v.polls == w.polls && SameLinks(w, v) && v.files.Keys == w.files.Keys
            && (f in w.files ==> ImportTouched(w.files[f], v.files[f]))
  {
    match x
    case Imports(g) => if g !in w.files || w.files[g].completed { LostRow(w, g); } else { BegunRow(w, g, f); }
    case Lands(g) => assert ImportLand(w, g).files == w.files;
    case Saves(g) =>
    case Fails(g, kept) =>
    case Crashes(g) => assert ImportCrash(w, g).files == w.files;
  }

  lemma VerdictRow(w: World, g: Id, verdict: ScanStatus, kind: ErrorKind, f: Id)
    requires g in w.files
    ensures var v := VerdictSet(w, g, verdict, kind);
            && SameWork(w, v) && SameLinks(w, v) && v.files.Keys == w.files.Keys && (f != g ==> Untouched(w, v, f))
            && v.bucket == w.bucket && v.drafts == w.drafts && v.files[g] == w.files[g].(scan := verdict, kind := kind)
  {}

  lemma PostedRow(w: World, u: Use, answer: PostOutcome)
    requires u in w.submitting
    ensures var v := SubmitPost(w, u, answer);
            SameWork(w, v) && SameLinks(w, v) && v.files == w.files && v.bucket == w.bucket && v.drafts == w.drafts
  {
    match answer
    case Accepted =>
    case Retried =>
    case GivenUp =>
  }

  /** A scan step changes at most the verdict of one row, and that only while it is PENDING. */
  lemma ScanRow(w: World, x: ScanStep, f: Id)
    requires ScanEnabled(w, x)
    ensures var v := ApplyScan(w, x);
            && SameWork(w, v) && SameLinks(w, v) && v.files.Keys == w.files.Keys
            && v.bucket == w.bucket && v.drafts == w.drafts
            && (f in w.files ==>
                  v.files[f] == if x.Calls? && x.u.file == f && w.files[f].scan == Pending
                                then w.files[f].(scan := x.verdict, kind := x.errorKind) else w.files[f])
  {
    match x
    case StartsScan(g) =>
    case PostsScan(u, answer) => PostedRow(w, u, answer);
    case Calls(u, verdict, errorKind) =>
      if u.file in w.files && w.files[u.file].scan == Pending { VerdictRow(w, u.file, verdict, errorKind, f); }
    case Reaps(g) =>
  }

  // --- Facts about one file ---

  predicate FileFacts(c: Settings, w: World, f: Id) {
    f in w.files ==>
      var r := w.files[f];
      && (c.scanEnabled && r.completed ==> (r.scan == TooLarge <==> r.overScanCap))
      && (r.scan == TooLarge ==> r.completed && c.scanEnabled)
      && (r.drive && r.uploadOpen ==> f in w.accepted)
      && (r.importFailed ==> FailedForGood(w, f))
      && (f in w.accepted && !r.completed && !r.importFailed ==> f in w.importing || f in w.importQueue)
  }

  /** A failed import: not landed, and with no message, no worker and no open upload left that could land it. */
  predicate FailedForGood(w: World, f: Id)
    requires f in w.files
  {
    && w.files[f].drive && !w.files[f].completed && !w.files[f].uploadOpen
    && f in w.accepted && f !in w.importing && f !in w.importQueue
  }

  lemma FactsOnDraft(c: Settings, w: World, x: DraftStep, f: Id)
    requires Inv(c, w) && DraftEnabled(w, x) && FileFacts(c, w, f)
    ensures FileFacts(c, ApplyDraft(c, w, x), f)
  {
    match x
    case Adds(d, g, drive, overScanCap) => AddedRow(w, d, g, drive, overScanCap, f);
    case Completes(d, g, outcome) => CompletedRow(c, w, d, g, outcome, f); assert FileOk(c, w, g);
    case Removes(d, g, kept) => RemovedRow(w, d, g, kept, f);
    case Discards(d, kept, _) => DiscardedRow(w, d, kept, f);
    case Rescans(d, rearmed) => RescannedRow(w, d, rearmed, f);
  }

  lemma FactsOnAnswer(c: Settings, w: World, d: Id, b: Id, t: Id, f: Id)
    requires Inv(c, w) && FinalizeEnabled(w, Answers(d, b, t)) && FileFacts(c, w, f)
    ensures FileFacts(c, FinalizeWrite(c, w, d, b, t), f)
  {
    FinalizeRow(c, w, d, b, t, f);
    var answer := FinalizeAnswer(c, w.polls[d], w.drafts[d].key);
    if (answer == StillScanning || answer == Created) && f in Skipping(c, w.polls[d]) { SkippedHadLanded(c, w, d, f); }
    AnsweredFacts(c, w, FinalizeWrite(c, w, d, b, t), w.polls[d], t, answer, f);
  }

  lemma AnsweredFacts(c: Settings, w: World, v: World, p: Poll, t: Id, answer: Answer, f: Id)
    requires FileFacts(c, w, f) && SameElse(w.(polls := v.polls), v)
    requires f in w.files ==> v.files[f] == w.files[f] || v.files[f] == AnsweredRow(c, p, t, answer, f, w.files[f])
    requires f in w.files && (answer == StillScanning || answer == Created) && f in Skipping(c, p) ==>
               w.files[f].scan == Pending && w.files[f].completed
    ensures FileFacts(c, v, f)
  {
    if f in w.files && v.files[f] != w.files[f] {
      match answer
      case StillImporting => assert v.files[f] == w.files[f].(importStarted := true);
      case StillScanning => assert v.files[f] == ScannedRow(c, p, f, w.files[f]);
      case Created => assert v.files[f] == ScannedRow(c, p, f, w.files[f]).(parent := InTransfer(t));
      case BadRequest =>
    }
  }

  lemma SweepRow(w: World, x: SweepStep, f: Id)
    requires SweepEnabled(w, x)
    ensures var v := ApplySweep(w, x); SameWork(w, v) && v.files == w.files
  {}

  lemma FactsOnSend(c: Settings, w: World, b: Id, g: Id, ok: bool, f: Id)
    requires Inv(c, w) && FinalizeEnabled(w, Sends(b, g, ok)) && FileFacts(c, w, f)
    ensures FileFacts(c, BatchSend(w, b, g, ok), f)
  {
    assert Waits(w, b, g) && WaitOk(w, b, g);
  }

  lemma FactsOnFinalize(c: Settings, w: World, x: FinalizeStep, f: Id)
    requires Inv(c, w) && FinalizeEnabled(w, x) && FileFacts(c, w, f)
    ensures FileFacts(c, ApplyFinalize(c, w, x), f)
  {
    match x
    case Finalizes(d, body) =>
    case Answers(d, b, t) => FactsOnAnswer(c, w, d, b, t, f);
    case GivesUp(d) =>
    case Sends(b, g, ok) => FactsOnSend(c, w, b, g, ok, f);
    case EndsBatch(b) =>
  }

  /** A row a finalize marks SKIPPED as it goes on was waiting for its scan. */
  lemma SkippedHadLanded(c: Settings, w: World, d: Id, f: Id)
    requires Inv(c, w) && d in w.polls && d in w.drafts && f in Skipping(c, w.polls[d])
    requires var answer := FinalizeAnswer(c, w.polls[d], w.drafts[d].key); answer == StillScanning || answer == Created
    ensures f in w.files && w.files[f].scan == Pending && w.files[f].completed
  {
    var p := w.polls[d];
    Snapshotted(c, w, d, f);
    assert PollOk(w, d);
    assert SnapOk(w, d, p, f) && FileOk(c, w, f) && DraftOk(w, d);
  }

  lemma FactsOnBegun(c: Settings, w: World, g: Id, f: Id)
    requires FileFacts(c, w, f) && StampOk(w, f) && g in w.importQueue && g !in w.importing && g in w.files
    requires !w.files[g].completed
    ensures FileFacts(c, ImportBegun(w, g), f)
  {
    if f in w.files && f == g { assert g in w.accepted; }
  }

  lemma FactsOnLost(c: Settings, w: World, g: Id, f: Id)
    requires FileFacts(c, w, f) && (g !in w.files || w.files[g].completed)
    ensures FileFacts(c, ImportLost(w, g), f)
  {}

  lemma FactsOnLand(c: Settings, w: World, g: Id, f: Id)
    requires FileFacts(c, w, f) && CanLand(w, g)
    ensures FileFacts(c, ImportLand(w, g), f)
  {}

  lemma FactsOnSave(c: Settings, w: World, g: Id, f: Id)
    requires FileFacts(c, w, f) && ImportOk(w, g) && FileOk(c, w, g) && CanSaveImport(w, g)
    ensures FileFacts(c, ImportSave(c, w, g), f)
  {}

  lemma FactsOnFail(c: Settings, w: World, g: Id, kept: bool, f: Id)
    requires FileFacts(c, w, f) && StampOk(w, g) && ImportOk(w, g) && g in w.importing
    ensures FileFacts(c, ImportFail(w, g, kept), f)
  {}

  lemma FactsOnCrash(c: Settings, w: World, g: Id, f: Id)
    requires FileFacts(c, w, f) && g in w.importing
    ensures FileFacts(c, ImportCrash(w, g), f)
  {}

  lemma FactsOnImport(c: Settings, w: World, x: ImportStep, f: Id)
    requires Inv(c, w) && ImportEnabled(w, x) && FileFacts(c, w, f)
    ensures FileFacts(c, ApplyImport(c, w, x), f)
  {
    match x
    case Imports(g) =>
      assert StampOk(w, f);
      if g !in w.files || w.files[g].completed { FactsOnLost(c, w, g, f); } else { FactsOnBegun(c, w, g, f); }
    case Lands(g) => FactsOnLand(c, w, g, f);
    case Saves(g) => assert ImportOk(w, g) && FileOk(c, w, g); FactsOnSave(c, w, g, f);
    case Fails(g, kept) => assert ImportOk(w, g) && StampOk(w, g); FactsOnFail(c, w, g, kept, f);
    case Crashes(g) => FactsOnCrash(c, w, g, f);
  }

  lemma FactsOnScan(c: Settings, w: World, x: ScanStep, f: Id)
    requires Inv(c, w) && ScanEnabled(w, x) && FileFacts(c, w, f)
    ensures FileFacts(c, ApplyScan(w, x), f)
  {
    ScanRow(w, x, f);
    assert FileOk(c, w, f);
    if x.Calls? { assert JobOk(w, x.u); }
  }

  lemma FactsKept(c: Settings, w: World, x: Step, f: Id)
    requires Inv(c, w) && Enabled(w, x) && FileFacts(c, w, f)
    ensures FileFacts(c, Apply(c, w, x), f)
  {
    match x
    case OnDraft(y) => FactsOnDraft(c, w, y, f);
    case OnFinalize(y) => FactsOnFinalize(c, w, y, f);
    case OnImport(y) => FactsOnImport(c, w, y, f);
    case OnScan(y) => FactsOnScan(c, w, y, f);
    case OnLink(y) => LinkRow(c, w, y, f);
    case OnSweep(y) => SweepRow(w, y, f);
    case Ticks(seconds) => assert SameWork(w, Later(w, seconds)) && Untouched(w, Later(w, seconds), f);
  }

  lemma {:induction false} FactsRun(c: Settings, w: World, run: seq<Step>, f: Id)
    requires Inv(c, w) && FileFacts(c, w, f) && Possible(c, w, run) && OrderlyRun(c, w, run)
    ensures FileFacts(c, After(c, w, run), f)
    decreases run
  {
    if run != [] {
      FactsKept(c, w, run[0], f);
      Guarantees.StepKeeps(c, w, run[0]);
      FactsRun(c, Apply(c, w, run[0]), run[1..], f);
    }
  }

  lemma FactsHold(c: Settings, w: World, f: Id)
    requires Guarantees.Reachable(c, w)
    ensures FileFacts(c, w, f)
  {
    var run :| Possible(c, EMPTY_WORLD, run) && OrderlyRun(c, EMPTY_WORLD, run) && w == After(c, EMPTY_WORLD, run);
    EmptyInv(c);
    FactsRun(c, EMPTY_WORLD, run, f);
  }

  // --- What a finalize has read stays true of the submission marks ---

  predicate MarkSeen(w: World, d: Id, f: Id) {
    d in w.polls && f in w.polls[d].rows && f in w.files ==> w.polls[d].rows[f].submitted == w.files[f].submitted
  }

  lemma MarkOnDraft(c: Settings, w: World, x: DraftStep, d: Id, f: Id)
    requires Inv(c, w) && DraftEnabled(w, x) && MarkSeen(w, d, f)
    ensures MarkSeen(ApplyDraft(c, w, x), d, f)
  {
    if d in w.polls { Snapshotted(c, w, d, f); }
    match x
    case Adds(e, g, drive, overScanCap) => AddedRow(w, e, g, drive, overScanCap, f); assert FileOk(c, w, g);
    case Completes(e, g, outcome) => CompletedRow(c, w, e, g, outcome, f);
    case Removes(e, g, kept) => RemovedRow(w, e, g, kept, f);
    case Discards(e, kept, _) => DiscardedRow(w, e, kept, f);
    case Rescans(e, rearmed) => RescannedRow(w, e, rearmed, f);
  }

  lemma MarkOnFinalize(c: Settings, w: World, x: FinalizeStep, d: Id, f: Id)
    requires Inv(c, w) && FinalizeEnabled(w, x) && MarkSeen(w, d, f)
    ensures MarkSeen(ApplyFinalize(c, w, x), d, f)
  {
    if d in w.polls { Snapshotted(c, w, d, f); }
    match x
    case Answers(e, b, t) => FinalizeRow(c, w, e, b, t, f);
    case _ =>
  }

  lemma MarkKept(c: Settings, w: World, x: Step, d: Id, f: Id)
    requires Inv(c, w) && Enabled(w, x) && MarkSeen(w, d, f)
    ensures MarkSeen(Apply(c, w, x), d, f)
  {
    match x
    case OnDraft(y) => MarkOnDraft(c, w, y, d, f);
    case OnFinalize(y) => MarkOnFinalize(c, w, y, d, f);
    case OnImport(y) => ImportRow(c, w, y, f);
    case OnScan(y) => ScanRow(w, y, f);
    case OnLink(y) => LinkRow(c, w, y, f);
    case OnSweep(y) => SweepRow(w, y, f);
    case Ticks(_) =>
  }

  lemma {:induction false} MarkRun(c: Settings, w: World, run: seq<Step>, d: Id, f: Id)
    requires Inv(c, w) && MarkSeen(w, d, f) && Possible(c, w, run) && OrderlyRun(c, w, run)
    ensures MarkSeen(After(c, w, run), d, f)
    decreases run
  {
    if run != [] {
      MarkKept(c, w, run[0], d, f);
      Guarantees.StepKeeps(c, w, run[0]);
      MarkRun(c, Apply(c, w, run[0]), run[1..], d, f);
    }
  }

  lemma MarksHold(c: Settings, w: World, d: Id, f: Id)
    requires Guarantees.Reachable(c, w)
    ensures MarkSeen(w, d, f)
  {
    var run :| Possible(c, EMPTY_WORLD, run) && OrderlyRun(c, EMPTY_WORLD, run) && w == After(c, EMPTY_WORLD, run);
    EmptyInv(c);
    MarkRun(c, EMPTY_WORLD, run, d, f);
  }
}
