// The backend's rows, the bucket and the task queues, and every step that changes
// them: draft, Drive import, antivirus scan, transfer, purge, hard delete, sweep.
module World {
  import opened Bytes

  type Id = nat

  datatype ScanStatus = Pending | Clean | Infected | ScanError | Skipped | TooLarge | Unscannable
  datatype ErrorKind = NoKind | Transient | FileBound
  datatype TransferStatus = Active | PendingFileDeletion | Deactivated
  datatype Reason = Manual | Expired | FirstDownload
  datatype Parent = InDraft(draft: Id) | InTransfer(transfer: Id)

  /** home is the draft the file was added to; it survives the reparenting. */
  datatype FileRow = FileRow(
    parent: Parent, home: Id, drive: bool, overScanCap: bool, createdAt: nat,
    uploadOpen: bool, completed: bool, importStarted: bool, importFailed: bool,
    scan: ScanStatus, kind: ErrorKind, submitted: bool)

  datatype DraftRow = DraftRow(key: string, createdAt: nat)

  /** origin is the draft the transfer was made from. */
  datatype TransferRow = TransferRow(
    origin: Id, key: string, confidential: bool, expiresAt: nat,
    status: TransferStatus, reason: Option<Reason>, purgeAt: Option<nat>)

  datatype Settings = Settings(scanEnabled: bool, purgeDelay: nat)

  /** The part of a finalize request body that matters here, as the serializer lets it through. */
  datatype Body = Body(confidential: bool, key: string, lifetime: nat) {
    predicate Accepted() {
      confidential <==> key == ""
    }
  }

  /** A finalize request between its reads and its writes; it holds the draft's row lock. */
  datatype Poll = Poll(body: Body, rows: map<Id, FileRow>)

  /** A batch of import enqueues after its commit: still to send, and refused so far. */
  datatype Batch = Batch(todo: set<Id>, refused: set<Id>)

  /** A running import, with the key it read from its draft. */
  datatype Import = Import(home: Id, key: string, landed: bool)

  /** A file together with the key some worker used on it. */
  datatype Use = Use(file: Id, home: Id, key: string)

  /** A running orphan sweep: the keys it knew, when, its age limit, and what it is about to delete. */
  datatype Sweep = Sweep(known: set<Id>, start: nat, cutoff: Option<int>, batch: set<Id>)

  const DAY := 24 * 3600
  const HOUR := 3600

  datatype World = World(
    now: nat, used: set<Id>,
    drafts: map<Id, DraftRow>, files: map<Id, FileRow>, transfers: map<Id, TransferRow>,
    // Objects of the bucket by file id (the key is transfers/<id>), with their LastModified.
    bucket: map<Id, nat>,
    polls: map<Id, Poll>,
    batches: map<Id, Batch>, importQueue: multiset<Id>, importing: map<Id, Import>,
    scanQueue: multiset<Id>, submitting: set<Use>,
    purging: set<Id>, wiped: set<Id>, sweeps: map<Id, Sweep>,
    // History: what the properties speak about.
    firstKey: map<Id, string>, accepted: multiset<Id>, jobs: set<Use>, sealings: set<Use>, destroyAsked: set<Id>)

  const EMPTY_WORLD := World(0, {}, map[], map[], map[], map[], map[], map[], multiset{}, map[], multiset{}, {}, {}, {},
                             map[], map[], multiset{}, {}, {}, {})

  predicate Exempt(s: ScanStatus) {
    s == Clean || s == Skipped || s == TooLarge || s == Unscannable
  }

  /** Every status except PENDING and a transient ERROR. */
  predicate Settled(r: FileRow) {
    r.scan != Pending && !(r.scan == ScanError && r.kind != FileBound)
  }

  function FilesIn(files: map<Id, FileRow>, p: Parent): set<Id> {
    set f | f in files && files[f].parent == p
  }

  function FilesOf(w: World, p: Parent): set<Id> {
    FilesIn(w.files, p)
  }

  /** The key a worker reads from the row's parent. */
  function ParentKey(w: World, r: FileRow): string {
    match r.parent
    case InDraft(d) => if d in w.drafts then w.drafts[d].key else ""
    case InTransfer(t) => if t in w.transfers then w.transfers[t].key else ""
  }

  predicate Unlocked(w: World, d: Id) {
    d in w.drafts && d !in w.polls
  }

  /** The scan status a row takes when its bytes have landed. */
  function LandedScan(c: Settings, r: FileRow): ScanStatus {
    if !c.scanEnabled then Skipped else if r.overScanCap then TooLarge else r.scan
  }

  function Later(w: World, seconds: nat): World {
    w.(now := w.now + seconds)
  }

  // --- Drafts ---

  /** add-file on an existing draft, or on a fresh one. */
  predicate CanAddFile(w: World, d: Id, f: Id) {
    f !in w.used && (Unlocked(w, d) || (d !in w.used && d != f))
  }

  function AddFile(w: World, d: Id, f: Id, drive: bool, overScanCap: bool): World
    requires CanAddFile(w, d, f)
  {
    w.(used := w.used + {d, f},
       drafts := if d in w.drafts then w.drafts else w.drafts[d := DraftRow("", w.now)],
       files := w.files[f := FileRow(InDraft(d), d, drive, overScanCap, w.now, !drive, false, false, false, Pending,
                                     NoKind, false)])
  }

  datatype Completion = Landed | HeadFails | S3Rejects | SizeMismatch(kept: set<Id>)

  predicate CanCompleteUpload(w: World, d: Id, f: Id) {
    Unlocked(w, d) && f in w.files && w.files[f].parent == InDraft(d) && w.files[f].uploadOpen && !w.files[f].completed
  }

  function CompleteUpload(c: Settings, w: World, d: Id, f: Id, outcome: Completion): World
    requires CanCompleteUpload(w, d, f)
  {
    var landed := w.(bucket := w.bucket[f := w.now]);
    match outcome
    case Landed => landed.(files := w.files[f := w.files[f].(completed := true, uploadOpen := false,
                                                             scan := LandedScan(c, w.files[f]))])
    case HeadFails => landed
    case S3Rejects => DropDraft(w, d)
    case SizeMismatch(kept) => DropDraft(DeleteObjects(landed, FilesOf(w, InDraft(d)), kept), d)
  }

  /** Best-effort deletion: the objects of kept survive because their deletion failed. */
  function DeleteObjects(w: World, files: set<Id>, kept: set<Id>): World {
    w.(bucket := map f | f in w.bucket && (f !in files || f in kept) :: w.bucket[f])
  }

  /** The draft row goes, and its files with it. */
  function DropDraft(w: World, d: Id): World {
    w.(drafts := w.drafts - {d}, files := map f | f in w.files && w.files[f].parent != InDraft(d) :: w.files[f])
  }

  predicate CanRemoveFile(w: World, d: Id, f: Id) {
    Unlocked(w, d) && f in w.files && w.files[f].parent == InDraft(d)
  }

  predicate OnlyFile(w: World, d: Id, f: Id) {
    forall g <- w.files :: w.files[g].parent == InDraft(d) ==> g == f
  }

  /** A draft left without files goes too. */
  function RemoveFile(w: World, d: Id, f: Id, kept: bool): World
    requires CanRemoveFile(w, d, f)
  {
    w.(bucket := if kept then w.bucket else w.bucket - {f},
       files := w.files - {f},
       drafts := if OnlyFile(w, d, f) then w.drafts - {d} else w.drafts)
  }

  /** abort at any time; the cleanup of abandoned drafts only after a day. */
  predicate CanDiscard(w: World, d: Id, cleanup: bool) {
    Unlocked(w, d) && (cleanup ==> w.drafts[d].createdAt + DAY <= w.now)
  }

  function DiscardDraft(w: World, d: Id, kept: set<Id>): World {
    DropDraft(DeleteObjects(w, FilesOf(w, InDraft(d)), kept), d)
  }

  // --- Finalize ---

  function FinalizeRead(w: World, d: Id, body: Body): World
    requires Unlocked(w, d)
  {
    w.(polls := w.polls[d := Poll(body, map f | f in w.files && w.files[f].parent == InDraft(d) :: w.files[f])])
  }

  datatype Answer = BadRequest | StillImporting | StillScanning | Created

  predicate ShapeRefused(p: Poll) {
    || p.rows == map[]
    || (p.body.confidential && exists f <- p.rows :: p.rows[f].drive)
    || exists f <- p.rows :: !p.rows[f].drive && !p.rows[f].completed
  }

  predicate KeyRefused(p: Poll, parked: string) {
    parked != "" && (p.body.confidential || p.body.key != parked)
  }

  /** The status the gate sees: as read, except what this very request marked SKIPPED. */
  function GateScan(c: Settings, p: Poll, r: FileRow): ScanStatus {
    if c.scanEnabled && p.body.confidential && r.scan == Pending then Skipped else r.scan
  }

  predicate Blocks(p: Poll, f: Id)
    requires f in p.rows
  {
    p.rows[f].scan == Infected || p.rows[f].scan == ScanError
  }

  predicate StillScans(c: Settings, p: Poll, f: Id)
    requires f in p.rows
  {
    GateScan(c, p, p.rows[f]) == Pending
  }

  function GateAnswer(c: Settings, p: Poll): Answer {
    if !c.scanEnabled then Created
    else if exists f <- p.rows :: Blocks(p, f) then BadRequest
    else if exists f <- p.rows :: StillScans(c, p, f) then StillScanning
    else Created
  }

  function FinalizeAnswer(c: Settings, p: Poll, parked: string): Answer {
    if ShapeRefused(p) || KeyRefused(p, parked) then BadRequest
    else if exists f <- p.rows :: p.rows[f].drive && p.rows[f].importFailed then BadRequest
    else if exists f <- p.rows :: p.rows[f].drive && !p.rows[f].completed then StillImporting
    else GateAnswer(c, p)
  }

  /** Drive files this request stamps and enqueues. */
  function Starting(p: Poll): set<Id> {
    set f | f in p.rows && p.rows[f].drive && !p.rows[f].completed && !p.rows[f].importStarted
  }

  /** Files this request stamps and submits to the scanner. */
  function Submitting(c: Settings, p: Poll): set<Id> {
    set f | f in p.rows && c.scanEnabled && !p.body.confidential && p.rows[f].scan == Pending
            && p.rows[f].completed && !p.rows[f].submitted
  }

  /** Files this request marks SKIPPED, whatever their row says by now. */
  function Skipping(c: Settings, p: Poll): set<Id> {
    set f | f in p.rows && c.scanEnabled && p.body.confidential && p.rows[f].scan == Pending
  }

  function KeyParked(w: World, d: Id, key: string): World
    requires d in w.drafts
  {
    w.(drafts := w.drafts[d := DraftRow(key, w.drafts[d].createdAt)], firstKey := w.firstKey[d := key])
  }

  /** The draft's first key, once a request commits with one. */
  function Parked(w: World, d: Id, body: Body): World
    requires d in w.drafts
  {
    if body.confidential || w.drafts[d].key != "" then w else KeyParked(w, d, body.key)
  }

  // The one-column UPDATEs, each on the chosen rows only.

  function Stamped(files: map<Id, FileRow>, chosen: set<Id>, started: bool): map<Id, FileRow> {
    map f | f in files :: if f in chosen then files[f].(importStarted := started) else files[f]
  }

  function Skipped_(files: map<Id, FileRow>, chosen: set<Id>): map<Id, FileRow> {
    map f | f in files :: if f in chosen then files[f].(scan := Skipped) else files[f]
  }

  function Submitted(files: map<Id, FileRow>, chosen: set<Id>): map<Id, FileRow> {
    map f | f in files :: if f in chosen then files[f].(submitted := true) else files[f]
  }

  function Rearmed(files: map<Id, FileRow>, chosen: set<Id>): map<Id, FileRow> {
    map f | f in files :: if f in chosen then files[f].(scan := Pending, kind := NoKind, submitted := true)
        else files[f]
  }

  function Reparented(files: map<Id, FileRow>, chosen: set<Id>, t: Id): map<Id, FileRow> {
    map f | f in files :: if f in chosen then files[f].(parent := InTransfer(t)) else files[f]
  }

  /** The writes of a finalize request; b names its import batch, t its transfer. A refusal rolls everything back. */
  function FinalizeWrite(c: Settings, w: World, d: Id, b: Id, t: Id): World
    requires d in w.polls && d in w.drafts
  {
    var p := w.polls[d];
    var released := w.(polls := w.polls - {d});
    var answer := FinalizeAnswer(c, p, w.drafts[d].key);
    if answer == BadRequest then released else Written(c, Parked(released, d, p.body), d, p, b, t, answer)
  }

  /** The writes that follow the parking of the key. */
  function Written(c: Settings, w: World, d: Id, p: Poll, b: Id, t: Id, answer: Answer): World
    requires d in w.drafts
  {
    match answer
    case BadRequest => w
    case StillImporting => ImportsBatched(w, Starting(p), b)
    case StillScanning => ScansSubmitted(w, Submitting(c, p), Skipping(c, p))
    case Created => CreateTransfer(ScansSubmitted(w, Submitting(c, p), Skipping(c, p)), d, t, p.body)
  }

  /** The stamps of the files to import, with one enqueue callback for all of them. */
  function ImportsBatched(w: World, starting: set<Id>, b: Id): World {
    if starting == {} then w
    else w.(used := w.used + {b}, files := Stamped(w.files, starting, true),
            batches := w.batches[b := Batch(starting, {})])
  }

  function ScansSubmitted(w: World, submitted: set<Id>, skipped: set<Id>): World {
    w.(files := Submitted(Skipped_(w.files, skipped), submitted),
       scanQueue := w.scanQueue + multiset(submitted))
  }

  function CreateTransfer(w: World, d: Id, t: Id, body: Body): World
    requires d in w.drafts
  {
    w.(used := w.used + {t},
       transfers := w.transfers[t := TransferRow(d, w.drafts[d].key, body.confidential, w.now + body.lifetime,
                                                 Active, None, None)],
       files := Reparented(w.files, FilesOf(w, InDraft(d)), t),
       drafts := w.drafts - {d})
  }

  // --- Import enqueue callback and import task ---

  function BatchSend(w: World, b: Id, f: Id, ok: bool): World
    requires b in w.batches && f in w.batches[b].todo
  {
    var rest := w.batches[b].todo - {f};
    if ok then w.(batches := w.batches[b := Batch(rest, w.batches[b].refused)],
                  importQueue := w.importQueue + multiset{f}, accepted := w.accepted + multiset{f})
    else w.(batches := w.batches[b := Batch(rest, w.batches[b].refused + {f})])
  }

  /** The callback ends: the stamp of every refused file is cleared. */
  function BatchEnd(w: World, b: Id): World
    requires b in w.batches
  {
    w.(files := Stamped(w.files, w.batches[b].refused, false), batches := w.batches - {b})
  }

  function ImportLost(w: World, f: Id): World {
    w.(importQueue := w.importQueue - multiset{f})
  }

  function ImportBegun(w: World, f: Id): World
    requires f in w.files
  {
    w.(importQueue := w.importQueue - multiset{f},
       importing := w.importing[f := Import(w.files[f].home, ParentKey(w, w.files[f]), false)],
       files := w.files[f := w.files[f].(uploadOpen := true)])
  }

  /** A message for a row that is gone, or whose import already landed, is dropped. */
  function ImportStart(w: World, f: Id): World
    requires f in w.importQueue && f !in w.importing
  {
    if f !in w.files || w.files[f].completed then ImportLost(w, f) else ImportBegun(w, f)
  }

  predicate CanLand(w: World, f: Id) {
    f in w.importing && w.importing[f].key != ""
  }

  /** The multipart upload completes: the object is there, sealed with the key the task read. */
  function ImportLand(w: World, f: Id): World
    requires CanLand(w, f)
  {
    var i := w.importing[f];
    w.(bucket := w.bucket[f := w.now], importing := w.importing[f := i.(landed := true)],
       sealings := w.sealings + {Use(f, i.home, i.key)})
  }

  predicate CanSaveImport(w: World, f: Id) {
    f in w.importing && w.importing[f].landed && f in w.files
  }

  function ImportSave(c: Settings, w: World, f: Id): World
    requires CanSaveImport(w, f)
  {
    w.(importing := w.importing - {f},
       files := w.files[f := w.files[f].(completed := true, uploadOpen := false, scan := LandedScan(c, w.files[f]))])
  }

  /** Any exception of the task: the object is deleted unless that fails too, the row is marked. */
  function ImportFail(w: World, f: Id, kept: bool): World
    requires f in w.importing
  {
    w.(bucket := if kept then w.bucket else w.bucket - {f},
       importing := w.importing - {f},
       files := if f in w.files then w.files[f := w.files[f].(uploadOpen := false, importFailed := true)] else w.files)
  }

  /** The worker dies: the broker hands the message to another one. */
  function ImportCrash(w: World, f: Id): World
    requires f in w.importing
  {
    w.(importing := w.importing - {f}, importQueue := w.importQueue + multiset{f})
  }

  // --- Scans ---

  predicate CanRearm(w: World, d: Id, f: Id) {
    && f in w.files && w.files[f].parent == InDraft(d) && w.files[f].completed
    && (w.files[f].scan == Pending || (w.files[f].scan == ScanError && w.files[f].kind != FileBound))
  }

  /** rescan: re-arms the files whose scan is lost (their stamps are the concern of ScanClaims). */
  function Rescan(w: World, d: Id, rearmed: set<Id>): World
    requires forall f <- rearmed :: CanRearm(w, d, f)
  {
    w.(files := Rearmed(w.files, rearmed),
       scanQueue := w.scanQueue + multiset(rearmed))
  }

  predicate Submittable(w: World, f: Id) {
    f in w.files && w.files[f].completed && w.files[f].scan == Pending && ParentKey(w, w.files[f]) != ""
  }

  /** submit_scan_task up to its POST: gives up quietly on a file gone or settled, or without a key. */
  function SubmitStart(w: World, f: Id): World
    requires f in w.scanQueue
  {
    w.(scanQueue := w.scanQueue - multiset{f},
       submitting := if Submittable(w, f) then w.submitting + {Use(f, w.files[f].home, ParentKey(w, w.files[f]))}
                     else w.submitting)
  }

  datatype PostOutcome = Accepted | Retried | GivenUp

  function SubmitPost(w: World, u: Use, outcome: PostOutcome): World
    requires u in w.submitting
  {
    var v := w.(submitting := w.submitting - {u});
    match outcome
    case Accepted => v.(jobs := w.jobs + {u})
    case Retried => v.(scanQueue := w.scanQueue + multiset{u.file})
    case GivenUp => v
  }

  /** What a callback body maps to (see ScanVerdicts). */
  predicate IsVerdict(s: ScanStatus, k: ErrorKind) {
    && (s == Clean || s == Infected || s == Unscannable || s == ScanError)
    && (k != NoKind ==> s == ScanError)
  }

  function VerdictSet(w: World, f: Id, s: ScanStatus, k: ErrorKind): World
    requires f in w.files
  {
    w.(files := w.files[f := w.files[f].(scan := s, kind := k)])
  }

  /** The scanner's callback: only a PENDING row takes it. */
  function Webhook(w: World, job: Use, s: ScanStatus, k: ErrorKind): World {
    if job.file in w.files && w.files[job.file].scan == Pending then VerdictSet(w, job.file, s, k) else w
  }

  function Reap(w: World, f: Id): World
    requires f in w.files && w.files[f].scan == Pending && w.files[f].submitted
  {
    w.(scanQueue := w.scanQueue + multiset{f})
  }

  // --- Transfer lifecycle ---

  function LinkSet(w: World, t: Id, row: TransferRow): World {
    w.(transfers := w.transfers[t := row])
  }

  /** Transfer.deactivate: one conditional UPDATE. */
  function Deactivate(c: Settings, w: World, t: Id, reason: Reason): World
    requires t in w.transfers
  {
    if w.transfers[t].status == Active
    then LinkSet(w, t, w.transfers[t].(status := PendingFileDeletion, reason := Some(reason),
                                       purgeAt := Some(w.now + c.purgeDelay)))
    else w
  }

  predicate PurgeDue(w: World, t: Id) {
    && t in w.transfers && w.transfers[t].status == PendingFileDeletion
    && w.transfers[t].purgeAt.Some? && w.transfers[t].purgeAt.value <= w.now
  }

  function PurgeRead(w: World): World {
    w.(purging := w.purging + set t | t in w.transfers && PurgeDue(w, t))
  }

  function Marked(w: World, purging: set<Id>, wiped: set<Id>): World {
    w.(purging := purging, wiped := wiped)
  }

  /** delete_s3_objects: complete only if no deletion failed, otherwise the transfer waits for the next run. */
  function PurgeWipe(w: World, t: Id, kept: set<Id>): World
    requires t in w.purging
  {
    var files := FilesOf(w, InTransfer(t));
    var v := DeleteObjects(w, files, kept);
    if files !! kept then Marked(v, w.purging, w.wiped + {t}) else Marked(v, w.purging - {t}, w.wiped - {t})
  }

  function PurgeFlip(w: World, t: Id): World
    requires t in w.wiped
  {
    var flipped := if t in w.transfers then LinkSet(w, t, w.transfers[t].(status := Deactivated, purgeAt := None))
        else w;
    Marked(flipped, w.purging - {t}, w.wiped - {t})
  }

  function DestroyAsked(w: World, t: Id): World {
    w.(destroyAsked := w.destroyAsked + {t})
  }

  /** perform_destroy: refused while ACTIVE, and when a deletion fails. */
  function Destroy(w: World, t: Id, kept: set<Id>): World
    requires t in w.transfers
  {
    var files := FilesOf(w, InTransfer(t));
    match w.transfers[t].status
    case Active => w
    case PendingFileDeletion =>
      var v := DeleteObjects(DestroyAsked(w, t), files, kept);
      if files !! kept then DropTransfer(v, t) else v
    case Deactivated => DropTransfer(w, t)
  }

  function DropTransfer(w: World, t: Id): World {
    w.(transfers := w.transfers - {t},
       files := map f | f in w.files && w.files[f].parent != InTransfer(t) :: w.files[f])
  }

  // --- Downloads ---

  /** DownloadFileView.get up to the presigned URL; resuming means the request carries a valid resume token. */
  predicate Admits(w: World, t: Id, f: Id, resuming: bool) {
    && t in w.transfers && f in w.files && w.files[f].parent == InTransfer(t)
    && (ResumeGrace(w.transfers[t], resuming, w.now)
        || (w.transfers[t].status == Active && w.now < w.transfers[t].expiresAt))
    && w.files[f].completed && Exempt(w.files[f].scan)
  }

  predicate ResumeGrace(r: TransferRow, resuming: bool, now: nat) {
    && resuming && r.status == PendingFileDeletion && r.reason == Some(FirstDownload)
    && r.purgeAt.Some? && r.purgeAt.value > now
  }

  // --- Orphan sweep ---

  function SweepStart(w: World, s: Id, minAgeHours: nat): World {
    var cutoff := if minAgeHours > 0 then Some(w.now - minAgeHours * HOUR) else None;
    w.(sweeps := w.sweeps[s := Sweep(w.files.Keys, w.now, cutoff, {})])
  }

  predicate IsOrphan(w: World, s: Sweep, f: Id) {
    f in w.bucket && f !in s.known && (s.cutoff.None? || w.bucket[f] <= s.cutoff.value)
  }

  /** The listing reached an orphan: it goes into the batch, and is deleted when the batch is flushed. */
  function SweepList(w: World, s: Id, f: Id): World
    requires s in w.sweeps
  {
    w.(sweeps := w.sweeps[s := w.sweeps[s].(batch := w.sweeps[s].batch + {f})])
  }

  function SweepDelete(w: World, f: Id): World {
    w.(bucket := w.bucket - {f})
  }
}
