// The browser's uploader: concurrent workers that share one index, seal and send
// one slice at a time with retries, and report throttled progress. JavaScript runs
// one task at a time, so an execution is a sequence of events between awaits.
module MultipartUpload {
  import opened Bytes
  import opened ChunkLayout
  import opened Aead

  const MAX_ATTEMPTS := 5

  datatype UploadedPart = UploadedPart(partNumber: nat, etag: nat)

  /** What the bucket holds for a part number of the open multipart upload. */
  datatype StoredPart = StoredPart(etag: nat, body: bytes)

  datatype Worker =
    | Idle
    | Signing(part: nat, attempt: nat)
    | Sending(part: nat, attempt: nat, body: bytes)
    | Finished
    | Threw(lost: nat)
  {
    predicate Active() {
      Signing? || Sending?
    }
  }

  /** Where a part is: not yet claimed, with a worker, or at a position of the result list. */
  datatype Place = Unclaimed | Held(worker: nat) | Done(index: nat)

  datatype Event =
    | Claim(w: nat)
    | Send(w: nat, box: bytes)
    | Progress(w: nat, loaded: nat, flush: bool)
    | Succeed(w: nat, flush: bool)
    | FailAttempt(w: nat, landed: bool)
    | TimerFires

  function Sum(xs: seq<nat>): nat {
    if xs == [] then 0 else Sum(xs[..|xs| - 1]) + xs[|xs| - 1]
  }

  lemma {:induction false} SumUpdate(xs: seq<nat>, i: nat, x: nat)
    requires i < |xs|
    ensures Sum(xs[i := x]) == Sum(xs) - xs[i] + x
  {
    var n := |xs| - 1;
    var ys := xs[i := x];
    if i < n {
      SumUpdate(xs[..n], i, x);
      assert ys[..n] == xs[..n][i := x];
    } else {
      assert ys[..n] == xs[..n];
    }
  }

  lemma {:induction false} SumMono(xs: seq<nat>, ys: seq<nat>)
    requires |xs| == |ys| && forall i :: 0 <= i < |xs| ==> xs[i] <= ys[i]
    ensures Sum(xs) <= Sum(ys)
  {
    if xs != [] { SumMono(xs[..|xs| - 1], ys[..|ys| - 1]); }
  }

  lemma {:induction false} SumZero(n: nat)
    ensures Sum(seq(n, _ => 0)) == 0
  {
    if n != 0 {
      assert seq(n, _ => 0)[..n - 1] == seq(n - 1, _ => 0);
      SumZero(n - 1);
    }
  }

  /** Sealed length of part k. */
  function SealedLength(file: bytes, chunk: int, k: int): nat
    requires 0 < chunk && 1 <= k <= TotalParts(|file|, chunk)
  {
    |PlainChunk(file, chunk, k)| + OVERHEAD
  }

  function SealedLengths(file: bytes, chunk: int, n: nat): (s: seq<nat>)
    requires 0 < chunk && n <= TotalParts(|file|, chunk)
    ensures |s| == n && forall i :: 0 <= i < n ==> s[i] == SealedLength(file, chunk, i + 1)
  {
    if n == 0 then [] else SealedLengths(file, chunk, n - 1) + [SealedLength(file, chunk, n)]
  }

  lemma {:induction false} SealedLengthsSum(file: bytes, chunk: int, n: nat)
    requires 0 < chunk && n <= TotalParts(|file|, chunk)
    ensures Sum(SealedLengths(file, chunk, n)) == |PrefixThrough(file, chunk, n)| + n * OVERHEAD
  {
    if n != 0 {
      SealedLengthsSum(file, chunk, n - 1);
      var s := SealedLengths(file, chunk, n - 1);
      assert (s + [SealedLength(file, chunk, n)])[..n - 1] == s;
    }
  }

  /** The declared total is the sum of what the parts weigh once sealed. */
  lemma SealedTotal(file: bytes, chunk: int)
    requires 0 < chunk
    ensures Sum(SealedLengths(file, chunk, TotalParts(|file|, chunk))) == CiphertextSize(|file|, chunk)
  {
    SealedLengthsSum(file, chunk, TotalParts(|file|, chunk));
    ChunksConcatenate(file, chunk, TotalParts(|file|, chunk));
  }

  /** What one uploader is for. */
  datatype Job = Job(file: bytes, fileId: string, chunkSize: int) {
    function Parts(): nat
      requires 0 < chunkSize
    {
      TotalParts(|file|, chunkSize)
    }

    function Aad(p: nat): string
      requires 0 < chunkSize
    {
      AadForChunk(fileId, p, Parts())
    }
  }

  /** A snapshot of the uploader, with its side of the bucket and the log of its key. */
  datatype State = State(
    partProgress: seq<nat>, nextIndex: nat, uploaded: seq<UploadedPart>, workers: seq<Worker>,
    timerArmed: bool, reports: seq<nat>,
    stored: map<nat, StoredPart>, nextTag: nat,
    log: SealLog, place: seq<Place>)
  {
    function LastReport(): nat {
      if reports == [] then 0 else reports[|reports| - 1]
    }

    /** reportProgress: flush now, or leave it to the trailing timer. */
    function Reported(flush: bool): State {
      if flush then this.(timerArmed := false, reports := reports + [Sum(partProgress)])
      else this.(timerArmed := true)
    }
  }

  /** A free worker takes the next index, or finds none left. */
  function ClaimPart(job: Job, s: State, w: nat): State
    requires Shape(job, s) && w < |s.workers|
  {
    var t := s.(nextIndex := s.nextIndex + 1);
    if s.nextIndex >= job.Parts() then t.(workers := s.workers[w := Finished])
    else t.(workers := s.workers[w := Signing(s.nextIndex + 1, 0)], place := s.place[s.nextIndex := Held(w)])
  }

  /** The slice is signed for, sealed and put on the wire; its progress starts over. */
  function SendPart(job: Job, s: State, w: nat, box: bytes): State
    requires Shape(job, s) && w < |s.workers| && s.workers[w].Signing? && 1 <= s.workers[w].part <= job.Parts()
  {
    var p := s.workers[w].part;
    s.(log := s.log[(job.Aad(p), box) := Slice(job, p)],
       partProgress := s.partProgress[p - 1 := 0],
       workers := s.workers[w := Sending(p, s.workers[w].attempt, box)])
  }

  function ProgressPart(job: Job, s: State, w: nat, loaded: nat, flush: bool): State
    requires InFlight(job, s, w)
  {
    s.(partProgress := s.partProgress[s.workers[w].part - 1 := loaded]).Reported(flush)
  }

  /** The bucket took the part: the worker is free again and its part is on the list. */
  function SucceedPart(job: Job, s: State, w: nat, flush: bool): State
    requires InFlight(job, s, w)
  {
    var p, body := s.workers[w].part, s.workers[w].body;
    s.(stored := s.stored[p := StoredPart(s.nextTag, body)], nextTag := s.nextTag + 1,
       partProgress := s.partProgress[p - 1 := |body|],
       uploaded := s.uploaded + [UploadedPart(p, s.nextTag)],
       workers := s.workers[w := Idle],
       place := s.place[p - 1 := Done(|s.uploaded|)]).Reported(flush)
  }

  /** An attempt failed; the bucket may have taken the part all the same. */
  function FailPart(s: State, w: nat, landed: bool): State
    requires w < |s.workers| && s.workers[w].Active()
  {
    var old_ := s.workers[w];
    var next := if old_.attempt < MAX_ATTEMPTS - 1 then Signing(old_.part, old_.attempt + 1) else Threw(old_.part);
    var t := s.(workers := s.workers[w := next]);
    if landed && old_.Sending?
    then t.(stored := s.stored[old_.part := StoredPart(s.nextTag, old_.body)], nextTag := s.nextTag + 1)
    else t
  }

  /** One event, if it is possible in this state; otherwise nothing happens. */
  function Step(job: Job, s: State, e: Event): State
    requires Shape(job, s)
  {
    match e
    case Claim(w) => if w < |s.workers| && s.workers[w] == Idle then ClaimPart(job, s, w) else s
    case Send(w, box) =>
      if w < |s.workers| && s.workers[w].Signing? && 1 <= s.workers[w].part <= job.Parts()
      then SendPart(job, s, w, box) else s
    case Progress(w, loaded, flush) =>
      if InFlight(job, s, w) && loaded <= |s.workers[w].body| then ProgressPart(job, s, w, loaded, flush) else s
    case Succeed(w, flush) => if InFlight(job, s, w) then SucceedPart(job, s, w, flush) else s
    case FailAttempt(w, landed) => if w < |s.workers| && s.workers[w].Active() then FailPart(s, w, landed) else s
    case TimerFires => if s.timerArmed then s.Reported(true) else s
  }

  predicate InFlight(job: Job, s: State, w: nat)
  {
    Shape(job, s) && w < |s.workers| && s.workers[w].Sending? && 1 <= s.workers[w].part <= job.Parts()
  }

  /** getBlob: the slice of the file a part carries. */
  function Slice(job: Job, p: nat): (blob: bytes)
    requires 0 < job.chunkSize && 1 <= p <= job.Parts()
    ensures blob == PlainChunk(job.file, job.chunkSize, p)
  {
    PartStartInside(|job.file|, job.chunkSize, p);
    var start := (p - 1) * job.chunkSize;
    var end := if start + job.chunkSize < |job.file| then start + job.chunkSize else |job.file|;
    job.file[start..end]
  }

  /** Sealing adds a box of the right length that was not already something else. */
  predicate PossibleBox(job: Job, s: State, e: Event)
    requires 0 < job.chunkSize
  {
    e.Send? && e.w < |s.workers| && s.workers[e.w].Signing? && 1 <= s.workers[e.w].part <= job.Parts() ==>
      var p := s.workers[e.w].part;
      && |e.box| == SealedLength(job.file, job.chunkSize, p)
      && ((job.Aad(p), e.box) in s.log ==> s.log[(job.Aad(p), e.box)] == Slice(job, p))
  }

  predicate Shape(job: Job, s: State) {
    && 0 < job.chunkSize
    && |s.partProgress| == |s.place| == job.Parts()
  }

  /** Every part is in exactly one place, and the places agree with the workers and the list. */
  ghost predicate Accounted(job: Job, s: State) {
    && Shape(job, s)
    && (forall j: nat :: j < |s.place| ==> PlaceRight(s, j))
    && (forall w: nat :: w < |s.workers| ==> WorkerRight(job, s, w))
    && (forall i: nat :: i < |s.uploaded| ==> EntryRight(job, s, i))
  }

  ghost predicate PlaceRight(s: State, j: nat)
    requires j < |s.place|
  {
    && (s.place[j] == Unclaimed <==> s.nextIndex <= j)
    && (s.place[j].Held? ==>
          && s.place[j].worker < |s.workers|
          && var w := s.workers[s.place[j].worker];
             (w.Active() && w.part == j + 1) || w == Threw(j + 1))
    && (s.place[j].Done? ==> s.place[j].index < |s.uploaded| && s.uploaded[s.place[j].index].partNumber == j + 1)
  }

  ghost predicate WorkerRight(job: Job, s: State, w: nat)
    requires w < |s.workers| && Shape(job, s)
  {
    && (s.workers[w].Active() ==> 1 <= s.workers[w].part <= job.Parts() && s.place[s.workers[w].part - 1] == Held(w))
    && (s.workers[w].Threw? ==> 1 <= s.workers[w].lost <= job.Parts() && s.place[s.workers[w].lost - 1] == Held(w))
    && (s.workers[w] == Finished ==> job.Parts() <= s.nextIndex)
  }

  ghost predicate EntryRight(job: Job, s: State, i: nat)
    requires i < |s.uploaded| && Shape(job, s)
  {
    1 <= s.uploaded[i].partNumber <= job.Parts() && s.place[s.uploaded[i].partNumber - 1] == Done(i)
  }

  lemma AccountedClaim(job: Job, s: State, w: nat)
    requires Accounted(job, s) && w < |s.workers| && s.workers[w] == Idle
    ensures Accounted(job, ClaimPart(job, s, w))
  {
    var t := ClaimPart(job, s, w);
    if s.nextIndex < job.Parts() { assert PlaceRight(s, s.nextIndex); }
    forall j: nat | j < |t.place| ensures PlaceRight(t, j) { assert PlaceRight(s, j); }
    forall v: nat | v < |t.workers| ensures WorkerRight(job, t, v) { assert WorkerRight(job, s, v); }
    forall i: nat | i < |t.uploaded| ensures EntryRight(job, t, i) { assert EntryRight(job, s, i); }
  }

  lemma AccountedSend(job: Job, s: State, w: nat, box: bytes)
    requires Accounted(job, s) && w < |s.workers| && s.workers[w].Signing? && 1 <= s.workers[w].part <= job.Parts()
    ensures Accounted(job, SendPart(job, s, w, box))
  {
    var t := SendPart(job, s, w, box);
    forall j: nat | j < |t.place| ensures PlaceRight(t, j) { assert PlaceRight(s, j); }
    forall v: nat | v < |t.workers| ensures WorkerRight(job, t, v) { assert WorkerRight(job, s, v); }
    forall i: nat | i < |t.uploaded| ensures EntryRight(job, t, i) { assert EntryRight(job, s, i); }
  }

  lemma AccountedSucceed(job: Job, s: State, w: nat, flush: bool)
    requires Accounted(job, s) && InFlight(job, s, w)
    ensures Accounted(job, SucceedPart(job, s, w, flush))
  {
    var t := SucceedPart(job, s, w, flush);
    assert WorkerRight(job, s, w);
    forall j: nat | j < |t.place| ensures PlaceRight(t, j) { assert PlaceRight(s, j); }
    forall v: nat | v < |t.workers| ensures WorkerRight(job, t, v) { assert WorkerRight(job, s, v); }
    forall i: nat | i < |t.uploaded| ensures EntryRight(job, t, i) {
      if i < |s.uploaded| { assert EntryRight(job, s, i); }
    }
  }

  lemma AccountedFail(job: Job, s: State, w: nat, landed: bool)
    requires Accounted(job, s) && w < |s.workers| && s.workers[w].Active()
    ensures Accounted(job, FailPart(s, w, landed))
  {
    var t := FailPart(s, w, landed);
    forall j: nat | j < |t.place| ensures PlaceRight(t, j) { assert PlaceRight(s, j); }
    forall v: nat | v < |t.workers| ensures WorkerRight(job, t, v) { assert WorkerRight(job, s, v); }
    forall i: nat | i < |t.uploaded| ensures EntryRight(job, t, i) { assert EntryRight(job, s, i); }
  }

  /** Nothing the accounting looks at differs. */
  lemma AccountedSame(job: Job, s: State, t: State)
    requires Accounted(job, s) && |t.partProgress| == |s.partProgress|
    requires t.place == s.place && t.workers == s.workers && t.uploaded == s.uploaded && t.nextIndex == s.nextIndex
    ensures Accounted(job, t)
  {
    forall j: nat | j < |t.place| ensures PlaceRight(t, j) { assert PlaceRight(s, j); }
    forall v: nat | v < |t.workers| ensures WorkerRight(job, t, v) { assert WorkerRight(job, s, v); }
    forall i: nat | i < |t.uploaded| ensures EntryRight(job, t, i) { assert EntryRight(job, s, i); }
  }

  /** A box that opens, at the part's place, to the part's slice. */
  predicate IsSealed(job: Job, log: SealLog, p: nat, body: bytes)
    requires 0 < job.chunkSize && 1 <= p <= job.Parts()
  {
    && Open(log, job.Aad(p), body) == Some(PlainChunk(job.file, job.chunkSize, p))
    && |body| == SealedLength(job.file, job.chunkSize, p)
  }

  ghost predicate WorkerSealed(job: Job, s: State, w: nat)
    requires w < |s.workers| && Shape(job, s)
  {
    s.workers[w].Sending? ==>
        1 <= s.workers[w].part <= job.Parts() && IsSealed(job, s.log, s.workers[w].part, s.workers[w].body)
  }

  ghost predicate EntrySealed(job: Job, s: State, i: nat)
    requires i < |s.uploaded| && Shape(job, s)
  {
    var p := s.uploaded[i].partNumber;
    && p in s.stored && 1 <= p <= job.Parts()
    && s.stored[p].etag == s.uploaded[i].etag
    && IsSealed(job, s.log, p, s.stored[p].body)
  }

  /** What is on the wire, and what the bucket holds for a listed part, is a sealing of the part's own slice. */
  ghost predicate Sealed(job: Job, s: State) {
    && Shape(job, s)
    && (forall w: nat :: w < |s.workers| ==> WorkerSealed(job, s, w))
    && (forall i: nat :: i < |s.uploaded| ==> EntrySealed(job, s, i))
  }

  lemma SealedSend(job: Job, s: State, w: nat, box: bytes)
    requires Sealed(job, s) && w < |s.workers| && s.workers[w].Signing? && 1 <= s.workers[w].part <= job.Parts()
    requires PossibleBox(job, s, Send(w, box))
    ensures Sealed(job, SendPart(job, s, w, box))
  {
    var t := SendPart(job, s, w, box);
    forall v: nat | v < |t.workers| ensures WorkerSealed(job, t, v) { assert WorkerSealed(job, s, v); }
    forall i: nat | i < |t.uploaded| ensures EntrySealed(job, t, i) { assert EntrySealed(job, s, i); }
  }

  lemma SealedSucceed(job: Job, s: State, w: nat, flush: bool)
    requires Accounted(job, s) && Sealed(job, s) && InFlight(job, s, w)
    ensures Sealed(job, SucceedPart(job, s, w, flush))
  {
    var t := SucceedPart(job, s, w, flush);
    assert WorkerRight(job, s, w) && WorkerSealed(job, s, w);
    forall v: nat | v < |t.workers| ensures WorkerSealed(job, t, v) { assert WorkerSealed(job, s, v); }
    forall i: nat | i < |t.uploaded| ensures EntrySealed(job, t, i) {
      if i < |s.uploaded| { assert EntrySealed(job, s, i) && EntryRight(job, s, i); }
    }
  }

  lemma SealedFail(job: Job, s: State, w: nat, landed: bool)
    requires Accounted(job, s) && Sealed(job, s) && w < |s.workers| && s.workers[w].Active()
    ensures Sealed(job, FailPart(s, w, landed))
  {
    var t := FailPart(s, w, landed);
    assert WorkerRight(job, s, w) && WorkerSealed(job, s, w);
    forall v: nat | v < |t.workers| ensures WorkerSealed(job, t, v) { assert WorkerSealed(job, s, v); }
    forall i: nat | i < |t.uploaded| ensures EntrySealed(job, t, i) {
      assert EntrySealed(job, s, i) && EntryRight(job, s, i);
    }
  }

  /** Only idle and finished workers differ. */
  lemma SealedSame(job: Job, s: State, t: State)
    requires Sealed(job, s) && Shape(job, t)
    requires t.uploaded == s.uploaded && t.stored == s.stored && t.log == s.log && |t.workers| == |s.workers|
    requires forall v: nat :: v < |t.workers| ==> t.workers[v] == s.workers[v] || !t.workers[v].Sending?
    ensures Sealed(job, t)
  {
    forall v: nat | v < |t.workers| ensures WorkerSealed(job, t, v) { assert WorkerSealed(job, s, v); }
    forall i: nat | i < |t.uploaded| ensures EntrySealed(job, t, i) { assert EntrySealed(job, s, i); }
  }

  ghost predicate ProgressRight(job: Job, s: State, j: nat)
    requires j < |s.partProgress| && Shape(job, s)
  {
    && s.partProgress[j] <= SealedLength(job.file, job.chunkSize, j + 1)
    && (s.place[j].Done? ==> s.partProgress[j] == SealedLength(job.file, job.chunkSize, j + 1))
  }

  /** Some worker still has a part to deliver, or gave up on one. */
  ghost predicate Busy(s: State) {
    exists w: nat :: w < |s.workers| && IsBusy(s.workers[w])
  }

  predicate IsBusy(w: Worker) {
    w.Active() || w.Threw?
  }

  /** The last value handed to onProgress is current, unless a flush is due or a part is under way. */
  ghost predicate Current(s: State) {
    s.timerArmed || s.LastReport() == Sum(s.partProgress) || Busy(s)
  }

  /** No byte is counted twice, and no report exceeds the declared total. */
  ghost predicate Counted(job: Job, s: State) {
    && Shape(job, s)
    && (forall j: nat :: j < |s.partProgress| ==> ProgressRight(job, s, j))
    && (forall i: nat :: i < |s.reports| ==> s.reports[i] <= CiphertextSize(|job.file|, job.chunkSize))
    && Current(s)
  }

  lemma ProgressBounded(job: Job, s: State)
    requires Shape(job, s) && forall j: nat :: j < |s.partProgress| ==> ProgressRight(job, s, j)
    ensures Sum(s.partProgress) <= CiphertextSize(|job.file|, job.chunkSize)
  {
    SealedTotal(job.file, job.chunkSize);
    var full := SealedLengths(job.file, job.chunkSize, job.Parts());
    forall j | 0 <= j < |full| ensures s.partProgress[j] <= full[j] { assert ProgressRight(job, s, j); }
    SumMono(s.partProgress, full);
  }

  lemma CountedReported(job: Job, s: State, flush: bool)
    requires Shape(job, s) && forall j: nat :: j < |s.partProgress| ==> ProgressRight(job, s, j)
    requires forall i: nat :: i < |s.reports| ==> s.reports[i] <= CiphertextSize(|job.file|, job.chunkSize)
    ensures Counted(job, s.Reported(flush))
  {
    ProgressBounded(job, s);
    var t := s.Reported(flush);
    forall j: nat | j < |t.partProgress| ensures ProgressRight(job, t, j) { assert ProgressRight(job, s, j); }
  }

  lemma CountedClaim(job: Job, s: State, w: nat)
    requires Counted(job, s) && w < |s.workers| && s.workers[w] == Idle
    ensures Counted(job, ClaimPart(job, s, w))
  {
    var t := ClaimPart(job, s, w);
    forall j: nat | j < |t.partProgress| ensures ProgressRight(job, t, j) { assert ProgressRight(job, s, j); }
    if v: nat :| v < |s.workers| && IsBusy(s.workers[v]) {
      assert v < |t.workers| && IsBusy(t.workers[v]);
    }
  }

  lemma CountedSend(job: Job, s: State, w: nat, box: bytes)
    requires Accounted(job, s) && Counted(job, s) && w < |s.workers| && s.workers[w].Signing?
    requires 1 <= s.workers[w].part <= job.Parts()
    ensures Counted(job, SendPart(job, s, w, box))
  {
    var t := SendPart(job, s, w, box);
    assert WorkerRight(job, s, w);
    forall j: nat | j < |t.partProgress| ensures ProgressRight(job, t, j) { assert ProgressRight(job, s, j); }
    assert IsBusy(t.workers[w]);
  }

  lemma CountedProgress(job: Job, s: State, w: nat, loaded: nat, flush: bool)
    requires Accounted(job, s) && Sealed(job, s) && Counted(job, s) && InFlight(job, s, w)
    requires loaded <= |s.workers[w].body|
    ensures Counted(job, ProgressPart(job, s, w, loaded, flush))
  {
    assert WorkerRight(job, s, w) && WorkerSealed(job, s, w);
    var t := s.(partProgress := s.partProgress[s.workers[w].part - 1 := loaded]);
    forall j: nat | j < |t.partProgress| ensures ProgressRight(job, t, j) { assert ProgressRight(job, s, j); }
    CountedReported(job, t, flush);
  }

  lemma CountedSucceed(job: Job, s: State, w: nat, flush: bool)
    requires Accounted(job, s) && Sealed(job, s) && Counted(job, s) && InFlight(job, s, w)
    ensures Counted(job, SucceedPart(job, s, w, flush))
  {
    assert WorkerRight(job, s, w) && WorkerSealed(job, s, w);
    var p, body := s.workers[w].part, s.workers[w].body;
    var t := s.(stored := s.stored[p := StoredPart(s.nextTag, body)], nextTag := s.nextTag + 1,
       partProgress := s.partProgress[p - 1 := |body|],
       uploaded := s.uploaded + [UploadedPart(p, s.nextTag)],
       workers := s.workers[w := Idle],
       place := s.place[p - 1 := Done(|s.uploaded|)]);
    forall j: nat | j < |t.partProgress| ensures ProgressRight(job, t, j) { assert ProgressRight(job, s, j); }
    CountedReported(job, t, flush);
  }

  lemma CountedFail(job: Job, s: State, w: nat, landed: bool)
    requires Counted(job, s) && w < |s.workers| && s.workers[w].Active()
    ensures Counted(job, FailPart(s, w, landed))
  {
    var t := FailPart(s, w, landed);
    forall j: nat | j < |t.partProgress| ensures ProgressRight(job, t, j) { assert ProgressRight(job, s, j); }
    assert IsBusy(t.workers[w]);
  }

  /** What every event keeps. */
  ghost predicate Inv(job: Job, s: State) {
    Accounted(job, s) && Sealed(job, s) && Counted(job, s)
  }

  function Start(job: Job, parallelism: nat, log: SealLog): State
    requires 0 < job.chunkSize
  {
    var n := job.Parts();
    State(seq(n, _ => 0), 0, [], seq(if parallelism < n then parallelism else n, _ => Idle), false, [], map[], 0,
          log, seq(n, _ => Unclaimed))
  }

  lemma StartInv(job: Job, parallelism: nat, log: SealLog)
    requires 0 < job.chunkSize
    ensures Inv(job, Start(job, parallelism, log))
  {
    var s := Start(job, parallelism, log);
    SumZero(job.Parts());
    forall j: nat | j < |s.place| ensures PlaceRight(s, j) && ProgressRight(job, s, j) {}
  }

  lemma StepInv(job: Job, s: State, e: Event)
    requires Inv(job, s) && PossibleBox(job, s, e)
    ensures Inv(job, Step(job, s, e))
  {
    var t := Step(job, s, e);
    if t == s { return; }
    match e
    case Claim(w) =>
      AccountedClaim(job, s, w);
      SealedSame(job, s, t);
      CountedClaim(job, s, w);
    case Send(w, box) =>
      AccountedSend(job, s, w, box);
      SealedSend(job, s, w, box);
      CountedSend(job, s, w, box);
    case Progress(w, loaded, flush) =>
      AccountedSame(job, s, t);
      SealedSame(job, s, t);
      CountedProgress(job, s, w, loaded, flush);
    case Succeed(w, flush) =>
      AccountedSucceed(job, s, w, flush);
      SealedSucceed(job, s, w, flush);
      CountedSucceed(job, s, w, flush);
    case FailAttempt(w, landed) =>
      AccountedFail(job, s, w, landed);
      SealedFail(job, s, w, landed);
      CountedFail(job, s, w, landed);
    case TimerFires =>
      AccountedSame(job, s, t);
      SealedSame(job, s, t);
      CountedReported(job, s, true);
  }

  // --- How often a part is tried ---

  function After(job: Job, s: State, events: seq<Event>): (t: State)
    requires Shape(job, s)
    ensures Shape(job, t) && |t.workers| == |s.workers|
    decreases |events|
  {
    if events == [] then s else Step(job, After(job, s, events[..|events| - 1]), events[|events| - 1])
  }

  /** Attempts of worker w that failed since it last claimed a part, counted from the events. */
  function FailuresSinceClaim(job: Job, s: State, events: seq<Event>, w: nat): nat
    requires Shape(job, s) && w < |s.workers|
    decreases |events|
  {
    if events == [] then 0
    else
      var front, e := events[..|events| - 1], events[|events| - 1];
      var t := After(job, s, front);
      if Claims(t, e, w) then 0
      else if FailsAt(t, e, w) then FailuresSinceClaim(job, s, front, w) + 1
      else FailuresSinceClaim(job, s, front, w)
  }

  /** The part worker w claimed last, or 0. */
  function LastClaimed(job: Job, s: State, events: seq<Event>, w: nat): nat
    requires Shape(job, s) && w < |s.workers|
    decreases |events|
  {
    if events == [] then 0
    else
      var front, e := events[..|events| - 1], events[|events| - 1];
      var t := After(job, s, front);
      if Claims(t, e, w) then t.nextIndex + 1
      else LastClaimed(job, s, front, w)
  }

  ghost predicate AttemptsOk(job: Job, s: State, events: seq<Event>, w: nat)
    requires Shape(job, s) && w < |s.workers|
  {
    var worker := After(job, s, events).workers[w];
    var failures := FailuresSinceClaim(job, s, events, w);
    && (worker.Active() ==> worker.attempt == failures < 5 && worker.part == LastClaimed(job, s, events, w))
    && (worker.Threw? ==> failures == 5 && worker.lost == LastClaimed(job, s, events, w))
  }

  predicate Claims(s: State, e: Event, w: nat)
    requires w < |s.workers|
  {
    e == Claim(w) && s.workers[w] == Idle
  }

  predicate FailsAt(s: State, e: Event, w: nat)
    requires w < |s.workers|
  {
    e.FailAttempt? && e.w == w && s.workers[w].Active()
  }

  /** What one event can do to one worker. */
  lemma WorkerMoves(job: Job, s: State, e: Event, w: nat)
    requires Shape(job, s) && w < |s.workers|
    ensures var a, b := s.workers[w], Step(job, s, e).workers[w];
            && (Claims(s, e, w) ==> b == Finished || b == Signing(s.nextIndex + 1, 0))
            && (FailsAt(s, e, w) ==>
                  if a.attempt == 4 then b == Threw(a.part) else b.Threw? || b == Signing(a.part, a.attempt + 1))
            && (FailsAt(s, e, w) && b.Threw? ==> a.attempt >= 4)
            && (!Claims(s, e, w) && !FailsAt(s, e, w) ==>
                  || b == a || b == Idle || (a.Signing? && b.Sending? && b.part == a.part && b.attempt == a.attempt))
  {}

  /**
   Over every schedule: a worker gives up on a part exactly at its fifth failed attempt since it claimed the
   part, and until then it keeps to that part.
   */
  lemma {:induction false} GivesUpAtTheFifth(job: Job, parallelism: nat, log: SealLog, events: seq<Event>, w: nat)
    requires 0 < job.chunkSize && w < |Start(job, parallelism, log).workers|
    ensures AttemptsOk(job, Start(job, parallelism, log), events, w)
    decreases |events|
  {
    if events != [] {
      var front := events[..|events| - 1];
      GivesUpAtTheFifth(job, parallelism, log, front, w);
      WorkerMoves(job, After(job, Start(job, parallelism, log), front), events[|events| - 1], w);
    }
  }

  // --- What progress says of a part on the wire ---

  /** Each sealing of the schedule can happen. */
  ghost predicate Possible(job: Job, s: State, events: seq<Event>)
    requires Shape(job, s)
    decreases |events|
  {
    events == [] || (Possible(job, s, events[..|events| - 1])
                     && PossibleBox(job, After(job, s, events[..|events| - 1]), events[|events| - 1]))
  }

  lemma {:induction false} RunInv(job: Job, s: State, events: seq<Event>)
    requires Inv(job, s) && Possible(job, s, events)
    ensures Inv(job, After(job, s, events))
    decreases |events|
  {
    if events != [] {
      RunInv(job, s, events[..|events| - 1]);
      StepInv(job, After(job, s, events[..|events| - 1]), events[|events| - 1]);
    }
  }

  /** The bytes the browser last said were sent of the attempt worker w is at; none before it says anything. */
  function SentOf(job: Job, s: State, events: seq<Event>, w: nat): nat
    requires Shape(job, s) && w < |s.workers|
    decreases |events|
  {
    if events == [] then 0
    else
      var before := events[..|events| - 1];
      SentNow(job, After(job, s, before), events[|events| - 1], w, SentOf(job, s, before, w))
  }

  function SentNow(job: Job, s: State, e: Event, w: nat, before: nat): nat
    requires Shape(job, s) && w < |s.workers|
  {
    match e
    case Send(v, _) => if v == w && s.workers[w].Signing? then 0 else before
    case Progress(v, loaded, _) =>
      if v == w && InFlight(job, s, w) && loaded <= |s.workers[w].body| then loaded else before
    case _ => before
  }

  predicate OnTheWire(s: State, w: nat) {
    w < |s.workers| && s.workers[w].Sending? && 1 <= s.workers[w].part <= |s.partProgress|
  }

  /** Two workers are never at the same part. */
  lemma PartsApart(job: Job, s: State, v: nat, w: nat)
    requires Accounted(job, s) && v < |s.workers| && w < |s.workers| && v != w
    requires s.workers[v].Active() && s.workers[w].Active()
    ensures s.workers[v].part != s.workers[w].part && s.workers[w].part <= |s.partProgress|
  {
    assert WorkerRight(job, s, v) && WorkerRight(job, s, w);
  }

  /** What the part of worker w counts for is so much. */
  predicate Counts(s: State, w: nat, sent: nat) {
    OnTheWire(s, w) ==> s.partProgress[s.workers[w].part - 1] == sent
  }

  lemma SendMoves(job: Job, s: State, v: nat, box: bytes, w: nat, before: nat)
    requires Accounted(job, s) && w < |s.workers| && Counts(s, w, before)
    ensures Counts(Step(job, s, Send(v, box)), w, SentNow(job, s, Send(v, box), w, before))
  {
    if v < |s.workers| && s.workers[v].Signing? && v != w && OnTheWire(s, w) { PartsApart(job, s, v, w); }
  }

  lemma ReportMoves(job: Job, s: State, v: nat, loaded: nat, flush: bool, w: nat, before: nat)
    requires Accounted(job, s) && w < |s.workers| && Counts(s, w, before)
    ensures Counts(Step(job, s, Progress(v, loaded, flush)), w, SentNow(job, s, Progress(v, loaded, flush), w, before))
  {
    if InFlight(job, s, v) && v != w && OnTheWire(s, w) { PartsApart(job, s, v, w); }
  }

  lemma SuccessMoves(job: Job, s: State, v: nat, flush: bool, w: nat, before: nat)
    requires Accounted(job, s) && w < |s.workers| && Counts(s, w, before)
    ensures Counts(Step(job, s, Succeed(v, flush)), w, before)
  {
    if InFlight(job, s, v) && v != w && OnTheWire(s, w) { PartsApart(job, s, v, w); }
  }

  /** One event moves the progress of a part on the wire only if it is about that part's worker. */
  lemma ProgressMoves(job: Job, s: State, e: Event, w: nat, before: nat)
    requires Accounted(job, s) && w < |s.workers| && Counts(s, w, before)
    ensures Counts(Step(job, s, e), w, SentNow(job, s, e, w, before))
  {
    match e
    case Send(v, box) => SendMoves(job, s, v, box, w, before);
    case Progress(v, loaded, flush) => ReportMoves(job, s, v, loaded, flush, w, before);
    case Succeed(v, flush) => SuccessMoves(job, s, v, flush, w, before);
    case Claim(v) =>
    case FailAttempt(v, landed) =>
    case TimerFires =>
  }

  lemma {:induction false} ProgressRun(job: Job, s: State, events: seq<Event>, w: nat)
    requires Inv(job, s) && w < |s.workers| && Counts(s, w, 0) && Possible(job, s, events)
    ensures Counts(After(job, s, events), w, SentOf(job, s, events, w))
    decreases |events|
  {
    if events != [] {
      var front := events[..|events| - 1];
      RunInv(job, s, front);
      ProgressRun(job, s, front, w);
      ProgressMoves(job, After(job, s, front), events[|events| - 1], w, SentOf(job, s, front, w));
    }
  }

  /**
   Over every schedule: what a part on the wire counts for is what was sent of this attempt, so that a retry starts
   over and no byte counts twice.
   */
  lemma ProgressStartsOver(job: Job, parallelism: nat, log: SealLog, events: seq<Event>, w: nat)
    requires 0 < job.chunkSize && w < |Start(job, parallelism, log).workers|
    requires Possible(job, Start(job, parallelism, log), events)
    requires OnTheWire(After(job, Start(job, parallelism, log), events), w)
    ensures var s := Start(job, parallelism, log);
            var t := After(job, s, events);
            t.partProgress[t.workers[w].part - 1] == SentOf(job, s, events, w)
  {
    StartInv(job, parallelism, log);
    ProgressRun(job, Start(job, parallelism, log), events, w);
  }

  /** uploaded.sort by part number. */
  function SortParts(parts: seq<UploadedPart>): (r: seq<UploadedPart>)
    ensures ByPartNumber(r)
  {
    if parts == [] then [] else InsertPart(parts[0], SortParts(parts[1..]))
  }

  function InsertPart(p: UploadedPart, parts: seq<UploadedPart>): (r: seq<UploadedPart>)
    requires ByPartNumber(parts)
    ensures ByPartNumber(r)
    ensures forall i :: 0 <= i < |r| ==> r[i] == p || r[i] in parts
  {
    if parts == [] then [p]
    else if p.partNumber <= parts[0].partNumber then [p] + parts
    else
      var tail := InsertPart(p, parts[1..]);
      assert forall i :: 0 <= i < |tail| ==> tail[i] == p || tail[i] in parts[1..];
      [parts[0]] + tail
  }

  lemma {:induction false} InsertPermutes(p: UploadedPart, parts: seq<UploadedPart>)
    requires ByPartNumber(parts)
    ensures multiset(InsertPart(p, parts)) == multiset(parts) + multiset{p}
  {
    if parts != [] && p.partNumber > parts[0].partNumber {
      InsertPermutes(p, parts[1..]);
      assert parts == [parts[0]] + parts[1..];
    }
  }

  lemma {:induction false} SortPermutes(parts: seq<UploadedPart>)
    ensures multiset(SortParts(parts)) == multiset(parts)
  {
    if parts != [] {
      SortPermutes(parts[1..]);
      InsertPermutes(parts[0], SortParts(parts[1..]));
      assert parts == [parts[0]] + parts[1..];
    }
  }

  predicate ByPartNumber(parts: seq<UploadedPart>) {
    forall i, j :: 0 <= i < j < |parts| ==> parts[i].partNumber <= parts[j].partNumber
  }

  predicate StrictlySorted(parts: seq<UploadedPart>) {
    forall i, j :: 0 <= i < j < |parts| ==> parts[i].partNumber < parts[j].partNumber
  }

  predicate DistinctNumbers(parts: seq<UploadedPart>) {
    forall i, j :: 0 <= i < j < |parts| ==> parts[i].partNumber != parts[j].partNumber
  }

  lemma {:induction false} SortedDistinctly(parts: seq<UploadedPart>)
    requires DistinctNumbers(parts)
    ensures StrictlySorted(SortParts(parts))
  {
    if parts != [] {
      var p, rest := parts[0], parts[1..];
      SortedDistinctly(rest);
      SortPermutes(rest);
      forall i | 0 <= i < |SortParts(rest)| ensures SortParts(rest)[i].partNumber != p.partNumber {
        var q := SortParts(rest)[i];
        assert q in multiset(SortParts(rest));
        assert q in multiset(rest) && q in rest;
      }
      InsertedDistinctly(p, SortParts(rest));
    }
  }

  lemma {:induction false} InsertedDistinctly(p: UploadedPart, parts: seq<UploadedPart>)
    requires StrictlySorted(parts) && forall i :: 0 <= i < |parts| ==> parts[i].partNumber != p.partNumber
    ensures StrictlySorted(InsertPart(p, parts))
  {
    if parts != [] && p.partNumber > parts[0].partNumber {
      InsertedDistinctly(p, parts[1..]);
      var r := InsertPart(p, parts[1..]);
      forall j | 0 <= j < |r| ensures parts[0].partNumber < r[j].partNumber {
        assert r[j] == p || r[j] in parts[1..];
      }
    }
  }

  lemma Ascending(parts: seq<UploadedPart>, i: nat, j: nat)
    requires StrictlySorted(parts) && i <= j < |parts|
    ensures parts[i].partNumber + (if i < j then 1 else 0) <= parts[j].partNumber
  {}

  /** Strictly increasing numbers that take every value of 1..n and no other are 1, 2, ..., n. */
  lemma {:induction false} StrictlySortedCover(parts: seq<UploadedPart>, n: nat)
    requires StrictlySorted(parts)
    requires forall i :: 0 <= i < |parts| ==> 1 <= parts[i].partNumber <= n
    requires forall v: nat :: 1 <= v <= n ==> HasNumber(parts, v)
    ensures |parts| == n && forall k :: 0 <= k < n ==> parts[k].partNumber == k + 1
  {
    if n == 0 {
    } else {
      assert HasNumber(parts, n);
      var last := |parts| - 1;
      var front := parts[..last];
      var top :| 0 <= top < |parts| && parts[top].partNumber == n;
      Ascending(parts, top, last);
      forall i | 0 <= i < |front| ensures 1 <= front[i].partNumber <= n - 1 {
        assert parts[i].partNumber < parts[last].partNumber;
      }
      forall i, j | 0 <= i < j < |front| ensures front[i].partNumber < front[j].partNumber {
        assert parts[i].partNumber < parts[j].partNumber;
      }
      forall v: nat | 1 <= v <= n - 1 ensures HasNumber(front, v) {
        assert HasNumber(parts, v);
        var i :| 0 <= i < |parts| && parts[i].partNumber == v;
        assert front[i].partNumber == v;
      }
      StrictlySortedCover(front, n - 1);
    }
  }

  predicate HasNumber(parts: seq<UploadedPart>, v: nat) {
    exists i :: 0 <= i < |parts| && parts[i].partNumber == v
  }

  /** The bodies the bucket assembles for a list of parts. */
  function Bodies(stored: map<nat, StoredPart>, parts: seq<UploadedPart>): (r: seq<bytes>)
    requires forall i :: 0 <= i < |parts| ==> parts[i].partNumber in stored
    ensures |r| == |parts| && forall i :: 0 <= i < |r| ==> r[i] == stored[parts[i].partNumber].body
  {
    seq(|parts|, i requires 0 <= i < |parts| => stored[parts[i].partNumber].body)
  }

  /** Every worker came to the end of the index without giving up. */
  predicate Succeeded(s: State) {
    s.workers != [] && AllFinished(s.workers)
  }

  predicate AllFinished(workers: seq<Worker>) {
    forall w: nat :: w < |workers| ==> workers[w] == Finished
  }

  lemma EveryPartDone(job: Job, s: State)
    requires Accounted(job, s) && Succeeded(s)
    ensures forall j: nat :: j < |s.place| ==> s.place[j].Done?
  {
    assert WorkerRight(job, s, 0);
    forall j: nat | j < |s.place| ensures s.place[j].Done? { assert PlaceRight(s, j); }
  }

  lemma IndexIn(xs: seq<UploadedPart>, ys: seq<UploadedPart>, i: nat) returns (j: nat)
    requires multiset(xs) == multiset(ys) && i < |xs|
    ensures j < |ys| && ys[j] == xs[i]
  {
    assert xs[i] in multiset(ys);
    assert xs[i] in ys;
    j :| j < |ys| && ys[j] == xs[i];
  }

  /** The numbers in the list are distinct, and all of 1..n. */
  lemma EntriesCover(job: Job, s: State)
    requires Accounted(job, s) && Succeeded(s)
    ensures DistinctNumbers(s.uploaded)
    ensures forall i :: 0 <= i < |s.uploaded| ==> 1 <= s.uploaded[i].partNumber <= job.Parts()
    ensures forall v: nat :: 1 <= v <= job.Parts() ==> HasNumber(s.uploaded, v)
  {
    EveryPartDone(job, s);
    forall i, j | 0 <= i < j < |s.uploaded| ensures s.uploaded[i].partNumber != s.uploaded[j].partNumber {
      assert EntryRight(job, s, i) && EntryRight(job, s, j);
    }
    forall i | 0 <= i < |s.uploaded| ensures 1 <= s.uploaded[i].partNumber <= job.Parts() {
      assert EntryRight(job, s, i);
    }
    forall v: nat | 1 <= v <= job.Parts() ensures HasNumber(s.uploaded, v) { assert PlaceRight(s, v - 1); }
  }

  /** Sorting distinct numbers that cover 1..n gives 1, 2, ..., n. */
  lemma SortedCover(parts: seq<UploadedPart>, n: nat)
    requires DistinctNumbers(parts)
    requires forall i :: 0 <= i < |parts| ==> 1 <= parts[i].partNumber <= n
    requires forall v: nat :: 1 <= v <= n ==> HasNumber(parts, v)
    ensures var r := SortParts(parts); |r| == n && forall k :: 0 <= k < n ==> r[k].partNumber == k + 1
  {
    var r := SortParts(parts);
    SortPermutes(parts);
    SortedDistinctly(parts);
    forall k | 0 <= k < |r| ensures 1 <= r[k].partNumber <= n { var i := IndexIn(r, parts, k); }
    forall v: nat | 1 <= v <= n ensures HasNumber(r, v) {
      assert HasNumber(parts, v);
      var i :| 0 <= i < |parts| && parts[i].partNumber == v;
      var k := IndexIn(parts, r, i);
    }
    StrictlySortedCover(r, n);
  }

  /** The list upload() resolves with: parts 1..n once each, in order. */
  lemma ResultIsEveryPartOnce(job: Job, s: State)
    requires Accounted(job, s) && Succeeded(s)
    ensures var r := SortParts(s.uploaded);
            |r| == job.Parts() && forall k :: 0 <= k < |r| ==> r[k].partNumber == k + 1
  {
    EntriesCover(job, s);
    SortedCover(s.uploaded, job.Parts());
  }

  /** What the bucket assembles from that list encodes the file. */
  lemma ResultEncodesFile(job: Job, s: State)
    requires Accounted(job, s) && Sealed(job, s) && Succeeded(s)
    ensures var r := SortParts(s.uploaded);
            && (forall i :: 0 <= i < |r| ==> r[i].partNumber in s.stored && s.stored[r[i].partNumber].etag == r[i].etag)
            && Encodes(s.log, job.fileId, job.file, job.chunkSize, Bodies(s.stored, r))
  {
    ResultIsEveryPartOnce(job, s);
    SortPermutes(s.uploaded);
    var r := SortParts(s.uploaded);
    forall i | 0 <= i < |r|
      ensures r[i].partNumber in s.stored && s.stored[r[i].partNumber].etag == r[i].etag
      ensures IsSealed(job, s.log, r[i].partNumber, s.stored[r[i].partNumber].body)
    {
      var j := IndexIn(r, s.uploaded, i);
      assert EntrySealed(job, s, j);
    }
    SealedInOrder(job, s, r);
  }

  lemma SealedInOrder(job: Job, s: State, r: seq<UploadedPart>)
    requires 0 < job.chunkSize && |r| == job.Parts() && forall k :: 0 <= k < |r| ==> r[k].partNumber == k + 1
    requires forall i :: 0 <= i < |r| ==> r[i].partNumber in s.stored
    requires forall i :: 0 <= i < |r| ==> IsSealed(job, s.log, r[i].partNumber, s.stored[r[i].partNumber].body)
    ensures Encodes(s.log, job.fileId, job.file, job.chunkSize, Bodies(s.stored, r))
  {
    var boxes := Bodies(s.stored, r);
    forall k | 1 <= k <= job.Parts()
      ensures Open(s.log, AadForChunk(job.fileId, k, job.Parts()), boxes[k - 1])
          == Some(PlainChunk(job.file, job.chunkSize, k))
    {
      var i := k - 1;
      assert r[i].partNumber == k && IsSealed(job, s.log, k, s.stored[r[i].partNumber].body);
    }
  }

  /** Once every part is delivered and no flush is due, the last report was the declared total. */
  lemma FinalReportIsTotal(job: Job, s: State)
    requires Inv(job, s) && Succeeded(s)
    ensures Sum(s.partProgress) == CiphertextSize(|job.file|, job.chunkSize)
    ensures !s.timerArmed ==> s.LastReport() == CiphertextSize(|job.file|, job.chunkSize)
  {
    EveryPartDone(job, s);
    SealedTotal(job.file, job.chunkSize);
    var full := SealedLengths(job.file, job.chunkSize, job.Parts());
    forall j | 0 <= j < |full| ensures s.partProgress[j] == full[j] { assert ProgressRight(job, s, j); }
    assert s.partProgress == full;
    if v: nat :| v < |s.workers| && IsBusy(s.workers[v]) {
      assert s.workers[v] == Finished;
    }
  }

  /** What the browser schedules next; for Send, the random IV of the sealing. */
  datatype Turn =
    | TurnClaim(w: nat)
    | TurnSend(w: nat, iv: bytes)
    | TurnProgress(w: nat, loaded: nat, flush: bool)
    | TurnSucceed(w: nat, flush: bool)
    | TurnFail(w: nat, landed: bool)
    | TurnTimer

  class MultipartUploader {
    const job: Job
    const cipher: Cipher
    var partProgress: seq<nat>
    var nextIndex: nat
    var uploaded: seq<UploadedPart>
    var workers: seq<Worker>
    var timerArmed: bool
    // Every loaded value handed to onProgress.
    var reports: seq<nat>
    // The bucket's side of the open multipart upload.
    var stored: map<nat, StoredPart>
    var nextTag: nat
    ghost var place: seq<Place>

    ghost function Snapshot(): State
      reads this, cipher
    {
      State(partProgress, nextIndex, uploaded, workers, timerArmed, reports, stored, nextTag, cipher.log, place)
    }

    ghost predicate Valid()
      reads this, cipher
    {
      0 < job.chunkSize && cipher.Valid() && Ideal(cipher.log) && Shape(job, Snapshot())
    }

    constructor (job: Job, parallelism: nat, cipher: Cipher)
      requires 0 < job.chunkSize && cipher.Valid() && Ideal(cipher.log)
      ensures Valid() && this.job == job && this.cipher == cipher
      ensures Snapshot() == Start(job, parallelism, cipher.log)
      ensures |workers| == if parallelism < job.Parts() then parallelism else job.Parts()
    {
      this.job, this.cipher := job, cipher;
      var n := job.Parts();
      partProgress := seq(n, _ => 0);
      nextIndex, uploaded := 0, [];
      workers := seq(if parallelism < n then parallelism else n, _ => Idle);
      timerArmed, reports := false, [];
      stored, nextTag := map[], 0;
      place := seq(n, _ => Unclaimed);
    }

    method FlushProgress()
      requires Valid()
      modifies this`timerArmed, this`reports
      ensures Valid() && Snapshot() == old(Snapshot()).Reported(true)
      ensures !timerArmed && reports == old(reports) + [Sum(partProgress)]
    {
      timerArmed := false;
      var loaded := 0;
      for i := 0 to |partProgress|
        invariant loaded == Sum(partProgress[..i])
      {
        assert partProgress[..i + 1][..i] == partProgress[..i];
        loaded := loaded + partProgress[i];
      }
      assert partProgress[..|partProgress|] == partProgress;
      reports := reports + [loaded];
    }

    method ReportProgress(flush: bool)
      requires Valid()
      modifies this`timerArmed, this`reports
      ensures Valid() && Snapshot() == old(Snapshot()).Reported(flush)
      ensures timerArmed == !flush && (!flush ==> reports == old(reports))
    {
      if flush {
        FlushProgress();
      } else {
        timerArmed := true;
      }
    }

    method Claim(w: nat)
      requires Valid() && w < |workers| && workers[w] == Idle
      modifies this
      ensures Valid() && Snapshot() == ClaimPart(job, old(Snapshot()), w)
    {
      var index := nextIndex;
      nextIndex := nextIndex + 1;
      if index >= job.Parts() {
        workers := workers[w := Finished];
      } else {
        workers := workers[w := Signing(index + 1, 0)];
        place := place[index := Held(w)];
      }
    }

    method Send(w: nat, iv: bytes) returns (box: bytes)
      requires Valid() && w < |workers| && workers[w].Signing? && 1 <= workers[w].part <= job.Parts()
      requires |iv| == IV_BYTES
      modifies this, cipher
      ensures Valid() && PossibleBox(job, old(Snapshot()), Event.Send(w, box))
      ensures Snapshot() == SendPart(job, old(Snapshot()), w, box)
    {
      var p, attempt := workers[w].part, workers[w].attempt;
      var blob := Slice(job, p);
      box := cipher.Seal(iv, blob, job.Aad(p));
      partProgress := partProgress[p - 1 := 0];
      workers := workers[w := Sending(p, attempt, box)];
    }

    method Progress(w: nat, loaded: nat, flush: bool)
      requires Valid() && InFlight(job, Snapshot(), w)
      modifies this
      ensures Valid() && Snapshot() == ProgressPart(job, old(Snapshot()), w, loaded, flush)
    {
      partProgress := partProgress[workers[w].part - 1 := loaded];
      ReportProgress(flush);
    }

    method Succeed(w: nat, flush: bool)
      requires Valid() && InFlight(job, Snapshot(), w)
      modifies this
      ensures Valid() && Snapshot() == SucceedPart(job, old(Snapshot()), w, flush)
    {
      var p, body, etag := workers[w].part, workers[w].body, nextTag;
      stored := stored[p := StoredPart(etag, body)];
      nextTag := nextTag + 1;
      partProgress := partProgress[p - 1 := |body|];
      place := place[p - 1 := Done(|uploaded|)];
      uploaded := uploaded + [UploadedPart(p, etag)];
      workers := workers[w := Idle];
      ReportProgress(flush);
    }

    method Fail(w: nat, landed: bool)
      requires Valid() && w < |workers| && workers[w].Active()
      modifies this
      ensures Valid() && Snapshot() == FailPart(old(Snapshot()), w, landed)
    {
      var part, attempt := workers[w].part, workers[w].attempt;
      if landed && workers[w].Sending? {
        stored := stored[part := StoredPart(nextTag, workers[w].body)];
        nextTag := nextTag + 1;
      }
      if attempt < MAX_ATTEMPTS - 1 {
        workers := workers[w := Signing(part, attempt + 1)];
      } else {
        workers := workers[w := Threw(part)];
      }
    }

    method TakeSend(w: nat, iv: bytes, ghost files: map<string, bytes>)
      requires Valid() && Inv(job, Snapshot())
      requires w < |workers| && workers[w].Signing? && 1 <= workers[w].part <= job.Parts() && |iv| == IV_BYTES
      modifies this, cipher
      ensures Valid() && Inv(job, Snapshot()) && |workers| == old(|workers|)
      ensures Sends(files, job) && HonestLog(old(cipher.log), files, job.chunkSize) ==>
          HonestLog(cipher.log, files, job.chunkSize)
    {
      ghost var s := Snapshot();
      var p := workers[w].part;
      var box := Send(w, iv);
      StepInv(job, s, Event.Send(w, box));
      if Sends(files, job) && HonestLog(s.log, files, job.chunkSize) {
        HonestLogGrows(s.log, files, job.chunkSize, job.Aad(p), box, Slice(job, p), job.fileId, p);
      }
    }

    method Take(turn: Turn, ghost files: map<string, bytes>)
      requires Valid() && Inv(job, Snapshot())
      modifies this, cipher
      ensures Valid() && Inv(job, Snapshot()) && |workers| == old(|workers|)
      ensures Sends(files, job) && HonestLog(old(cipher.log), files, job.chunkSize) ==>
          HonestLog(cipher.log, files, job.chunkSize)
    {
      ghost var s := Snapshot();
      ghost var e := Event.TimerFires;
      match turn {
        case TurnClaim(w) =>
          if w >= |workers| || workers[w] != Idle { return; }
          Claim(w);
          e := Event.Claim(w);
        case TurnSend(w, iv) =>
          if w < |workers| && workers[w].Signing? && 1 <= workers[w].part <= job.Parts() && |iv| == IV_BYTES {
            TakeSend(w, iv, files);
          }
          return;
        case TurnProgress(w, loaded, flush) =>
          if w >= |workers| || !workers[w].Sending? || !(1 <= workers[w].part <= job.Parts())
             || loaded > |workers[w].body| {
            return;
          }
          Progress(w, loaded, flush);
          e := Event.Progress(w, loaded, flush);
        case TurnSucceed(w, flush) =>
          if w >= |workers| || !workers[w].Sending? || !(1 <= workers[w].part <= job.Parts()) { return; }
          Succeed(w, flush);
          e := Event.Succeed(w, flush);
        case TurnFail(w, landed) =>
          if w >= |workers| || !workers[w].Active() { return; }
          Fail(w, landed);
          e := Event.FailAttempt(w, landed);
        case TurnTimer =>
          if !timerArmed { return; }
          FlushProgress();
      }
      assert Snapshot() == Step(job, s, e);
      StepInv(job, s, e);
    }

    /**
     upload() under any schedule of workers, retries, progress events and timer
     callbacks. Resolved when every worker ran out of parts; with no worker at all
     that is at once, and with an empty list.
     */
    method Upload(schedule: seq<Turn>, ghost files: map<string, bytes>)
      returns (resolved: bool, parts: seq<UploadedPart>)
      requires Valid() && Inv(job, Snapshot())
      modifies this, cipher
      ensures Valid() && Inv(job, Snapshot()) && |workers| == old(|workers|)
      ensures forall i :: 0 <= i < |reports| ==> reports[i] <= CiphertextSize(|job.file|, job.chunkSize)
      ensures resolved <==> AllFinished(workers)
      ensures resolved && workers != [] ==>
                && |parts| == job.Parts() && (forall k :: 0 <= k < |parts| ==> parts[k].partNumber == k + 1)
                && (forall k :: 0 <= k < |parts| ==>
                    parts[k].partNumber in stored && stored[parts[k].partNumber].etag == parts[k].etag)
                && Encodes(cipher.log, job.fileId, job.file, job.chunkSize, Bodies(stored, parts))
                && (!timerArmed ==> Snapshot().LastReport() == CiphertextSize(|job.file|, job.chunkSize))
      ensures workers == [] && old(uploaded) == [] ==> resolved && parts == []
      ensures Sends(files, job) && HonestLog(old(cipher.log), files, job.chunkSize) ==>
          HonestLog(cipher.log, files, job.chunkSize)
    {
      for i := 0 to |schedule|
        invariant Valid() && Inv(job, Snapshot()) && |workers| == old(|workers|)
        invariant workers == [] ==> uploaded == old(uploaded)
        invariant Sends(files, job) && HonestLog(old(cipher.log), files, job.chunkSize) ==>
            HonestLog(cipher.log, files, job.chunkSize)
      {
        if workers != [] { Take(schedule[i], files); }
      }
      resolved, parts := AllFinished(workers), SortParts(uploaded);
      if resolved && workers != [] {
        ResultIsEveryPartOnce(job, Snapshot());
        ResultEncodesFile(job, Snapshot());
        FinalReportIsTotal(job, Snapshot());
      }
    }
  }

  /** This upload carries the true content of its file. */
  ghost predicate Sends(files: map<string, bytes>, job: Job) {
    job.fileId in files && files[job.fileId] == job.file
  }

  lemma {:induction false} SortedIsFixed(parts: seq<UploadedPart>)
    requires ByPartNumber(parts)
    ensures SortParts(parts) == parts
  {
    if parts != [] {
      var rest := parts[1..];
      SortedIsFixed(rest);
      assert rest != [] ==> parts[0].partNumber <= rest[0].partNumber;
      assert InsertPart(parts[0], rest) == [parts[0]] + rest;
    }
  }

  /** complete_multipart_upload: the list is sorted, and the bucket refuses a missing part or a stale tag. */
  function CompleteMultipartUpload(stored: map<nat, StoredPart>, parts: seq<UploadedPart>): Option<bytes> {
    if forall p <- parts :: p.partNumber in stored && stored[p.partNumber].etag == p.etag then
      var ordered := SortParts(parts);
      SortPermutes(parts);
      assert forall i :: 0 <= i < |ordered| ==> ordered[i] in multiset(parts);
      Some(Join(Bodies(stored, ordered)))
    else None
  }
}
