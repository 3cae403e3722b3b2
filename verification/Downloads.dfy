/** One download request from headers to body, and a file fetched over any number of interrupted requests. */
module Downloads {
  import opened Bytes
  import opened ChunkLayout
  import opened Decimals
  import opened Aead
  import opened StreamDecryption
  import opened StreamDecoding
  import opened RangeHeaders
  import opened RangedDownload

  /** The storage's response to the fetch of the presigned URL. */
  datatype Upstream = Upstream(status: nat, hasBody: bool, pieces: seq<bytes>)

  /** ok is false when the body's stream ends with an error. */
  datatype Reply =
    | Refused(status: nat)
    | Reply(status: nat, contentLength: nat, contentRange: Option<ByteRange>, body: bytes, ok: bool)

  /** How the storage responds to the fetch of the object from a byte on; from byte 0 no Range header is sent. */
  type Storage = nat -> Upstream

  /** A validator stable per file. */
  function ETag(f: string, size: nat): string {
    "\"" + f + "-" + Decimal(size) + "\""
  }

  /** The range this request is served with: none when If-Range names another entity. */
  function HonouredRange(rangeHeader: Option<string>, ifRange: Option<string>, f: string,
                         size: nat): Option<ByteRange> {
    if ifRange.Some? && ifRange.value != "" && ifRange.value != ETag(f, size) then None
    else ParseRange(rangeHeader, size)
  }

  lemma HonouredRangeInside(rangeHeader: Option<string>, ifRange: Option<string>, f: string, size: nat)
    ensures var r := HonouredRange(rangeHeader, ifRange, f, size);
            r.Some? ==> r.value.start <= r.value.end < size
  {}

  // --- What the two headers ask for, said without parsing them ---

  /** If-Range lets the range through: absent, empty, or this very entity. */
  predicate Validates(ifRange: Option<string>, f: string, size: nat) {
    ifRange.None? || ifRange.value == "" || ifRange.value == ETag(f, size)
  }

  ghost predicate AsksFor(rangeHeader: Option<string>, size: nat, r: ByteRange) {
    rangeHeader.Some? && exists first, last :: Asks(rangeHeader.value, first, last) && Selects(first, last, size, r)
  }

  /** The range the request wants, or None for the whole file. */
  ghost predicate Wanted(rangeHeader: Option<string>, ifRange: Option<string>, f: string, size: nat,
                         range: Option<ByteRange>) {
    match range
    case Some(r) => Validates(ifRange, f, size) && AsksFor(rangeHeader, size, r)
    case None => !(Validates(ifRange, f, size) && exists r :: AsksFor(rangeHeader, size, r))
  }

  /** The worker honours exactly the range that is wanted. */
  lemma HonouredRangeExactly(rangeHeader: Option<string>, ifRange: Option<string>, f: string, size: nat,
                             range: Option<ByteRange>)
    ensures HonouredRange(rangeHeader, ifRange, f, size) == range <==> Wanted(rangeHeader, ifRange, f, size, range)
  {
    if rangeHeader.Some? {
      forall r: ByteRange
        ensures ParseRange(rangeHeader, size) == Some(r) <==> AsksFor(rangeHeader, size, r)
      {
        ParseRangeExactly(rangeHeader.value, size, r);
      }
    }
    assert range.None? || (ParseRange(rangeHeader, size) == range <==> AsksFor(rangeHeader, size, range.value));
  }

  /** The validator tells two files apart, and two sizes. */
  lemma ETagsDiffer(f: string, n: nat, g: string, m: nat)
    ensures ETag(f, n) == ETag(g, m) <==> f == g && n == m
  {
    if ETag(f, n) == ETag(g, m) {
      var a, b := f + "-" + Decimal(n), g + "-" + Decimal(m);
      assert ETag(f, n)[1..|ETag(f, n)| - 1] == a;
      assert ETag(g, m)[1..|ETag(g, m)| - 1] == b;
      DecimalReadsBack(n);
      DecimalReadsBack(m);
      SameSplit(f, Decimal(n), g, Decimal(m));
    }
  }

  /** The last dash of such a text is the one before its digits. */
  lemma LastDash(f: string, d: string, i: nat)
    requires AllDigits(d) && |f| < i < |f + "-" + d|
    ensures (f + "-" + d)[i] != '-'
  {
    assert (f + "-" + d)[i] == d[i - |f| - 1];
  }

  lemma SameSplit(f: string, d: string, g: string, e: string)
    requires AllDigits(d) && AllDigits(e) && f + "-" + d == g + "-" + e
    ensures f == g && d == e
  {
    var s := f + "-" + d;
    assert s[|f|] == '-' && s[|g|] == '-';
    if |f| < |g| { LastDash(f, d, |g|); }
    if |g| < |f| { LastDash(g, e, |f|); }
    assert s[..|f|] == f && s[..|g|] == g;
    assert s[|f| + 1..] == d && s[|g| + 1..] == e;
  }

  // --- The reply ---

  /** First stored byte that must be fetched. */
  function FetchOffset(range: Option<ByteRange>, chunk: int): nat
    requires 0 < chunk
  {
    if range.None? then 0
    else
      var k := range.value.start / chunk;
      assert 0 <= k * (chunk + OVERHEAD);
      k * (chunk + OVERHEAD)
  }

  /** The second half of handleDownload, from the presigned URL on. */
  method ServeDownload(log: SealLog, f: string, chunk: int, size: nat, rangeHeader: Option<string>,
                       ifRange: Option<string>, storage: Storage)
    returns (reply: Reply)
    requires 0 < chunk
    ensures reply == Answer(log, f, chunk, size, rangeHeader, ifRange, storage)
  {
    var range := HonouredRange(rangeHeader, ifRange, f, size);
    var offset := FetchOffset(range, chunk);
    var upstream := storage(offset);
    if !(200 <= upstream.status < 300) || !upstream.hasBody {
      return Refused(if upstream.status == 0 then 502 else upstream.status);
    }
    if offset > 0 && upstream.status != 206 {
      return Refused(502);
    }
    if range.None? {
      var body, ok := DecryptAll(log, f, chunk, size, 1, upstream.pieces);
      return Reply(200, size, None, body, ok);
    }
    var body, ok := PipeRange(log, f, chunk, size, range.value, upstream.pieces);
    reply := Reply(206, range.value.end - range.value.start + 1, range, body, ok);
  }

  function ReplyTo(log: SealLog, f: string, chunk: int, size: nat, range: Option<ByteRange>, upstream: Upstream): Reply
    requires 0 < chunk && (range.Some? ==> range.value.start <= range.value.end)
  {
    if !(200 <= upstream.status < 300) || !upstream.hasBody
        then Refused(if upstream.status == 0 then 502 else upstream.status)
    else if FetchOffset(range, chunk) > 0 && upstream.status != 206 then Refused(502)
    else
      var s := Join(upstream.pieces);
      match range
      case None => var d := ReadFrom(log, f, chunk, size, 1, s); Reply(200, size, None, d.plain, d.ok)
      case Some(r) =>
        var d := RangedRead(log, f, chunk, size, r, s);
        Reply(206, r.end - r.start + 1, range, d.plain, d.ok)
  }

  function Answer(log: SealLog, f: string, chunk: int, size: nat, rangeHeader: Option<string>,
                  ifRange: Option<string>, storage: Storage): Reply
    requires 0 < chunk
  {
    var range := HonouredRange(rangeHeader, ifRange, f, size);
    HonouredRangeInside(rangeHeader, ifRange, f, size);
    ReplyTo(log, f, chunk, size, range, storage(FetchOffset(range, chunk)))
  }

  /** The plaintext bytes a reply stands for. */
  function Asked(plain: bytes, range: Option<ByteRange>): bytes
    requires range.Some? ==> range.value.start <= range.value.end < |plain|
  {
    if range.None? then plain else plain[range.value.start..range.value.end + 1]
  }

  /** The storage answers every fetch with the object's own bytes, cut anywhere. */
  ghost predicate FaithfulStorage(stored: bytes, storage: Storage) {
    forall offset: nat | offset <= |stored| :: Serves(storage(offset), stored, offset)
  }

  predicate Serves(upstream: Upstream, stored: bytes, offset: nat)
    requires offset <= |stored|
  {
    && upstream.hasBody && upstream.status == (if offset > 0 then 206 else 200)
    && Join(upstream.pieces) == stored[offset..]
  }

  lemma FetchOffsetIsStartPart(range: ByteRange, chunk: int, size: nat)
    requires 0 < chunk && range.start < size
    ensures FetchOffset(Some(range), chunk) == CipherOffset(chunk, StartPart(range, chunk)) >= 0
  {
    StartPartHoldsStart(range, chunk, size);
    var k := StartPart(range, chunk);
    assert 0 <= (k - 1) * (chunk + OVERHEAD);
  }

  lemma WindowOfSuffix(plain: bytes, from: nat, start: nat, end: nat)
    requires from <= start <= end <= |plain|
    ensures Window(plain[from..], start - from, end - start) == plain[start..end]
  {
    assert plain[from..][start - from..] == plain[start..];
    assert plain[start..][..end - start] == plain[start..end];
  }

  /** Where the decoder gives back the plaintext from the start part on, the slice gives back the range. */
  lemma SliceOfSuffix(log: SealLog, f: string, plain: bytes, chunk: int, range: ByteRange, s: bytes)
    requires 0 < chunk && range.start <= range.end < |plain|
    requires var from := PartStart(chunk, StartPart(range, chunk));
             && 0 <= from <= range.start
             && ReadFrom(log, f, chunk, |plain|, StartPart(range, chunk), s) == Decoded(plain[from..], true)
    ensures RangedRead(log, f, chunk, |plain|, range, s) == Decoded(plain[range.start..range.end + 1], true)
  {
    WindowOfSuffix(plain, PartStart(chunk, StartPart(range, chunk)), range.start, range.end + 1);
  }

  /** A ranged read of an honest object hands out exactly the bytes asked for. */
  lemma RangedReadExact(log: SealLog, f: string, plain: bytes, chunk: int, boxes: seq<bytes>, range: ByteRange)
    requires 0 < chunk && Ideal(log) && Encodes(log, f, plain, chunk, boxes)
    requires range.start <= range.end < |plain|
    ensures 0 <= FetchOffset(Some(range), chunk) <= |Join(boxes)|
    ensures RangedRead(log, f, chunk, |plain|, range, Join(boxes)[FetchOffset(Some(range), chunk)..])
         == Decoded(plain[range.start..range.end + 1], true)
  {
    StartPartHoldsStart(range, chunk, |plain|);
    FetchOffsetIsStartPart(range, chunk, |plain|);
    var k := StartPart(range, chunk);
    StoredOffset(log, f, plain, chunk, boxes, k);
    RoundTrip(log, f, plain, chunk, boxes, k);
    SliceOfSuffix(log, f, plain, chunk, range, Join(boxes)[FetchOffset(Some(range), chunk)..]);
  }

  lemma ServedExactly(log: SealLog, f: string, plain: bytes, chunk: int, boxes: seq<bytes>, range: Option<ByteRange>,
                      storage: Storage)
    requires 0 < chunk && Ideal(log) && Encodes(log, f, plain, chunk, boxes) && FaithfulStorage(Join(boxes), storage)
    requires range.Some? ==> range.value.start <= range.value.end < |plain|
    ensures ReplyTo(log, f, chunk, |plain|, range, storage(FetchOffset(range, chunk)))
         == Reply(if range.Some? then 206 else 200, |Asked(plain, range)|, range, Asked(plain, range), true)
  {
    var offset := FetchOffset(range, chunk);
    if range.Some? {
      RangedReadExact(log, f, plain, chunk, boxes, range.value);
      assert Serves(storage(offset), Join(boxes), offset);
    } else {
      RoundTrip(log, f, plain, chunk, boxes, 1);
      assert boxes[0..] == boxes && plain[PartStart(chunk, 1)..] == plain;
      assert Join(boxes)[0..] == Join(boxes);
      assert Serves(storage(offset), Join(boxes), offset);
    }
  }

  /**
   Whole path, faithful storage, from the two headers to the reply: the wanted range and no other decides, and
   the body is exactly the bytes asked for, of exactly the declared Content-Length, for every fragmentation.
   */
  lemma DownloadExact(log: SealLog, f: string, plain: bytes, chunk: int, boxes: seq<bytes>,
                      rangeHeader: Option<string>, ifRange: Option<string>, storage: Storage, range: Option<ByteRange>)
    requires 0 < chunk && Ideal(log) && Encodes(log, f, plain, chunk, boxes) && FaithfulStorage(Join(boxes), storage)
    requires Wanted(rangeHeader, ifRange, f, |plain|, range)
    ensures range.Some? ==> range.value.start <= range.value.end < |plain|
    ensures Answer(log, f, chunk, |plain|, rangeHeader, ifRange, storage)
         == Reply(if range.Some? then 206 else 200, |Asked(plain, range)|, range, Asked(plain, range), true)
  {
    HonouredRangeInside(rangeHeader, ifRange, f, |plain|);
    HonouredRangeExactly(rangeHeader, ifRange, f, |plain|, range);
    ServedExactly(log, f, plain, chunk, boxes, range, storage);
  }

  /** The headers select no byte, or are about another entity: the whole file comes back. */
  lemma WholeFileIsServed(log: SealLog, f: string, plain: bytes, chunk: int, boxes: seq<bytes>,
                          rangeHeader: Option<string>, ifRange: Option<string>, storage: Storage)
    requires 0 < chunk && Ideal(log) && Encodes(log, f, plain, chunk, boxes) && FaithfulStorage(Join(boxes), storage)
    requires (ifRange.Some? && ifRange.value != "" && ifRange.value != ETag(f, |plain|))
          || forall r :: !AsksFor(rangeHeader, |plain|, r)
    ensures Answer(log, f, chunk, |plain|, rangeHeader, ifRange, storage) == Reply(200, |plain|, None, plain, true)
  {
    DownloadExact(log, f, plain, chunk, boxes, rangeHeader, ifRange, storage, None);
  }

  /** Never a tail of this file for a resume of another file, or of this one at another size. */
  lemma OtherEntityGetsTheWhole(log: SealLog, f: string, plain: bytes, chunk: int, boxes: seq<bytes>,
                                rangeHeader: Option<string>, g: string, size: nat, storage: Storage)
    requires 0 < chunk && Ideal(log) && Encodes(log, f, plain, chunk, boxes) && FaithfulStorage(Join(boxes), storage)
    requires g != f || size != |plain|
    ensures Answer(log, f, chunk, |plain|, rangeHeader, Some(ETag(g, size)), storage)
         == Reply(200, |plain|, None, plain, true)
  {
    ETagsDiffer(g, size, f, |plain|);
    WholeFileIsServed(log, f, plain, chunk, boxes, rangeHeader, Some(ETag(g, size)), storage);
  }

  /** A range that selects a byte is served, without a validator as with the right one. */
  lemma RangeIsServed(log: SealLog, f: string, plain: bytes, chunk: int, boxes: seq<bytes>, header: string,
                      ifRange: Option<string>, storage: Storage, first: string, last: string, r: ByteRange)
    requires 0 < chunk && Ideal(log) && Encodes(log, f, plain, chunk, boxes) && FaithfulStorage(Join(boxes), storage)
    requires Asks(header, first, last) && Selects(first, last, |plain|, r)
    requires ifRange.None? || ifRange.value == "" || ifRange.value == ETag(f, |plain|)
    ensures Answer(log, f, chunk, |plain|, Some(header), ifRange, storage)
         == Reply(206, r.end - r.start + 1, Some(r), plain[r.start..r.end + 1], true)
  {
    DownloadExact(log, f, plain, chunk, boxes, Some(header), ifRange, storage, Some(r));
  }

  /**
   Whatever the storage does: a request is refused exactly if the fetch from the start of the wanted range's chunk
   failed, or came back whole although it started further in; and with that fetch's status where it has one.
   */
  lemma RefusedExactly(log: SealLog, f: string, chunk: int, size: nat, rangeHeader: Option<string>,
                       ifRange: Option<string>, storage: Storage, range: Option<ByteRange>, before: nat, offset: nat)
    requires 0 < chunk && Wanted(rangeHeader, ifRange, f, size, range)
    requires before == if range.None? then 0 else range.value.start / chunk
    requires offset == before * (chunk + 28)
    ensures var u := storage(offset);
            var failed := u.status < 200 || u.status >= 300 || !u.hasBody;
            var reply := Answer(log, f, chunk, size, rangeHeader, ifRange, storage);
            && (reply.Refused? <==> failed || (before > 0 && u.status != 206))
            && (reply.Refused? ==> reply.status == if failed && u.status != 0 then u.status else 502)
            && (reply.Reply? ==> reply.status == if range.Some? then 206 else 200)
            && (reply.Reply? ==> reply.contentRange == range)
  {
    HonouredRangeExactly(rangeHeader, ifRange, f, size, range);
    FarIn(before, chunk);
    assert FetchOffset(range, chunk) == offset;
  }

  lemma FarIn(before: nat, chunk: int)
    requires 0 < chunk
    ensures before > 0 <==> before * (chunk + 28) > 0
  {
    if before > 0 { MulMono(1, before, chunk + 28); }
  }

  lemma WindowMono(s: bytes, t: bytes, skip: nat, length: nat)
    requires s <= t
    ensures IsPrefix(Window(s, skip, length), Window(t, skip, length))
  {
    if skip <= |s| { assert s[skip..] <= t[skip..]; }
  }

  /**
   Where the decoder releases only a prefix of the plaintext from the start part on, the slice releases only a
   prefix of the range.
   */
  lemma SliceOfPrefix(log: SealLog, f: string, plain: bytes, chunk: int, range: ByteRange, s: bytes)
    requires 0 < chunk && range.start <= range.end < |plain|
    requires var from := PartStart(chunk, StartPart(range, chunk));
             var r := ReadFrom(log, f, chunk, |plain|, StartPart(range, chunk), s);
             0 <= from <= range.start && IsPrefix(r.plain, plain[from..]) && (r.ok ==> r.plain == plain[from..])
    ensures var r := RangedRead(log, f, chunk, |plain|, range, s);
            && IsPrefix(r.plain, plain[range.start..range.end + 1])
            && (r.ok ==> r.plain == plain[range.start..range.end + 1])
  {
    var from := PartStart(chunk, StartPart(range, chunk));
    WindowOfSuffix(plain, from, range.start, range.end + 1);
    WindowMono(ReadFrom(log, f, chunk, |plain|, StartPart(range, chunk), s).plain, plain[from..],
               range.start - from, range.end - range.start + 1);
  }

  /** A ranged read under any tampering: only true bytes, and all of them unless it errors. */
  lemma RangedReadOnlyTrue(log: SealLog, files: map<string, bytes>, chunk: int, f: string, range: ByteRange, s: bytes)
    requires 0 < chunk && f in files && Ideal(log) && HonestLog(log, files, chunk)
    requires range.start <= range.end < |files[f]|
    ensures var r := RangedRead(log, f, chunk, |files[f]|, range, s);
            var truth := files[f][range.start..range.end + 1];
            IsPrefix(r.plain, truth) && (r.ok ==> r.plain == truth)
  {
    StartPartHoldsStart(range, chunk, |files[f]|);
    OnlyTruePlaintext(log, files, chunk, f, StartPart(range, chunk), s);
    SliceOfPrefix(log, f, files[f], chunk, range, s);
  }

  /** A reply that tells the truth as far as it goes. */
  predicate OnlyTrue(reply: Reply, truth: bytes) {
    reply.Reply? ==> IsPrefix(reply.body, truth) && reply.contentLength == |truth| && (reply.ok ==> reply.body == truth)
  }

  lemma WholeReplyOnlyTrue(log: SealLog, files: map<string, bytes>, chunk: int, f: string, upstream: Upstream)
    requires 0 < chunk && f in files && Ideal(log) && HonestLog(log, files, chunk)
    ensures OnlyTrue(ReplyTo(log, f, chunk, |files[f]|, None, upstream), files[f])
  {
    OnlyTruePlaintext(log, files, chunk, f, 1, Join(upstream.pieces));
    assert files[f][PartStart(chunk, 1)..] == files[f];
  }

  lemma RangedReplyOnlyTrue(log: SealLog, files: map<string, bytes>, chunk: int, f: string, range: ByteRange,
                            upstream: Upstream)
    requires 0 < chunk && f in files && Ideal(log) && HonestLog(log, files, chunk)
    requires range.start <= range.end < |files[f]|
    ensures OnlyTrue(ReplyTo(log, f, chunk, |files[f]|, Some(range), upstream), files[f][range.start..range.end + 1])
  {
    RangedReadOnlyTrue(log, files, chunk, f, range, Join(upstream.pieces));
  }

  /**
   Whole path, arbitrary storage: whatever it answers, the body is a prefix of the bytes asked for, and all of
   them unless the stream errors.
   */
  lemma DownloadOnlyTrue(log: SealLog, files: map<string, bytes>, chunk: int, f: string, rangeHeader: Option<string>,
                         ifRange: Option<string>, storage: Storage, range: Option<ByteRange>)
    requires 0 < chunk && f in files && Ideal(log) && HonestLog(log, files, chunk)
    requires Wanted(rangeHeader, ifRange, f, |files[f]|, range)
    ensures range.Some? ==> range.value.start <= range.value.end < |files[f]|
    ensures OnlyTrue(Answer(log, f, chunk, |files[f]|, rangeHeader, ifRange, storage), Asked(files[f], range))
  {
    HonouredRangeInside(rangeHeader, ifRange, f, |files[f]|);
    HonouredRangeExactly(rangeHeader, ifRange, f, |files[f]|, range);
    var upstream := storage(FetchOffset(range, chunk));
    match range
    case None => WholeReplyOnlyTrue(log, files, chunk, f, upstream);
    case Some(r) => RangedReplyOnlyTrue(log, files, chunk, f, r, upstream);
  }

  /**
   One request of a download that is paused, cut off or finished: what the storage served for it, and how many
   body bytes the browser kept.
   */
  datatype Attempt = Attempt(storage: Storage, kept: nat)

  /** What the download manager asks for when it already holds got bytes. */
  function ResumeHeader(got: bytes): Option<string> {
    if got == [] then None else Some("bytes=" + Decimal(|got|) + "-")
  }

  /** The browser's file after one more attempt. */
  function Continue(log: SealLog, f: string, chunk: int, size: nat, got: bytes, a: Attempt): bytes
    requires 0 < chunk
  {
    if |got| >= size then got
    else
      match Answer(log, f, chunk, size, ResumeHeader(got), Some(ETag(f, size)), a.storage)
      case Refused(_) => got
      case Reply(_, _, _, body, _) => got + body[..if a.kept < |body| then a.kept else |body|]
  }

  function Session(log: SealLog, f: string, chunk: int, size: nat, attempts: seq<Attempt>): bytes
    requires 0 < chunk
  {
    if attempts == [] then []
    else
      var n := |attempts| - 1;
      Continue(log, f, chunk, size, Session(log, f, chunk, size, attempts[..n]), attempts[n])
  }

  /** What a resuming browser asks for is exactly what it lacks. */
  lemma RestIsAsked(plain: bytes, f: string, got: bytes) returns (range: Option<ByteRange>)
    requires |got| < |plain| <= MAX_SAFE_INTEGER
    ensures Wanted(ResumeHeader(got), Some(ETag(f, |plain|)), f, |plain|, range)
    ensures range.Some? ==> range.value.start <= range.value.end < |plain|
    ensures Asked(plain, range) == plain[|got|..]
  {
    range := HonouredRange(ResumeHeader(got), Some(ETag(f, |plain|)), f, |plain|);
    HonouredRangeExactly(ResumeHeader(got), Some(ETag(f, |plain|)), f, |plain|, range);
    if got != [] { ResumeHeaderReadsBack(|got|, |plain|); }
  }

  /** One more attempt keeps the browser's file a prefix of the plaintext. */
  lemma ContinueOnlyTrue(log: SealLog, files: map<string, bytes>, chunk: int, f: string, got: bytes, a: Attempt)
    requires 0 < chunk && f in files && Ideal(log) && HonestLog(log, files, chunk)
    requires |files[f]| <= MAX_SAFE_INTEGER && got <= files[f]
    ensures IsPrefix(Continue(log, f, chunk, |files[f]|, got, a), files[f])
  {
    if |got| < |files[f]| {
      var range := RestIsAsked(files[f], f, got);
      DownloadOnlyTrue(log, files, chunk, f, ResumeHeader(got), Some(ETag(f, |files[f]|)), a.storage, range);
      var reply := Answer(log, f, chunk, |files[f]|, ResumeHeader(got), Some(ETag(f, |files[f]|)), a.storage);
      if reply.Reply? { KeptIsPrefix(got, reply.body, a.kept, files[f]); }
    }
  }

  lemma KeptIsPrefix(got: bytes, body: bytes, kept: nat, plain: bytes)
    requires got <= plain && IsPrefix(body, plain[|got|..])
    ensures IsPrefix(got + body[..if kept < |body| then kept else |body|], plain)
  {
    var part := body[..if kept < |body| then kept else |body|];
    assert part <= plain[|got|..];
    PrefixContinues(got, plain);
    assert got + part == plain[..|got| + |part|];
  }

  /**
   Pauses and resumes compose: over any sequence of attempts, each served by
   storage that may tamper, truncate or refuse, the browser's file is a prefix of
   the plaintext; so a file of the declared size is the plaintext.
   */
  lemma {:induction false} SessionOnlyTrue(log: SealLog, files: map<string, bytes>, chunk: int, f: string,
                                           attempts: seq<Attempt>)
    requires 0 < chunk && f in files && Ideal(log) && HonestLog(log, files, chunk)
    requires |files[f]| <= MAX_SAFE_INTEGER
    ensures var got := Session(log, f, chunk, |files[f]|, attempts);
            IsPrefix(got, files[f]) && (|got| == |files[f]| ==> got == files[f])
  {
    if attempts != [] {
      var n := |attempts| - 1;
      SessionOnlyTrue(log, files, chunk, f, attempts[..n]);
      var got := Session(log, f, chunk, |files[f]|, attempts[..n]);
      ContinueOnlyTrue(log, files, chunk, f, got, attempts[n]);
    }
  }

  lemma PrefixContinues(got: bytes, plain: bytes)
    requires got <= plain
    ensures got + plain[|got|..] == plain
  {}

  /** One faithful attempt, kept to the end, finishes the file from wherever the earlier ones left it. */
  lemma FaithfulAttemptFinishes(log: SealLog, f: string, plain: bytes, chunk: int, boxes: seq<bytes>, got: bytes,
                                a: Attempt)
    requires 0 < chunk && Ideal(log) && Encodes(log, f, plain, chunk, boxes)
    requires |plain| <= MAX_SAFE_INTEGER && got <= plain && |got| < |plain| && |plain| <= a.kept
    requires FaithfulStorage(Join(boxes), a.storage)
    ensures Continue(log, f, chunk, |plain|, got, a) == plain
  {
    var range := RestIsAsked(plain, f, got);
    DownloadExact(log, f, plain, chunk, boxes, ResumeHeader(got), Some(ETag(f, |plain|)), a.storage, range);
    PrefixContinues(got, plain);
  }
}
