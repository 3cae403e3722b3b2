/** What the streaming decoder releases, for honest and for tampered storage. */
module StreamDecoding {
  import opened Bytes
  import opened ChunkLayout
  import opened Aead
  import opened StreamDecryption

  /** A read of file f that starts at part k of the stored object. */
  function ReadFrom(log: SealLog, f: string, chunk: int, size: int, k: nat, s: bytes): Decoded
    requires 0 < chunk
  {
    Peel(FileKey(log, f, chunk, TotalParts(size, chunk)), k, size - PartStart(chunk, k), s)
  }

  /** The plaintext still ahead of part k exceeds one chunk exactly when k is not the last part. */
  lemma RemainingTellsLastPart(size: nat, chunk: int, k: nat)
    requires 0 < chunk && 1 <= k <= TotalParts(size, chunk)
    ensures size - PartStart(chunk, k) > chunk <==> k < TotalParts(size, chunk)
    ensures size - PartStart(chunk, k) - chunk == size - PartStart(chunk, k + 1)
  {
    PartStartInside(size, chunk, k);
  }

  /** A full box before the last part is opened and the read goes on behind it. */
  lemma ReadFullBox(log: SealLog, f: string, chunk: int, size: nat, k: nat, box: bytes, rest: bytes)
    requires 0 < chunk && 1 <= k < TotalParts(size, chunk) && |box| == chunk + OVERHEAD
    ensures var got := Open(log, AadForChunk(f, k, TotalParts(size, chunk)), box);
            && (got == None ==> ReadFrom(log, f, chunk, size, k, box + rest) == Decoded([], false))
            && (got.Some? && |got.value| == chunk ==>
                  ReadFrom(log, f, chunk, size, k, box + rest)
                  == After(got.value, ReadFrom(log, f, chunk, size, k + 1, rest)))
  {
    RemainingTellsLastPart(size, chunk, k);
    var s := box + rest;
    assert s[..chunk + OVERHEAD] == box && s[chunk + OVERHEAD..] == rest;
  }

  /** The last part takes whatever is left. */
  lemma ReadLastBox(log: SealLog, f: string, chunk: int, size: nat, s: bytes)
    requires 0 < chunk
    ensures var k := TotalParts(size, chunk);
            var got := Open(log, AadForChunk(f, k, k), s);
            ReadFrom(log, f, chunk, size, k, s)
            == if |s| != size - PartStart(chunk, k) + OVERHEAD || got == None then Decoded([], false)
               else Decoded(got.value, |got.value| == size - PartStart(chunk, k))
  {
    RemainingTellsLastPart(size, chunk, TotalParts(size, chunk));
  }

  /** A stream that ends inside a box before the last part is refused. */
  lemma ReadShortStream(log: SealLog, f: string, chunk: int, size: nat, k: nat, s: bytes)
    requires 0 < chunk && 1 <= k < TotalParts(size, chunk) && |s| < chunk + OVERHEAD
    ensures ReadFrom(log, f, chunk, size, k, s) == Decoded([], false)
  {
    RemainingTellsLastPart(size, chunk, k);
  }

  /** Runs a whole stream through the transform, whatever pieces the network cut it into. */
  method DecryptAll(log: SealLog, f: string, chunk: int, size: int, startPart: nat, pieces: seq<bytes>)
    returns (plain: bytes, ok: bool)
    requires 0 < chunk
    ensures Decoded(plain, ok) == ReadFrom(log, f, chunk, size, startPart, Join(pieces))
  {
    var decoder := new DecryptStream(log, chunk, size, f, startPart, Join(pieces));
    ghost var verdict := ReadFrom(log, f, chunk, size, startPart, Join(pieces));
    assert pieces[0..] == pieces;
    for i := 0 to |pieces|
      invariant fresh(decoder) && decoder.Valid() && decoder.Drained() && !decoder.errored
      invariant decoder.Outcome(Join(pieces[i..])) == verdict
    {
      JoinFrom(pieces, i);
      decoder.Transform(pieces[i], Join(pieces[i + 1..]));
      if decoder.errored {
        return Join(decoder.out), false;
      }
    }
    decoder.Flush();
    plain, ok := Join(decoder.out), !decoder.errored;
  }

  /** Box lengths of an honest object. */
  lemma BoxLength(log: SealLog, f: string, plain: bytes, chunk: int, boxes: seq<bytes>, k: nat)
    requires 0 < chunk && Ideal(log) && Encodes(log, f, plain, chunk, boxes) && 1 <= k <= |boxes|
    ensures |boxes[k - 1]| == |PlainChunk(plain, chunk, k)| + OVERHEAD
  {
    var parts := TotalParts(|plain|, chunk);
    OpenLength(log, AadForChunk(f, k, parts), boxes[k - 1]);
  }

  /** The object's boxes from part k on are its bytes from CipherOffset(k) on. */
  lemma {:induction false} StoredOffset(log: SealLog, f: string, plain: bytes, chunk: int, boxes: seq<bytes>, k: nat)
    requires 0 < chunk && Ideal(log) && Encodes(log, f, plain, chunk, boxes) && 1 <= k <= |boxes|
    ensures |Join(boxes[..k - 1])| == CipherOffset(chunk, k) <= |Join(boxes)|
    ensures Join(boxes[k - 1..]) == Join(boxes)[CipherOffset(chunk, k)..]
  {
    if k == 1 {
      assert CipherOffset(chunk, 1) == 0;
    } else {
      StoredOffset(log, f, plain, chunk, boxes, k - 1);
      BoxLength(log, f, plain, chunk, boxes, k - 1);
      assert boxes[..k - 1] == boxes[..k - 2] + [boxes[k - 2]];
      JoinAppend(boxes[..k - 2], boxes[k - 2]);
      CipherOffsetGrows(chunk, k - 1);
    }
    assert boxes == boxes[..k - 1] + boxes[k - 1..];
    JoinConcat(boxes[..k - 1], boxes[k - 1..]);
  }

  /** The stored object has exactly the size declared at add-file. */
  lemma StoredSize(log: SealLog, f: string, plain: bytes, chunk: int, boxes: seq<bytes>)
    requires 0 < chunk && Ideal(log) && Encodes(log, f, plain, chunk, boxes)
    ensures |Join(boxes)| == CiphertextSize(|plain|, chunk)
  {
    var n := |boxes|;
    StoredOffset(log, f, plain, chunk, boxes, n);
    BoxLength(log, f, plain, chunk, boxes, n);
    assert boxes == boxes[..n - 1] + [boxes[n - 1]];
    JoinAppend(boxes[..n - 1], boxes[n - 1]);
    CipherOffsetGrows(chunk, n);
  }

  /**
   Streaming round trip: reading an honest object from any part releases exactly
   the plaintext from that part on, without an error.
   */
  lemma {:induction false} RoundTrip(log: SealLog, f: string, plain: bytes, chunk: int, boxes: seq<bytes>, k: nat)
    requires 0 < chunk && Ideal(log) && Encodes(log, f, plain, chunk, boxes) && 1 <= k <= |boxes|
    ensures PartStart(chunk, k) <= |plain|
    ensures ReadFrom(log, f, chunk, |plain|, k, Join(boxes[k - 1..])) == Decoded(plain[PartStart(chunk, k)..], true)
    decreases |boxes| - k
  {
    var parts := TotalParts(|plain|, chunk);
    PartStartInside(|plain|, chunk, k);
    BoxLength(log, f, plain, chunk, boxes, k);
    var box := boxes[k - 1];
    assert boxes[k - 1..] == [box] + boxes[k..];
    JoinCons(box, boxes[k..]);
    var start := PartStart(chunk, k);
    if k < parts {
      RoundTrip(log, f, plain, chunk, boxes, k + 1);
      ReadFullBox(log, f, chunk, |plain|, k, box, Join(boxes[k..]));
      assert plain[start..start + chunk] + plain[start + chunk..] == plain[start..];
    } else {
      assert boxes[k..] == [] && box + [] == box;
      ReadLastBox(log, f, chunk, |plain|, box);
    }
  }

  /**
   Tamper evidence: whatever bytes the storage serves, what is released before an
   error is a prefix of the true plaintext, and a read that ends without an error
   released all of it.
   */
  lemma {:induction false} OnlyTruePlaintext(log: SealLog, files: map<string, bytes>, chunk: int, f: string, k: nat,
                                             s: bytes)
    requires 0 < chunk && f in files && Ideal(log) && HonestLog(log, files, chunk)
    requires 1 <= k <= TotalParts(|files[f]|, chunk)
    ensures PartStart(chunk, k) <= |files[f]|
    ensures var r := ReadFrom(log, f, chunk, |files[f]|, k, s);
            var truth := files[f][PartStart(chunk, k)..];
            && IsPrefix(r.plain, truth)
            && (r.ok ==> r.plain == truth)
    decreases TotalParts(|files[f]|, chunk) - k
  {
    var plain := files[f];
    var parts := TotalParts(|plain|, chunk);
    PartStartInside(|plain|, chunk, k);
    var start := PartStart(chunk, k);
    var full := chunk + OVERHEAD;
    if k == parts {
      OpensOnlyToItsOwnChunk(log, files, chunk, f, k, s);
      ReadLastBox(log, f, chunk, |plain|, s);
    } else if |s| < full {
      ReadShortStream(log, f, chunk, |plain|, k, s);
    } else {
      assert s == s[..full] + s[full..];
      OnlyTruePlaintext(log, files, chunk, f, k + 1, s[full..]);
      OneTrueBoxMore(log, files, chunk, f, k, s[..full], s[full..]);
    }
  }

  /** A full box before a stream that releases only true plaintext. */
  lemma OneTrueBoxMore(log: SealLog, files: map<string, bytes>, chunk: int, f: string, k: nat, box: bytes, rest: bytes)
    requires 0 < chunk && f in files && Ideal(log) && HonestLog(log, files, chunk)
    requires 1 <= k < TotalParts(|files[f]|, chunk) && |box| == chunk + OVERHEAD
    requires 0 <= PartStart(chunk, k + 1) <= |files[f]|
    requires var r := ReadFrom(log, f, chunk, |files[f]|, k + 1, rest);
             var truth := files[f][PartStart(chunk, k + 1)..];
             IsPrefix(r.plain, truth) && (r.ok ==> r.plain == truth)
    ensures 0 <= PartStart(chunk, k) <= |files[f]|
    ensures var r := ReadFrom(log, f, chunk, |files[f]|, k, box + rest);
            var truth := files[f][PartStart(chunk, k)..];
            IsPrefix(r.plain, truth) && (r.ok ==> r.plain == truth)
  {
    var plain := files[f];
    PartStartInside(|plain|, chunk, k);
    var start := PartStart(chunk, k);
    OpensOnlyToItsOwnChunk(log, files, chunk, f, k, box);
    ReadFullBox(log, f, chunk, |plain|, k, box, rest);
    assert plain[start..] == plain[start..start + chunk] + plain[start + chunk..];
  }

  /** The plaintext length the layout expects of part k. */
  function PartLength(size: nat, chunk: int, k: nat): int
    requires 0 < chunk
  {
    if k < TotalParts(size, chunk) then chunk else size - PartStart(chunk, k)
  }

  /** One authentic box per part from k on, of the lengths the layout expects, opening to plains. */
  ghost predicate Authentic(log: SealLog, f: string, chunk: int, size: nat, k: nat, boxes: seq<bytes>,
                            plains: seq<bytes>)
    requires 0 < chunk
  {
    var parts := TotalParts(size, chunk);
    && |boxes| == |plains| == parts - k + 1
    && forall i: nat :: i < |boxes| ==>
         && |plains[i]| == PartLength(size, chunk, k + i)
         && Open(log, AadForChunk(f, k + i, parts), boxes[i]) == Some(plains[i])
  }

  lemma JoinHead(pieces: seq<bytes>)
    requires pieces != []
    ensures Join(pieces) == pieces[0] + Join(pieces[1..])
  {
    assert pieces == [pieces[0]] + pieces[1..];
    JoinCons(pieces[0], pieces[1..]);
  }

  lemma AuthenticTail(log: SealLog, f: string, chunk: int, size: nat, k: nat, boxes: seq<bytes>, plains: seq<bytes>)
    requires 0 < chunk && 1 <= k < TotalParts(size, chunk)
    requires Authentic(log, f, chunk, size, k, boxes, plains)
    ensures boxes != [] && plains != []
    ensures Authentic(log, f, chunk, size, k + 1, boxes[1..], plains[1..])
    ensures Join(boxes) == boxes[0] + Join(boxes[1..]) && Join(plains) == plains[0] + Join(plains[1..])
  {
    forall i: nat | i < |boxes| - 1
      ensures |plains[1..][i]| == PartLength(size, chunk, k + 1 + i)
      ensures Open(log, AadForChunk(f, k + 1 + i, TotalParts(size, chunk)), boxes[1..][i]) == Some(plains[1..][i])
    {
      assert k + 1 + i == k + (i + 1);
    }
    JoinHead(boxes);
    JoinHead(plains);
  }

  /** Boxes that authenticate at their places are accepted and decode to their plaintexts. */
  lemma {:induction false} AuthenticIsAccepted(log: SealLog, f: string, chunk: int, size: nat, k: nat,
                                               boxes: seq<bytes>, plains: seq<bytes>)
    requires 0 < chunk && Ideal(log) && 1 <= k <= TotalParts(size, chunk)
    requires Authentic(log, f, chunk, size, k, boxes, plains)
    ensures ReadFrom(log, f, chunk, size, k, Join(boxes)) == Decoded(Join(plains), true)
    decreases TotalParts(size, chunk) - k
  {
    var parts := TotalParts(size, chunk);
    assert k + 0 == k && |plains[0]| == PartLength(size, chunk, k + 0);
    assert Open(log, AadForChunk(f, k + 0, parts), boxes[0]) == Some(plains[0]);
    OpenLength(log, AadForChunk(f, k, parts), boxes[0]);
    if k < parts {
      AuthenticTail(log, f, chunk, size, k, boxes, plains);
      AuthenticIsAccepted(log, f, chunk, size, k + 1, boxes[1..], plains[1..]);
      ReadFullBox(log, f, chunk, size, k, boxes[0], Join(boxes[1..]));
    } else {
      JoinOne(boxes[0]);
      JoinOne(plains[0]);
      assert [boxes[0]] == boxes && [plains[0]] == plains;
      ReadLastBox(log, f, chunk, size, boxes[0]);
    }
  }

  lemma AuthenticCons(log: SealLog, f: string, chunk: int, size: nat, k: nat, box: bytes, plain: bytes, bs: seq<bytes>,
                      ps: seq<bytes>)
    requires 0 < chunk && 1 <= k < TotalParts(size, chunk)
    requires |plain| == chunk && Open(log, AadForChunk(f, k, TotalParts(size, chunk)), box) == Some(plain)
    requires Authentic(log, f, chunk, size, k + 1, bs, ps)
    ensures Authentic(log, f, chunk, size, k, [box] + bs, [plain] + ps)
  {
    var boxes, plains := [box] + bs, [plain] + ps;
    forall i: nat | i < |boxes|
      ensures |plains[i]| == PartLength(size, chunk, k + i)
      ensures Open(log, AadForChunk(f, k + i, TotalParts(size, chunk)), boxes[i]) == Some(plains[i])
    {
      if 0 < i {
        assert k + i == k + 1 + (i - 1);
        assert boxes[i] == bs[i - 1] && plains[i] == ps[i - 1];
      }
    }
  }

  /** An accepted stream is such a list of boxes. */
  lemma {:induction false} AcceptedIsAuthentic(log: SealLog, f: string, chunk: int, size: nat, k: nat, s: bytes)
    returns (boxes: seq<bytes>, plains: seq<bytes>)
    requires 0 < chunk && Ideal(log) && 1 <= k <= TotalParts(size, chunk)
    requires ReadFrom(log, f, chunk, size, k, s).ok
    ensures Authentic(log, f, chunk, size, k, boxes, plains) && Join(boxes) == s
    decreases TotalParts(size, chunk) - k
  {
    var parts := TotalParts(size, chunk);
    var full := chunk + OVERHEAD;
    if k == parts {
      ReadLastBox(log, f, chunk, size, s);
      boxes, plains := [s], [Open(log, AadForChunk(f, k, parts), s).value];
      JoinOne(s);
    } else {
      if |s| < full { ReadShortStream(log, f, chunk, size, k, s); }
      assert s == s[..full] + s[full..];
      OpenLength(log, AadForChunk(f, k, parts), s[..full]);
      ReadFullBox(log, f, chunk, size, k, s[..full], s[full..]);
      var plain := Open(log, AadForChunk(f, k, parts), s[..full]).value;
      var bs, ps := AcceptedIsAuthentic(log, f, chunk, size, k + 1, s[full..]);
      boxes, plains := [s[..full]] + bs, [plain] + ps;
      JoinCons(s[..full], bs);
      AuthenticCons(log, f, chunk, size, k, s[..full], plain, bs, ps);
    }
  }

  /** s is a list of boxes, one for each part from k on, each authentic at its place and of the expected length. */
  ghost predicate AuthenticStream(log: SealLog, f: string, chunk: int, size: nat, k: nat, s: bytes)
    requires 0 < chunk
  {
    exists boxes: seq<bytes>, plains: seq<bytes> ::
      Authentic(log, f, chunk, size, k, boxes, plains) && Join(boxes) == s
  }

  /** Acceptance, with no honesty assumed of anyone. */
  lemma AcceptedExactly(log: SealLog, f: string, chunk: int, size: nat, k: nat, s: bytes)
    requires 0 < chunk && Ideal(log) && 1 <= k <= TotalParts(size, chunk)
    ensures ReadFrom(log, f, chunk, size, k, s).ok <==> AuthenticStream(log, f, chunk, size, k, s)
  {
    if AuthenticStream(log, f, chunk, size, k, s) {
      var boxes: seq<bytes>, plains: seq<bytes> :|
        Authentic(log, f, chunk, size, k, boxes, plains) && Join(boxes) == s;
      AuthenticIsAccepted(log, f, chunk, size, k, boxes, plains);
    } else if ReadFrom(log, f, chunk, size, k, s).ok {
      var boxes, plains := AcceptedIsAuthentic(log, f, chunk, size, k, s);
    }
  }

  /** An accepted read from part k took one box for each part from k on. */
  lemma {:induction false} AcceptedLength(log: SealLog, f: string, chunk: int, size: nat, k: nat, s: bytes)
    requires 0 < chunk && Ideal(log) && 1 <= k <= TotalParts(size, chunk)
    requires ReadFrom(log, f, chunk, size, k, s).ok
    ensures |s| == size - PartStart(chunk, k) + (TotalParts(size, chunk) - k + 1) * OVERHEAD
    decreases TotalParts(size, chunk) - k
  {
    var full := chunk + OVERHEAD;
    var parts := TotalParts(size, chunk);
    if k == parts {
      ReadLastBox(log, f, chunk, size, s);
    } else {
      if |s| < full { ReadShortStream(log, f, chunk, size, k, s); }
      var box, rest := s[..full], s[full..];
      assert s == box + rest;
      OpenLength(log, AadForChunk(f, k, parts), box);
      ReadFullBox(log, f, chunk, size, k, box, rest);
      assert ReadFrom(log, f, chunk, size, k + 1, rest).ok;
      AcceptedLength(log, f, chunk, size, k + 1, rest);
      PartStartInside(size, chunk, k);
    }
  }

  /** Truncation and extension are caught by length alone: an accepted full read has exactly the declared size. */
  lemma AcceptedFullLength(log: SealLog, f: string, chunk: int, size: nat, s: bytes)
    requires 0 < chunk && Ideal(log)
    requires ReadFrom(log, f, chunk, size, 1, s).ok
    ensures |s| == CiphertextSize(size, chunk)
  {
    AcceptedLength(log, f, chunk, size, 1, s);
    assert PartStart(chunk, 1) == 0;
  }
}
