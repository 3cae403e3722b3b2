// The Service Worker's answer to a download request: the chunk arithmetic of a
// byte range, the slicing of the decoded stream, and resumed downloads.
module RangedDownload {
  import opened Bytes
  import opened ChunkLayout
  import opened Decimals
  import opened Aead
  import opened StreamDecryption
  import opened StreamDecoding
  import opened RangeHeaders

  /** The bytes of s from skip on, at most length of them. */
  function Window(s: bytes, skip: nat, length: nat): bytes {
    var t := if skip <= |s| then s[skip..] else [];
    if length <= |t| then t[..length] else t
  }

  /** sliceStream: drops the first bytes, passes length bytes, then terminates. */
  class SliceStream {
    const length: nat
    var toSkip: nat
    var remaining: nat
    var terminated: bool
    var out: seq<bytes>

    ghost predicate Valid()
      reads this
    {
      && |Join(out)| + remaining == length
      && (terminated <==> remaining == 0)
      && (toSkip > 0 ==> Join(out) == [])
    }

    /** What will have passed once rest has gone through. */
    ghost function Outcome(rest: bytes): bytes
      reads this
    {
      Join(out) + Window(rest, toSkip, remaining)
    }

    constructor (skip: nat, len: nat, ghost s: bytes)
      requires 0 < len
      ensures Valid() && !terminated && length == len && out == []
      ensures Outcome(s) == Window(s, skip, len)
    {
      length, toSkip, remaining := len, skip, len;
      terminated, out := false, [];
    }

    /** One decoded chunk goes through; rest is whatever will follow it. */
    method Transform(chunk: bytes, ghost rest: bytes)
      requires Valid() && !terminated
      modifies this
      ensures Valid()
      ensures Outcome(rest) == old(Outcome(chunk + rest))
    {
      WindowStep(chunk, rest, toSkip, remaining, Join(out));
      ghost var taken := Window(chunk, toSkip, remaining);
      var piece := chunk;
      if toSkip > 0 {
        var drop := if toSkip <= |piece| then toSkip else |piece|;
        toSkip := toSkip - drop;
        piece := piece[drop..];
      }
      if remaining <= 0 || |piece| == 0 {
        assert taken == [] && Join(out) + [] == Join(out);
        return;
      }
      if |piece| > remaining { piece := piece[..remaining]; }
      assert piece == taken;
      remaining := remaining - |piece|;
      JoinAppend(out, piece);
      out := out + [piece];
      if remaining <= 0 { terminated := true; }
    }
  }

  /** Once terminated, nothing more passes. */
  lemma NothingPasses(slice: SliceStream, rest: bytes)
    requires slice.Valid() && slice.terminated
    ensures slice.Outcome(rest) == slice.Outcome([])
  {
    assert Window(rest, slice.toSkip, 0) == [] == Window([], slice.toSkip, 0);
  }

  /** What one chunk adds to the window, and what is left of it. */
  lemma WindowStep(chunk: bytes, rest: bytes, skip: nat, length: nat, before: bytes)
    ensures var drop := if skip <= |chunk| then skip else |chunk|;
            var piece := Window(chunk, skip, length);
            before + Window(chunk + rest, skip, length)
            == before + piece + Window(rest, skip - drop, length - |piece|)
  {
    WindowSplit(chunk, rest, skip, length);
    var drop := if skip <= |chunk| then skip else |chunk|;
    var piece := Window(chunk, skip, length);
    var w := Window(rest, skip - drop, length - |piece|);
    assert before + piece + w == before + (piece + w);
  }

  lemma WindowSplit(chunk: bytes, rest: bytes, skip: nat, length: nat)
    ensures var drop := if skip <= |chunk| then skip else |chunk|;
            var piece := Window(chunk, skip, length);
            Window(chunk + rest, skip, length) == piece + Window(rest, skip - drop, length - |piece|)
  {
    if skip <= |chunk| {
      var t := chunk[skip..];
      assert (chunk + rest)[skip..] == t + rest;
      assert rest[0..] == rest;
      if |t| <= length {
        if length <= |t + rest| { assert (t + rest)[..length] == t + rest[..length - |t|]; }
      } else {
        assert (t + rest)[..length] == t[..length] + rest[..0];
      }
    } else if skip <= |chunk + rest| {
      assert (chunk + rest)[skip..] == rest[skip - |chunk|..];
    }
  }

  /** The chunk that holds the first byte of a range (parts count from 1). */
  function StartPart(range: ByteRange, chunk: int): nat
    requires 0 < chunk
  {
    range.start / chunk + 1
  }

  /** What a ranged read of the stream s (taken from the start part's offset) hands out. */
  function RangedRead(log: SealLog, f: string, chunk: int, size: int, range: ByteRange, s: bytes): Decoded
    requires 0 < chunk && range.start <= range.end
  {
    var k := StartPart(range, chunk);
    var r := ReadFrom(log, f, chunk, size, k, s);
    var body := Window(r.plain, range.start - PartStart(chunk, k), range.end - range.start + 1);
    Decoded(body, |body| == range.end - range.start + 1 || r.ok)
  }

  /** The range's first byte lies in the start part, past no more than one chunk of skipped plaintext. */
  lemma StartPartHoldsStart(range: ByteRange, chunk: int, size: nat)
    requires 0 < chunk && range.start < size
    ensures 1 <= StartPart(range, chunk) <= TotalParts(size, chunk)
    ensures 0 <= range.start - PartStart(chunk, StartPart(range, chunk)) < chunk
  {
    var q := range.start / chunk;
    assert range.start == q * chunk + range.start % chunk;
    PartsBracket(size, chunk);
    var n := TotalParts(size, chunk);
    if n <= q { MulMono(n, q, chunk); }
  }

  /** Pushes the plaintext chunks the decoder released since the last call through the slice. */
  method Feed(chunks: seq<bytes>, fed: nat, slice: SliceStream, ghost rest: bytes)
    requires fed <= |chunks| && slice.Valid() && !slice.terminated
    modifies slice
    ensures slice.Valid()
    ensures slice.Outcome(if slice.terminated then [] else rest) == old(slice.Outcome(Join(chunks[fed..]) + rest))
  {
    for i := fed to |chunks|
      invariant slice.Valid() && !slice.terminated
      invariant slice.Outcome(Join(chunks[i..]) + rest) == old(slice.Outcome(Join(chunks[fed..]) + rest))
    {
      JoinFrom(chunks, i);
      ghost var tail := Join(chunks[i + 1..]);
      assert chunks[i] + (tail + rest) == Join(chunks[i..]) + rest;
      slice.Transform(chunks[i], tail + rest);
      if slice.terminated {
        NothingPasses(slice, tail + rest);
        return;
      }
    }
    assert Join(chunks[|chunks|..]) + rest == rest;
  }

  /** The slice has seen exactly what the decoder released, and is on its way to the goal. */
  ghost predicate InStep(decoder: DecryptStream, slice: SliceStream, plain: bytes, goal: bytes)
    reads decoder, slice
  {
    && slice.Valid()
    && Join(decoder.out) <= plain
    && slice.Outcome(plain[|Join(decoder.out)|..]) == goal
  }

  lemma PrefixSplit(a: bytes, b: bytes, p: bytes)
    requires a + b <= p
    ensures a <= p
    ensures b + p[|a + b|..] == p[|a|..]
  {
    assert p == a + b + p[|a + b|..];
    assert p[|a|..] == b + p[|a + b|..];
  }

  /** The chunks released since before are the next bytes of the verdict. */
  lemma Released(before: seq<bytes>, now: seq<bytes>, plain: bytes)
    requires before <= now && Join(now) <= plain
    ensures Join(before) <= plain
    ensures Join(now[|before|..]) + plain[|Join(now)|..] == plain[|Join(before)|..]
  {
    assert now == before + now[|before|..];
    JoinConcat(before, now[|before|..]);
    PrefixSplit(Join(before), Join(now[|before|..]), plain);
  }

  /** One network piece goes through both transforms; rest is whatever is still to come. */
  method PipePiece(decoder: DecryptStream, slice: SliceStream, piece: bytes, ghost rest: bytes, ghost verdict: Decoded,
                   ghost goal: bytes)
    requires decoder.Valid() && !decoder.errored && !slice.terminated
    requires decoder.Outcome(piece + rest) == verdict && InStep(decoder, slice, verdict.plain, goal)
    modifies decoder, slice
    ensures decoder.Valid() && slice.Valid()
    ensures slice.terminated ==> Join(slice.out) == goal
    ensures !slice.terminated ==> InStep(decoder, slice, verdict.plain, goal) && decoder.Outcome(rest) == verdict
    ensures !slice.terminated && !decoder.errored ==> decoder.Drained()
  {
    ghost var before := decoder.out;
    var fed := |decoder.out|;
    decoder.Transform(piece, rest);
    Released(before, decoder.out, verdict.plain);
    Feed(decoder.out, fed, slice, verdict.plain[|Join(decoder.out)|..]);
    if slice.terminated {
      assert Join(slice.out) + [] == Join(slice.out);
    }
  }

  /** The end of the upstream goes through both transforms. */
  method PipeEnd(decoder: DecryptStream, slice: SliceStream, ghost verdict: Decoded, ghost goal: bytes)
    requires decoder.Valid() && decoder.Drained() && !decoder.errored && !slice.terminated
    requires decoder.Outcome([]) == verdict && InStep(decoder, slice, verdict.plain, goal)
    modifies decoder, slice
    ensures Join(slice.out) == goal && (slice.terminated <==> |goal| == slice.length)
    ensures decoder.errored <==> !verdict.ok
  {
    ghost var before := decoder.out;
    var fed := |decoder.out|;
    decoder.Flush();
    Released(before, decoder.out, verdict.plain);
    Feed(decoder.out, fed, slice, verdict.plain[|Join(decoder.out)|..]);
    if slice.terminated {
      assert Join(slice.out) + [] == Join(slice.out);
    } else {
      Ended(decoder, slice, verdict.plain, goal);
    }
  }

  /** decryptStream from part k piped into sliceStream; stops reading upstream once the slice is served in full. */
  method Pipe(log: SealLog, f: string, chunk: int, size: int, k: nat, skip: nat, length: nat, pieces: seq<bytes>)
    returns (body: bytes, ok: bool)
    requires 0 < chunk && 0 < length
    ensures var verdict := ReadFrom(log, f, chunk, size, k, Join(pieces));
            body == Window(verdict.plain, skip, length) && (ok <==> |body| == length || verdict.ok)
  {
    ghost var verdict := ReadFrom(log, f, chunk, size, k, Join(pieces));
    ghost var goal := Window(verdict.plain, skip, length);
    var decoder := new DecryptStream(log, chunk, size, f, k, Join(pieces));
    var slice := new SliceStream(skip, length, verdict.plain);
    assert pieces[0..] == pieces && verdict.plain[0..] == verdict.plain;
    for i := 0 to |pieces|
      invariant fresh(decoder) && fresh(slice)
      invariant decoder.Valid() && decoder.Drained() && !decoder.errored && !slice.terminated
      invariant decoder.Outcome(Join(pieces[i..])) == verdict
      invariant InStep(decoder, slice, verdict.plain, goal)
    {
      JoinFrom(pieces, i);
      PipePiece(decoder, slice, pieces[i], Join(pieces[i + 1..]), verdict, goal);
      if slice.terminated {
        return Join(slice.out), true;
      }
      if decoder.errored {
        Ended(decoder, slice, verdict.plain, goal);
        return Join(slice.out), false;
      }
    }
    PipeEnd(decoder, slice, verdict, goal);
    body, ok := Join(slice.out), slice.terminated || !decoder.errored;
  }

  /** The body of a 206. */
  method PipeRange(log: SealLog, f: string, chunk: int, size: int, range: ByteRange, pieces: seq<bytes>)
    returns (body: bytes, ok: bool)
    requires 0 < chunk && range.start <= range.end
    ensures Decoded(body, ok) == RangedRead(log, f, chunk, size, range, Join(pieces))
  {
    StartPartHoldsStart(range, chunk, range.start + 1);
    var k := StartPart(range, chunk);
    body, ok := Pipe(log, f, chunk, size, k, range.start - PartStart(chunk, k), range.end - range.start + 1, pieces);
  }

  /** Once the decoder has nothing more to release, the slice has all it will get. */
  lemma Ended(decoder: DecryptStream, slice: SliceStream, plain: bytes, goal: bytes)
    requires InStep(decoder, slice, plain, goal) && Join(decoder.out) == plain && !slice.terminated
    ensures Join(slice.out) == goal && |goal| < slice.length
  {
    assert plain[|plain|..] == [];
    assert Window([], slice.toSkip, slice.remaining) == [];
    assert Join(slice.out) + [] == Join(slice.out);
  }
}
