// AES-GCM (NIST SP 800-38D) under one transfer key, as an ideal AEAD: a log of
// everything that was sealed. Opening is a lookup in that log, so
// - a sealed box is 28 bytes longer than its plaintext,
// - what was sealed under an AAD opens to itself under that AAD, and
// - nothing else opens, whatever bytes the storage serves.
// Cipher is a toy instance: it shows the three facts can hold together.
module Aead {
  import opened Bytes
  import opened ChunkLayout
  import opened Decimals

  /** (AAD, box) -> plaintext, for every box ever sealed under the key. */
  type SealLog = map<(string, bytes), bytes>

  predicate Ideal(log: SealLog) {
    forall e <- log :: |e.1| == |log[e]| + OVERHEAD
  }

  function Open(log: SealLog, aad: string, box: bytes): Option<bytes> {
    if (aad, box) in log then Some(log[(aad, box)]) else None
  }

  /** The bytes a chunk is bound to. File ids are ASCII, so encoding the text as UTF-8 changes nothing. */
  function AadForChunk(fileId: string, part: nat, parts: nat): string {
    fileId + ":" + Decimal(part) + ":" + Decimal(parts)
  }

  /** In text + ":" + digits, no colon follows the separator. */
  lemma NoColonAfter(a: string, d: string)
    requires AllDigits(d)
    ensures forall i :: |a| < i < |a + ":" + d| ==> (a + ":" + d)[i] != ':'
  {
    forall i | |a| < i < |a + ":" + d| ensures (a + ":" + d)[i] != ':' {
      assert (a + ":" + d)[i] == d[i - |a| - 1];
    }
  }

  lemma SplitAtLastColon(a: string, d: string, b: string, e: string)
    requires a + ":" + d == b + ":" + e && AllDigits(d) && AllDigits(e)
    ensures a == b && d == e
  {
    var s, t := a + ":" + d, b + ":" + e;
    NoColonAfter(a, d);
    NoColonAfter(b, e);
    assert s[|a|] == ':' && t[|b|] == ':';
    assert |a| == |b|;
    assert a == s[..|a|] && b == t[..|b|];
    assert d == s[|a| + 1..] && e == t[|b| + 1..];
  }

  /** One AAD names one file, one position and one total: for any file id, even one holding colons. */
  lemma AadInjective(f: string, k: nat, n: nat, g: string, j: nat, m: nat)
    ensures AadForChunk(f, k, n) == AadForChunk(g, j, m) <==> f == g && k == j && n == m
  {
    if AadForChunk(f, k, n) == AadForChunk(g, j, m) {
      SplitAtLastColon(f + ":" + Decimal(k), Decimal(n), g + ":" + Decimal(j), Decimal(m));
      SplitAtLastColon(f, Decimal(k), g, Decimal(j));
      DecimalInjective(n, m);
      DecimalInjective(k, j);
    }
  }

  /** The boxes of one stored file: box k opens, under its own position, to chunk k of the canonical split. */
  ghost predicate Encodes(log: SealLog, fileId: string, plain: bytes, chunkSize: int, boxes: seq<bytes>)
    requires 0 < chunkSize
  {
    var parts := TotalParts(|plain|, chunkSize);
    && |boxes| == parts
    && forall k :: 1 <= k <= parts ==>
         Open(log, AadForChunk(fileId, k, parts), boxes[k - 1]) == Some(PlainChunk(plain, chunkSize, k))
  }

  /**
   Everything sealed under the key is a canonical chunk of one of the transfer's
   files, or a cut-short block at that position: the importer seals one when a
   stream ends early, before it notices.
   */
  ghost predicate HonestLog(log: SealLog, files: map<string, bytes>, chunkSize: int)
    requires 0 < chunkSize
  {
    forall e <- log :: HonestEntry(log, files, chunkSize, e.0, e.1)
  }

  ghost predicate HonestEntry(log: SealLog, files: map<string, bytes>, chunkSize: int, aad: string, box: bytes)
    requires 0 < chunkSize && (aad, box) in log
  {
    exists f, k :: SealedFor(log[(aad, box)], files, chunkSize, aad, f, k)
  }

  ghost predicate SealedFor(plain: bytes, files: map<string, bytes>, chunkSize: int, aad: string, f: string, k: nat)
    requires 0 < chunkSize
  {
    && f in files
    && 1 <= k <= TotalParts(|files[f]|, chunkSize)
    && aad == AadForChunk(f, k, TotalParts(|files[f]|, chunkSize))
    && var chunk := PlainChunk(files[f], chunkSize, k);
       plain == chunk || |plain| < |chunk|
  }

  /**
   Authenticated position: a box of the right length that opens as part k of file f
   opens to chunk k of f, never to another chunk, another file or a cut-short one.
   */
  lemma OpensOnlyToItsOwnChunk(log: SealLog, files: map<string, bytes>, chunkSize: int, f: string, k: nat, box: bytes)
    requires 0 < chunkSize && f in files && Ideal(log) && HonestLog(log, files, chunkSize)
    ensures var parts := TotalParts(|files[f]|, chunkSize);
            var r := Open(log, AadForChunk(f, k, parts), box);
            r.Some? ==>
              && 1 <= k <= parts
              && (|box| == |PlainChunk(files[f], chunkSize, k)| + OVERHEAD ==>
                    r.value == PlainChunk(files[f], chunkSize, k))
  {
    var parts := TotalParts(|files[f]|, chunkSize);
    var aad := AadForChunk(f, k, parts);
    if (aad, box) in log {
      var e := (aad, box);
      OpenLength(log, aad, box);
      assert HonestEntry(log, files, chunkSize, e.0, e.1);
      var g, j :| SealedFor(log[e], files, chunkSize, aad, g, j);
      AadInjective(f, k, parts, g, j, TotalParts(|files[g]|, chunkSize));
    }
  }

  /** Sealing a canonical chunk, or a cut-short one, keeps the log honest. */
  lemma HonestLogGrows(log: SealLog, files: map<string, bytes>, chunk: int, aad: string, box: bytes, plain: bytes,
                       f: string, k: nat)
    requires 0 < chunk && HonestLog(log, files, chunk) && SealedFor(plain, files, chunk, aad, f, k)
    ensures HonestLog(log[(aad, box) := plain], files, chunk)
  {
    var grown := log[(aad, box) := plain];
    forall e <- grown ensures HonestEntry(grown, files, chunk, e.0, e.1) {
      if e != (aad, box) {
        assert HonestEntry(log, files, chunk, e.0, e.1);
        var g, j :| SealedFor(log[e], files, chunk, e.0, g, j);
        assert SealedFor(grown[e], files, chunk, e.0, g, j);
      } else {
        assert SealedFor(grown[e], files, chunk, e.0, f, k);
      }
    }
  }

  /** Every entry of an honest log has the box length the layout expects of its position. */
  lemma OpenLength(log: SealLog, aad: string, box: bytes)
    requires Ideal(log)
    ensures Open(log, aad, box).Some? ==> |box| == |Open(log, aad, box).value| + OVERHEAD
  {
    if (aad, box) in log { var e := (aad, box); assert e in log; }
  }

  /** The sealing side of one key. Boxes are laid out IV | body | tag. */
  class Cipher {
    var log: SealLog

    ghost predicate Valid()
      reads this
    {
      forall e <- log :: |e.1| == |log[e]| + OVERHEAD && log[e] == e.1[IV_BYTES..|e.1| - TAG_BYTES]
    }

    constructor ()
      ensures Valid() && log == map[]
    {
      log := map[];
    }

    /** encryptChunk / encrypt_chunk, with the random IV as an argument. */
    method Seal(iv: bytes, plain: bytes, aad: string) returns (box: bytes)
      requires Valid() && |iv| == IV_BYTES
      modifies this
      ensures Valid() && Ideal(log)
      ensures |box| == |plain| + 28 && box[..12] == iv
      ensures log == old(log)[(aad, box) := plain]
      ensures (aad, box) in old(log) ==> old(log)[(aad, box)] == plain
      ensures Open(log, aad, box) == Some(plain)
      ensures forall a, b :: Open(old(log), a, b).Some? ==> Open(log, a, b) == Open(old(log), a, b)
    {
      box := iv + plain + seq(TAG_BYTES, _ => 0);
      log := log[(aad, box) := plain];
      assert box[IV_BYTES..|box| - TAG_BYTES] == plain;
    }
  }
}
