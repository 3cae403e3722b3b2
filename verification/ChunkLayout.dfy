// The wire format's arithmetic: how a plaintext is cut into crypto chunks and
// where each sealed chunk sits in the stored object. Shared by the browser
// uploader, the Drive importer, the Service Worker and the size check of add-file.
module ChunkLayout {
  import opened Bytes

  const IV_BYTES := 12
  const TAG_BYTES := 16
  const OVERHEAD := IV_BYTES + TAG_BYTES

  /** Number of chunks; Python's floor division on negated operands. */
  function TotalParts(plaintextSize: int, chunkSize: int): (parts: int)
    requires 0 < chunkSize
    ensures 1 <= parts
  {
    if plaintextSize <= 0 then 1
    else
      PartsBracket(plaintextSize, chunkSize);
      -((-plaintextSize) / chunkSize)
  }

  /** Ceiling division is characterised by this bracket. */
  lemma PartsBracket(size: int, chunk: int)
    requires 0 < chunk && 0 < size
    ensures var n := -((-size) / chunk); 1 <= n && (n - 1) * chunk < size <= n * chunk
  {
    var q := (-size) / chunk;
    assert -size == q * chunk + (-size) % chunk;
    var n := -q;
    assert n * chunk == -(q * chunk);
    assert (n - 1) * chunk == n * chunk - chunk;
    if n <= 0 { MulMono(n, 0, chunk); }
  }

  /** The only count whose chunks are all needed and hold the whole file. */
  lemma TotalPartsIsCeiling(size: int, chunk: int, n: int)
    requires 0 < chunk && 0 < size
    ensures n == TotalParts(size, chunk) <==> (n - 1) * chunk < size <= n * chunk
  {
    PartsBracket(size, chunk);
    var m := TotalParts(size, chunk);
    if (n - 1) * chunk < size <= n * chunk {
      if n < m {
        MulMono(n, m - 1, chunk);
      } else if m < n {
        MulMono(m, n - 1, chunk);
      }
    }
  }

  lemma MulMono(a: int, b: int, c: int)
    requires a <= b && 0 <= c
    ensures a * c <= b * c
  {
    assert 0 <= (b - a) * c;
    assert (b - a) * c == b * c - a * c;
  }

  /** The browser's count: the ceiling of a real quotient. */
  function BrowserTotalParts(plaintextSize: int, chunkSize: int): int
    requires 0 < chunkSize
  {
    if plaintextSize <= 0 then 1
    else -((-(plaintextSize as real) / (chunkSize as real)).Floor)
  }

  lemma EncodersAgreeOnParts(size: int, chunk: int)
    requires 0 < chunk
    ensures BrowserTotalParts(size, chunk) == TotalParts(size, chunk)
  {
    if 0 < size {
      var f := (-(size as real) / (chunk as real)).Floor;
      FloorBracket(-size, chunk, f);
      var n := -f;
      assert n * chunk == -(f * chunk) && (n - 1) * chunk == -(f * chunk + chunk) by { Negate(f, chunk); }
      TotalPartsIsCeiling(size, chunk, n);
    }
  }

  lemma Negate(f: int, c: int)
    ensures (-f) * c == -(f * c) && (-f - 1) * c == -(f * c + c)
  {}

  lemma FloorBracket(a: int, c: int, f: int)
    requires 0 < c && f == ((a as real) / (c as real)).Floor
    ensures f * c <= a < f * c + c
  {
    var q := (a as real) / (c as real);
    var r := c as real;
    QuotientTimes(a as real, r);
    Scale(f, c);
    RealMulMono(f as real, q, r);
    RealMulStrict(q, f as real + 1.0, r);
    DistributeOne(f as real, r);
  }

  lemma QuotientTimes(a: real, c: real)
    requires 0.0 < c
    ensures (a / c) * c == a
  {}

  lemma DistributeOne(f: real, c: real)
    ensures (f + 1.0) * c == f * c + c
  {}

  lemma Scale(f: int, c: int)
    ensures (f as real) * (c as real) == (f * c) as real
  {}

  lemma RealMulMono(a: real, b: real, c: real)
    requires a <= b && 0.0 <= c
    ensures a * c <= b * c
  {}

  lemma RealMulStrict(a: real, b: real, c: real)
    requires a < b && 0.0 < c
    ensures a * c < b * c
  {}

  /** Bytes that land in the bucket for a plaintext of this size. */
  function CiphertextSize(plaintextSize: int, chunkSize: int): int
    requires 0 < chunkSize
  {
    if plaintextSize <= 0 then OVERHEAD
    else plaintextSize + TotalParts(plaintextSize, chunkSize) * OVERHEAD
  }

  /** First plaintext byte of part k (parts count from 1). */
  function PartStart(chunkSize: int, k: int): (start: int)
    ensures 0 < chunkSize && 1 <= k ==> 0 <= start
  {
    (k - 1) * chunkSize
  }

  /** The canonical split: chunk k of a plaintext. */
  function PlainChunk(plain: bytes, chunkSize: int, k: int): (piece: bytes)
    requires 0 < chunkSize && 1 <= k <= TotalParts(|plain|, chunkSize)
    ensures k < TotalParts(|plain|, chunkSize) ==> |piece| == chunkSize
    ensures k == TotalParts(|plain|, chunkSize) ==> |piece| == |plain| - PartStart(chunkSize, k)
    ensures |piece| <= chunkSize
  {
    PartStartInside(|plain|, chunkSize, k);
    var start := PartStart(chunkSize, k);
    var end := if start + chunkSize <= |plain| then start + chunkSize else |plain|;
    plain[start..end]
  }

  /** Every part but the last is full, and the last one reaches the end. */
  lemma PartStartInside(size: nat, chunk: int, k: int)
    requires 0 < chunk && 1 <= k <= TotalParts(size, chunk)
    ensures 0 <= PartStart(chunk, k) <= size
    ensures k < TotalParts(size, chunk) ==> PartStart(chunk, k) + chunk < size
    ensures k == TotalParts(size, chunk) ==> size <= PartStart(chunk, k) + chunk
    ensures 0 < size ==> PartStart(chunk, k) < size
    ensures PartStart(chunk, k) + chunk == PartStart(chunk, k + 1)
  {
    assert 0 <= (k - 1) * chunk;
    assert (k - 1) * chunk + chunk == k * chunk;
    if 0 < size {
      PartsBracket(size, chunk);
      var n := TotalParts(size, chunk);
      MulMono(k - 1, n - 1, chunk);
      if k < n { MulMono(k, n - 1, chunk); }
    } else {
      assert k == 1;
    }
  }

  /** The plaintext up to the end of part k. */
  function PrefixThrough(plain: bytes, chunkSize: int, k: int): bytes
    requires 0 < chunkSize && 0 <= k <= TotalParts(|plain|, chunkSize)
  {
    if k == 0 then [] else PrefixThrough(plain, chunkSize, k - 1) + PlainChunk(plain, chunkSize, k)
  }

  /** The chunks of the canonical split, put end to end, are the plaintext. */
  lemma {:induction false} ChunksConcatenate(plain: bytes, chunk: int, k: int)
    requires 0 < chunk && 0 <= k <= TotalParts(|plain|, chunk)
    ensures k < TotalParts(|plain|, chunk) ==>
        k * chunk <= |plain| && PrefixThrough(plain, chunk, k) == plain[..k * chunk]
    ensures k == TotalParts(|plain|, chunk) ==> PrefixThrough(plain, chunk, k) == plain
  {
    if k == 0 {
      assert k * chunk == 0;
    } else {
      ChunksConcatenate(plain, chunk, k - 1);
      PartStartInside(|plain|, chunk, k);
      var start := PartStart(chunk, k);
      assert start == (k - 1) * chunk;
      assert PrefixThrough(plain, chunk, k - 1) == plain[..start];
      if k < TotalParts(|plain|, chunk) {
        assert start + chunk == k * chunk;
        assert plain[..start] + plain[start..start + chunk] == plain[..start + chunk];
      } else {
        assert plain[..start] + plain[start..] == plain;
      }
    }
  }

  /** First stored byte of part k: where a ranged read of that part begins. */
  function CipherOffset(chunkSize: int, k: int): int {
    (k - 1) * (chunkSize + OVERHEAD)
  }

  /** Each earlier part has added its overhead. */
  lemma CipherOffsetGrows(chunk: int, k: int)
    ensures CipherOffset(chunk, k) == PartStart(chunk, k) + (k - 1) * OVERHEAD
    ensures CipherOffset(chunk, k + 1) == CipherOffset(chunk, k) + (chunk + OVERHEAD)
  {}

  /** All of the same full length. */
  predicate FullBlocks(blocks: seq<bytes>, chunk: int) {
    forall i :: 0 <= i < |blocks| ==> |blocks[i]| == chunk
  }

  lemma {:induction false} FullBlocksLength(blocks: seq<bytes>, chunk: int)
    requires FullBlocks(blocks, chunk)
    ensures |Join(blocks)| == |blocks| * chunk
  {
    if blocks != [] {
      FullBlocksLength(blocks[..|blocks| - 1], chunk);
      assert (|blocks| - 1) * chunk + chunk == |blocks| * chunk;
    }
  }

  /** Index arithmetic of a block that starts after n full ones. */
  lemma BlockIndex(size: nat, chunk: int, n: nat, len: nat)
    requires 0 < chunk && n * chunk + len <= size && len <= chunk
    requires 0 < len || size == 0
    ensures n + 1 <= TotalParts(size, chunk)
    ensures PartStart(chunk, n + 1) == n * chunk
    ensures n * chunk + len == size ==> n + 1 == TotalParts(size, chunk)
  {
    assert (n + 1) * chunk == n * chunk + chunk;
    if 0 < size {
      PartsBracket(size, chunk);
      var m := TotalParts(size, chunk);
      if m <= n { MulMono(m, n, chunk); }
      if n * chunk + len == size { TotalPartsIsCeiling(size, chunk, n + 1); }
    } else if 0 < n {
      MulMono(1, n, chunk);
    }
  }

  lemma MiddleSlice(a: bytes, b: bytes, s: bytes)
    requires a + b <= s
    ensures s[|a|..|a| + |b|] == b
  {
    assert s[..|a| + |b|] == a + b;
  }

  /** A non-empty block that follows n full ones inside a file is chunk n + 1 of the file, or a cut-short one. */
  lemma NextBlockFits(plain: bytes, chunk: int, blocks: seq<bytes>, next: bytes)
    requires 0 < chunk && FullBlocks(blocks, chunk) && Join(blocks) + next <= plain
    requires |next| <= chunk && (next != [] || plain == [])
    ensures |blocks| + 1 <= TotalParts(|plain|, chunk)
    ensures PlainChunk(plain, chunk, |blocks| + 1) == next || |next| < |PlainChunk(plain, chunk, |blocks| + 1)|
    ensures |next| == chunk || Join(blocks) + next == plain ==> PlainChunk(plain, chunk, |blocks| + 1) == next
  {
    FullBlocksLength(blocks, chunk);
    BlockIndex(|plain|, chunk, |blocks|, |next|);
    MiddleSlice(Join(blocks), next, plain);
  }

  /** These blocks are the canonical split of the file. */
  ghost predicate CanonicalSplit(plain: bytes, chunk: int, blocks: seq<bytes>)
    requires 0 < chunk
  {
    && |blocks| == TotalParts(|plain|, chunk)
    && forall k :: 1 <= k <= |blocks| ==> blocks[k - 1] == PlainChunk(plain, chunk, k)
  }

  /** Full blocks and one last shorter block that together make a file are its canonical split. */
  lemma BlocksAreCanonical(plain: bytes, chunk: int, blocks: seq<bytes>, last: bytes)
    requires 0 < chunk && FullBlocks(blocks, chunk) && Join(blocks) + last == plain
    requires 0 < |last| <= chunk || (last == [] && plain == [])
    ensures CanonicalSplit(plain, chunk, blocks + [last])
  {
    FullBlocksLength(blocks, chunk);
    BlockIndex(|plain|, chunk, |blocks|, |last|);
    NextBlockFits(plain, chunk, blocks, last);
    forall k | 1 <= k <= |blocks| + 1
      ensures (blocks + [last])[k - 1] == PlainChunk(plain, chunk, k)
    {
      if k <= |blocks| { EarlierBlockIsCanonical(plain, chunk, blocks, last, k); }
    }
  }

  lemma EarlierBlockIsCanonical(plain: bytes, chunk: int, blocks: seq<bytes>, last: bytes, k: nat)
    requires 0 < chunk && FullBlocks(blocks, chunk) && Join(blocks) + last == plain && 1 <= k <= |blocks|
    ensures k <= TotalParts(|plain|, chunk) && PlainChunk(plain, chunk, k) == blocks[k - 1]
  {
    JoinAround(blocks, k - 1);
    NextBlockFits(plain, chunk, blocks[..k - 1], blocks[k - 1]);
  }
}
