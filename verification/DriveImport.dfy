// The Drive importer: arbitrary network reads are re-chunked through a buffer and
// sealed block by block, so that the stored object is the one the browser would
// have produced.
module DriveImport {
  import opened Bytes
  import opened ChunkLayout
  import opened Aead

  datatype ImportError =
    DeclaredTooLong | StreamTooLong | NetworkError | PartRefused | PlaintextMismatch | CiphertextMismatch

  datatype ImportResult = Imported(parts: seq<bytes>) | Failed(error: ImportError)

  /** What one import run is told: the row's declared sizes and the draft's chunk size. */
  datatype Declared = Declared(fileId: string, plaintextSize: nat, size: nat, chunkSize: int)

  /** The closure of import_drive_file_task: one part at a time, with its running totals. */
  class PartWriter {
    const row: Declared
    const cipher: Cipher
    // Part numbers whose upload the bucket refuses in this run.
    const refused: set<nat>
    var partNumber: nat
    var totalPlaintext: nat
    var totalCiphertext: nat
    var bytesImported: nat
    var parts: seq<bytes>

    ghost predicate Valid()
      reads this, cipher
    {
      && 0 < row.chunkSize
      && cipher.Valid()
      && partNumber == |parts| + 1
      && bytesImported == totalPlaintext
      && totalCiphertext == totalPlaintext + |parts| * OVERHEAD
      && forall k: nat :: 1 <= k < partNumber ==> k !in refused
    }

    /** The parts sealed so far, in order, open to the given plaintexts at their places. */
    ghost predicate Holds(plains: seq<bytes>)
      reads this, cipher
    {
      && 0 < row.chunkSize
      && |plains| == |parts|
      && forall i: nat :: i < |parts| ==>
           Open(cipher.log, AadForChunk(row.fileId, i + 1, TotalParts(row.plaintextSize, row.chunkSize)), parts[i])
               == Some(plains[i])
    }

    constructor (row: Declared, cipher: Cipher, refused: set<nat>)
      requires 0 < row.chunkSize && cipher.Valid()
      ensures Valid() && Holds([]) && totalPlaintext == 0
      ensures this.row == row && this.cipher == cipher && this.refused == refused
    {
      this.row, this.cipher, this.refused := row, cipher, refused;
      partNumber, totalPlaintext, totalCiphertext, bytesImported, parts := 1, 0, 0, 0, [];
    }

    method EncryptAndUpload(iv: bytes, plain: bytes, ghost plains: seq<bytes>) returns (ok: bool, ghost box: bytes)
      requires Valid() && |iv| == IV_BYTES && Holds(plains)
      modifies this, cipher
      ensures Valid() && Ideal(cipher.log)
      ensures var aad := AadForChunk(row.fileId, old(partNumber), TotalParts(row.plaintextSize, row.chunkSize));
              cipher.log == old(cipher.log)[(aad, box) := plain]
      ensures ok <==> old(partNumber) !in refused
      ensures !ok ==> bytesImported == old(bytesImported)
      ensures ok ==> Holds(plains + [plain]) && partNumber == old(partNumber) + 1
      ensures ok ==> totalPlaintext == old(totalPlaintext) + |plain|
    {
      var aad := AadForChunk(row.fileId, partNumber, TotalParts(row.plaintextSize, row.chunkSize));
      var body := cipher.Seal(iv, plain, aad);
      box := body;
      if partNumber in refused {
        ok := false;
        return;
      }
      parts := parts + [body];
      partNumber := partNumber + 1;
      totalPlaintext := totalPlaintext + |plain|;
      totalCiphertext := totalCiphertext + |body|;
      bytesImported := totalPlaintext;
      ok := true;
    }
  }

  /** This run cannot be refused by the bucket. */
  predicate NoneRefused(row: Declared, refused: set<nat>)
    requires 0 < row.chunkSize
  {
    forall k | 1 <= k <= TotalParts(row.plaintextSize, row.chunkSize) :: k !in refused
  }

  /** When a run completes: exactly the declared bytes arrived, and nothing else went wrong. */
  predicate Completes(row: Declared, contentLength: Option<nat>, arrived: bytes, broken: bool, refused: set<nat>)
    requires 0 < row.chunkSize
  {
    && (contentLength.None? || contentLength.value <= row.plaintextSize)
    && |arrived| == row.plaintextSize
    && !broken
    && NoneRefused(row, refused)
    && row.size == CiphertextSize(row.plaintextSize, row.chunkSize)
  }

  /** The key's other files are known, and this one's true content is truth. */
  ghost predicate Faithful(row: Declared, files: map<string, bytes>, truth: bytes) {
    row.fileId in files && files[row.fileId] == truth
  }

  /** Under a key whose files are these, everything sealed so far was honest. */
  ghost predicate StaysHonest(row: Declared, files: map<string, bytes>, truth: bytes, before: SealLog, now: SealLog)
    requires 0 < row.chunkSize
  {
    Faithful(row, files, truth) && HonestLog(before, files, row.chunkSize) ==> HonestLog(now, files, row.chunkSize)
  }

  /** A run that gets all the stream there is, in the middle of a chunk: nothing fails but the stream ends early. */
  predicate EndsInsideAChunk(row: Declared, contentLength: Option<nat>, arrived: bytes, broken: bool, refused: set<nat>)
    requires 0 < row.chunkSize
  {
    && (contentLength.None? || contentLength.value <= row.plaintextSize)
    && |arrived| < row.plaintextSize && |arrived| % row.chunkSize != 0
    && !broken
    && NoneRefused(row, refused)
  }

  /** Sealed as part k of the file is a block shorter than the file's k-th chunk. */
  ghost predicate CutShortSealed(log: SealLog, row: Declared, truth: bytes, k: nat, block: bytes)
    requires 0 < row.chunkSize
  {
    var parts := TotalParts(|truth|, row.chunkSize);
    && 1 <= k <= parts && |block| < |PlainChunk(truth, row.chunkSize, k)|
    && exists box :: Open(log, AadForChunk(row.fileId, k, parts), box) == Some(block)
  }

  lemma ShorterThanItsChunk(truth: bytes, chunk: int, blocks: seq<bytes>, next: bytes)
    requires 0 < chunk && FullBlocks(blocks, chunk) && Join(blocks) + next <= truth
    requires next != [] && |next| < chunk && |Join(blocks) + next| < |truth|
    ensures |blocks| + 1 <= TotalParts(|truth|, chunk) && |next| < |PlainChunk(truth, chunk, |blocks| + 1)|
  {
    NextBlockFits(truth, chunk, blocks, next);
    FullBlocksLength(blocks, chunk);
    BlockIndex(|truth|, chunk, |blocks|, |next|);
  }

  lemma QuotientOf(n: nat, r: nat, chunk: int)
    requires r < chunk
    ensures (n * chunk + r) / chunk == n && (n * chunk + r) % chunk == r
  {
    var q := (n * chunk + r) / chunk;
    assert (q + 1) * chunk == q * chunk + chunk && (n + 1) * chunk == n * chunk + chunk;
    if q < n { MulMono(q + 1, n, chunk); }
    if n < q { MulMono(n + 1, q, chunk); }
  }

  /** The buffer after the last full block. */
  lemma BufferIsTheRest(blocks: seq<bytes>, buffer: bytes, arrived: bytes, chunk: int)
    requires FullBlocks(blocks, chunk) && |buffer| < chunk && Join(blocks) + buffer == arrived
    ensures |arrived| / chunk == |blocks| && |arrived| % chunk == |buffer|
    ensures arrived[|arrived| - |arrived| % chunk..] == buffer
  {
    FullBlocksLength(blocks, chunk);
    QuotientOf(|blocks|, |buffer|, chunk);
  }

  /** Seals and uploads the block that follows the full ones. */
  method SealBlock(writer: PartWriter, iv: bytes, plain: bytes, ghost plains: seq<bytes>,
                   ghost files: map<string, bytes>, ghost truth: bytes)
    returns (ok: bool)
    requires writer.Valid() && |iv| == IV_BYTES && writer.Holds(plains)
    requires FullBlocks(plains, writer.row.chunkSize)
    requires |truth| == writer.row.plaintextSize && Join(plains) + plain <= truth
    requires |plain| <= writer.row.chunkSize && (plain != [] || truth == [])
    modifies writer, writer.cipher
    ensures writer.Valid() && Ideal(writer.cipher.log)
    ensures old(writer.partNumber) <= TotalParts(writer.row.plaintextSize, writer.row.chunkSize)
    ensures ok <==> old(writer.partNumber) !in writer.refused
    ensures ok ==> writer.Holds(plains + [plain]) && writer.totalPlaintext == old(writer.totalPlaintext) + |plain|
    ensures !ok ==> writer.bytesImported == old(writer.bytesImported)
    ensures StaysHonest(writer.row, files, truth, old(writer.cipher.log), writer.cipher.log)
  {
    NextBlockFits(truth, writer.row.chunkSize, plains, plain);
    ghost var k := writer.partNumber;
    ghost var before := writer.cipher.log;
    ghost var aad := AadForChunk(writer.row.fileId, k, TotalParts(|truth|, writer.row.chunkSize));
    ghost var box;
    ok, box := writer.EncryptAndUpload(iv, plain, plains);
    if Faithful(writer.row, files, truth) && HonestLog(before, files, writer.row.chunkSize) {
      HonestLogGrows(before, files, writer.row.chunkSize, aad, box, plain, writer.row.fileId, k);
    }
  }

  /** Ships every full block the buffer holds; what is left is shorter than a chunk. */
  method ShipFullBlocks(writer: PartWriter, buffered: bytes,
                        draw: nat -> bytes, ghost shipped: seq<bytes>, ghost files: map<string, bytes>,
                        ghost truth: bytes)
    returns (ok: bool, buffer: bytes, ghost plains: seq<bytes>)
    requires writer.Valid() && writer.Holds(shipped) && Ideal(writer.cipher.log)
    requires forall n :: |draw(n)| == IV_BYTES
    requires FullBlocks(shipped, writer.row.chunkSize)
    requires |truth| == writer.row.plaintextSize && Join(shipped) + buffered <= truth
    requires writer.totalPlaintext == |Join(shipped)|
    modifies writer, writer.cipher
    ensures writer.Valid() && Ideal(writer.cipher.log)
    ensures writer.totalPlaintext == |Join(plains)| <= |truth|
    ensures !ok ==> !NoneRefused(writer.row, writer.refused)
    ensures ok ==>
              && writer.Holds(plains) && FullBlocks(plains, writer.row.chunkSize) && |buffer| < writer.row.chunkSize
              && Join(plains) + buffer == Join(shipped) + buffered
    ensures StaysHonest(writer.row, files, truth, old(writer.cipher.log), writer.cipher.log)
  {
    buffer, plains := buffered, shipped;
    while |buffer| >= writer.row.chunkSize
      invariant writer.Valid() && writer.Holds(plains) && Ideal(writer.cipher.log)
      invariant FullBlocks(plains, writer.row.chunkSize)
      invariant Join(plains) + buffer == Join(shipped) + buffered
      invariant writer.totalPlaintext == |Join(plains)|
      invariant StaysHonest(writer.row, files, truth, old(writer.cipher.log), writer.cipher.log)
      decreases |buffer|
    {
      var block := buffer[..writer.row.chunkSize];
      assert Join(plains) + buffer == (Join(plains) + block) + buffer[writer.row.chunkSize..];
      ok := SealBlock(writer, draw(writer.partNumber), block, plains, files, truth);
      if !ok {
        return;
      }
      JoinAppend(plains, block);
      plains := plains + [block];
      buffer := buffer[writer.row.chunkSize..];
    }
    ok := true;
  }

  /** The download loop: bounded by the declared size, shipping full blocks as they fill up. */
  method Receive(writer: PartWriter, arrivals: seq<bytes>, draw: nat -> bytes, ghost files: map<string,
                 bytes>, ghost truth: bytes)
    returns (error: Option<ImportError>, buffer: bytes, ghost plains: seq<bytes>)
    requires writer.Valid() && writer.Holds([]) && writer.totalPlaintext == 0 && Ideal(writer.cipher.log)
    requires forall n :: |draw(n)| == IV_BYTES
    requires |truth| == writer.row.plaintextSize && (IsPrefix(Join(arrivals), truth) || IsPrefix(truth, Join(arrivals)))
    modifies writer, writer.cipher
    ensures writer.Valid() && Ideal(writer.cipher.log)
    ensures writer.totalPlaintext == |Join(plains)| <= |truth|
    ensures error.Some? ==> |Join(arrivals)| > |truth| || !NoneRefused(writer.row, writer.refused)
    ensures error.Some? ==> error.value in {StreamTooLong, PartRefused}
    ensures error == Some(PartRefused) ==> !NoneRefused(writer.row, writer.refused)
    ensures error == Some(StreamTooLong) ==> |Join(arrivals)| > |truth|
    ensures error.None? ==>
              && writer.Holds(plains) && FullBlocks(plains, writer.row.chunkSize) && |buffer| < writer.row.chunkSize
              && Join(plains) + buffer == Join(arrivals) && |Join(arrivals)| <= |truth|
    ensures StaysHonest(writer.row, files, truth, old(writer.cipher.log), writer.cipher.log)
  {
    error, buffer, plains := None, [], [];
    var downloaded := 0;
    for i := 0 to |arrivals|
      invariant writer.Valid() && writer.Holds(plains) && Ideal(writer.cipher.log)
      invariant FullBlocks(plains, writer.row.chunkSize) && |buffer| < writer.row.chunkSize
      invariant Join(plains) + buffer == Join(arrivals[..i])
      invariant downloaded == |Join(arrivals[..i])| <= |truth|
      invariant writer.totalPlaintext == |Join(plains)|
      invariant StaysHonest(writer.row, files, truth, old(writer.cipher.log), writer.cipher.log)
    {
      JoinAround(arrivals, i);
      if arrivals[i] == [] {
        continue;
      }
      downloaded := downloaded + |arrivals[i]|;
      if downloaded > writer.row.plaintextSize {
        error := Some(StreamTooLong);
        return;
      }
      assert Join(plains) + (buffer + arrivals[i]) == (Join(plains) + buffer) + arrivals[i];
      ShorterIsPrefix(Join(arrivals[..i + 1]), Join(arrivals), truth);
      var ok;
      ok, buffer, plains := ShipFullBlocks(writer, buffer + arrivals[i], draw, plains, files, truth);
      if !ok {
        error := Some(PartRefused);
        return;
      }
    }
    assert arrivals[..|arrivals|] == arrivals;
  }

  /** The tail flush and the size checks, once the whole stream is in. */
  method Finish(writer: PartWriter, buffer: bytes, arrived: bytes, iv: bytes, ghost plains: seq<bytes>,
                ghost files: map<string, bytes>, ghost truth: bytes)
    returns (r: ImportResult)
    requires writer.Valid() && writer.Holds(plains) && Ideal(writer.cipher.log) && |iv| == IV_BYTES
    requires FullBlocks(plains, writer.row.chunkSize) && |buffer| < writer.row.chunkSize
    requires Join(plains) + buffer == arrived <= truth && |truth| == writer.row.plaintextSize
    requires writer.totalPlaintext == |Join(plains)|
    modifies writer, writer.cipher
    ensures writer.Valid() && Ideal(writer.cipher.log)
    ensures writer.totalPlaintext <= |truth|
    ensures r.Imported? <==>
              && |arrived| == |truth| && NoneRefused(writer.row, writer.refused)
              && writer.row.size == CiphertextSize(|truth|, writer.row.chunkSize)
    ensures r.Imported? ==>
              && writer.totalPlaintext == |truth|
              && Encodes(writer.cipher.log, writer.row.fileId, arrived, writer.row.chunkSize, r.parts)
    ensures writer.row.size == CiphertextSize(|truth|, writer.row.chunkSize) ==> r != Failed(CiphertextMismatch)
    ensures StaysHonest(writer.row, files, truth, old(writer.cipher.log), writer.cipher.log)
    ensures r.Failed? ==> r.error.PartRefused? || r.error.PlaintextMismatch? || r.error.CiphertextMismatch?
    ensures r == Failed(PartRefused) ==> !NoneRefused(writer.row, writer.refused)
    ensures |arrived| < |truth| && NoneRefused(writer.row, writer.refused) ==>
              r == Failed(PlaintextMismatch) && writer.totalPlaintext == |arrived|
    ensures |arrived| == |truth| && NoneRefused(writer.row, writer.refused) && !r.Imported? ==>
              r == Failed(CiphertextMismatch) && writer.totalPlaintext == |arrived|
    ensures buffer != [] && |arrived| < |truth| && NoneRefused(writer.row, writer.refused) ==>
              && r == Failed(PlaintextMismatch)
              && CutShortSealed(writer.cipher.log, writer.row, truth, |plains| + 1, buffer)
  {
    ghost var shipped := plains;
    if |buffer| > 0 || writer.row.plaintextSize == 0 {
      var ok := SealBlock(writer, iv, buffer, plains, files, truth);
      if !ok {
        return Failed(PartRefused);
      }
      shipped := plains + [buffer];
      if arrived == truth {
        BlocksAreCanonical(truth, writer.row.chunkSize, plains, buffer);
      } else {
        ShorterThanItsChunk(truth, writer.row.chunkSize, plains, buffer);
        assert Open(writer.cipher.log,
                    AadForChunk(writer.row.fileId, |plains| + 1, TotalParts(|truth|, writer.row.chunkSize)),
                    writer.parts[|plains|]) == Some(buffer);
      }
    } else if arrived == truth {
      LastFullBlock(truth, writer.row.chunkSize, plains);
    }
    if writer.totalPlaintext != writer.row.plaintextSize {
      return Failed(PlaintextMismatch);
    }
    assert arrived == truth;
    ShippedIsEncoded(writer, truth, shipped);
    if writer.totalCiphertext != writer.row.size {
      return Failed(CiphertextMismatch);
    }
    r := Imported(writer.parts);
  }

  /** Why a run fails that is not refused a part: the first of these checks that does not hold. */
  function Verdict(row: Declared, contentLength: Option<nat>, arrived: bytes, broken: bool): Option<ImportError>
    requires 0 < row.chunkSize
  {
    if contentLength.Some? && contentLength.value > row.plaintextSize then Some(DeclaredTooLong)
    else if |arrived| > row.plaintextSize then Some(StreamTooLong)
    else if broken then Some(NetworkError)
    else if |arrived| < row.plaintextSize then Some(PlaintextMismatch)
    else if row.size != CiphertextSize(row.plaintextSize, row.chunkSize) then Some(CiphertextMismatch)
    else None
  }

  /**
   The stream of one import run: declared Content-Length check, bounded download,
   re-chunking, tail flush, size checks. arrivals is what iter_content yields before
   it stops or, if broken, before the connection fails.
   */
  method ImportStream(row: Declared, cipher: Cipher, contentLength: Option<nat>, arrivals: seq<bytes>, broken: bool,
                      refused: set<nat>,
                      draw: nat -> bytes, ghost files: map<string, bytes>, ghost truth: bytes)
    returns (r: ImportResult, bytesImported: nat)
    requires 0 < row.chunkSize && cipher.Valid() && Ideal(cipher.log)
    requires forall n :: |draw(n)| == IV_BYTES
    requires |truth| == row.plaintextSize && (IsPrefix(Join(arrivals), truth) || IsPrefix(truth, Join(arrivals)))
    modifies cipher
    ensures cipher.Valid() && Ideal(cipher.log)
    ensures r.Imported? <==> Completes(row, contentLength, Join(arrivals), broken, refused)
    ensures r.Imported? ==>
        bytesImported == row.plaintextSize && Encodes(cipher.log, row.fileId, Join(arrivals), row.chunkSize, r.parts)
    ensures row.size == CiphertextSize(row.plaintextSize, row.chunkSize) ==> r != Failed(CiphertextMismatch)
    ensures bytesImported <= row.plaintextSize
    ensures StaysHonest(row, files, truth, old(cipher.log), cipher.log)
    ensures NoneRefused(row, refused) && r.Failed? ==>
              Some(r.error) == Verdict(row, contentLength, Join(arrivals), broken)
    ensures r == Failed(DeclaredTooLong) ==> bytesImported == 0 && cipher.log == old(cipher.log)
    ensures r == Failed(NetworkError) ==> bytesImported == |Join(arrivals)| - |Join(arrivals)| % row.chunkSize
    ensures r == Failed(PlaintextMismatch) && NoneRefused(row, refused) ==> bytesImported == |Join(arrivals)|
    ensures EndsInsideAChunk(row, contentLength, Join(arrivals), broken, refused) ==>
              var n := |Join(arrivals)| / row.chunkSize;
              && r == Failed(PlaintextMismatch)
              && CutShortSealed(cipher.log, row, truth, n + 1,
                                Join(arrivals)[|Join(arrivals)| - |Join(arrivals)| % row.chunkSize..])
  {
    if contentLength.Some? && contentLength.value > row.plaintextSize {
      return Failed(DeclaredTooLong), 0;
    }
    var writer := new PartWriter(row, cipher, refused);
    var error, buffer;
    ghost var plains;
    error, buffer, plains := Receive(writer, arrivals, draw, files, truth);
    if error.Some? {
      return Failed(error.value), writer.bytesImported;
    }
    BufferIsTheRest(plains, buffer, Join(arrivals), row.chunkSize);
    if broken {
      return Failed(NetworkError), writer.bytesImported;
    }
    ShorterIsPrefix(Join(arrivals), Join(arrivals), truth);
    r := Finish(writer, buffer, Join(arrivals), draw(writer.partNumber), plains, files, truth);
    bytesImported := writer.bytesImported;
  }

  /** The parts of a run that shipped the canonical split encode the file. */
  lemma ShippedIsEncoded(writer: PartWriter, plain: bytes, plains: seq<bytes>)
    requires writer.Valid() && writer.Holds(plains) && |plain| == writer.row.plaintextSize
    requires CanonicalSplit(plain, writer.row.chunkSize, plains)
    ensures Encodes(writer.cipher.log, writer.row.fileId, plain, writer.row.chunkSize, writer.parts)
    ensures writer.totalCiphertext == writer.totalPlaintext + TotalParts(|plain|, writer.row.chunkSize) * OVERHEAD
    ensures NoneRefused(writer.row, writer.refused)
  {
    var parts := TotalParts(|plain|, writer.row.chunkSize);
    forall k | 1 <= k <= parts
      ensures Open(writer.cipher.log, AadForChunk(writer.row.fileId, k, parts), writer.parts[k - 1])
          == Some(PlainChunk(plain, writer.row.chunkSize, k))
    {
      var i: nat := k - 1;
      assert i < |writer.parts| && i + 1 == k;
    }
  }

  /** Of two comparable strings, a piece of one no longer than the other is a prefix of the other. */
  lemma ShorterIsPrefix(piece: bytes, whole: bytes, truth: bytes)
    requires piece <= whole && |piece| <= |truth|
    requires IsPrefix(whole, truth) || IsPrefix(truth, whole)
    ensures piece <= truth
  {}

  /** An exact non-zero multiple of the chunk size has no tail: its last full block is its last chunk. */
  lemma LastFullBlock(plain: bytes, chunk: int, blocks: seq<bytes>)
    requires 0 < chunk && FullBlocks(blocks, chunk) && Join(blocks) == plain && plain != []
    ensures CanonicalSplit(plain, chunk, blocks)
  {
    var n := |blocks| - 1;
    BlocksAreCanonical(plain, chunk, blocks[..n], blocks[n]);
    assert blocks[..n] + [blocks[n]] == blocks;
  }
}
