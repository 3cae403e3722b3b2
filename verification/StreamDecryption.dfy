// The recipient's streaming decoder: a TransformStream that peels sealed chunks
// out of a byte stream cut anywhere by the network.
module StreamDecryption {
  import opened Bytes
  import opened ChunkLayout
  import opened Aead

  /** What a reader got: the plaintext released, and whether the stream ended without an error. */
  datatype Decoded = Decoded(plain: bytes, ok: bool)

  lemma AfterAssoc(xs: bytes, ys: bytes, d: Decoded)
    ensures After(xs, After(ys, d)) == After(xs + ys, d)
  {
    assert xs + (ys + d.plain) == (xs + ys) + d.plain;
  }

  /** What the decoder is told about the file it reads. */
  datatype FileKey = FileKey(log: SealLog, fileId: string, chunkSize: int, parts: nat)

  function After(plain: bytes, rest: Decoded): Decoded {
    Decoded(plain + rest.plain, rest.ok)
  }

  /** The decoder's verdict on a whole stream s, read from the given part with that much plaintext ahead. */
  function Peel(key: FileKey, part: nat, remaining: int, s: bytes): Decoded
    requires 0 < key.chunkSize
    decreases |s|
  {
    var full := key.chunkSize + OVERHEAD;
    if remaining > key.chunkSize && |s| >= full then
      match Open(key.log, AadForChunk(key.fileId, part, key.parts), s[..full])
      case None => Decoded([], false)
      case Some(plain) => After(plain, Peel(key, part + 1, remaining - |plain|, s[full..]))
    else if |s| != remaining + OVERHEAD then
      Decoded([], false)
    else
      match Open(key.log, AadForChunk(key.fileId, part, key.parts), s)
      case None => Decoded([], false)
      case Some(plain) => Decoded(plain, remaining == |plain|)
  }

  /** Uint8Array.set: writes piece at offset and leaves what is before it alone. */
  method SetAt(buffer: array<byte>, offset: nat, piece: bytes)
    requires offset + |piece| <= buffer.Length
    modifies buffer
    ensures buffer[..offset + |piece|] == old(buffer[..offset]) + piece
  {
    forall j | 0 <= j < |piece| {
      buffer[offset + j] := piece[j];
    }
  }

  /** decryptStream: queued network pieces, joined only when a whole sealed chunk is in. */
  class DecryptStream {
    const key: FileKey
    var queue: seq<bytes>
    var queued: int
    var plaintextRemaining: int
    var partNumber: nat
    var streaming: bool
    var errored: bool
    // The chunks handed to the readable side, in order.
    var out: seq<bytes>

    ghost predicate Valid()
      reads this
    {
      && 0 < key.chunkSize
      && queued == |Join(queue)|
      && (out != [] ==> streaming)
    }

    /** What the reader will have got in the end, if rest is still to come. */
    ghost function Outcome(rest: bytes): Decoded
      requires Valid()
      reads this
    {
      if errored then Decoded(Join(out), false)
      else After(Join(out), Peel(key, partNumber, plaintextRemaining, Join(queue) + rest))
    }

    constructor (log: SealLog, chunkSize: int, plaintextSize: int, fileId: string, startPart: nat, ghost s: bytes)
      requires 0 < chunkSize
      ensures Valid() && Drained() && !errored && out == [] && !streaming
      ensures key == FileKey(log, fileId, chunkSize, TotalParts(plaintextSize, chunkSize))
      ensures Outcome(s) == Peel(key, startPart, plaintextSize - PartStart(chunkSize, startPart), s)
    {
      key := FileKey(log, fileId, chunkSize, TotalParts(plaintextSize, chunkSize));
      queue, queued, out := [], 0, [];
      plaintextRemaining := plaintextSize - (startPart - 1) * chunkSize;
      partNumber := startPart;
      streaming, errored := false, false;
      new;
      assert Join(queue) + s == s;
      assert [] + Peel(key, partNumber, plaintextRemaining, s).plain
          == Peel(key, partNumber, plaintextRemaining, s).plain;
    }

    /** Empties the queue into one buffer. */
    method TakeAll() returns (joined: bytes)
      requires Valid()
      modifies this`queue, this`queued
      ensures Valid() && queue == [] && queued == 0
      ensures joined == old(Join(queue))
    {
      var buffer := new byte[queued];
      var offset := 0;
      for i := 0 to |queue|
        invariant offset == |Join(queue[..i])| <= buffer.Length
        invariant buffer[..offset] == Join(queue[..i])
        modifies buffer
      {
        JoinAround(queue, i);
        SetAt(buffer, offset, queue[i]);
        offset := offset + |queue[i]|;
      }
      assert queue[..|queue|] == queue;
      joined := buffer[..];
      queue, queued := [], 0;
    }

    method EnqueuePlain(plain: bytes)
      requires Valid()
      modifies this`out, this`streaming
      ensures Valid() && streaming && out == old(out) + [plain]
    {
      out := out + [plain];
      streaming := true;
    }

    /** No whole non-final chunk is waiting: true between two events. */
    ghost predicate Drained()
      reads this
    {
      plaintextRemaining <= key.chunkSize || queued < key.chunkSize + OVERHEAD
    }

    /** Decrypts the sealed chunk at the front of the queue; rest is whatever is still to come. */
    method DecryptFront(ghost rest: bytes)
      requires Valid() && !errored && !Drained()
      modifies this
      ensures Valid() && old(out) <= out
      ensures !errored ==> queued < old(queued)
      ensures Outcome(rest) == old(Outcome(rest))
    {
      var full := key.chunkSize + OVERHEAD;
      PeelFront(key, partNumber, plaintextRemaining, Join(queue), rest);
      var buffered := TakeAll();
      var box, tail := buffered[..full], buffered[full..];
      if |tail| > 0 {
        queue := [tail];
        queued := |tail|;
        JoinOne(tail);
      }
      assert Join(queue) == tail;
      var plain := Open(key.log, AadForChunk(key.fileId, partNumber, key.parts), box);
      if plain == None {
        errored := true;
        assert Join(out) + [] == Join(out);
        return;
      }
      JoinAppend(out, plain.value);
      EnqueuePlain(plain.value);
      plaintextRemaining := plaintextRemaining - |plain.value|;
      partNumber := partNumber + 1;
      AfterAssoc(old(Join(out)), plain.value, Peel(key, partNumber, plaintextRemaining, tail + rest));
    }

    /** One network piece arrives; rest is whatever is still to come. */
    method Transform(piece: bytes, ghost rest: bytes)
      requires Valid() && !errored
      modifies this
      ensures Valid() && (!errored ==> Drained())
      ensures old(out) <= out
      ensures Outcome(rest) == old(Outcome(piece + rest))
    {
      JoinAppend(queue, piece);
      queue := queue + [piece];
      queued := queued + |piece|;
      assert old(Join(queue)) + (piece + rest) == Join(queue) + rest;
      while plaintextRemaining > key.chunkSize && queued >= key.chunkSize + OVERHEAD
        invariant Valid() && !errored && old(out) <= out
        invariant Outcome(rest) == old(Outcome(piece + rest))
        decreases queued
      {
        DecryptFront(rest);
        if errored { return; }
      }
    }

    /** The upstream ended. */
    method Flush()
      requires Valid() && !errored && Drained()
      modifies this
      ensures Valid() && old(out) <= out
      ensures Decoded(Join(out), !errored) == old(Outcome([]))
      ensures !errored ==> plaintextRemaining == 0
    {
      assert Join(queue) + [] == Join(queue);
      assert Join(out) + [] == Join(out);
      var pending := TakeAll();
      var expected := plaintextRemaining + OVERHEAD;
      if |pending| != expected {
        errored := true;
        return;
      }
      var plain := Open(key.log, AadForChunk(key.fileId, partNumber, key.parts), pending);
      if plain == None {
        errored := true;
        return;
      }
      if |plain.value| > 0 {
        JoinAppend(out, plain.value);
        EnqueuePlain(plain.value);
      }
      plaintextRemaining := plaintextRemaining - |plain.value|;
      if plaintextRemaining != 0 {
        errored := true;
      }
    }
  }

  /** A full non-final chunk at the front is peeled the same way whatever follows it. */
  lemma PeelFront(key: FileKey, part: nat, remaining: int, s: bytes, more: bytes)
    requires 0 < key.chunkSize && remaining > key.chunkSize && |s| >= key.chunkSize + OVERHEAD
    ensures var full := key.chunkSize + OVERHEAD;
            Peel(key, part, remaining, s + more) ==
              match Open(key.log, AadForChunk(key.fileId, part, key.parts), s[..full])
              case None => Decoded([], false)
              case Some(plain) => After(plain, Peel(key, part + 1, remaining - |plain|, s[full..] + more))
  {
    var full := key.chunkSize + OVERHEAD;
    assert (s + more)[..full] == s[..full] && (s + more)[full..] == s[full..] + more;
  }
}
