/** Sender to recipient: what either encoder stores, the Service Worker reads back. */
module EndToEnd {
  import opened Bytes
  import opened ChunkLayout
  import opened Aead
  import StreamDecoding
  import opened MultipartUpload
  import opened DriveImport
  import opened RangeHeaders
  import opened Downloads

  /** What the recipient is owed for these headers, from faithful storage and from any. */
  ghost predicate RightReply(plain: bytes, f: string, stored: bytes, rangeHeader: Option<string>,
                             ifRange: Option<string>, storage: Storage, reply: Reply) {
    forall range | Wanted(rangeHeader, ifRange, f, |plain|, range) ::
      && (range.Some? ==> range.value.start <= range.value.end < |plain|)
      && (FaithfulStorage(stored, storage) ==>
            reply == Reply(if range.Some? then 206 else 200, |Asked(plain, range)|, range, Asked(plain, range), true))
      && OnlyTrue(reply, Asked(plain, range))
  }

  lemma ReplyIsRight(log: SealLog, files: map<string, bytes>, f: string, chunk: int, boxes: seq<bytes>,
                     rangeHeader: Option<string>, ifRange: Option<string>, storage: Storage)
    requires 0 < chunk && f in files && Ideal(log) && HonestLog(log, files, chunk)
    requires Encodes(log, f, files[f], chunk, boxes)
    ensures RightReply(files[f], f, Join(boxes), rangeHeader, ifRange, storage,
                       Answer(log, f, chunk, |files[f]|, rangeHeader, ifRange, storage))
  {
    var plain := files[f];
    var reply := Answer(log, f, chunk, |plain|, rangeHeader, ifRange, storage);
    forall range | Wanted(rangeHeader, ifRange, f, |plain|, range)
      ensures range.Some? ==> range.value.start <= range.value.end < |plain|
      ensures FaithfulStorage(Join(boxes), storage) ==>
                (var asked := Asked(plain, range);
                 reply == Reply(if range.Some? then 206 else 200, |asked|, range, asked, true))
      ensures OnlyTrue(reply, Asked(plain, range))
    {
      DownloadOnlyTrue(log, files, chunk, f, rangeHeader, ifRange, storage, range);
      if FaithfulStorage(Join(boxes), storage) {
        DownloadExact(log, f, plain, chunk, boxes, rangeHeader, ifRange, storage, range);
      }
    }
  }

  /**
   A browser upload under any schedule, completed and then downloaded with any
   headers. If the storage is faithful the recipient gets exactly the bytes asked
   for; whatever the storage does, never anything but a prefix of them.
   */
  method UploadThenDownload(job: Job, parallelism: nat, schedule: seq<Turn>,
                            rangeHeader: Option<string>, ifRange: Option<string>, storage: Storage)
    returns (done: bool, stored: bytes, reply: Reply)
    requires 0 < job.chunkSize && 0 < parallelism
    ensures done ==> |stored| == CiphertextSize(|job.file|, job.chunkSize)
    ensures done ==> RightReply(job.file, job.fileId, stored, rangeHeader, ifRange, storage, reply)
  {
    var cipher := new Cipher();
    StartInv(job, parallelism, cipher.log);
    var uploader := new MultipartUploader(job, parallelism, cipher);
    ghost var files := map[job.fileId := job.file];
    var parts;
    done, parts := uploader.Upload(schedule, files);
    stored, reply := [], Refused(502);
    if done {
      SortedIsFixed(parts);
      var landed := CompleteMultipartUpload(uploader.stored, parts);
      stored := landed.value;
      ghost var boxes := Bodies(uploader.stored, parts);
      StreamDecoding.StoredSize(cipher.log, job.fileId, job.file, job.chunkSize, boxes);
      reply := ServeDownload(cipher.log, job.fileId, job.chunkSize, |job.file|, rangeHeader, ifRange, storage);
      ReplyIsRight(cipher.log, files, job.fileId, job.chunkSize, boxes, rangeHeader, ifRange, storage);
    }
  }

  /** The same for a Drive import: the recipient gets the bytes Drive served. */
  method ImportThenDownload(row: Declared, contentLength: Option<nat>, arrivals: seq<bytes>, draw: nat -> bytes,
                            rangeHeader: Option<string>, ifRange: Option<string>, storage: Storage)
    returns (r: ImportResult, reply: Reply)
    requires 0 < row.chunkSize && forall n :: |draw(n)| == IV_BYTES
    ensures r.Imported? ==>
              && |Join(arrivals)| == row.plaintextSize && |Join(r.parts)| == row.size
              && RightReply(Join(arrivals), row.fileId, Join(r.parts), rangeHeader, ifRange, storage, reply)
  {
    var cipher := new Cipher();
    ghost var arrived := Join(arrivals);
    ghost var truth := if row.plaintextSize <= |arrived| then arrived[..row.plaintextSize]
                       else arrived + seq(row.plaintextSize - |arrived|, _ => 0);
    ghost var files := map[row.fileId := truth];
    var imported;
    r, imported := ImportStream(row, cipher, contentLength, arrivals, false, {}, draw, files, truth);
    reply := Refused(502);
    if r.Imported? {
      assert truth == arrived;
      StreamDecoding.StoredSize(cipher.log, row.fileId, truth, row.chunkSize, r.parts);
      reply := ServeDownload(cipher.log, row.fileId, row.chunkSize, row.plaintextSize, rangeHeader, ifRange, storage);
      ReplyIsRight(cipher.log, files, row.fileId, row.chunkSize, r.parts, rangeHeader, ifRange, storage);
    }
  }
}
