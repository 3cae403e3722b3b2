# Transfers: a verified model

This project models the parts of the file-transfer service that carry its promises and proves them in Dafny: the
encrypted wire format and its three programs (browser uploader, Drive importer, Service Worker), the draft, import, scan
and transfer protocol of the backend with all its background tasks, the small claim protocols (scan re-submission,
download receipts, recipient quota, one-shot closing), the Service Worker's key registry, the orphan sweep, the key
fragment's coding and the recipient activity fold.

`dafny verify dfyconfig.toml` checks everything.

## How the model is laid out

**Wire format.** `Bytes`, `ChunkLayout` and `Decimals` hold the arithmetic. `Aead` is AES-GCM (NIST SP 800-38D) as an
ideal AEAD: a log from additional data and sealed bytes to plaintexts, where opening succeeds only for what was sealed
under that additional data and sealing adds 28 bytes; `Aead.Cipher` is an instance, so the assumptions are consistent.
`StreamDecryption`, `StreamDecoding`, `RangeHeaders`, `RangedDownload` and `Downloads` are the Service Worker,
`DriveImport` and `MultipartUpload` the two encoders, and `EndToEnd` joins them. Byte ranges follow RFC 9110 (sections
13.1.5, 14.1.2, 14.2, 14.4 and 15.3.7).

**Backend protocol.** `World` is the database, the bucket, the queues and what running workers hold, with one function a
step. Requests that hold a draft's row lock read in one step and write in another, so webhook, reaper, import and enqueue
callback can come in between; imports, purges and sweeps are cut into their reads, their S3 work and their row writes. `Steps` says when each step can happen and
what a run is, orderly or not. `Invariant` is what every step keeps, `Evolution` how any state relates to any later one; `DraftKeeps`,
`FinalizeKeeps`, `ImportKeeps`, `ScanKeeps`, `LinkKeeps` and `SweepKeeps` prove both for each step, and `Guarantees` draws the
consequences for every reachable state and every run. `RowFacts` says what each step does to one row; from it `Outcomes`
(finalize, link, download view), `FileOutcomes` (verdicts, failed imports) and `StorageOutcomes` (objects, drafts, sweep) say what
each request leads to, in every later state. `Scenarios` has concrete runs that show where a property stops.
`Backend` and `ImportEnqueue` are the handlers and tasks as the code runs them (loops, writes in place, rollback), proved to do
exactly the steps of `World`; `TaskRuns` shows that whole runs of the periodic tasks are runs of those steps, so that the
guarantees reach them too.

**Protocols on their own.** `ScanClaims` and `ScanRearming` (re-submission of scans), `ScanVerdicts` (callback bodies),
`RecipientQuota`, `DownloadReceipts`, `OneShot`, `KeyRegistry`, `OrphanSweep`, `Base64Url` (RFC 4648, section 5) and
`RecipientActivity`.

## What turned out not to hold as written

- *No live bytes lost* fails after a refused hard delete. `perform_destroy` deletes the objects of a transfer in its grace
  window one by one and refuses the request when one deletion fails; the others are gone while the link still lets resumed
  downloads through. `Scenarios.RefusedHardDeleteLosesBytes` is a run; `Guarantees.RefusedHardDelete` says when it happens: the
  bytes are all there if and only if every single deletion failed. For any transfer never asked to be hard-deleted the property
  holds (`Guarantees.NoLiveBytesLost`).
- *The daily sweep finds nothing in steady state* fails without any S3 error: when S3 rejects a complete-upload the draft is
  dropped, and the objects of its other files that had landed stay behind. `StorageOutcomes.LeaksExactly` has every way an object
  is left without a row: that one, a deletion S3 refused, and an import that lands after its row went.
- The orphan sweep is safe if and only if it has an age limit. Without one (`min_age_hours` 0, which the command line allows
  and the daily task does not use) it takes the object of any row newer than the sweep for an orphan
  (`Guarantees.AgeLimitProtectsNewFiles`, with the run `Scenarios.AgelessSweepLosesBytes`).
- complete-upload does not look at where a file comes from. Completing the upload that a running Drive import holds open
  publishes bytes the import's failure path then deletes. That is the only completion that does harm:
  `Guarantees.CompletionIsSafeExactly` says, for every state, file and answer of S3, that the invariant survives and that no
  next step can lose a promised object if and only if the completion did not land under a running import of that file. A row
  left open by a worker that died is harmless. `Guarantees.FailingImportTakesPublishedBytes` is the loss in general and
  `Scenarios.CompletedImportLosesBytes` a whole run to it. The browser never sends that request. `Steps.Orderly` leaves out
  exactly these completions and sweeps without an age limit, and the guarantees are about orderly runs.
- *Two submissions of a scan are a whole budget apart* fails when the broker refuses a reaper whose restore, which recognises
  its stamp by value, takes another task's stamp for its own: the row carries the reaper's clock while the last claim on it is
  another task's. `ScanClaims.RestoreIsRightExactly` says that the refusal leaves the right stamp if and only if that is not
  so; `ScanClaims.TakeOverBreaksTheBudget` that from every such state, while the scan is within its budget, the next tick submits
  it a second time; `ScanClaims.SameInstantSubmitsTwice` is a run from the start. It takes a claim at the very clock of a reaper
  that waits for the broker: runs without one are orderly (`ScanClaims.CarefulRunsAreOrderly`).
- *A one-shot link fully downloaded is down once no request is in flight* fails when requests die between their event and
  their archive check, for instance on a broker error while queueing a receipt. The exact condition is
  `OneShot.OneShotIsUpExactly`: the link is up if and only if neither expiry nor a click has acted and every request that
  reached its check with all files recorded died there. With nothing in flight at least one has
  (`OneShot.QuietOneShotHadItsCheck`); `OneShot.DeadRequestLeavesTheLinkUp` is a run.
- *Exactly one deactivation event* holds for the expiry and first-download feeds. The manual endpoint ignores the result of
  `deactivate()` and logs anyway: there is one manual event for each click that acted, and one event more than closures for each
  that found the row closed (`OneShot.EveryClickIsLogged`, `OneShot.OneDeactivationEvent`).
- The Drive import checks the plaintext size only after its tail is sealed and shipped, so a stream that ends inside a chunk
  fails with a block sealed under that chunk's place that is shorter than the chunk: the last clause of
  `DriveImport.ImportStream` says which block and which place. The part is never completed into an object, and the honesty of
  the seal log is stated with such cut-short blocks in it.
- The recipient activity fold and the direct query disagree on an empty or a null file id (`RecipientActivity.FoldAgreesWithQuery`).
- `decode_key` accepts more than the 43- and 44-character forms its documentation names: `==` after the 43 characters, and a
  newline after either padding, but no newline without one (`Base64Url.DecodesExactly` has the exact set).
- With `parallelism` 0 the uploader resolves with an empty list; its results are stated for at least one worker.

## Model

| member | source | states |
|---|---|---|
| `ChunkLayout.TotalPartsIsCeiling` | src/backend/core/services/encryption.py:60-71 | the part count is the one number n with (n-1) chunks below the size and n chunks covering it, one for an empty file |
| `ChunkLayout.EncodersAgreeOnParts` | src/frontend/src/features/transfers/upload/encryption.ts:104-107 | the browser's Math.ceil of a quotient and the backend's floor of a negated one give the same part count for every size |
| `ChunkLayout.ChunksConcatenate` | src/frontend/src/features/transfers/upload/MultipartUploader.ts:105-115 | the slices of the first k parts concatenate to the file's prefix, all of them to the file, and only the last may be short |
| `ChunkLayout.BlocksAreCanonical` | src/backend/core/tasks.py:312-325 | full blocks and then the tail of a buffer are exactly the canonical chunk split, with no empty trailing block |
| `Decimals.DecimalReadsBack` | src/frontend/public/sw.js:544-552 | a number written in decimal reads back, so range headers and additional data determine their numbers |
| `Aead.AadInjective` | src/frontend/src/features/transfers/upload/encryption.ts:89-96 | fileId:part:parts determines all three, for every file id, even one with colons in it |
| `Aead.OpensOnlyToItsOwnChunk` | src/frontend/src/features/transfers/upload/encryption.ts:109-128 | a box that opens at part k of a file is that file's own k-th chunk: no reordering, truncation or swap between files |
| `Aead.HonestLogGrows` | src/backend/core/services/encryption.py:74-87 | sealing one more chunk of the right file under the right additional data keeps the log honest |
| `Aead.Cipher.Seal` | src/backend/core/services/encryption.py:74-87 | a sealed chunk is 28 bytes longer, opens to its plaintext under its own data, and no earlier box changes |
| `StreamDecryption.DecryptStream.constructor` | src/frontend/public/sw.js:580-627 | a fresh decoder will do with the whole input what the pure peeling of that input does |
| `StreamDecryption.DecryptStream.Transform` | src/frontend/public/sw.js:629-652 | a network piece of any size moves the queue and the output along without changing what the whole input decodes to |
| `StreamDecryption.DecryptStream.Flush` | src/frontend/public/sw.js:653-688 | at the end of input the tail is decrypted or refused as the pure peeling does |
| `StreamDecoding.DecryptAll` | src/frontend/public/sw.js:580-690 | the output over any fragmentation is that of the concatenated input, error included |
| `StreamDecoding.RoundTrip` | src/frontend/public/sw.js:580-690 | decrypting an encoded file from any part on yields exactly the rest of the plaintext, without error |
| `StreamDecoding.OnlyTruePlaintext` | src/frontend/public/sw.js:629-688 | whatever bytes arrive, what is released is a prefix of the true plaintext, and all of it if no error follows |
| `StreamDecoding.AcceptedExactly` | src/frontend/public/sw.js:629-688 | a stream is accepted if and only if it is one authentic box for each expected part, each of the expected length |
| `StreamDecoding.AcceptedFullLength` | src/frontend/public/sw.js:653-688 | an accepted full read has exactly ciphertextSize bytes |
| `StreamDecoding.StoredSize` | src/frontend/src/features/transfers/upload/encryption.ts:157-165 | the boxes of an encoded file add up to ciphertextSize |
| `StreamDecoding.StoredOffset` | src/frontend/public/sw.js:448-453 | part k starts at (k-1)(chunkSize+28) in the stored object |
| `RangeHeaders.ParseRangeExactly` | src/frontend/public/sw.js:544-552 | a header yields a range if and only if it is bytes=first-last in digits, and then the clamped range it selects |
| `RangeHeaders.ResumeHeaderReadsBack` | src/frontend/public/sw.js:544-552 | the header a resuming browser sends is read back as the rest of the file |
| `RangeHeaders.PaddingIsIgnored` | src/frontend/public/sw.js:544-552 | white space around the header, of any kind the browser trims, does not change the range |
| `RangeHeaders.ClosedHeaderReadsBack` | src/frontend/public/sw.js:544-552 | a closed range inside the file is read back as itself |
| `RangedDownload.SliceStream.Transform` | src/frontend/public/sw.js:557-578 | slicing piece by piece gives the window of the concatenated stream |
| `RangedDownload.Pipe` | src/frontend/public/sw.js:502-513 | decoder and slice piped together give the window of what the whole input decodes to, and the decoder's verdict |
| `RangedDownload.PipeRange` | src/frontend/public/sw.js:444-513 | a range is served from the part that holds its first byte, for any fragmentation |
| `Downloads.ServeDownload` | src/frontend/public/sw.js:429-513 | status, Content-Length, Content-Range, body and refusals of a request are those of its specification |
| `Downloads.HonouredRangeExactly` | src/frontend/public/sw.js:436-447 | the range honoured is the one the two headers ask for: a Range header that selects it, and an If-Range that is absent, empty or this very entity |
| `Downloads.ETagsDiffer` | src/frontend/public/sw.js:439-442 | the validators of two files, or of two sizes, are never the same |
| `Downloads.WholeFileIsServed` | src/frontend/public/sw.js:436-513 | no range that selects a byte, or another entity in If-Range: 200 with the whole file |
| `Downloads.OtherEntityGetsTheWhole` | src/frontend/public/sw.js:436-447 | a resume of another file, or of this one at another size, never gets a tail |
| `Downloads.RangeIsServed` | src/frontend/public/sw.js:444-513 | a range that selects a byte, with no validator or the right one: 206 with exactly those bytes |
| `Downloads.RefusedExactly` | src/frontend/public/sw.js:449-463 | whatever the storage does, refused if and only if the one fetch failed, or came back whole although it began further in, and with its status |
| `Downloads.RangedReadExact` | src/frontend/public/sw.js:444-513 | a ranged read of an encoded file hands out exactly plaintext[start..end] |
| `Downloads.DownloadExact` | src/frontend/public/sw.js:429-513 | faithful storage: for the range the headers ask for, the body is exactly those bytes, of the declared length, whatever the fragmentation |
| `Downloads.DownloadOnlyTrue` | src/frontend/public/sw.js:429-513 | any storage: the body is a prefix of the bytes asked for, and all of them unless the stream errors |
| `Downloads.SessionOnlyTrue` | src/frontend/public/sw.js:429-513 | over any sequence of pauses and resumes the browser's file is a prefix of the plaintext, and the plaintext once full |
| `Downloads.FaithfulAttemptFinishes` | src/frontend/public/sw.js:429-513 | one faithful attempt finishes the file from wherever earlier ones left it |
| `DriveImport.PartWriter.EncryptAndUpload` | src/backend/core/tasks.py:274-294 | each block is sealed under the next part number and its box joins the parts in order |
| `DriveImport.ShipFullBlocks` | src/backend/core/tasks.py:312-314 | the buffer gives up its full blocks and keeps less than one chunk |
| `DriveImport.Receive` | src/backend/core/tasks.py:296-314 | after any sequence of reads what was shipped and what is buffered concatenate to what arrived, never above the declared size |
| `DriveImport.Finish` | src/backend/core/tasks.py:324-338 | the upload completes if and only if exactly the declared bytes arrived, and the ciphertext check cannot then fail |
| `DriveImport.ImportStream` | src/backend/core/tasks.py:225-338 | the import succeeds if and only if its declared length, stream, network and parts allow it, and its parts are then the canonical encoding; otherwise the error is that of the first check that fails, with the bytes imported by then; a stream that ends inside a chunk leaves that chunk's place holding a cut-short block |
| `MultipartUpload.SealedTotal` | src/frontend/src/features/transfers/upload/encryption.ts:157-165 | the sealed lengths of all parts add up to ciphertextSize |
| `MultipartUpload.StepInv` | src/frontend/src/features/transfers/upload/MultipartUploader.ts:75-154 | every interleaving of claims, sends, progress events, retries and failures keeps each part accounted for once |
| `MultipartUpload.ProgressBounded` | src/frontend/src/features/transfers/upload/MultipartUploader.ts:164-189 | reported progress never exceeds the total |
| `MultipartUpload.ResultIsEveryPartOnce` | src/frontend/src/features/transfers/upload/MultipartUploader.ts:98-102 | on success the list is parts 1..max(1, ceil(size/chunk)), once each, in order |
| `MultipartUpload.ResultEncodesFile` | src/frontend/src/features/transfers/upload/MultipartUploader.ts:117-154 | and the bodies behind it are the canonical encoding of the file |
| `MultipartUpload.FinalReportIsTotal` | src/frontend/src/features/transfers/upload/MultipartUploader.ts:117-154 | the last report of a successful upload equals the total |
| `MultipartUpload.SortedIsFixed` | src/backend/core/services/s3.py:182-195 | the backend's own sort does not change a sorted list |
| `MultipartUpload.SortPermutes` | src/backend/core/services/s3.py:182-195 | sorting the parts keeps every part |
| `MultipartUpload.AccountedClaim` | src/frontend/src/features/transfers/upload/MultipartUploader.ts:84-89 | a claim moves one part from waiting to its worker, and every part is still accounted for once |
| `MultipartUpload.AccountedSucceed` | src/frontend/src/features/transfers/upload/MultipartUploader.ts:140-142 | a finished part leaves its worker and joins the list, accounted for once |
| `MultipartUpload.AccountedFail` | src/frontend/src/features/transfers/upload/MultipartUploader.ts:143-153 | a failed attempt, the fifth included, loses no part and doubles none |
| `MultipartUpload.GivesUpAtTheFifth` | src/frontend/src/features/transfers/upload/MultipartUploader.ts:117-154 | over every schedule a worker gives up exactly at its fifth failed attempt at a part since it claimed it |
| `MultipartUpload.ProgressStartsOver` | src/frontend/src/features/transfers/upload/MultipartUploader.ts:126-138 | over every schedule a part on the wire counts for what was sent of this attempt, and nothing of the ones before |
| `MultipartUpload.MultipartUploader.Upload` | src/frontend/src/features/transfers/upload/MultipartUploader.ts:75-103 | for every schedule, resolving means every part once, in order, encoding the file, with progress equal to the total |
| `EndToEnd.UploadThenDownload` | src/frontend/src/features/transfers/upload/MultipartUploader.ts:75-103 | what any upload stored, any download reads back exactly, or never more than a true prefix of |
| `EndToEnd.ImportThenDownload` | src/backend/core/tasks.py:225-338 | the same for a Drive import: the recipient gets the bytes Drive served |
| `DraftKeeps.AddKeeps` | src/backend/core/api/viewsets/draft.py:126-237 | add-file keeps the invariant |
| `DraftKeeps.CompleteKeeps` | src/backend/core/api/viewsets/draft.py:272-346 | complete-upload keeps it on success, on a failing HEAD, on S3's refusal and on a size mismatch |
| `DraftKeeps.RemoveKeeps` | src/backend/core/api/viewsets/draft.py:353-381 | remove-file keeps it, whether or not the object could be deleted |
| `DraftKeeps.DiscardKeeps` | src/backend/core/tasks.py:116-152 | abort and the cleanup of abandoned drafts keep it, whichever deletions fail |
| `DraftKeeps.RescanKeeps` | src/backend/core/api/viewsets/draft.py:828-888 | rescan keeps it |
| `FinalizeKeeps.ReadKeeps` | src/backend/core/api/viewsets/draft.py:425-431 | a finalize that has read its rows knows what other actors can still change about them |
| `FinalizeKeeps.ParkKeeps` | src/backend/core/api/viewsets/draft.py:522-569 | parking keeps one first key a draft, and the key parked is the one sent |
| `FinalizeKeeps.SnapshotChoicesHold` | src/backend/core/api/viewsets/draft.py:674-697 | the rows picked from the read still deserve the blind writes: a row marked SKIPPED is still PENDING |
| `FinalizeKeeps.CreatedIsPublishable` | src/backend/core/api/viewsets/draft.py:699-758 | when the gate opens, every row as it is now has landed, is exempt, and is no Drive file if confidential |
| `FinalizeKeeps.AnswerKeeps` | src/backend/core/api/viewsets/draft.py:424-447 | a finalize keeps the invariant whatever it answers and whatever happened since it read |
| `FinalizeKeeps.SendKeeps` | src/backend/core/api/viewsets/draft.py:590-594 | each enqueue of the callback keeps the import bookkeeping, accepted or refused |
| `FinalizeKeeps.EndKeeps` | src/backend/core/api/viewsets/draft.py:595-599 | so does the reset of the refused stamps |
| `ImportKeeps.BeginKeeps` | src/backend/core/tasks.py:186-231 | an import starts with the first key of its draft |
| `ImportKeeps.SaveKeeps` | src/backend/core/tasks.py:340-355 | its success keeps the invariant |
| `ImportKeeps.FailKeeps` | src/backend/core/tasks.py:356-380 | its failure keeps it, even when the cleanup fails too |
| `ScanKeeps.ParentKeyIsFirst` | src/backend/core/tasks.py:387-419 | the key a scan reads from the file's parent is the one first parked on its draft |
| `ScanKeeps.CallKeeps` | src/backend/core/api/viewsets/webhook.py:70-76 | a verdict lands on a PENDING row only and keeps the invariant |
| `LinkKeeps.DeactivateKeeps` | src/backend/core/models.py:355-388 | the conditional deactivation keeps it |
| `LinkKeeps.WipeKeeps` | src/backend/core/tasks.py:604-629 | a wipe, complete or not, keeps it |
| `LinkKeeps.FlipKeeps` | src/backend/core/tasks.py:631-642 | flipping to DEACTIVATED after a complete wipe keeps it |
| `LinkKeeps.DestroyKeeps` | src/backend/core/api/viewsets/transfer.py:108-192 | a hard delete keeps it, accepted or refused |
| `SweepKeeps.OrphanHasNoRow` | src/backend/core/services/s3_sweep.py:87-92 | an object the sweep lists as an orphan belongs to no row at all, whatever was created since the sweep started |
| `SweepKeeps.DeleteKeeps` | src/backend/core/services/s3_sweep.py:93-101 | so deleting it later keeps the invariant |
| `Guarantees.StepKeeps` | src/backend/core/api/viewsets/draft.py:424-447 | every step of every actor keeps the invariant and only lets rows evolve forward |
| `Guarantees.RunKeeps` | src/backend/core/api/viewsets/draft.py:424-447 | so does every run |
| `Guarantees.NoLiveBytesLost` | src/backend/core/tasks.py:591-630 | in every reachable state each file of an ACTIVE transfer, or of one in its grace window and never asked to be hard-deleted, has its object |
| `Guarantees.AdmittedRequestFindsItsBytes` | src/backend/core/api/viewsets/download.py:244-288 | every request the download view lets through, resumed ones included, finds its object |
| `Guarantees.RefusedHardDelete` | src/backend/core/api/viewsets/transfer.py:160-185 | after a hard delete in the grace window the row is gone, or all its bytes are there if and only if every deletion failed |
| `Guarantees.CompletionIsSafeExactly` | src/backend/core/api/viewsets/draft.py:289-346 | a completion keeps the invariant, and leaves no next step that loses a promised object, if and only if it did not land under a running import of that file |
| `Guarantees.FailingImportTakesPublishedBytes` | src/backend/core/tasks.py:356-380 | in every state, an admitted file that is still being imported loses its object when the import fails, and stays admitted |
| `Guarantees.NoPublishedFileIsImporting` | src/backend/core/tasks.py:196-231 | in orderly use a file being imported is a Drive file of a draft, not landed |
| `Guarantees.AgeLimitProtectsNewFiles` | src/backend/core/services/s3_sweep.py:50-57 | a sweep takes the key of a live row for an orphan if and only if it has no age limit and the row is newer |
| `Guarantees.VerdictsAreFinal` | src/backend/core/api/viewsets/webhook.py:66-76 | every scan status but PENDING and a transient ERROR is final, against all writers |
| `Guarantees.PublishedFilesStayExempt` | src/backend/core/api/viewsets/draft.py:699-758 | every file of every transfer has landed and is CLEAN, SKIPPED, TOO_LARGE or UNSCANNABLE, forever |
| `Guarantees.DeletedRowsStayDeleted` | src/backend/core/api/viewsets/draft.py:385-396 | a row once gone never comes back |
| `Guarantees.OneTransferADraft` | src/backend/core/api/viewsets/draft.py:760-812 | a draft yields at most one transfer, even after that one was deleted |
| `Guarantees.OneKeyATransfer` | src/backend/core/api/viewsets/draft.py:775-785 | every import and scan of a transfer's files used its own key; a confidential one has none, no Drive file and no scan |
| `Guarantees.FirstKeyIsForever` | src/backend/core/api/viewsets/draft.py:522-569 | the first key a draft was finalized with never changes |
| `Guarantees.ImportsAreBookedExactly` | src/backend/core/api/viewsets/draft.py:572-649 | at most one import message a file is ever accepted, never two imports run, and once no callback is pending the stamp is set if and only if one was |
| `Guarantees.LinksOnlyMoveForward` | src/backend/core/models.py:355-388 | status only moves forward and the first reason stays, so one feed wins |
| `Guarantees.LinkColumnsAgree` | src/backend/core/tasks.py:604-642 | a reason is set iff not ACTIVE, pending_deletion_at iff PENDING, and DEACTIVATED means every object is gone |
| `Outcomes.FinalizeAnswersExactly` | src/backend/core/api/viewsets/draft.py:424-447 | each answer of a finalize as a condition on the rows it read, whatever the order of its checks |
| `Outcomes.AnswerParksTheKey` | src/backend/core/api/viewsets/draft.py:561-569 | every answer but a refusal parks the key that was sent |
| `Outcomes.ImportsAreStamped` | src/backend/core/api/viewsets/draft.py:634-649 | a 202 stamps and enqueues each Drive file it read without a stamp, once, and no other |
| `Outcomes.ScansAreSubmittedOnce` | src/backend/core/api/viewsets/draft.py:674-697 | a finalize submits exactly the landed, waiting files not submitted yet, by the row as it is now and not only as it was read, and none when it refuses |
| `Outcomes.WhatIsPublished` | src/backend/core/api/viewsets/draft.py:760-812 | the transfer is made exactly on that answer, with the key, the confidentiality, the deadline and the files of the request |
| `Outcomes.DeadlineIsForever` | src/backend/core/api/viewsets/draft.py:770-771 | in every later state the deadline is the clock of the finalize plus its lifetime, and the expiry of the link is enabled exactly from then on |
| `Outcomes.ServedUntilTheDeadline` | src/backend/core/api/viewsets/download.py:78-88 | while the link is up each of its files is served exactly until that deadline |
| `Outcomes.GraceWindowExactly` | src/backend/core/api/viewsets/download.py:243-258 | after a link closes, in every later state, a request is let through exactly if it resumes, a first download closed the link, and the purge delay is not over |
| `Outcomes.PurgedAfterTheDelay` | src/backend/core/models.py:372-388 | a closed link is due for the purge exactly once the delay is over, and is not DEACTIVATED before |
| `Outcomes.FirstFeedWins` | src/backend/core/models.py:372-388 | a second feed leaves a closed link exactly as it is |
| `Outcomes.ServingAgreesWithExpiry` | src/backend/core/api/viewsets/download.py:78-88 | a request is let through exactly if it would be after the expiry task has run |
| `Outcomes.DestroyExactly` | src/backend/core/api/viewsets/transfer.py:144-192 | a hard delete leaves an ACTIVE link alone; otherwise link, rows and objects go, unless the link is in its grace window and S3 refuses |
| `FileOutcomes.StatusComesFrom` | src/backend/core/api/viewsets/webhook.py:66-82 | every change of a scan status, by any step, is a landing, a confidential finalize, a callback on a PENDING row or a rescan of a transient error, and to the status that step stands for |
| `FileOutcomes.FirstVerdictDecides` | src/backend/core/api/viewsets/webhook.py:66-82 | the first callback on a PENDING row decides in every later state, and a callback on another row changes nothing |
| `FileOutcomes.LandsAs` | src/backend/core/api/viewsets/draft.py:326-343 | a landed file is SKIPPED without a scanner, TOO_LARGE over its cap, and PENDING otherwise, its object there |
| `FileOutcomes.FailedImportStays` | src/backend/core/tasks.py:356-380 | a failed import never lands, cannot be completed by a client, and has every later finalize of its draft refused as long as its row is there |
| `FileOutcomes.DriveRowsOpenWithTheirImport` | src/backend/core/tasks.py:196-210 | a Drive row has no upload to complete before its import was accepted |
| `FileOutcomes.AcceptedImportsAreNotForgotten` | src/backend/core/tasks.py:170-179 | an accepted import is queued or running, exactly once, until it lands, fails or loses its row: no dying worker loses it |
| `FileOutcomes.ScanMessagesAreCounted` | src/backend/core/api/viewsets/draft.py:690-697 | finalize, rescan, reaper and a failed submission each queue one scan message, a worker takes one, and no other step does either |
| `FileOutcomes.TakenMessages` | src/backend/core/tasks.py:447-478 | a taken message leads to a submission if and only if the file has landed, is PENDING and has a key, and then with the first key of its draft |
| `FileOutcomes.AcceptedSubmissions` | src/backend/core/tasks.py:503-529 | only a submission the scanner accepted can be called back for |
| `StorageOutcomes.LeaksExactly` | src/backend/core/api/viewsets/draft.py:289-381 | which step leaves an object without a row, and which takes one away, for every step of every actor |
| `StorageOutcomes.SweepTakesExactly` | src/backend/core/services/s3_sweep.py:50-92 | a sweep lists exactly the objects without a row at its start that were then at least the age limit old |
| `StorageOutcomes.TransferKeepsItsFiles` | src/backend/core/api/viewsets/draft.py:789-791 | in every later state the files of a transfer are exactly those its finalize read |
| `StorageOutcomes.DraftsLastADay` | src/backend/core/tasks.py:129-149 | the cleanup may take a draft exactly from a day after its first file on, unless it is locked |
| `StorageOutcomes.FailedCompletionEndsTheDraft` | src/backend/core/api/viewsets/draft.py:297-325 | a completion that S3 rejects, or of the wrong size, ends the draft and all its rows for good |
| `StorageOutcomes.UnansweredCompletionChangesNoRow` | src/backend/core/api/viewsets/draft.py:310-311 | one whose size S3 would not tell leaves every row as it was, open for another try |
| `StorageOutcomes.RemovingTheLastFile` | src/backend/core/api/viewsets/draft.py:366-379 | remove-file ends the draft exactly with its last file |
| `Scenarios.RefusedHardDeleteLosesBytes` | src/backend/core/api/viewsets/transfer.py:160-185 | a run after which an admitted resume finds no object |
| `Scenarios.AgelessSweepLosesBytes` | src/backend/core/services/s3_sweep.py:50-57 | a run in which a sweep without an age limit deletes the object of a file just sent |
| `Scenarios.CompletedImportLosesBytes` | src/backend/core/api/viewsets/draft.py:289-302 | a run in which a client completes a running import's upload and the import then deletes the published object |
| `Backend.Backend.BestEffortDelete` | src/backend/core/services/s3.py:242-261 | the loop deletes every object S3 does not refuse and answers whether none was refused |
| `Backend.Backend.RefusedEarly` | src/backend/core/api/viewsets/draft.py:487-558 | the checks before any write refuse exactly the bad shapes, key changes and failed imports |
| `Backend.Backend.StampImports` | src/backend/core/api/viewsets/draft.py:634-649 | the loop stamps and collects exactly the Drive files not landed and not started |
| `Backend.Backend.SubmitScans` | src/backend/core/api/viewsets/draft.py:674-697 | the loops skip, or stamp and collect, exactly the rows they should |
| `Backend.Backend.ScanGate` | src/backend/core/api/viewsets/draft.py:699-758 | the gate's three-way answer is that of its specification |
| `Backend.Backend.Finalize` | src/backend/core/api/viewsets/draft.py:424-447 | a whole finalize does exactly the step of the protocol, a refusal undoing every write before it |
| `Backend.Backend.CompleteUploadOf` | src/backend/core/api/viewsets/draft.py:289-346 | complete-upload does exactly its step for each of S3's answers |
| `Backend.Backend.PurgeTask` | src/backend/core/tasks.py:603-659 | query and loop purge exactly the due transfers, a refused one left for the next run |
| `Backend.Backend.PurgeListed` | src/backend/core/tasks.py:618-642 | the loop, over any list however stale, wipes each transfer's files and flips those with no refusal |
| `Backend.PurgeOutcome` | src/backend/core/tasks.py:603-659 | a due transfer ends DEACTIVATED without an object if and only if no deletion of its files was refused, otherwise its row is as before; other transfers keep row and objects |
| `TaskRuns.PurgedOneIsItsSteps` | src/backend/core/tasks.py:618-642 | the purge of one transfer is its wipe step and, when complete, its flip step |
| `TaskRuns.PurgeTaskIsARun` | src/backend/core/tasks.py:603-659 | a whole purge is an orderly run of the steps, so it leads from reachable states to reachable ones |
| `Backend.Backend.CleanupTask` | src/backend/core/tasks.py:129-149 | query and loop discard exactly the drafts of a day or more that are not locked |
| `Backend.Backend.CleanupListed` | src/backend/core/tasks.py:138-149 | the loop, over any list of ids, discards exactly those that can still be discarded |
| `Backend.CleanupOutcome` | src/backend/core/tasks.py:129-149 | after it no unlocked draft of a day or more is left, nor a row of its files, nor an object of them S3 agreed to delete; everything else is as before |
| `TaskRuns.CleanupTaskIsARun` | src/backend/core/tasks.py:129-149 | a whole cleanup is an orderly run of the steps |
| `Backend.Backend.ExpireTask` | src/backend/core/tasks.py:64-84 | query and loop close exactly the ACTIVE transfers past their expiry and log each once |
| `Backend.Backend.ExpireListed` | src/backend/core/tasks.py:71-84 | over a stale list, those another feed closed first keep their row and are not logged |
| `TaskRuns.ExpiryTaskIsARun` | src/backend/core/tasks.py:64-84 | a whole expiry run is an orderly run of the steps |
| `Backend.Backend.GetFile` | src/backend/core/api/viewsets/download.py:230-288 | each answer of the view exactly: a URL, expired, closed, not found, still scanning or blocked |
| `ImportEnqueue.Callback.EnqueueDriveImports` | src/backend/core/api/viewsets/draft.py:589-599 | every id is tried; the accepted are queued, the refused unstamped, and it raises iff one was refused |
| `ImportEnqueue.CallbackIsItsSteps` | src/backend/core/api/viewsets/draft.py:589-599 | the callback as a whole is its steps one by one |
| `ImportEnqueue.TakenOnce` | src/backend/core/api/viewsets/draft.py:589-594 | each id gets one message unless it was refused |
| `ScanClaims.ScanWaitIsACeiling` | src/backend/core/services/scan_budget.py:17-21 | the budget is the base plus the smallest whole number of seconds for the size |
| `ScanClaims.ClaimsAreABudgetApart` | src/backend/core/tasks.py:545-583 | two standing claims in a row are a whole budget apart unless a verdict came between, refusals of the broker included |
| `ScanClaims.OneWinnerAStamp` | src/backend/core/api/viewsets/draft.py:863-880 | of all reapers and rescans that saw one stamp at most one holds a claim on it, unless two tasks of the same instant wrote that stamp |
| `ScanClaims.OneMessageAClaim` | src/backend/core/tasks.py:567-583 | every accepted message belongs to one successful claim, which has no other |
| `ScanClaims.StampIsTheLastClaim` | src/backend/core/tasks.py:566-583 | the row's stamp is always that of the last claim not given back |
| `ScanClaims.FinalIsFinal` | src/backend/core/api/viewsets/webhook.py:66-76 | no callback, reaper or rescan moves a final verdict |
| `ScanClaims.RestoreIsRightExactly` | src/backend/core/tasks.py:574-582 | a refused reaper leaves the stamp of the last standing claim, and the invariant, if and only if the stamp it found was not another task's |
| `ScanClaims.TakeOverBreaksTheBudget` | src/backend/core/tasks.py:567-583 | from every state with a take-over ahead and the scan within its budget, the next tick submits the scan again too early |
| `ScanClaims.CarefulRunsAreOrderly` | src/backend/core/tasks.py:567-583 | a run without a claim at the clock of a waiting reaper has no take-over |
| `ScanClaims.SameInstantSubmitsTwice` | src/backend/core/tasks.py:567-583 | a run in which a file is submitted twice within a second, with no verdict in between |
| `ScanRearming.ReapedRow` | src/backend/core/tasks.py:562-583 | after a tick a row is as before, or was a candidate and carries the tick's clock with one message |
| `ScanRearming.ReapedExactly` | src/backend/core/tasks.py:567-583 | a candidate is re-armed if and only if its row still is as it was read and neither it nor one before it was refused |
| `ScanRearming.RescannedRow` | src/backend/core/api/viewsets/draft.py:842-880 | rescan re-arms exactly the lost and the transiently failed files, each with one message |
| `ScanRearming.ScanTable.Reap` | src/backend/core/tasks.py:562-583 | the reaper's loop does what its specification says, giving the stamp back on a refusal |
| `ScanRearming.ScanTable.Stale` | src/backend/core/tasks.py:543-562 | the query picks exactly the stamped pending rows past the floor and past their own budget |
| `ScanRearming.ScanTable.Rescan` | src/backend/core/api/viewsets/draft.py:839-881 | so does rescan's loop |
| `ScanVerdicts.ReleasedExactly` | src/backend/core/api/viewsets/webhook.py:183-212 | a body means CLEAN, INFECTED or UNSCANNABLE if and only if it says so at verdicts.malware.kind and is no job error |
| `ScanVerdicts.FileIsBlamedExactly` | src/backend/core/api/viewsets/webhook.py:148-168 | an error is file-bound if and only if the verdict is flagged or error_kind is file |
| `RecipientQuota.NoWindowExceedsTheLimit` | src/backend/core/api/viewsets/draft.py:449-485 | in any run with concurrent finalizes no window as long as the period exceeds the limit; hard deletes give nothing back, the check counting events |
| `RecipientQuota.EventsAreLogged` | src/backend/core/api/viewsets/draft.py:797-807 | the log that is summed is exactly the mails of the run, each with its clock and its recipients |
| `RecipientQuota.RefusalsAreNeeded` | src/backend/core/api/viewsets/draft.py:479-485 | a refused request would have broken the limit |
| `DownloadReceipts.OneReceiptARecipient` | src/backend/core/tasks.py:785-806 | at most one receipt a recipient is ever sent, under any interleaving, retry and redelivery |
| `DownloadReceipts.ArmedMeansADelayedTask` | src/backend/core/api/viewsets/download.py:160-172 | an armed stamp means a delayed task is queued or the receipt is claimed |
| `DownloadReceipts.NoReceiptIsForgotten` | src/backend/core/api/viewsets/download.py:139-172 | a receipt asked for is queued, being sent, sent, lost with its worker, or out of retries |
| `DownloadReceipts.ImmediateMeansAll` | src/backend/core/api/viewsets/download.py:160-164 | no immediate task exists, queued, retried or redelivered, before every file has a recorded download |
| `DownloadReceipts.TheLastFileMailsAtOnce` | src/backend/core/api/viewsets/download.py:160-172 | whatever comes between count and queue, the request that found all files queues the immediate task, and any other the delayed one exactly if none is armed |
| `DownloadReceipts.LateRequestsAskForNothing` | src/backend/core/api/viewsets/download.py:153-154 | a request that resolved a recipient already notified asks for nothing |
| `DownloadReceipts.GivenUpAfterFourFailures` | src/backend/core/tasks.py:765-766 | a send is retried three times at most, and given up only after four failures |
| `DownloadReceipts.FailedSendIsRetried` | src/backend/core/tasks.py:796-806 | a failed send releases both stamps and is retried, or is the last |
| `OneShot.ArchivedMeansAllDownloaded` | src/backend/core/api/viewsets/download.py:175-196 | a first-download deactivation means every file has a recorded download |
| `OneShot.DownloadedIsRecorded` | src/backend/core/api/viewsets/download.py:175-196 | the downloads counted are exactly those recorded in the run, the owner's aside |
| `OneShot.NoRequestBegins` | src/backend/core/api/viewsets/download.py:253-258 | after the button or the expiry no download request begins any more |
| `OneShot.ClosedExactly` | src/backend/core/api/viewsets/download.py:339-354 | over every run a link is up if and only if no expiry, no click and no successful archive check closed it |
| `OneShot.OneShotIsUpExactly` | src/backend/core/api/viewsets/download.py:299-354 | a one-shot link is up if and only if neither expiry nor a click acted and every request that reached its check with all files recorded died there |
| `OneShot.QuietOneShotHadItsCheck` | src/backend/core/api/viewsets/download.py:299-354 | with every file recorded and nothing in flight some request has left its check, so a link still up has lost one there |
| `OneShot.DeadRequestLeavesTheLinkUp` | src/backend/core/api/viewsets/download.py:299-354 | a run in which the one request dies before its check and the link stays up |
| `OneShot.OneDeactivationEvent` | src/backend/core/tasks.py:71-85 | a closed link has exactly one event, and one more for each late manual click |
| `OneShot.EveryClickIsLogged` | src/backend/core/api/viewsets/transfer.py:204-215 | over every run there is one manual event for each click that acted, the late ones included, and at most one of them closed the link |
| `KeyRegistry.DiskAgreesAfterEachOperation` | src/frontend/public/sw.js:83-105 | after each register or release the stored row equals the entry in memory, kills and closed pages included |
| `KeyRegistry.HeldKeyStays` | src/frontend/public/sw.js:111-167 | a page that registered, is open and has not let go finds its key, even after a kill |
| `KeyRegistry.HeldKeyIsTheRegistered` | src/frontend/public/sw.js:250-300 | and what it finds is the key, the deadline, the files and the sizes of the last registration stored, through kills, prunes, releases and learned tokens |
| `KeyRegistry.LoadedOnlyInTime` | src/frontend/public/sw.js:111-121 | an entry read back past its deadline is forgotten instead |
| `KeyRegistry.ForgottenOnlyWhenFree` | src/frontend/public/sw.js:154-167 | the row goes only on expiry or when no other open page holds it |
| `KeyRegistry.ResumeTokensSurvive` | src/frontend/public/sw.js:250-300 | a learned resume token survives re-registration as long as its file is listed |
| `KeyRegistry.Registry.RegisterKey` | src/frontend/public/sw.js:250-300 | a registration stores the key, the deadline (or thirty days from now), the files with their sizes and old tokens, and the pages still open, or throws on a bad file and changes nothing |
| `KeyRegistry.Registry.ReleaseEntry` | src/frontend/public/sw.js:154-167 | after a release the entry is there exactly if another open page holds it, with just those pages and nothing else changed |
| `KeyRegistry.StepsMakeOperations` | src/frontend/public/sw.js:250-300 | the steps of a registration amount to the whole of it |
| `KeyRegistry.StepsMakeReleases` | src/frontend/public/sw.js:154-167 | so do those of a release |
| `OrphanSweep.Sweep.ScanObjects` | src/backend/core/services/s3_sweep.py:70-103 | the batched loop deletes exactly the old unknown keys S3 does not refuse, in the fewest requests of a thousand, and counts them; a dry run only counts |
| `OrphanSweep.Sweep.FlushBatch` | src/backend/core/services/s3_sweep.py:152-158 | one request deletes a batch within the size limit and counts what went |
| `OrphanSweep.Sweep.ScanUploads` | src/backend/core/services/s3_sweep.py:106-149 | open uploads are aborted one by one and a refusal does not stop the sweep |
| `OrphanSweep.OrphansAre` | src/backend/core/services/s3_sweep.py:85-91 | the orphans are exactly the listed keys that are unknown and old enough |
| `OrphanSweep.SweepSpares` | src/backend/core/services/s3_sweep.py:85-91 | a known or too young key is never taken |
| `Base64Url.DecodeUndoesEncode` | src/frontend/src/features/transfers/upload/encryption.ts:167-180 | base64UrlDecode(base64UrlEncode(b)) is b for every byte string |
| `Base64Url.EncodedIsUrlText` | src/frontend/src/features/transfers/upload/encryption.ts:167-171 | the encoding is url-safe, unpadded and of length ceil(4n/3) |
| `Base64Url.Base64UrlEncode` | src/frontend/src/features/transfers/upload/encryption.ts:167-171 | the loop over String.fromCharCode gives the specified text |
| `Base64Url.Base64UrlDecode` | src/frontend/src/features/transfers/upload/encryption.ts:173-180 | the loop over charCodeAt gives the specified bytes, or throws where atob does |
| `Base64Url.BackendAgreesWithBrowser` | src/backend/core/services/encryption.py:41-57 | on every 43-character fragment and its padded form both sides decode to the same 32 bytes |
| `Base64Url.BackendRecoversEveryKey` | src/backend/core/services/encryption.py:41-57 | decode_key recovers every 32-byte key from its 43-character form |
| `Base64Url.DecodesExactly` | src/backend/core/services/encryption.py:38-57 | decode_key succeeds if and only if the fragment is 43 url-safe characters, then nothing, = or ==, or either padding and a newline, and gives the bytes of the 43 |
| `RecipientActivity.ActivityByRecipient` | src/backend/core/services/recipient_activity.py:27-57 | the fold gives, for every recipient, the earliest open, the latest download and the files, straight from the log |
| `RecipientActivity.ActivityIsUnique` | src/backend/core/services/recipient_activity.py:20-25 | those three facts determine the record |
| `RecipientActivity.FoldAgreesWithQuery` | src/backend/core/services/recipient_activity.py:60-72 | the fold's files and the direct query's are the same if and only if no id is empty, and none null unless a file is called None |

## Left out

- AES-GCM, HMAC, JWT minting and signed tokens: their interfaces only; a resume token is valid or not as a parameter.
- JavaScript numbers: sizes are unbounded integers; the originals are exact up to 2^53, and the resume results say so.
- Aborting a running upload: `MultipartUploader.abort` may make it resolve with a partial list; the model has no abort.
- TransformStream errors discard chunks the consumer has not read yet, so what the model calls released is an upper bound.
- A database failure between an S3 deletion and its commit, and a process that dies between a commit and its enqueue: an enqueue
  goes out with its commit unless the code itself handles the refusal.
- Two imports of one file alive at once after a broker redelivery that overtakes a live worker.
- Multipart upload bookkeeping on S3 (open uploads, aborts) inside the backend protocol; `OrphanSweep` has the sweep's own loop.
- The size and count limits of add-file, `sign_part`, titles, sharing modes, recipients and invitation emails.
- The in-progress import counter, scan job ids, webhook secrets and scan reports.
- A purge deletes the objects of one transfer in one step; the order of its deletions is in `Backend.BestEffortDelete` only.
- The orphan sweep's pages are listed at one moment each; keys are taken to be listed once.
- Chunk sizes that differ between the files of one key: the seal log has one for all of them, as a draft does; the Service
  Worker takes it from each file's entry.
- A PUT that fails for the browser and lands in S3 only after its retry did: in `MultipartUpload` a failed attempt has landed by
  the time it fails, or never does.
- `loadEntry` in `handleDownload`, which fills the registry's memory from disk outside the token's queue.
- The key registry's write of a resume token outside the token's queue is modelled at quiet moments only, and `sweepExpired`
  on activation not at all.
- How long a delayed or retried receipt waits before its task runs: any delay is allowed.
- User interface, leader election of the scheduler, migrations, settings parsing, the admin and the mail templates.
- The content of a bucket object beyond its presence, inside the backend protocol: contents are the concern of the wire-format
  modules.
