/** Runs that show where a property stops. */
module Scenarios {
  import opened Bytes
  import opened World
  import opened Steps
  import opened Guarantees

  const NO_SCANS := Settings(false, 100)
  const CONFIDENTIAL := Body(true, "", 1000)
  const UPLOADING := FileRow(InDraft(1), 1, false, false, 0, true, false, false, false, Pending, NoKind, false)
  const LANDED := FileRow(InDraft(1), 1, false, false, 0, false, true, false, false, Skipped, NoKind, false)

  lemma EmptyReached(c: Settings, orderly: bool)
    ensures Reached(c, EMPTY_WORLD, orderly)
  {
    assert Possible(c, EMPTY_WORLD, []) && OrderlyRun(c, EMPTY_WORLD, []) && After(c, EMPTY_WORLD, []) == EMPTY_WORLD;
  }

  // --- Two confidential files sent ---

  lemma Added(start: World, orderly: bool) returns (w: World)
    requires Reached(NO_SCANS, start, orderly) && start == EMPTY_WORLD.(sweeps := start.sweeps)
    ensures Reached(NO_SCANS, w, orderly) && w.now == 0 && w.polls == map[] && w.used == {1, 2, 3} && w.bucket == map[]
    ensures w.files == map[2 := UPLOADING, 3 := UPLOADING] && w.drafts == map[1 := DraftRow("", 0)]
    ensures w.transfers == map[]
    ensures w.importing == map[] && w.sweeps == start.sweeps
  {
    var w1 := AddFile(start, 1, 2, false, false);
    ReachedNext(NO_SCANS, start, OnDraft(Adds(1, 2, false, false)), orderly);
    w := AddFile(w1, 1, 3, false, false);
    ReachedNext(NO_SCANS, w1, OnDraft(Adds(1, 3, false, false)), orderly);
  }

  /** Draft 1 with files 2 and 3 uploaded, while the sweeps of start run. */
  lemma Uploaded(start: World, orderly: bool) returns (w: World)
    requires Reached(NO_SCANS, start, orderly) && start == EMPTY_WORLD.(sweeps := start.sweeps)
    ensures Reached(NO_SCANS, w, orderly) && w.now == 0 && w.polls == map[] && w.used == {1, 2, 3}
    ensures w.bucket == map[2 := 0, 3 := 0]
    ensures w.files == map[2 := LANDED, 3 := LANDED] && w.drafts == map[1 := DraftRow("", 0)] && w.transfers == map[]
    ensures w.sweeps == start.sweeps
  {
    var w2 := Added(start, orderly);
    var w3 := CompleteUpload(NO_SCANS, w2, 1, 2, Landed);
    ReachedNext(NO_SCANS, w2, OnDraft(Completes(1, 2, Landed)), orderly);
    w := CompleteUpload(NO_SCANS, w3, 1, 3, Landed);
    ReachedNext(NO_SCANS, w3, OnDraft(Completes(1, 3, Landed)), orderly);
  }

  lemma AnsweredAtOnce(p: Poll)
    requires p.body == CONFIDENTIAL && p.rows == map[2 := LANDED, 3 := LANDED]
    ensures FinalizeAnswer(NO_SCANS, p, "") == Created && Skipping(NO_SCANS, p) == {} && Submitting(NO_SCANS, p) == {}
  {
    assert 2 in p.rows;
  }

  /** The same two files published as transfer 5. */
  lemma Published(start: World, orderly: bool) returns (w: World)
    requires Reached(NO_SCANS, start, orderly) && start == EMPTY_WORLD.(sweeps := start.sweeps)
    ensures Reached(NO_SCANS, w, orderly) && w.now == 0 && w.bucket == map[2 := 0, 3 := 0] && w.sweeps == start.sweeps
    ensures w.files == map[2 := LANDED.(parent := InTransfer(5)), 3 := LANDED.(parent := InTransfer(5))]
    ensures w.transfers == map[5 := TransferRow(1, "", true, 1000, Active, None, None)]
  {
    var w4 := Uploaded(start, orderly);
    var w5 := FinalizeRead(w4, 1, CONFIDENTIAL);
    ReachedNext(NO_SCANS, w4, OnFinalize(Finalizes(1, CONFIDENTIAL)), orderly);
    assert w5.polls[1].rows == map[2 := LANDED, 3 := LANDED];
    w := Answered(w5);
    ReachedNext(NO_SCANS, w5, OnFinalize(Answers(1, 6, 5)), orderly);
  }

  lemma Answered(w: World) returns (v: World)
    requires w.polls == map[1 := Poll(CONFIDENTIAL, map[2 := LANDED, 3 := LANDED])]
    requires w.drafts == map[1 := DraftRow("", 0)]
    requires w.files == map[2 := LANDED, 3 := LANDED] && w.now == 0 && w.transfers == map[]
    ensures v == FinalizeWrite(NO_SCANS, w, 1, 6, 5)
    ensures v.files == map[2 := LANDED.(parent := InTransfer(5)), 3 := LANDED.(parent := InTransfer(5))]
    ensures v.transfers == map[5 := TransferRow(1, "", true, 1000, Active, None, None)]
    ensures v.now == 0 && v.bucket == w.bucket && v.sweeps == w.sweeps
  {
    AnsweredAtOnce(w.polls[1]);
    var scanned := ScansSubmitted(w.(polls := w.polls - {1}), {}, {});
    assert scanned.files == w.files;
    v := CreateTransfer(scanned, 1, 5, CONFIDENTIAL);
    CreatedFrom(scanned);
  }

  lemma CreatedFrom(w: World)
    requires w.drafts == map[1 := DraftRow("", 0)] && w.files == map[2 := LANDED, 3 := LANDED] && w.now == 0
    requires w.transfers == map[]
    ensures var v := CreateTransfer(w, 1, 5, CONFIDENTIAL);
            && v.files == map[2 := LANDED.(parent := InTransfer(5)), 3 := LANDED.(parent := InTransfer(5))]
            && v.transfers == map[5 := TransferRow(1, "", true, 1000, Active, None, None)]
  {
    assert FilesOf(w, InDraft(1)) == {2, 3};
  }

  // --- A refused hard delete ---

  /** Transfer 5 after its first full download: closed, with its grace window running. */
  lemma Closed() returns (w: World)
    ensures Reachable(NO_SCANS, w) && w.now == 0 && w.bucket == map[2 := 0, 3 := 0]
    ensures w.files == map[2 := LANDED.(parent := InTransfer(5)), 3 := LANDED.(parent := InTransfer(5))]
    ensures w.transfers == map[5 := TransferRow(1, "", true, 1000, PendingFileDeletion, Some(FirstDownload), Some(100))]
  {
    EmptyReached(NO_SCANS, true);
    var w6 := Published(EMPTY_WORLD, true);
    w := Deactivate(NO_SCANS, w6, 5, FirstDownload);
    ReachedNext(NO_SCANS, w6, OnLink(Deactivates(5, FirstDownload)), true);
  }

  /**
   Two files sent confidentially, downloaded, then deleted by the agent within the grace
   window while S3 fails on one of the two: the delete is refused, a resumed download of
   the other file is still let through, and its object is gone.
   */
  lemma RefusedHardDeleteLosesBytes() returns (w: World)
    ensures Reachable(NO_SCANS, w) && Admits(w, 5, 2, true) && 2 !in w.bucket
  {
    var w7 := Closed();
    w := Destroy(w7, 5, {3});
    ReachedNext(NO_SCANS, w7, OnLink(Destroys(5, {3})), true);
    assert 3 in FilesOf(w7, InTransfer(5));
  }

  // --- A sweep without an age limit ---

  /** A sweep with no age limit reads the known keys, a file is sent, and the sweep deletes its object. */
  lemma AgelessSweepLosesBytes() returns (w: World)
    ensures Reached(NO_SCANS, w, false) && Admits(w, 5, 2, false) && 2 !in w.bucket
  {
    EmptyReached(NO_SCANS, false);
    var start := SweepStart(EMPTY_WORLD, 9, 0);
    ReachedNext(NO_SCANS, EMPTY_WORLD, OnSweep(Starts(9, 0)), false);
    var w6 := Published(start, false);
    var w7 := SweepList(w6, 9, 2);
    ReachedNext(NO_SCANS, w6, OnSweep(Lists(9, 2)), false);
    w := SweepDelete(w7, 2);
    ReachedNext(NO_SCANS, w7, OnSweep(Deletes(9, 2)), false);
  }

  // --- A Drive file completed by its client ---

  const KEYED := Body(false, "k", 1000)
  const DRIVE := FileRow(InDraft(1), 1, true, false, 0, false, false, false, false, Pending, NoKind, false)
  const IMPORTING := DRIVE.(importStarted := true, uploadOpen := true)
  const COMPLETED := DRIVE.(importStarted := true, completed := true, scan := Skipped)

  lemma AnsweredImporting(p: Poll)
    requires p == Poll(KEYED, map[2 := DRIVE])
    ensures FinalizeAnswer(NO_SCANS, p, "") == StillImporting && Starting(p) == {2}
  {
    assert 2 in p.rows && p.rows[2].drive && !p.rows[2].completed;
  }

  /** What that finalize writes: the key, the stamp and the batch. */
  lemma WritesBatch(w: World)
    requires w.polls == map[1 := Poll(KEYED, map[2 := DRIVE])] && w.drafts == map[1 := DraftRow("", 0)]
    ensures FinalizeWrite(NO_SCANS, w, 1, 4, 7) == ImportsBatched(KeyParked(w.(polls := w.polls - {1}), 1, "k"), {2}, 4)
  {
    AnsweredImporting(w.polls[1]);
  }

  lemma BatchedFrom(w: World, v: World)
    requires w.polls == map[1 := Poll(KEYED, map[2 := DRIVE])] && w.drafts == map[1 := DraftRow("", 0)]
    requires w.files == map[2 := DRIVE]
    requires v == ImportsBatched(KeyParked(w.(polls := w.polls - {1}), 1, "k"), {2}, 4)
    ensures v.files == map[2 := DRIVE.(importStarted := true)] && v.drafts == map[1 := DraftRow("k", 0)]
    ensures v.polls == map[] && v.used == w.used + {4} && 4 in v.batches && v.batches[4] == Batch({2}, {})
    ensures v.now == w.now && v.importing == w.importing && v.transfers == w.transfers
  {}

  /** Drive file 2 in draft 1, and a finalize that has read it. */
  lemma DriveRead() returns (w: World)
    ensures Reached(NO_SCANS, w, false) && w.now == 0 && w.files == map[2 := DRIVE]
    ensures w.drafts == map[1 := DraftRow("", 0)]
    ensures w.polls == map[1 := Poll(KEYED, map[2 := DRIVE])] && w.used == {1, 2} && w.transfers == map[]
    ensures w.importing == map[]
  {
    EmptyReached(NO_SCANS, false);
    var w1 := AddFile(EMPTY_WORLD, 1, 2, true, false);
    ReachedNext(NO_SCANS, EMPTY_WORLD, OnDraft(Adds(1, 2, true, false)), false);
    w := FinalizeRead(w1, 1, KEYED);
    ReachedNext(NO_SCANS, w1, OnFinalize(Finalizes(1, KEYED)), false);
    assert w.polls[1].rows == map[2 := DRIVE];
  }

  /** The import of file 2 runs, its multipart upload open. */
  lemma Importing() returns (w: World)
    ensures Reached(NO_SCANS, w, false) && w.now == 0 && w.files == map[2 := IMPORTING]
    ensures w.drafts == map[1 := DraftRow("k", 0)]
    ensures w.polls == map[] && 2 in w.importing && w.used == {1, 2, 4} && w.transfers == map[]
  {
    var w2 := DriveRead();
    WritesBatch(w2);
    ReachedNext(NO_SCANS, w2, OnFinalize(Answers(1, 4, 7)), false);
    var w3 := ImportsBatched(KeyParked(w2.(polls := w2.polls - {1}), 1, "k"), {2}, 4);
    BatchedFrom(w2, w3);
    w := Picked(w3);
  }

  lemma Picked(w3: World) returns (w: World)
    requires Reached(NO_SCANS, w3, false) && w3.now == 0 && w3.files == map[2 := DRIVE.(importStarted := true)]
    requires w3.drafts == map[1 := DraftRow("k", 0)]
    requires 4 in w3.batches && w3.batches[4] == Batch({2}, {}) && w3.used == {1, 2, 4} && w3.polls == map[]
    requires w3.transfers == map[] && w3.importing == map[]
    ensures Reached(NO_SCANS, w, false) && w.now == 0 && w.files == map[2 := IMPORTING]
    ensures w.drafts == map[1 := DraftRow("k", 0)]
    ensures w.polls == map[] && 2 in w.importing && w.used == {1, 2, 4} && w.transfers == map[]
  {
    var w4 := BatchSend(w3, 4, 2, true);
    ReachedNext(NO_SCANS, w3, OnFinalize(Sends(4, 2, true)), false);
    w := ImportStart(w4, 2);
    ReachedNext(NO_SCANS, w4, OnImport(Imports(2)), false);
  }

  lemma PublishesDrive(w: World) returns (v: World)
    requires w.polls == map[1 := Poll(KEYED, map[2 := COMPLETED])] && w.drafts == map[1 := DraftRow("k", 0)]
    requires w.files == map[2 := COMPLETED]
    requires w.now == 0 && w.transfers == map[]
    ensures v == FinalizeWrite(NO_SCANS, w, 1, 8, 5)
    ensures v.files == map[2 := COMPLETED.(parent := InTransfer(5))] && v.now == 0 && v.importing == w.importing
    ensures v.transfers == map[5 := TransferRow(1, "k", false, 1000, Active, None, None)]
  {
    var p := w.polls[1];
    assert 2 in p.rows;
    assert FinalizeAnswer(NO_SCANS, p, "k") == Created && Skipping(NO_SCANS, p) == {} && Submitting(NO_SCANS, p) == {};
    var scanned := ScansSubmitted(w.(polls := w.polls - {1}), {}, {});
    assert scanned.files == w.files;
    v := CreateTransfer(scanned, 1, 5, KEYED);
    DriveCreatedFrom(scanned);
  }

  lemma DriveCreatedFrom(w: World)
    requires w.drafts == map[1 := DraftRow("k", 0)] && w.files == map[2 := COMPLETED] && w.now == 0
    requires w.transfers == map[]
    ensures var v := CreateTransfer(w, 1, 5, KEYED);
            && v.files == map[2 := COMPLETED.(parent := InTransfer(5))]
            && v.transfers == map[5 := TransferRow(1, "k", false, 1000, Active, None, None)]
  {
    assert FilesOf(w, InDraft(1)) == {2};
  }

  /** The client completes the upload that the import holds open, and finalizes again. */
  lemma CompletedByClient() returns (w: World)
    ensures Reached(NO_SCANS, w, false) && w.now == 0 && w.files == map[2 := COMPLETED]
    ensures w.drafts == map[1 := DraftRow("k", 0)]
    ensures w.polls == map[1 := Poll(KEYED, map[2 := COMPLETED])] && 2 in w.importing && w.used == {1, 2, 4}
    ensures w.transfers == map[]
  {
    var w5 := Importing();
    var w6 := CompleteUpload(NO_SCANS, w5, 1, 2, Landed);
    ReachedNext(NO_SCANS, w5, OnDraft(Completes(1, 2, Landed)), false);
    w := FinalizeRead(w6, 1, KEYED);
    ReachedNext(NO_SCANS, w6, OnFinalize(Finalizes(1, KEYED)), false);
    assert w.polls[1].rows == map[2 := COMPLETED];
  }

  /** The draft is published on it, and the import, failing for want of its upload, deletes the object. */
  lemma CompletedImportLosesBytes() returns (w: World)
    ensures Reached(NO_SCANS, w, false) && Admits(w, 5, 2, false) && 2 !in w.bucket
  {
    var w7 := CompletedByClient();
    var w8 := PublishesDrive(w7);
    ReachedNext(NO_SCANS, w7, OnFinalize(Answers(1, 8, 5)), false);
    w := ImportFail(w8, 2, false);
    ReachedNext(NO_SCANS, w8, OnImport(Fails(2, false)), false);
  }
}
