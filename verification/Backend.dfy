/** The request handlers and tasks as the code runs them: loops over rows, writes in place, rollback on error. */
module Backend {
  import opened Bytes
  import opened World

  predicate Distinct(s: seq<Id>) {
    forall i, j :: 0 <= i < j < |s| ==> s[i] != s[j]
  }

  function Elements(s: seq<Id>): set<Id> {
    set f | f in s
  }

  /** One file more of the list has been handled. */
  lemma OneMore(s: seq<Id>, i: nat)
    requires i < |s|
    ensures Elements(s[..i + 1]) == Elements(s[..i]) + {s[i]}
    ensures Distinct(s) ==> s[i] !in s[..i]
  {
    assert s[..i + 1] == s[..i] + [s[i]];
  }

  lemma Appended(s: seq<Id>, f: Id)
    ensures Elements(s + [f]) == Elements(s) + {f}
    ensures Distinct(s) && f !in s ==> Distinct(s + [f])
  {}

  lemma StampOne(files: map<Id, FileRow>, chosen: set<Id>, f: Id)
    requires f in files
    ensures Stamped(files, chosen, true)[f := Stamped(files, chosen, true)[f].(importStarted := true)]
        == Stamped(files, chosen + {f}, true)
  {}

  lemma SkipOne(files: map<Id, FileRow>, chosen: set<Id>, f: Id)
    requires f in files
    ensures Skipped_(files, chosen)[f := Skipped_(files, chosen)[f].(scan := Skipped)] == Skipped_(files, chosen + {f})
  {}

  lemma SubmitOne(files: map<Id, FileRow>, chosen: set<Id>, f: Id)
    requires f in files
    ensures Submitted(files, chosen)[f := Submitted(files, chosen)[f].(submitted := true)]
        == Submitted(files, chosen + {f})
  {}

  lemma NothingStamped(files: map<Id, FileRow>)
    ensures Stamped(files, {}, true) == files
  {}

  lemma NothingSkipped(files: map<Id, FileRow>)
    ensures Skipped_(files, {}) == files
  {}

  lemma NothingSubmitted(files: map<Id, FileRow>)
    ensures Submitted(files, {}) == files
  {}

  predicate Unlanded(p: Poll, f: Id) {
    f in p.rows && p.rows[f].drive && !p.rows[f].completed
  }

  // --- What a run of a task achieves, row by row ---

  /** The files of these transfers. */
  function FilesOfAll(w: World, ts: set<Id>): set<Id> {
    set f | f in w.files && w.files[f].parent.InTransfer? && w.files[f].parent.transfer in ts
  }

  /** The query of the purge. */
  function DueNow(w: World): set<Id> {
    set t | t in w.transfers && PurgeDue(w, t)
  }

  /** A transfer after its purge: DEACTIVATED only if every object went. */
  function PurgedRow(w: World, t: Id, failing: set<Id>): TransferRow
    requires t in w.transfers
  {
    if FilesOf(w, InTransfer(t)) !! failing then w.transfers[t].(status := Deactivated, purgeAt := None)
    else w.transfers[t]
  }

  function PurgedRows(w: World, due: set<Id>, failing: set<Id>): map<Id, TransferRow> {
    map t | t in w.transfers :: if t in due then PurgedRow(w, t, failing) else w.transfers[t]
  }

  function Purged(w: World, due: set<Id>, failing: set<Id>): World {
    DeleteObjects(w, FilesOfAll(w, due * w.transfers.Keys), failing).(transfers := PurgedRows(w, due, failing))
  }

  function PurgedOne(w: World, t: Id, failing: set<Id>): World {
    if t !in w.transfers then w
    else LinkSet(DeleteObjects(w, FilesOf(w, InTransfer(t)), failing), t, PurgedRow(w, t, failing))
  }

  lemma DeletedTwice(w: World, a: set<Id>, b: set<Id>, failing: set<Id>)
    ensures DeleteObjects(DeleteObjects(w, a, failing), b, failing).bucket == DeleteObjects(w, a + b, failing).bucket
  {}

  lemma RowsOneMore(w: World, due: set<Id>, t: Id, failing: set<Id>)
    requires t in w.transfers
    ensures PurgedRows(w, due, failing)[t := PurgedRow(w, t, failing)] == PurgedRows(w, due + {t}, failing)
  {}

  lemma PurgedTwice(w: World, due: set<Id>, t: Id, failing: set<Id>)
    requires t in w.transfers
    ensures PurgedRow(Purged(w, due, failing), t, failing) == PurgedRow(w, t, failing)
  {
    assert FilesOf(Purged(w, due, failing), InTransfer(t)) == FilesOf(w, InTransfer(t));
  }

  /** The purge takes its transfers one by one, in any order. */
  lemma PurgeOneMore(w: World, due: set<Id>, t: Id, failing: set<Id>)
    ensures PurgedOne(Purged(w, due, failing), t, failing) == Purged(w, due + {t}, failing)
  {
    var mine, others := FilesOf(w, InTransfer(t)), FilesOfAll(w, due * w.transfers.Keys);
    if t in w.transfers {
      RowsOneMore(w, due, t, failing);
      PurgedTwice(w, due, t, failing);
      DeletedTwice(w, others, mine, failing);
      assert FilesOfAll(w, (due + {t}) * w.transfers.Keys) == others + mine;
      assert FilesOf(Purged(w, due, failing), InTransfer(t)) == mine;
    } else {
      assert (due + {t}) * w.transfers.Keys == due * w.transfers.Keys;
      assert PurgedRows(w, due + {t}, failing) == PurgedRows(w, due, failing);
    }
  }

  /**
   What a purge run leaves behind. A due transfer is DEACTIVATED, with no object left, if and only if no
   deletion of its files was refused; otherwise its row is as it was, and what is left are the objects
   S3 refused to delete. Any other transfer keeps its row and its objects.
   */
  lemma PurgeOutcome(w: World, t: Id, failing: set<Id>)
    requires t in w.transfers
    ensures var v := Purged(w, DueNow(w), failing);
            var mine := FilesOf(w, InTransfer(t));
            && v.files == w.files && t in v.transfers
            && (PurgeDue(w, t) ==>
                  && (v.transfers[t].status == Deactivated && mine !! v.bucket.Keys <==> mine !! failing)
                  && (!(mine !! failing) ==> v.transfers[t] == w.transfers[t])
                  && mine * v.bucket.Keys == mine * w.bucket.Keys * failing)
            && (!PurgeDue(w, t) ==> v.transfers[t] == w.transfers[t] && mine * v.bucket.Keys == mine * w.bucket.Keys)
  {
    var v := Purged(w, DueNow(w), failing);
    var mine := FilesOf(w, InTransfer(t));
    assert t in DueNow(w) <==> PurgeDue(w, t);
    forall f | f in mine ensures f in v.bucket <==> f in w.bucket && (!PurgeDue(w, t) || f in failing) {
      assert f in FilesOfAll(w, DueNow(w) * w.transfers.Keys) <==> PurgeDue(w, t);
    }
  }

  /** The files of these drafts. */
  function DraftFilesOfAll(w: World, ds: set<Id>): set<Id> {
    set f | f in w.files && w.files[f].parent.InDraft? && w.files[f].parent.draft in ds
  }

  /** The query of the cleanup, less the drafts a finalize request has locked. */
  function AbandonedNow(w: World): set<Id> {
    set d | d in w.drafts && CanDiscard(w, d, true)
  }

  function Cleaned(w: World, gone: set<Id>, failing: set<Id>): World {
    DeleteObjects(w, DraftFilesOfAll(w, gone), failing)
      .(drafts := w.drafts - gone, files := w.files - DraftFilesOfAll(w, gone))
  }

  /** The row is read again under its lock, and may be gone or younger by now. */
  function CleanedOne(w: World, d: Id, failing: set<Id>): World {
    if CanDiscard(w, d, true) then DiscardDraft(w, d, failing) else w
  }

  lemma CleanOneMore(w: World, gone: set<Id>, d: Id, failing: set<Id>)
    requires d !in gone
    ensures DiscardDraft(Cleaned(w, gone, failing), d, failing) == Cleaned(w, gone + {d}, failing)
  {
    var v := Cleaned(w, gone, failing);
    var mine, others := FilesOf(w, InDraft(d)), DraftFilesOfAll(w, gone);
    assert DraftFilesOfAll(w, gone + {d}) == others + mine;
    assert FilesOf(v, InDraft(d)) == mine;
    DeletedTwice(w, others, mine, failing);
    RowsLeft(w.files, others, d);
    assert w.drafts - gone - {d} == w.drafts - (gone + {d});
  }

  /** The cascade of a draft's deletion takes its files. */
  lemma RowsLeft(files: map<Id, FileRow>, others: set<Id>, d: Id)
    ensures var left := files - others;
            (map f | f in left && left[f].parent != InDraft(d) :: left[f])
            == files - (others + FilesIn(files, InDraft(d)))
  {}

  /** The cleanup takes its drafts one by one, in any order, and passes over those it finds gone, young or locked. */
  lemma CleanedOneMore(w: World, gone: set<Id>, d: Id, failing: set<Id>)
    ensures CleanedOne(Cleaned(w, gone, failing), d, failing)
            == if CanDiscard(w, d, true) then Cleaned(w, gone + {d}, failing) else Cleaned(w, gone, failing)
  {
    if CanDiscard(w, d, true) {
      if d in gone { assert gone + {d} == gone; } else { CleanOneMore(w, gone, d, failing); }
    }
  }

  /** The drafts of a list that can be discarded. */
  function Discarded(w: World, ids: set<Id>): set<Id> {
    set d | d in ids && CanDiscard(w, d, true)
  }

  lemma DiscardedOneMore(w: World, ids: set<Id>, d: Id)
    ensures Discarded(w, ids + {d}) == if CanDiscard(w, d, true) then Discarded(w, ids) + {d} else Discarded(w, ids)
  {}

  /**
   What a cleanup run leaves behind: the drafts of a day or more are gone unless a finalize request has
   them locked, their files with them, and so is every object of those files that S3 agreed to delete.
   */
  lemma CleanupOutcome(w: World, failing: set<Id>, f: Id)
    ensures var v := Cleaned(w, AbandonedNow(w), failing);
            && (forall d :: d in v.drafts <==> d in w.drafts && (d in w.polls || w.drafts[d].createdAt + DAY > w.now))
            && (f in w.files ==>
                  var gone := w.files[f].parent.InDraft? && CanDiscard(w, w.files[f].parent.draft, true);
                  (f in v.files <==> !gone) && (f in v.bucket <==> f in w.bucket && (!gone || f in failing)))
            && (f !in w.files ==> f !in v.files && (f in v.bucket <==> f in w.bucket))
  {
    var v := Cleaned(w, AbandonedNow(w), failing);
    forall d ensures d in v.drafts <==> d in w.drafts && (d in w.polls || w.drafts[d].createdAt + DAY > w.now) {
      assert d in AbandonedNow(w) <==> d in w.drafts && CanDiscard(w, d, true);
    }
    if f in w.files {
      assert f in DraftFilesOfAll(w, AbandonedNow(w))
             <==> w.files[f].parent.InDraft? && CanDiscard(w, w.files[f].parent.draft, true);
    }
  }

  /** The query of the expiry task. */
  function ExpiredNow(w: World): set<Id> {
    set t | t in w.transfers && w.transfers[t].status == Active && w.transfers[t].expiresAt <= w.now
  }

  function Lapsed(c: Settings, w: World, ts: set<Id>): World {
    w.(transfers := map t | t in w.transfers ::
           if t in ts && w.transfers[t].status == Active
           then w.transfers[t].(status := PendingFileDeletion, reason := Some(Expired),
                                purgeAt := Some(w.now + c.purgeDelay))
           else w.transfers[t])
  }

  function LapsedOne(c: Settings, w: World, t: Id): World {
    if t in w.transfers then Deactivate(c, w, t, Expired) else w
  }

  lemma LapseOneMore(c: Settings, w: World, ts: set<Id>, t: Id)
    ensures LapsedOne(c, Lapsed(c, w, ts), t) == Lapsed(c, w, ts + {t})
  {
    assert LapsedOne(c, Lapsed(c, w, ts), t).transfers == Lapsed(c, w, ts + {t}).transfers;
  }

  predicate IsActive(w: World, t: Id) {
    t in w.transfers && w.transfers[t].status == Active
  }

  function StillActive(w: World, ts: set<Id>): set<Id> {
    set t | t in ts && IsActive(w, t)
  }

  lemma ActiveOneMore(c: Settings, w: World, ts: set<Id>, t: Id)
    ensures IsActive(Lapsed(c, w, ts), t) <==> IsActive(w, t) && t !in ts
    ensures StillActive(w, ts + {t})
            == if IsActive(Lapsed(c, w, ts), t) then StillActive(w, ts) + {t} else StillActive(w, ts)
  {}

  lemma NothingYet(c: Settings, w: World, failing: set<Id>)
    ensures Purged(w, {}, failing) == w && Cleaned(w, {}, failing) == w && Lapsed(c, w, {}) == w
  {
    assert DeleteObjects(w, {}, failing).bucket == w.bucket;
    assert PurgedRows(w, {}, failing) == w.transfers && Lapsed(c, w, {}).transfers == w.transfers;
    assert FilesOfAll(w, {}) == {} && DraftFilesOfAll(w, {}) == {} && {} * w.transfers.Keys == {};
    assert w.drafts - {} == w.drafts && w.files - {} == w.files;
  }

  /** What the download view answers. */
  datatype Access = NotFound | Gone | Closed | StillScanning202 | Blocked | Granted

  class Backend {
    const c: Settings
    const now: nat
    var used: set<Id>
    var drafts: map<Id, DraftRow>
    var files: map<Id, FileRow>
    var transfers: map<Id, TransferRow>
    var bucket: map<Id, nat>
    var polls: map<Id, Poll>
    var batches: map<Id, Batch>
    var scanQueue: multiset<Id>
    ghost var firstKey: map<Id, string>
    ghost var destroyAsked: set<Id>
    // What running workers hold; the handlers below do not touch it.
    ghost const workers: World

    ghost function Snapshot(): World
      reads this
    {
      workers.(now := now, used := used, drafts := drafts, files := files, transfers := transfers, bucket := bucket,
               polls := polls, batches := batches, scanQueue := scanQueue, firstKey := firstKey,
               destroyAsked := destroyAsked)
    }

    constructor (c: Settings, w: World)
      ensures this.c == c && Snapshot() == w
    {
      this.c, now, used, drafts, files, transfers := c, w.now, w.used, w.drafts, w.files, w.transfers;
      bucket, polls, batches, scanQueue := w.bucket, w.polls, w.batches, w.scanQueue;
      firstKey, destroyAsked, workers := w.firstKey, w.destroyAsked, w;
    }

    /** best_effort_delete_objects_from_files: failing are the keys S3 refuses to delete. */
    method BestEffortDelete(fs: seq<Id>, failing: set<Id>) returns (allDeleted: bool)
      modifies this`bucket
      ensures Snapshot() == DeleteObjects(old(Snapshot()), Elements(fs), failing)
      ensures allDeleted <==> Elements(fs) !! failing
    {
      allDeleted := true;
      for i := 0 to |fs|
        invariant bucket == map f | f in old(bucket) && (f !in Elements(fs[..i]) || f in failing) :: old(bucket)[f]
        invariant allDeleted <==> Elements(fs[..i]) !! failing
      {
        OneMore(fs, i);
        if fs[i] in failing {
          allDeleted := false;
        } else {
          bucket := bucket - {fs[i]};
        }
      }
      assert fs[..|fs|] == fs;
    }

    /**
     _process_drive_imports, past the failed-import check: stamps what it starts, and tells whether anything is
     still importing.
     */
    method StampImports(p: Poll, order: seq<Id>) returns (starting: set<Id>, stillImporting: bool)
      requires Elements(order) == p.rows.Keys <= files.Keys
      modifies this`files
      ensures starting == Starting(p)
      ensures files == Stamped(old(files), Starting(p), true)
      ensures stillImporting <==> exists f <- p.rows :: Unlanded(p, f)
    {
      starting, stillImporting := {}, false;
      for i := 0 to |order|
        invariant starting == Starting(p) * Elements(order[..i])
        invariant files == Stamped(old(files), starting, true)
        invariant stillImporting <==> exists f <- Elements(order[..i]) :: Unlanded(p, f)
      {
        OneMore(order, i);
        var f := order[i];
        assert f in Elements(order);
        if Unlanded(p, f) {
          if !p.rows[f].importStarted {
            StampOne(old(files), starting, f);
            files := files[f := files[f].(importStarted := true)];
            starting := starting + {f};
          }
          stillImporting := true;
        }
      }
      assert order[..|order|] == order;
      assert Starting(p) <= Elements(order);
    }

    /** _submit_pending_scans of a confidential draft. */
    method SkipPendingScans(p: Poll, order: seq<Id>)
      requires Elements(order) == p.rows.Keys <= files.Keys && c.scanEnabled && p.body.confidential
      modifies this`files
      ensures files == Skipped_(old(files), Skipping(c, p))
    {
      ghost var skipped: set<Id> := {};
      for i := 0 to |order|
        invariant skipped == Skipping(c, p) * Elements(order[..i])
        invariant files == Skipped_(old(files), skipped)
      {
        OneMore(order, i);
        var f := order[i];
        assert f in Elements(order);
        if p.rows[f].scan == Pending {
          SkipOne(old(files), skipped, f);
          files := files[f := files[f].(scan := Skipped)];
          skipped := skipped + {f};
        }
      }
      assert order[..|order|] == order;
      assert Skipping(c, p) <= Elements(order);
    }

    /** _submit_pending_scans of any other draft: returns what to enqueue once the transaction commits. */
    method SubmitPendingScans(p: Poll, order: seq<Id>) returns (enqueue: set<Id>)
      requires Elements(order) == p.rows.Keys <= files.Keys && c.scanEnabled && !p.body.confidential
      modifies this`files
      ensures enqueue == Submitting(c, p)
      ensures files == Submitted(old(files), enqueue)
    {
      enqueue := {};
      for i := 0 to |order|
        invariant enqueue == Submitting(c, p) * Elements(order[..i])
        invariant files == Submitted(old(files), enqueue)
      {
        OneMore(order, i);
        var f := order[i];
        assert f in Elements(order);
        var r := p.rows[f];
        if r.scan == Pending && r.completed && !r.submitted {
          SubmitOne(old(files), enqueue, f);
          files := files[f := files[f].(submitted := true)];
          enqueue := enqueue + {f};
        }
      }
      assert order[..|order|] == order;
      assert Submitting(c, p) <= Elements(order);
    }

    /** _reject_bad_finalize_shape, _reject_key_change and the failed-import check, in their order. */
    method RefusedEarly(d: Id, p: Poll, order: seq<Id>) returns (refused: bool)
      requires Elements(order) == p.rows.Keys && d in drafts
      ensures refused <==>
                || ShapeRefused(p) || KeyRefused(p, drafts[d].key)
                || exists f <- p.rows :: p.rows[f].drive && p.rows[f].importFailed
    {
      var anyDrive, anyOpen, anyFailed := false, false, false;
      for i := 0 to |order|
        invariant anyDrive <==> exists f <- Elements(order[..i]) :: f in p.rows && p.rows[f].drive
        invariant anyOpen <==>
            exists f <- Elements(order[..i]) :: f in p.rows && !p.rows[f].drive && !p.rows[f].completed
        invariant anyFailed <==>
            exists f <- Elements(order[..i]) :: f in p.rows && p.rows[f].drive && p.rows[f].importFailed
      {
        OneMore(order, i);
        var r := p.rows[order[i]];
        anyDrive := anyDrive || r.drive;
        anyOpen := anyOpen || (!r.drive && !r.completed);
        anyFailed := anyFailed || (r.drive && r.importFailed);
      }
      assert order[..|order|] == order;
      assert order == [] <==> p.rows == map[] by {
        if order != [] { assert order[0] in p.rows; } else { assert p.rows.Keys == {}; }
      }
      var parked := drafts[d].key;
      refused := order == [] || (p.body.confidential && anyDrive) || anyOpen
                 || (parked != "" && (p.body.confidential || p.body.key != parked)) || anyFailed;
    }

    /** _submit_pending_scans. */
    method SubmitScans(p: Poll, order: seq<Id>) returns (enqueue: set<Id>)
      requires Elements(order) == p.rows.Keys <= files.Keys
      modifies this`files
      ensures enqueue == Submitting(c, p)
      ensures files == Submitted(Skipped_(old(files), Skipping(c, p)), enqueue)
    {
      enqueue := {};
      NothingSkipped(files);
      if c.scanEnabled && p.body.confidential {
        SkipPendingScans(p, order);
      } else if c.scanEnabled {
        enqueue := SubmitPendingScans(p, order);
      }
      NothingSubmitted(files);
    }

    /** _scan_gate: any INFECTED or ERROR fails the request, any PENDING keeps the client polling. */
    method ScanGate(p: Poll, order: seq<Id>) returns (answer: Answer)
      requires Elements(order) == p.rows.Keys
      ensures answer == GateAnswer(c, p)
    {
      if !c.scanEnabled {
        return Created;
      }
      var blocked, scanning := false, false;
      for i := 0 to |order|
        invariant blocked <==> exists f <- Elements(order[..i]) :: f in p.rows && Blocks(p, f)
        invariant scanning <==> exists f <- Elements(order[..i]) :: f in p.rows && StillScans(c, p, f)
      {
        OneMore(order, i);
        var f := order[i];
        assert f in Elements(order);
        if Blocks(p, f) {
          blocked := true;
        } else if StillScans(c, p, f) {
          scanning := true;
        }
      }
      assert order[..|order|] == order;
      answer := if blocked then BadRequest else if scanning then StillScanning else Created;
    }

    method ParkKey(d: Id, body: Body)
      requires d in drafts
      modifies this`drafts, this`firstKey
      ensures Snapshot() == Parked(old(Snapshot()), d, body)
    {
      if !body.confidential && drafts[d].key == "" {
        drafts := drafts[d := DraftRow(body.key, drafts[d].createdAt)];
        firstKey := firstKey[d := body.key];
      }
    }

    /** _create_transfer_from_draft. */
    method PublishDraft(d: Id, t: Id, body: Body)
      requires d in drafts
      modifies this`used, this`transfers, this`files, this`drafts
      ensures Snapshot() == CreateTransfer(old(Snapshot()), d, t, body)
    {
      used := used + {t};
      transfers := transfers[t := TransferRow(d, drafts[d].key, body.confidential, now + body.lifetime, Active,
                                              None, None)];
      files := Reparented(files, FilesIn(files, InDraft(d)), t);
      drafts := drafts - {d};
    }

    /** _process_drive_imports past its failed-import check, with the enqueue callback it leaves for the commit. */
    method StartImports(p: Poll, order: seq<Id>, b: Id) returns (stillImporting: bool)
      requires Elements(order) == p.rows.Keys <= files.Keys
      modifies this`used, this`files, this`batches
      ensures stillImporting <==> exists f <- p.rows :: Unlanded(p, f)
      ensures Snapshot() == if stillImporting then ImportsBatched(old(Snapshot()), Starting(p), b) else old(Snapshot())
    {
      var starting;
      NothingStamped(files);
      starting, stillImporting := StampImports(p, order);
      assert !stillImporting ==> starting == {};
      if starting != {} {
        used := used + {b};
        batches := batches[b := Batch(starting, {})];
      }
    }

    /** The scan phase: on a refusal its writes are rolled back, otherwise its enqueues go out with the commit. */
    method ScanPhase(p: Poll, order: seq<Id>) returns (answer: Answer)
      requires Elements(order) == p.rows.Keys <= files.Keys
      modifies this`files, this`scanQueue
      ensures answer == GateAnswer(c, p)
      ensures Snapshot() == if answer == BadRequest then old(Snapshot())
          else ScansSubmitted(old(Snapshot()), Submitting(c, p), Skipping(c, p))
    {
      var saved := files;
      var enqueue := SubmitScans(p, order);
      answer := ScanGate(p, order);
      if answer == BadRequest {
        files := saved;
      } else {
        scanQueue := scanQueue + multiset(enqueue);
      }
    }

    /** A finalize request past its first refusals: parks the key, then imports, scans or publishes. */
    method Decide(d: Id, p: Poll, order: seq<Id>, b: Id, t: Id) returns (answer: Answer)
      requires d in drafts && Elements(order) == p.rows.Keys <= files.Keys
      modifies this
      ensures polls == old(polls)
      ensures answer == if exists f <- p.rows :: Unlanded(p, f) then StillImporting else GateAnswer(c, p)
      ensures Snapshot() == if answer == BadRequest then old(Snapshot())
          else Written(c, Parked(old(Snapshot()), d, p.body), d, p, b, t, answer)
    {
      var savedDrafts := drafts;
      ghost var savedKeys := firstKey;
      ParkKey(d, p.body);
      var stillImporting := StartImports(p, order, b);
      if stillImporting {
        return StillImporting;
      }
      answer := ScanPhase(p, order);
      if answer == BadRequest {
        drafts, firstKey := savedDrafts, savedKeys;
      } else if answer == Created {
        PublishDraft(d, t, p.body);
      }
    }

    /**
     The transaction of a finalize request, from the rows it read to its answer. A refusal
     restores what was written before it.
     */
    method Finalize(d: Id, order: seq<Id>, b: Id, t: Id) returns (answer: Answer)
      requires d in polls && d in drafts && Elements(order) == polls[d].rows.Keys <= files.Keys
      modifies this
      ensures Snapshot() == FinalizeWrite(c, old(Snapshot()), d, b, t)
      ensures answer == FinalizeAnswer(c, old(polls[d]), old(drafts[d].key))
    {
      var p := polls[d];
      polls := polls - {d};
      var refused := RefusedEarly(d, p, order);
      if refused {
        answer := BadRequest;
      } else {
        answer := Decide(d, p, order, b, t);
      }
    }

    // --- Uploads and verdicts ---

    /** complete-upload; outcome is what S3 answers, order the draft's files. */
    method CompleteUploadOf(d: Id, f: Id, order: seq<Id>, outcome: Completion)
      requires CanCompleteUpload(Snapshot(), d, f) && Elements(order) == FilesIn(files, InDraft(d))
      modifies this`bucket, this`files, this`drafts
      ensures Snapshot() == CompleteUpload(c, old(Snapshot()), d, f, outcome)
    {
      match outcome
      case Landed =>
        bucket := bucket[f := now];
        files := files[f := files[f].(completed := true, uploadOpen := false, scan := LandedScan(c, files[f]))];
      case HeadFails =>
        bucket := bucket[f := now];
      case S3Rejects =>
        CascadeDraft(d);
      case SizeMismatch(kept) =>
        bucket := bucket[f := now];
        var _ := BestEffortDelete(order, kept);
        CascadeDraft(d);
    }

    /** draft.delete(), with the cascade to its files. */
    method CascadeDraft(d: Id)
      modifies this`files, this`drafts
      ensures Snapshot() == DropDraft(old(Snapshot()), d)
    {
      drafts := drafts - {d};
      files := map f | f in files && files[f].parent != InDraft(d) :: files[f];
    }

    /** remove-file; the draft goes with its last file. */
    method RemoveFileOf(d: Id, f: Id, objectKept: bool)
      requires CanRemoveFile(Snapshot(), d, f)
      modifies this`bucket, this`files, this`drafts
      ensures Snapshot() == RemoveFile(old(Snapshot()), d, f, objectKept)
    {
      if !objectKept {
        bucket := bucket - {f};
      }
      var lastOne := forall g <- files :: files[g].parent == InDraft(d) ==> g == f;
      files := files - {f};
      if lastOne {
        drafts := drafts - {d};
      }
    }

    /** The guarded UPDATE of the scan webhook. */
    method ScanResult(job: Use, s: ScanStatus, k: ErrorKind) returns (updated: bool)
      modifies this`files
      ensures Snapshot() == Webhook(old(Snapshot()), job, s, k)
      ensures updated <==> job.file in old(files) && old(files)[job.file].scan == Pending
    {
      updated := job.file in files && files[job.file].scan == Pending;
      if updated {
        files := files[job.file := files[job.file].(scan := s, kind := k)];
      }
    }

    /** Transfer.deactivate. */
    method DeactivateTransfer(t: Id, reason: Reason) returns (applied: bool)
      requires t in transfers
      modifies this`transfers
      ensures Snapshot() == Deactivate(c, old(Snapshot()), t, reason)
      ensures applied <==> old(transfers)[t].status == Active
    {
      applied := transfers[t].status == Active;
      if applied {
        transfers := transfers[t := transfers[t].(status := PendingFileDeletion, reason := Some(reason),
                                                  purgeAt := Some(now + c.purgeDelay))];
      }
    }

    // --- Cleanup and hard delete ---

    /** abort, and cleanup_abandoned_drafts_task for one draft. */
    method Discard(d: Id, order: seq<Id>, failing: set<Id>)
      requires Elements(order) == FilesIn(files, InDraft(d))
      modifies this`bucket, this`drafts, this`files
      ensures Snapshot() == DiscardDraft(old(Snapshot()), d, failing)
    {
      var _ := BestEffortDelete(order, failing);
      CascadeDraft(d);
    }

    /** perform_destroy. */
    method PerformDestroy(t: Id, order: seq<Id>, failing: set<Id>) returns (deleted: bool)
      requires t in transfers && Elements(order) == FilesIn(files, InTransfer(t))
      modifies this`bucket, this`transfers, this`files, this`destroyAsked
      ensures Snapshot() == Destroy(old(Snapshot()), t, failing)
      ensures deleted <==> t !in transfers
    {
      if transfers[t].status == Active {
        return false;
      }
      if transfers[t].status == PendingFileDeletion {
        destroyAsked := destroyAsked + {t};
        var allDeleted := BestEffortDelete(order, failing);
        if !allDeleted {
          return false;
        }
      }
      transfers := transfers - {t};
      files := map f | f in files && files[f].parent != InTransfer(t) :: files[f];
      deleted := true;
    }

    /** The rows of a query, in no particular order. */
    method Listed(rows: set<Id>) returns (order: seq<Id>)
      ensures Elements(order) == rows && Distinct(order)
    {
      order := [];
      var left := rows;
      while left != {}
        invariant left <= rows && Elements(order) == rows - left && Distinct(order)
        decreases |left|
      {
        var f :| f in left;
        Appended(order, f);
        order := order + [f];
        left := left - {f};
      }
    }

    // --- Tasks ---

    /** delete_pending_transfer_files_task. */
    method PurgeTask(failing: set<Id>)
      modifies this`bucket, this`transfers
      ensures Snapshot() == Purged(old(Snapshot()), DueNow(old(Snapshot())), failing)
    {
      var due := Listed(set t | t in transfers && transfers[t].status == PendingFileDeletion
                                && transfers[t].purgeAt.Some? && transfers[t].purgeAt.value <= now);
      assert Elements(due) == DueNow(Snapshot());
      PurgeListed(due, failing);
    }

    /** Its loop, over rows that may have changed since the query. */
    method PurgeListed(due: seq<Id>, failing: set<Id>)
      modifies this`bucket, this`transfers
      ensures Snapshot() == Purged(old(Snapshot()), Elements(due), failing)
    {
      ghost var w := Snapshot();
      NothingYet(c, w, failing);
      for i := 0 to |due|
        invariant Snapshot() == Purged(w, Elements(due[..i]), failing)
      {
        OneMore(due, i);
        PurgeOneMore(w, Elements(due[..i]), due[i], failing);
        PurgeTransfer(due[i], failing);
      }
      assert due[..|due|] == due;
    }

    method PurgeTransfer(t: Id, failing: set<Id>)
      modifies this`bucket, this`transfers
      ensures Snapshot() == PurgedOne(old(Snapshot()), t, failing)
    {
      if t in transfers {
        var order := Listed(FilesIn(files, InTransfer(t)));
        var allDeleted := BestEffortDelete(order, failing);
        if allDeleted {
          transfers := transfers[t := transfers[t].(status := Deactivated, purgeAt := None)];
        } else {
          assert transfers[t := transfers[t]] == transfers;
        }
      }
    }

    /** cleanup_abandoned_drafts_task; it waits for a draft's lock, so a locked one is not its to take yet. */
    method CleanupTask(failing: set<Id>)
      modifies this`bucket, this`drafts, this`files
      ensures Snapshot() == Cleaned(old(Snapshot()), AbandonedNow(old(Snapshot())), failing)
    {
      var ids := Listed(set d | d in drafts && drafts[d].createdAt + DAY <= now);
      assert Discarded(Snapshot(), Elements(ids)) == AbandonedNow(Snapshot());
      CleanupListed(ids, failing);
    }

    /** Its loop, over ids of drafts that may be gone by now. */
    method CleanupListed(ids: seq<Id>, failing: set<Id>)
      modifies this`bucket, this`drafts, this`files
      ensures Snapshot() == Cleaned(old(Snapshot()), Discarded(old(Snapshot()), Elements(ids)), failing)
    {
      ghost var w := Snapshot();
      NothingYet(c, w, failing);
      for i := 0 to |ids|
        invariant Snapshot() == Cleaned(w, Discarded(w, Elements(ids[..i])), failing)
      {
        OneMore(ids, i);
        DiscardedOneMore(w, Elements(ids[..i]), ids[i]);
        CleanedOneMore(w, Discarded(w, Elements(ids[..i])), ids[i], failing);
        CleanDraft(ids[i], failing);
      }
      assert ids[..|ids|] == ids;
    }

    method CleanDraft(d: Id, failing: set<Id>)
      modifies this`bucket, this`drafts, this`files
      ensures Snapshot() == CleanedOne(old(Snapshot()), d, failing)
    {
      if d in drafts && d !in polls && drafts[d].createdAt + DAY <= now {
        var order := Listed(FilesIn(files, InDraft(d)));
        Discard(d, order, failing);
      }
    }

    /** deactivate_expired_transfers_task: one event for each transfer it closed. */
    method ExpireTask() returns (logged: seq<Id>)
      modifies this`transfers
      ensures Snapshot() == Lapsed(c, old(Snapshot()), ExpiredNow(old(Snapshot())))
      ensures Distinct(logged) && Elements(logged) == ExpiredNow(old(Snapshot()))
    {
      var ids := Listed(set t | t in transfers && transfers[t].status == Active && transfers[t].expiresAt <= now);
      assert Elements(ids) == ExpiredNow(Snapshot()) == StillActive(Snapshot(), Elements(ids));
      logged := ExpireListed(ids);
    }

    /** Its loop, over transfers that another feed may have closed since the query; those it does not log. */
    method ExpireListed(ids: seq<Id>) returns (logged: seq<Id>)
      modifies this`transfers
      ensures Snapshot() == Lapsed(c, old(Snapshot()), Elements(ids))
      ensures Distinct(logged) && Elements(logged) == StillActive(old(Snapshot()), Elements(ids))
    {
      ghost var w := Snapshot();
      NothingYet(c, w, {});
      logged := [];
      for i := 0 to |ids|
        invariant Snapshot() == Lapsed(c, w, Elements(ids[..i]))
        invariant Distinct(logged) && Elements(logged) == StillActive(w, Elements(ids[..i]))
      {
        OneMore(ids, i);
        LapseOneMore(c, w, Elements(ids[..i]), ids[i]);
        ActiveOneMore(c, w, Elements(ids[..i]), ids[i]);
        Appended(logged, ids[i]);
        var applied := ExpireTransfer(ids[i]);
        if applied {
          logged := logged + [ids[i]];
        }
      }
      assert ids[..|ids|] == ids;
    }

    method ExpireTransfer(t: Id) returns (applied: bool)
      modifies this`transfers
      ensures Snapshot() == LapsedOne(c, old(Snapshot()), t)
      ensures applied <==> IsActive(old(Snapshot()), t)
    {
      applied := false;
      if t in transfers {
        applied := DeactivateTransfer(t, Expired);
      }
    }

    // --- Downloads ---

    /** A resume let through although the link is closed. */
    predicate InGrace(t: Id, resuming: bool)
      requires t in transfers
      reads this
    {
      && resuming && transfers[t].status == PendingFileDeletion && transfers[t].reason == Some(FirstDownload)
      && transfers[t].purgeAt.Some? && now < transfers[t].purgeAt.value
    }

    /** The link lets this request look for its file. */
    predicate Serves(t: Id, resuming: bool)
      reads this
    {
      t in transfers
      && (InGrace(t, resuming) || (transfers[t].status == Active && now < transfers[t].expiresAt))
    }

    /** The file is one of the link's, and all there. */
    predicate HasFile(t: Id, f: Id)
      reads this
    {
      f in files && files[f].parent == InTransfer(t) && files[f].completed
    }

    /** DownloadFileView.get up to the presigned URL. */
    method GetFile(t: Id, f: Id, resuming: bool) returns (access: Access)
      ensures access == Granted <==> Admits(Snapshot(), t, f, resuming)
      ensures access == Granted <==>
                Serves(t, resuming) && HasFile(t, f) && files[f].scan in {Clean, Skipped, TooLarge, Unscannable}
      ensures access == Gone <==>
                && t in transfers && !InGrace(t, resuming)
                && ((transfers[t].status == Active && transfers[t].expiresAt <= now)
                    || (transfers[t].status != Active && transfers[t].reason == Some(Expired)))
      ensures access == Closed <==>
                && t in transfers && !InGrace(t, resuming)
                && transfers[t].status != Active && transfers[t].reason != Some(Expired)
      ensures access == NotFound <==> t !in transfers || (Serves(t, resuming) && !HasFile(t, f))
      ensures access == StillScanning202 <==> Serves(t, resuming) && HasFile(t, f) && files[f].scan == Pending
      ensures access == Blocked <==>
                Serves(t, resuming) && HasFile(t, f) && (files[f].scan == Infected || files[f].scan == ScanError)
    {
      if t !in transfers {
        return NotFound;
      }
      var r := transfers[t];
      var grace := resuming && r.status == PendingFileDeletion && r.reason == Some(FirstDownload)
          && r.purgeAt.Some? && r.purgeAt.value > now;
      if !grace {
        if r.status == Active {
          if r.expiresAt <= now {
            return Gone;
          }
        } else {
          return if r.reason == Some(Expired) then Gone else Closed;
        }
      }
      if f !in files || files[f].parent != InTransfer(t) || !files[f].completed {
        return NotFound;
      }
      if files[f].scan == Pending {
        return StillScanning202;
      }
      access := if Exempt(files[f].scan) then Granted else Blocked;
    }
  }
}
