/** What is left behind in the bucket, by which step, and what takes it away; and how long drafts are kept. */
module StorageOutcomes {
  import opened Bytes
  import opened World
  import opened Steps
  import opened Invariant
  import opened Evolution
  import opened Guarantees
  import opened RowFacts
  import Outcomes

  // --- Objects without a row ---

  predicate Orphaned(w: World, f: Id) {
    f in w.bucket && f !in w.files
  }

  /** The steps that leave an object behind. */
  predicate Leaks(w: World, x: Step, f: Id) {
    match x
    case OnDraft(Completes(d, g, S3Rejects)) => f in FilesOf(w, InDraft(d)) && f in w.bucket
    case OnDraft(Completes(d, g, SizeMismatch(kept))) =>
      f in FilesOf(w, InDraft(d)) && f in kept && (f == g || f in w.bucket)
    case OnDraft(Removes(_, g, objectKept)) => f == g && objectKept && f in w.bucket
    case OnDraft(Discards(d, kept, _)) => f in FilesOf(w, InDraft(d)) && f in kept && f in w.bucket
    case OnImport(Lands(g)) => f == g && f !in w.files
    case _ => false
  }

  /** The steps that take one away again. */
  predicate Reclaims(x: Step, f: Id) {
    match x
    case OnImport(Fails(g, objectKept)) => f == g && !objectKept
    case OnSweep(Deletes(_, g)) => f == g
    case _ => false
  }

  lemma DroppedDraft(w: World, d: Id, f: Id)
    ensures var v := DropDraft(w, d);
            v.bucket == w.bucket && (f in v.files <==> f in w.files && w.files[f].parent != InDraft(d))
  {}

  lemma DeletedObjects(w: World, files: set<Id>, kept: set<Id>, f: Id)
    ensures var v := DeleteObjects(w, files, kept);
            && v.files == w.files && v.drafts == w.drafts
            && (f in v.bucket <==> f in w.bucket && (f !in files || f in kept))
  {}

  lemma DiscardedObject(w: World, d: Id, kept: set<Id>, f: Id)
    ensures var v, mine := DiscardDraft(w, d, kept), FilesOf(w, InDraft(d));
            && (f in v.files <==> f in w.files && f !in mine)
            && (f in v.bucket <==> f in w.bucket && (f !in mine || f in kept))
  {
    var mine := FilesOf(w, InDraft(d));
    DeletedObjects(w, mine, kept, f);
    DroppedDraft(DeleteObjects(w, mine, kept), d, f);
  }

  lemma MismatchedObject(c: Settings, w: World, d: Id, g: Id, kept: set<Id>, f: Id)
    requires CanCompleteUpload(w, d, g)
    ensures var v, mine := CompleteUpload(c, w, d, g, SizeMismatch(kept)), FilesOf(w, InDraft(d));
            && (f in v.files <==> f in w.files && f !in mine)
            && (f in v.bucket <==> (f == g || f in w.bucket) && (f !in mine || f in kept))
  {
    var mine, landed := FilesOf(w, InDraft(d)), w.(bucket := w.bucket[g := w.now]);
    DeletedObjects(landed, mine, kept, f);
    DroppedDraft(DeleteObjects(landed, mine, kept), d, f);
    assert CompleteUpload(c, w, d, g, SizeMismatch(kept)) == DropDraft(DeleteObjects(landed, mine, kept), d);
  }

  lemma CompletedObject(c: Settings, w: World, d: Id, g: Id, outcome: Completion, f: Id)
    requires CanCompleteUpload(w, d, g) && (outcome == Landed || outcome == HeadFails)
    ensures var v := CompleteUpload(c, w, d, g, outcome);
            v.files.Keys == w.files.Keys && (f in v.bucket <==> f == g || f in w.bucket)
  {}

  lemma RemovedObject(w: World, d: Id, g: Id, objectKept: bool, f: Id)
    requires CanRemoveFile(w, d, g)
    ensures var v := RemoveFile(w, d, g, objectKept);
            && (f in v.files <==> f in w.files && f != g)
            && (f in v.bucket <==> f in w.bucket && (f != g || objectKept))
  {}

  lemma DraftObject(c: Settings, w: World, x: DraftStep, f: Id)
    requires Inv(c, w) && DraftEnabled(w, x)
    ensures !Orphaned(w, f) ==> (Orphaned(ApplyDraft(c, w, x), f) <==> Leaks(w, OnDraft(x), f))
    ensures Orphaned(w, f) ==> Orphaned(ApplyDraft(c, w, x), f)
  {
    match x
    case Adds(d, g, drive, overScanCap) => AddedObject(c, w, d, g, drive, overScanCap, f);
    case Completes(d, g, outcome) =>
      match outcome {
        case SizeMismatch(kept) => MismatchedObject(c, w, d, g, kept, f);
        case S3Rejects => DroppedDraft(w, d, f);
        case _ => CompletedObject(c, w, d, g, outcome, f);
      }
    case Removes(d, g, objectKept) => RemovedObject(w, d, g, objectKept, f);
    case Discards(d, kept, _) => DiscardedObject(w, d, kept, f);
    case Rescans(d, rearmed) => assert Rescan(w, d, rearmed).bucket == w.bucket; RescannedRow(w, d, rearmed, f);
  }

  lemma AddedObject(c: Settings, w: World, d: Id, g: Id, drive: bool, overScanCap: bool, f: Id)
    requires Inv(c, w) && CanAddFile(w, d, g)
    ensures var v := AddFile(w, d, g, drive, overScanCap); Orphaned(v, f) <==> Orphaned(w, f)
  {
    assert g !in w.bucket;
  }

  lemma FinalizeObject(c: Settings, w: World, x: FinalizeStep, f: Id)
    requires Inv(c, w) && FinalizeEnabled(w, x)
    ensures Orphaned(ApplyFinalize(c, w, x), f) <==> Orphaned(w, f)
  {
    if x.Answers? {
      FinalizeRow(c, w, x.d, x.b, x.t, f);
    } else {
      UnansweredRow(w, x, f);
    }
  }

  lemma ImportObject(c: Settings, w: World, x: ImportStep, f: Id)
    requires ImportEnabled(w, x)
    ensures var v := ApplyImport(c, w, x);
            && v.files.Keys == w.files.Keys
            && (f in v.bucket <==> (f in w.bucket && !Reclaims(OnImport(x), f)) || x == Lands(f))
  {
    ImportRow(c, w, x, f);
    match x
    case Imports(g) => StartedObject(w, g);
    case Lands(g) =>
    case Saves(g) =>
    case Fails(g, kept) =>
    case Crashes(g) =>
  }

  lemma StartedObject(w: World, g: Id)
    requires g in w.importQueue && g !in w.importing
    ensures ImportStart(w, g).bucket == w.bucket
  {
    assert ImportLost(w, g).bucket == w.bucket;
  }

  lemma LinkObject(c: Settings, w: World, x: LinkStep, f: Id)
    requires Inv(c, w) && LinkEnabled(w, x)
    ensures Orphaned(ApplyLink(c, w, x), f) <==> Orphaned(w, f)
  {
    match x
    case Deactivates(t, reason) => assert Deactivate(c, w, t, reason).files == w.files;
    case ReadsPurge =>
    case Wipes(t, kept) => WipedObject(w, t, kept, f);
    case Flips(t) => FlippedObject(w, t);
    case Destroys(t, kept) => DestroyedObject(c, w, t, kept, f);
  }

  lemma WipedObject(w: World, t: Id, kept: set<Id>, f: Id)
    requires t in w.purging
    ensures var v := PurgeWipe(w, t, kept);
            v.files == w.files && (f in v.bucket <==> f in w.bucket && (f !in FilesOf(w, InTransfer(t)) || f in kept))
  {
    var v := DeleteObjects(w, FilesOf(w, InTransfer(t)), kept);
    DeletedObjects(w, FilesOf(w, InTransfer(t)), kept, f);
    MarkedRow(v, w.purging, w.wiped + {t});
    MarkedRow(v, w.purging - {t}, w.wiped - {t});
  }

  lemma FlippedObject(w: World, t: Id)
    requires t in w.wiped
    ensures PurgeFlip(w, t).bucket == w.bucket && PurgeFlip(w, t).files == w.files
  {
    FlippedRow(w, t);
  }

  lemma DestroyedObject(c: Settings, w: World, t: Id, kept: set<Id>, f: Id)
    requires Inv(c, w) && t in w.transfers
    ensures Orphaned(Destroy(w, t, kept), f) <==> Orphaned(w, f)
  {
    assert FileOk(c, w, f) && LinkOk(w, t);
    var mine, asked := FilesOf(w, InTransfer(t)), DestroyAsked(w, t);
    var deleted := DeleteObjects(asked, mine, kept);
    DeletedObjects(asked, mine, kept, f);
    assert asked.files == w.files && asked.bucket == w.bucket;
    DroppedRow(deleted, t, f);
    DroppedRow(w, t, f);
    match w.transfers[t].status
    case Active =>
    case PendingFileDeletion => assert DropTransfer(deleted, t).bucket == deleted.bucket;
    case Deactivated => assert DropTransfer(w, t).bucket == w.bucket;
  }

  lemma SweepObject(w: World, x: SweepStep, f: Id)
    requires SweepEnabled(w, x)
    ensures var v := ApplySweep(w, x);
            v.files == w.files && (f in v.bucket <==> f in w.bucket && !Reclaims(OnSweep(x), f))
  {}

  /**
   An object is left without a row exactly by: a deletion S3 refused, an import that lands after its row went, or a
   complete-upload that S3 rejects, which drops the draft and deletes none of the objects its other files had. It is
   taken away exactly by the failure path of its import and by the orphan sweep.
   */
  lemma LeaksExactly(c: Settings, w: World, x: Step, f: Id)
    requires Inv(c, w) && Enabled(w, x)
    ensures !Orphaned(w, f) ==> (Orphaned(Apply(c, w, x), f) <==> Leaks(w, x, f))
    ensures Orphaned(w, f) ==> (!Orphaned(Apply(c, w, x), f) <==> Reclaims(x, f))
  {
    match x
    case OnDraft(y) => DraftObject(c, w, y, f);
    case OnFinalize(y) => FinalizeObject(c, w, y, f);
    case OnImport(y) => ImportObject(c, w, y, f);
    case OnScan(y) => ScanRow(w, y, f);
    case OnLink(y) => LinkObject(c, w, y, f);
    case OnSweep(y) => SweepObject(w, y, f);
    case Ticks(seconds) => assert Orphaned(Later(w, seconds), f) <==> Orphaned(w, f);
  }

  // --- The sweep ---

  /**
   A sweep's listing takes an object, at any moment v of it, exactly if no row had its key when the sweep began and it
   was at least the age limit old by then.
   */
  lemma SweepTakesExactly(w: World, v: World, s: Id, minAgeHours: nat, f: Id)
    requires s in v.sweeps && v.sweeps[s] == SweepStart(w, s, minAgeHours).sweeps[s]
    ensures SweepEnabled(v, Lists(s, f)) <==>
              f in v.bucket && f !in w.files && (minAgeHours == 0 || v.bucket[f] + minAgeHours * 3600 <= w.now)
  {}

  // --- The files of a transfer ---

  predicate SameShare(w: World, v: World, t: Id, f: Id) {
    t in w.transfers && t in v.transfers ==> (f in FilesOf(v, InTransfer(t)) <==> f in FilesOf(w, InTransfer(t)))
  }

  lemma ShareOnDraft(c: Settings, w: World, x: DraftStep, t: Id, f: Id)
    requires Inv(c, w) && DraftEnabled(w, x)
    ensures SameShare(w, ApplyDraft(c, w, x), t, f)
  {
    assert FileOk(c, w, f);
    match x
    case Adds(d, g, drive, overScanCap) =>
      AddedRow(w, d, g, drive, overScanCap, f);
      if f in w.files { AddedShare(c, w, x, f); }
    case Completes(d, g, outcome) =>
      CompletedRow(c, w, d, g, outcome, f);
      if f in w.files && w.files[f].parent != InDraft(d) { CompletedShare(c, w, d, g, outcome, f); }
    case Removes(d, g, kept) => RemovedObject(w, d, g, kept, f); RemovedRow(w, d, g, kept, f);
    case Discards(d, kept, _) => DiscardedObject(w, d, kept, f); DiscardedRow(w, d, kept, f);
    case Rescans(d, rearmed) => RescannedRow(w, d, rearmed, f);
  }

  lemma AddedShare(c: Settings, w: World, x: DraftStep, f: Id)
    requires Inv(c, w) && x.Adds? && DraftEnabled(w, x) && f in w.files
    ensures f in ApplyDraft(c, w, x).files && ApplyDraft(c, w, x).files[f] == w.files[f]
  {
    assert FileOk(c, w, f);
  }

  lemma CompletedShare(c: Settings, w: World, d: Id, g: Id, outcome: Completion, f: Id)
    requires CanCompleteUpload(w, d, g) && f in w.files && w.files[f].parent != InDraft(d)
    ensures f in CompleteUpload(c, w, d, g, outcome).files
  {
    match outcome
    case SizeMismatch(kept) => MismatchedObject(c, w, d, g, kept, f);
    case S3Rejects => DroppedDraft(w, d, f);
    case _ => CompletedObject(c, w, d, g, outcome, f);
  }

  lemma ShareOnAnswer(c: Settings, w: World, d: Id, b: Id, u: Id, t: Id, f: Id)
    requires Inv(c, w) && FinalizeEnabled(w, Answers(d, b, u)) && t in w.transfers
    ensures f in FilesOf(FinalizeWrite(c, w, d, b, u), InTransfer(t)) <==> f in FilesOf(w, InTransfer(t))
  {
    FinalizeRow(c, w, d, b, u, f);
    AllKnown(c, w);
    if f in w.files { AnsweredParent(c, w.polls[d], u, FinalizeAnswer(c, w.polls[d], w.drafts[d].key), f, w.files[f]); }
  }

  lemma AnsweredParent(c: Settings, p: Poll, t: Id, answer: Answer, f: Id, r: FileRow)
    ensures AnsweredRow(c, p, t, answer, f, r).parent == if answer == Created then InTransfer(t) else r.parent
  {}

  lemma ShareOnLink(c: Settings, w: World, x: LinkStep, t: Id, f: Id)
    requires Inv(c, w) && LinkEnabled(w, x)
    ensures SameShare(w, ApplyLink(c, w, x), t, f)
  {
    LinkRow(c, w, x, f);
    match x
    case Deactivates(s, reason) => assert Deactivate(c, w, s, reason).files == w.files;
    case ReadsPurge =>
    case Wipes(s, kept) => WipedRow(w, s, kept);
    case Flips(s) => FlippedRow(w, s);
    case Destroys(s, kept) => DestroyedShare(w, s, kept, t, f);
  }

  lemma DestroyedShare(w: World, s: Id, kept: set<Id>, t: Id, f: Id)
    requires s in w.transfers
    ensures SameShare(w, Destroy(w, s, kept), t, f)
  {
    var mine, asked := FilesOf(w, InTransfer(s)), DestroyAsked(w, s);
    var deleted := DeleteObjects(asked, mine, kept);
    DeletedObjects(asked, mine, kept, f);
    DroppedRow(deleted, s, f);
    DroppedRow(w, s, f);
    assert asked.files == w.files;
    assert s !in DropTransfer(deleted, s).transfers && s !in DropTransfer(w, s).transfers;
    match w.transfers[s].status
    case Active =>
    case PendingFileDeletion =>
    case Deactivated =>
  }

  lemma ShareKept(c: Settings, w: World, x: Step, t: Id, f: Id)
    requires Inv(c, w) && Enabled(w, x)
    ensures SameShare(w, Apply(c, w, x), t, f)
  {
    match x
    case OnDraft(y) => ShareOnDraft(c, w, y, t, f);
    case OnFinalize(y) =>
      if y.Answers? {
        if t in w.transfers { ShareOnAnswer(c, w, y.d, y.b, y.t, t, f); }
      } else {
        UnansweredRow(w, y, f);
      }
    case OnImport(y) => ImportRow(c, w, y, f);
    case OnScan(y) => ScanRow(w, y, f);
    case OnLink(y) => ShareOnLink(c, w, y, t, f);
    case OnSweep(y) => SweepRow(w, y, f);
    case Ticks(_) =>
  }

  lemma {:induction false} ShareRun(c: Settings, w: World, run: seq<Step>, t: Id, f: Id)
    requires Inv(c, w) && Possible(c, w, run) && OrderlyRun(c, w, run)
    ensures SameShare(w, After(c, w, run), t, f)
    decreases run
  {
    if run != [] {
      var v := Apply(c, w, run[0]);
      StepKeeps(c, w, run[0]);
      RunKeeps(c, v, run[1..]);
      AllKnown(c, w);
      ShareKept(c, w, run[0], t, f);
      ShareRun(c, v, run[1..], t, f);
      assert LinkEvolves(w, v, t) && LinkEvolves(v, After(c, v, run[1..]), t);
    }
  }

  /** What a finalize published is what the transfer has, file for file, as long as the transfer is there. */
  lemma TransferKeepsItsFiles(c: Settings, w: World, d: Id, b: Id, t: Id, u: World)
    requires Reachable(c, w) && FinalizeEnabled(w, Answers(d, b, t))
    requires t in FinalizeWrite(c, w, d, b, t).transfers && Leads(c, FinalizeWrite(c, w, d, b, t), u)
    requires t in u.transfers
    ensures FilesOf(u, InTransfer(t)) == w.polls[d].rows.Keys
  {
    var v := FinalizeWrite(c, w, d, b, t);
    ReachableInv(c, w);
    Outcomes.WhatIsPublished(c, w, d, b, t);
    ReachedNext(c, w, OnFinalize(Answers(d, b, t)), true);
    ReachableInv(c, v);
    var run :| Possible(c, v, run) && OrderlyRun(c, v, run) && u == After(c, v, run);
    forall f ensures f in FilesOf(u, InTransfer(t)) <==> f in w.polls[d].rows { ShareRun(c, v, run, t, f); }
  }

  // --- Drafts ---

  /** A draft's clock starts with its first file: the cleanup may take it a day later, and not before. */
  lemma DraftsLastADay(c: Settings, w: World, d: Id, f: Id, drive: bool, overScanCap: bool, v: World, kept: set<Id>)
    requires Reachable(c, w) && d !in w.used && CanAddFile(w, d, f)
    requires Leads(c, AddFile(w, d, f, drive, overScanCap), v) && d in v.drafts
    ensures DraftEnabled(v, Discards(d, kept, true)) <==> d !in v.polls && v.now >= w.now + 24 * 3600
  {
    var u := AddFile(w, d, f, drive, overScanCap);
    ReachedNext(c, w, OnDraft(Adds(d, f, drive, overScanCap)), true);
    LaterEvolves(c, u, v);
    ReachableInv(c, w);
    assert DraftOk(w, d) && DraftEvolves(u, v, d);
  }

  /** A complete-upload that S3 rejects, or of the wrong size, ends the whole draft, for good. */
  lemma FailedCompletionEndsTheDraft(c: Settings, w: World, d: Id, f: Id, outcome: Completion, g: Id, v: World)
    requires Reachable(c, w) && CanCompleteUpload(w, d, f) && (outcome == S3Rejects || outcome.SizeMismatch?)
    requires g in FilesOf(w, InDraft(d)) && Leads(c, CompleteUpload(c, w, d, f, outcome), v)
    ensures d !in v.drafts && g !in v.files
  {
    var u := CompleteUpload(c, w, d, f, outcome);
    ReachedNext(c, w, OnDraft(Completes(d, f, outcome)), true);
    ReachableInv(c, w);
    LaterEvolves(c, u, v);
    EndedDraft(c, w, d, f, outcome, g);
    assert FileOk(c, w, g) && DraftOk(w, d);
    assert Evolves(w, u) by { DraftStays(c, w, d, f, outcome); }
    assert DraftEvolves(u, v, d) && FileEvolves(u, v, g);
  }

  lemma DraftStays(c: Settings, w: World, d: Id, f: Id, outcome: Completion)
    requires Inv(c, w) && CanCompleteUpload(w, d, f) && outcome != Landed
    ensures Evolves(w, CompleteUpload(c, w, d, f, outcome))
  {
    StepKeeps(c, w, OnDraft(Completes(d, f, outcome)));
  }

  lemma EndedDraft(c: Settings, w: World, d: Id, f: Id, outcome: Completion, g: Id)
    requires CanCompleteUpload(w, d, f) && (outcome == S3Rejects || outcome.SizeMismatch?)
    requires g in FilesOf(w, InDraft(d))
    ensures var u := CompleteUpload(c, w, d, f, outcome); d !in u.drafts && g !in u.files && u.used == w.used
  {
    match outcome
    case SizeMismatch(kept) => MismatchedObject(c, w, d, f, kept, g);
    case S3Rejects => DroppedDraft(w, d, g);
  }

  /** One whose size S3 would not tell leaves every row as it was: the client may try again. */
  lemma UnansweredCompletionChangesNoRow(c: Settings, w: World, d: Id, f: Id)
    requires CanCompleteUpload(w, d, f)
    ensures var u := CompleteUpload(c, w, d, f, HeadFails);
            u.files == w.files && u.drafts == w.drafts && f in u.bucket && CanCompleteUpload(u, d, f)
  {}

  /** Removing a file ends its draft exactly if it was the last one. */
  lemma RemovingTheLastFile(w: World, d: Id, f: Id, objectKept: bool)
    requires CanRemoveFile(w, d, f)
    ensures var v := RemoveFile(w, d, f, objectKept);
            && f !in v.files && (objectKept || f !in v.bucket)
            && (d in v.drafts <==> FilesOf(w, InDraft(d)) != {f})
  {
    var mine := FilesOf(w, InDraft(d));
    assert f in mine;
    if mine != {f} {
      var g :| g in mine && g != f;
      assert !OnlyFile(w, d, f);
    } else {
      forall g | g in w.files && w.files[g].parent == InDraft(d) ensures g == f { assert g in mine; }
    }
  }
}
