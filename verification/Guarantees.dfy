/** What holds in every state the backend can reach, whatever the interleaving. */
module Guarantees {
  import opened Bytes
  import opened World
  import opened Steps
  import opened Invariant
  import opened Evolution
  import DraftKeeps
  import FinalizeKeeps
  import ImportKeeps
  import ScanKeeps
  import LinkKeeps
  import SweepKeeps

  // --- Every step, every run ---

  lemma DraftStepKeeps(c: Settings, w: World, x: DraftStep)
    requires Inv(c, w) && DraftEnabled(w, x) && Orderly(w, OnDraft(x))
    ensures Evolves(w, ApplyDraft(c, w, x)) && Inv(c, ApplyDraft(c, w, x))
  {
    match x
    case Adds(d, f, drive, overScanCap) => DraftKeeps.AddKeeps(c, w, d, f, drive, overScanCap);
    case Completes(d, f, outcome) => DraftKeeps.CompleteKeeps(c, w, d, f, outcome);
    case Removes(d, f, objectKept) => DraftKeeps.RemoveKeeps(c, w, d, f, objectKept);
    case Discards(d, kept, cleanup) => DraftKeeps.DiscardKeeps(c, w, d, kept, cleanup);
    case Rescans(d, rearmed) => DraftKeeps.RescanKeeps(c, w, d, rearmed);
  }

  lemma FinalizeStepKeeps(c: Settings, w: World, x: FinalizeStep)
    requires Inv(c, w) && FinalizeEnabled(w, x)
    ensures Evolves(w, ApplyFinalize(c, w, x)) && Inv(c, ApplyFinalize(c, w, x))
  {
    match x
    case Finalizes(d, body) => FinalizeKeeps.ReadKeeps(c, w, d, body);
    case Answers(d, b, t) => FinalizeKeeps.AnswerKeeps(c, w, d, b, t);
    case GivesUp(d) => FinalizeKeeps.ReleaseKeeps(c, w, d);
    case Sends(b, f, ok) => FinalizeKeeps.SendKeeps(c, w, b, f, ok);
    case EndsBatch(b) => FinalizeKeeps.EndKeeps(c, w, b);
  }

  lemma ImportStepKeeps(c: Settings, w: World, x: ImportStep)
    requires Inv(c, w) && ImportEnabled(w, x)
    ensures Evolves(w, ApplyImport(c, w, x)) && Inv(c, ApplyImport(c, w, x))
  {
    match x
    case Imports(f) =>
      if f !in w.files || w.files[f].completed {
        ImportKeeps.LostKeeps(c, w, f);
      } else {
        ImportKeeps.BeginKeeps(c, w, f);
      }
    case Lands(f) => ImportKeeps.LandKeeps(c, w, f);
    case Saves(f) => ImportKeeps.SaveKeeps(c, w, f);
    case Fails(f, objectKept) => ImportKeeps.FailKeeps(c, w, f, objectKept);
    case Crashes(f) => ImportKeeps.CrashKeeps(c, w, f);
  }

  lemma ScanStepKeeps(c: Settings, w: World, x: ScanStep)
    requires Inv(c, w) && ScanEnabled(w, x)
    ensures Evolves(w, ApplyScan(w, x)) && Inv(c, ApplyScan(w, x))
  {
    match x
    case StartsScan(f) => ScanKeeps.StartKeeps(c, w, f);
    case PostsScan(u, answer) => ScanKeeps.PostKeeps(c, w, u, answer);
    case Calls(u, verdict, errorKind) => ScanKeeps.CallKeeps(c, w, u, verdict, errorKind);
    case Reaps(f) => ScanKeeps.ReapKeeps(c, w, f);
  }

  lemma LinkStepKeeps(c: Settings, w: World, x: LinkStep)
    requires Inv(c, w) && LinkEnabled(w, x)
    ensures Evolves(w, ApplyLink(c, w, x)) && Inv(c, ApplyLink(c, w, x))
  {
    match x
    case Deactivates(t, reason) => LinkKeeps.DeactivateKeeps(c, w, t, reason);
    case ReadsPurge => LinkKeeps.PurgeReadKeeps(c, w);
    case Wipes(t, kept) => LinkKeeps.WipeKeeps(c, w, t, kept);
    case Flips(t) => LinkKeeps.FlipKeeps(c, w, t);
    case Destroys(t, kept) => LinkKeeps.DestroyKeeps(c, w, t, kept);
  }

  lemma SweepStepKeeps(c: Settings, w: World, x: SweepStep)
    requires Inv(c, w) && SweepEnabled(w, x) && Orderly(w, OnSweep(x))
    ensures Evolves(w, ApplySweep(w, x)) && Inv(c, ApplySweep(w, x))
  {
    match x
    case Starts(s, minAgeHours) => SweepKeeps.StartKeeps(c, w, s, minAgeHours);
    case Lists(s, f) => SweepKeeps.ListKeeps(c, w, s, f);
    case Deletes(s, f) => SweepKeeps.DeleteKeeps(c, w, s, f);
  }

  lemma StepKeeps(c: Settings, w: World, x: Step)
    requires Inv(c, w) && Enabled(w, x) && Orderly(w, x)
    ensures Evolves(w, Apply(c, w, x)) && Inv(c, Apply(c, w, x))
  {
    match x
    case Ticks(seconds) => SweepKeeps.TickKeeps(c, w, seconds);
    case OnDraft(y) => DraftStepKeeps(c, w, y);
    case OnFinalize(y) => FinalizeStepKeeps(c, w, y);
    case OnImport(y) => ImportStepKeeps(c, w, y);
    case OnScan(y) => ScanStepKeeps(c, w, y);
    case OnLink(y) => LinkStepKeeps(c, w, y);
    case OnSweep(y) => SweepStepKeeps(c, w, y);
  }

  lemma {:induction false} RunKeeps(c: Settings, w: World, run: seq<Step>)
    requires Inv(c, w) && Possible(c, w, run) && OrderlyRun(c, w, run)
    ensures Evolves(w, After(c, w, run)) && Inv(c, After(c, w, run))
    decreases run
  {
    if run == [] {
      AllKnown(c, w);
      EvolvesReflexive(w);
    } else {
      var v := Apply(c, w, run[0]);
      StepKeeps(c, w, run[0]);
      RunKeeps(c, v, run[1..]);
      EvolvesTransitive(w, v, After(c, v, run[1..]));
    }
  }

  /** A run of the code leads to w; an orderly one, if so asked. */
  ghost predicate Reached(c: Settings, w: World, orderly: bool) {
    exists run :: Possible(c, EMPTY_WORLD, run) && (orderly ==> OrderlyRun(c, EMPTY_WORLD, run))
        && w == After(c, EMPTY_WORLD, run)
  }

  /** The states the backend can be in. */
  ghost predicate Reachable(c: Settings, w: World) {
    Reached(c, w, true)
  }

  /** v can come after w. */
  ghost predicate Leads(c: Settings, w: World, v: World) {
    exists run :: Possible(c, w, run) && OrderlyRun(c, w, run) && v == After(c, w, run)
  }

  lemma {:induction false} Appended(c: Settings, w: World, run: seq<Step>, x: Step)
    requires Possible(c, w, run) && Enabled(After(c, w, run), x)
    ensures Possible(c, w, run + [x]) && After(c, w, run + [x]) == Apply(c, After(c, w, run), x)
    ensures OrderlyRun(c, w, run) && Orderly(After(c, w, run), x) ==> OrderlyRun(c, w, run + [x])
    decreases run
  {
    if run == [] {
      assert [] + [x] == [x];
    } else {
      Appended(c, Apply(c, w, run[0]), run[1..], x);
      assert (run + [x])[1..] == run[1..] + [x];
    }
  }

  lemma ReachedNext(c: Settings, w: World, x: Step, orderly: bool)
    requires Reached(c, w, orderly) && Enabled(w, x) && (orderly ==> Orderly(w, x))
    ensures Reached(c, Apply(c, w, x), orderly)
  {
    var run :| Possible(c, EMPTY_WORLD, run) && (orderly ==> OrderlyRun(c, EMPTY_WORLD, run))
        && w == After(c, EMPTY_WORLD, run);
    Appended(c, EMPTY_WORLD, run, x);
  }

  lemma ReachableInv(c: Settings, w: World)
    requires Reachable(c, w)
    ensures Inv(c, w)
  {
    var run :| Possible(c, EMPTY_WORLD, run) && OrderlyRun(c, EMPTY_WORLD, run) && w == After(c, EMPTY_WORLD, run);
    EmptyInv(c);
    RunKeeps(c, EMPTY_WORLD, run);
  }

  lemma LaterEvolves(c: Settings, w: World, v: World)
    requires Reachable(c, w) && Leads(c, w, v)
    ensures Evolves(w, v) && Inv(c, w) && Inv(c, v)
  {
    var run :| Possible(c, w, run) && OrderlyRun(c, w, run) && v == After(c, w, run);
    ReachableInv(c, w);
    RunKeeps(c, w, run);
  }

  // --- No live bytes are lost ---

  lemma NoLiveBytesLost(c: Settings, w: World, t: Id, f: Id)
    requires Reachable(c, w) && Guarded(w, t) && f in w.files && w.files[f].parent == InTransfer(t)
    ensures f in w.bucket
  {
    ReachableInv(c, w);
    assert FileOk(c, w, f);
  }

  lemma AdmittedRequestFindsItsBytes(c: Settings, w: World, t: Id, f: Id, resuming: bool)
    requires Reachable(c, w) && Admits(w, t, f, resuming)
    requires w.transfers[t].status == Active || t !in w.destroyAsked
    ensures f in w.bucket
  {
    ReachableInv(c, w);
    assert LinkOk(w, t);
    NoLiveBytesLost(c, w, t, f);
  }

  /** Every byte a link still in its grace window promises. */
  ghost predicate BytesThere(w: World, t: Id) {
    forall f :: f in FilesOf(w, InTransfer(t)) ==> f in w.bucket
  }

  /**
   The hard delete of a link in its grace window is refused when a deletion fails, and the
   link is then still in its window: it has all its bytes if and only if every deletion failed.
   */
  lemma RefusedHardDelete(c: Settings, w: World, t: Id, kept: set<Id>)
    requires Inv(c, w) && Guarded(w, t) && w.transfers[t].status == PendingFileDeletion
    ensures var v := Destroy(w, t, kept);
            if FilesOf(w, InTransfer(t)) !! kept then t !in v.transfers
            else t in v.transfers && v.transfers[t] == w.transfers[t] && v.files == w.files && v.now == w.now
                 && (BytesThere(v, t) <==> FilesOf(w, InTransfer(t)) <= kept)
  {
    var files := FilesOf(w, InTransfer(t));
    if !(files !! kept) {
      var v := DeleteObjects(DestroyAsked(w, t), files, kept);
      assert FilesOf(v, InTransfer(t)) == files;
      forall f | f in files ensures f in v.bucket <==> f in kept { assert FileOk(c, w, f); }
      if !(files <= kept) { var f :| f in files && f !in kept; assert f !in v.bucket; }
    }
  }

  /** Every object a row promises: of a landed file in a draft, and of every file of a live link. */
  ghost predicate Promised(w: World) {
    forall f | f in w.files && w.files[f].completed :: PromiseKept(w, f)
  }

  predicate PromiseKept(w: World, f: Id)
    requires f in w.files
  {
    (match w.files[f].parent case InDraft(_) => true case InTransfer(t) => Guarded(w, t)) ==> f in w.bucket
  }

  /** A step of some actor, no further misuse needed, after which a promised object is missing. */
  ghost predicate Endangered(c: Settings, w: World) {
    exists x: Step | Enabled(w, x) && Orderly(w, x) :: !Promised(Apply(c, w, x))
  }

  /**
   complete-upload on any file of the draft, with any answer of S3: the invariant survives it,
   and no next step can lose a promised object, if and only if it did not land under a
   running import of that very file.
   */
  lemma CompletionIsSafeExactly(c: Settings, w: World, d: Id, f: Id, outcome: Completion)
    requires Inv(c, w) && CanCompleteUpload(w, d, f)
    ensures Inv(c, CompleteUpload(c, w, d, f, outcome)) <==> CompletesSafely(w, f, outcome)
    ensures !Endangered(c, CompleteUpload(c, w, d, f, outcome)) <==> CompletesSafely(w, f, outcome)
  {
    var v := CompleteUpload(c, w, d, f, outcome);
    if CompletesSafely(w, f, outcome) {
      DraftKeeps.CompleteKeeps(c, w, d, f, outcome);
      SafeIsNotEndangered(c, v);
    } else {
      assert !ImportOk(v, f);
      var x := OnImport(Fails(f, false));
      assert Enabled(v, x) && Orderly(v, x);
      assert !PromiseKept(Apply(c, v, x), f);
      assert !Promised(Apply(c, v, x));
    }
  }

  lemma InvIsPromised(c: Settings, w: World)
    requires Inv(c, w)
    ensures Promised(w)
  {
    forall f | f in w.files && w.files[f].completed ensures PromiseKept(w, f) { assert FileOk(c, w, f); }
  }

  lemma SafeIsNotEndangered(c: Settings, w: World)
    requires Inv(c, w)
    ensures !Endangered(c, w)
  {
    forall x: Step | Enabled(w, x) && Orderly(w, x) ensures Promised(Apply(c, w, x)) {
      StepKeeps(c, w, x);
      InvIsPromised(c, Apply(c, w, x));
    }
  }

  /**
   Whatever the state, a published file that is still being imported loses its object when the import fails, and
   stays on offer.
   */
  lemma FailingImportTakesPublishedBytes(c: Settings, w: World, t: Id, f: Id, resuming: bool)
    requires f in w.importing && Admits(w, t, f, resuming)
    ensures Enabled(w, OnImport(Fails(f, false))) && Orderly(w, OnImport(Fails(f, false)))
    ensures var v := Apply(c, w, OnImport(Fails(f, false))); Admits(v, t, f, resuming) && f !in v.bucket
  {
    assert Apply(c, w, OnImport(Fails(f, false))) == ImportFail(w, f, false);
  }

  /** In orderly use no published file is ever being imported. */
  lemma NoPublishedFileIsImporting(c: Settings, w: World, f: Id)
    requires Reachable(c, w) && f in w.importing && f in w.files
    ensures w.files[f].parent.InDraft? && !w.files[f].completed && w.files[f].drive
  {
    ReachableInv(c, w);
    assert ImportOk(w, f);
  }

  /**
   A sweep started in w, at any later moment v: a key that belongs to a row is taken for an
   orphan if and only if the sweep has no age limit and the row is newer than the sweep.
   */
  lemma AgeLimitProtectsNewFiles(c: Settings, w: World, v: World, s: Id, minAgeHours: nat, f: Id)
    requires Reachable(c, w) && Leads(c, w, v) && f in v.files
    ensures IsOrphan(v, SweepStart(w, s, minAgeHours).sweeps[s], f) <==>
        minAgeHours == 0 && f in v.bucket && f !in w.files
  {
    LaterEvolves(c, w, v);
    AllKnown(c, w);
    assert FileOk(c, v, f) && FileEvolves(w, v, f);
  }

  // --- Verdicts are final and gate publication ---

  lemma VerdictsAreFinal(c: Settings, w: World, v: World, f: Id)
    requires Reachable(c, w) && Leads(c, w, v) && f in w.files && f in v.files && Settled(w.files[f])
    ensures v.files[f].scan == w.files[f].scan && v.files[f].kind == w.files[f].kind
  {
    LaterEvolves(c, w, v);
    assert FileOk(c, w, f) && FileEvolves(w, v, f);
  }

  lemma PublishedFilesStayExempt(c: Settings, w: World, v: World, f: Id)
    requires Reachable(c, w) && Leads(c, w, v) && f in w.files && f in v.files && w.files[f].parent.InTransfer?
    ensures v.files[f].parent == w.files[f].parent && v.files[f].completed
    ensures Exempt(w.files[f].scan) && v.files[f].scan == w.files[f].scan
  {
    LaterEvolves(c, w, v);
    assert FileOk(c, w, f) && FileOk(c, v, f) && FileEvolves(w, v, f);
  }

  lemma DeletedRowsStayDeleted(c: Settings, w: World, v: World, f: Id)
    requires Reachable(c, w) && Leads(c, w, v) && f in w.used
    ensures f !in w.files ==> f !in v.files
    ensures f !in w.transfers ==> f !in v.transfers
    ensures f !in w.drafts ==> f !in v.drafts
  {
    LaterEvolves(c, w, v);
    assert FileEvolves(w, v, f) && LinkEvolves(w, v, f) && DraftEvolves(w, v, f);
  }

  // --- One key a transfer ---

  /** A draft yields at most one transfer, even after that transfer was deleted. */
  lemma OneTransferADraft(c: Settings, w: World, v: World, t: Id, u: Id)
    requires Reachable(c, w) && Leads(c, w, v)
    requires t in w.transfers && u in v.transfers && v.transfers[u].origin == w.transfers[t].origin
    ensures u == t
  {
    LaterEvolves(c, w, v);
    assert LinkOk(w, t) && LinkEvolves(w, v, u);
    if u in w.transfers { assert SameOrigin(w, t, u); }
  }

  /**
   Every import and scan of a transfer's files, at any time, used the transfer's own key; a confidential one saw
   none.
   */
  lemma OneKeyATransfer(c: Settings, w: World, t: Id, u: Use)
    requires Reachable(c, w) && t in w.transfers
    ensures w.transfers[t].confidential <==> w.transfers[t].key == ""
    ensures u in w.jobs + w.sealings && u.home == w.transfers[t].origin ==> u.key == w.transfers[t].key && u.key != ""
    ensures u.file in w.files && w.files[u.file].parent == InTransfer(t) ==>
              && w.files[u.file].home == w.transfers[t].origin
              && (u in w.jobs + w.sealings ==> u.home == w.transfers[t].origin)
              && (w.transfers[t].confidential ==> !w.files[u.file].drive)
  {
    ReachableInv(c, w);
    assert LinkOk(w, t) && FileOk(c, w, u.file) && DraftOk(w, u.home);
    if u in w.jobs { assert JobOk(w, u); }
    if u in w.sealings { assert UseOk(w, u); }
  }

  /** The key a draft was first finalized with never changes. */
  lemma FirstKeyIsForever(c: Settings, w: World, v: World, d: Id)
    requires Reachable(c, w) && Leads(c, w, v) && d in w.firstKey
    ensures d in v.firstKey && v.firstKey[d] == w.firstKey[d] != ""
    ensures d in v.drafts ==> v.drafts[d].key == w.firstKey[d]
  {
    LaterEvolves(c, w, v);
    assert DraftOk(w, d) && DraftOk(v, d) && DraftEvolves(w, v, d);
  }

  // --- Import bookkeeping ---

  lemma ImportsAreBookedExactly(c: Settings, w: World, f: Id)
    requires Reachable(c, w)
    ensures w.accepted[f] <= 1
    ensures f in w.importing ==> f !in w.importQueue
    ensures f in w.files && !SomewhereWaits(w, f) ==> (w.files[f].importStarted <==> f in w.accepted)
    ensures f in w.files && f in w.accepted ==> w.files[f].drive
  {
    ReachableInv(c, w);
    assert StampOk(w, f);
    if f in w.accepted { assert ImportMessageOk(w, f); }
  }

  // --- Lifecycle ---

  lemma LinksOnlyMoveForward(c: Settings, w: World, v: World, t: Id)
    requires Reachable(c, w) && Leads(c, w, v) && t in w.transfers && t in v.transfers
    ensures Phase(w.transfers[t].status) <= Phase(v.transfers[t].status)
    ensures w.transfers[t].reason.Some? ==> v.transfers[t].reason == w.transfers[t].reason
    ensures v.transfers[t].status == w.transfers[t].status ==> v.transfers[t].purgeAt == w.transfers[t].purgeAt
  {
    LaterEvolves(c, w, v);
    assert LinkOk(w, t) && LinkEvolves(w, v, t);
  }

  lemma LinkColumnsAgree(c: Settings, w: World, t: Id, f: Id)
    requires Reachable(c, w) && t in w.transfers
    ensures w.transfers[t].reason.Some? <==> w.transfers[t].status != Active
    ensures w.transfers[t].purgeAt.Some? <==> w.transfers[t].status == PendingFileDeletion
    ensures w.transfers[t].status == Deactivated && f in w.files && w.files[f].parent == InTransfer(t) ==>
        f !in w.bucket
  {
    ReachableInv(c, w);
    assert LinkOk(w, t) && FileOk(c, w, f);
  }
}
