/** add-file, complete-upload, remove-file, abort, cleanup and rescan keep the invariant. */
module DraftKeeps {
  import opened Bytes
  import opened World
  import opened Steps
  import opened Invariant
  import opened Evolution

  // --- add-file ---

  lemma AddEvolves(c: Settings, w: World, d: Id, f: Id, drive: bool, overScanCap: bool)
    requires Known(w) && RowsOk(w) && CanAddFile(w, d, f)
    ensures Evolves(w, AddFile(w, d, f, drive, overScanCap))
  {
    forall e ensures DraftEvolves(w, AddFile(w, d, f, drive, overScanCap), e) { assert DraftOk(w, e); }
  }

  lemma AddRows(c: Settings, w: World, d: Id, f: Id, drive: bool, overScanCap: bool)
    requires FilesOk(c, w) && RowsOk(w) && CanAddFile(w, d, f)
    ensures FilesOk(c, AddFile(w, d, f, drive, overScanCap)) && RowsOk(AddFile(w, d, f, drive, overScanCap))
  {
    var v := AddFile(w, d, f, drive, overScanCap);
    forall g ensures FileOk(c, v, g) { assert FileOk(c, w, g); assert DraftOk(w, d); }
    forall e ensures DraftOk(v, e) { assert DraftOk(w, e); }
    forall t ensures LinkOk(v, t) { assert LinkOk(w, t); }
    forall t, u | SameOrigin(v, t, u) ensures t == u { assert SameOrigin(w, t, u); }
  }

  lemma AddPolls(c: Settings, w: World, d: Id, f: Id, drive: bool, overScanCap: bool)
    requires PollsOk(w) && RowsOk(w) && CanAddFile(w, d, f) && Known(w)
    requires Evolves(w, AddFile(w, d, f, drive, overScanCap))
    ensures PollsOk(AddFile(w, d, f, drive, overScanCap))
  {
    var v := AddFile(w, d, f, drive, overScanCap);
    forall e | e in v.polls ensures e in v.drafts && e != d { assert PollOk(w, e) && DraftOk(w, e); }
    forall e, g | e in v.polls ensures LockRespected(w, v, e, g) {}
    PollsStay(w, v);
  }

  lemma AddKeeps(c: Settings, w: World, d: Id, f: Id, drive: bool, overScanCap: bool)
    requires Inv(c, w) && CanAddFile(w, d, f)
    ensures Evolves(w, AddFile(w, d, f, drive, overScanCap)) && Inv(c, AddFile(w, d, f, drive, overScanCap))
  {
    var v := AddFile(w, d, f, drive, overScanCap);
    AllKnown(c, w);
    AddEvolves(c, w, d, f, drive, overScanCap);
    AddRows(c, w, d, f, drive, overScanCap);
    UsesStay(w, v);
    SweepsStay(w, v);
    forall g | g in v.importing ensures ImportUndisturbed(w, v, g) { assert ImportOk(w, g); }
    ImportsStay(w, v);
    AddPolls(c, w, d, f, drive, overScanCap);
    StampsStay(w, v);
  }

  // --- complete-upload ---

  lemma CompleteEvolves(c: Settings, w: World, d: Id, f: Id, outcome: Completion)
    requires FilesOk(c, w) && RowsOk(w) && CanCompleteUpload(w, d, f)
    ensures Evolves(w, CompleteUpload(c, w, d, f, outcome))
  {
    AllKnown(c, w);
    assert FileOk(c, w, f);
  }

  lemma CompleteFiles(c: Settings, w: World, d: Id, f: Id, outcome: Completion)
    requires FilesOk(c, w) && RowsOk(w) && CanCompleteUpload(w, d, f)
    ensures FilesOk(c, CompleteUpload(c, w, d, f, outcome)) && RowsOk(CompleteUpload(c, w, d, f, outcome))
  {
    var v := CompleteUpload(c, w, d, f, outcome);
    assert FileOk(c, w, f);
    forall g ensures FileOk(c, v, g) { assert FileOk(c, w, g); }
    forall e ensures DraftOk(v, e) { assert DraftOk(w, e); }
    forall t ensures LinkOk(v, t) { assert LinkOk(w, t); }
    forall t, u | SameOrigin(v, t, u) ensures t == u { assert SameOrigin(w, t, u); }
  }

  lemma CompleteSnapshots(c: Settings, w: World, d: Id, f: Id, outcome: Completion)
    requires PollsOk(w) && ImportsOk(w) && Known(w) && CanCompleteUpload(w, d, f) && CompletesSafely(w, f, outcome)
    requires Evolves(w, CompleteUpload(c, w, d, f, outcome))
    ensures PollsOk(CompleteUpload(c, w, d, f, outcome)) && ImportsOk(CompleteUpload(c, w, d, f, outcome))
  {
    var v := CompleteUpload(c, w, d, f, outcome);
    forall g | g in v.importing ensures ImportUndisturbed(w, v, g) { assert ImportOk(w, g); }
    ImportsStay(w, v);
    forall e | e in v.polls ensures e in v.drafts { assert PollOk(w, e); }
    PollsStay(w, v);
  }

  lemma CompleteKeeps(c: Settings, w: World, d: Id, f: Id, outcome: Completion)
    requires Inv(c, w) && CanCompleteUpload(w, d, f) && CompletesSafely(w, f, outcome)
    ensures Evolves(w, CompleteUpload(c, w, d, f, outcome)) && Inv(c, CompleteUpload(c, w, d, f, outcome))
  {
    var v := CompleteUpload(c, w, d, f, outcome);
    AllKnown(c, w);
    CompleteEvolves(c, w, d, f, outcome);
    CompleteFiles(c, w, d, f, outcome);
    CompleteSnapshots(c, w, d, f, outcome);
    UsesStay(w, v);
    SweepsStay(w, v);
    StampsStay(w, v);
  }

  // --- remove-file ---

  lemma RemoveEvolves(c: Settings, w: World, d: Id, f: Id, objectKept: bool)
    requires FilesOk(c, w) && RowsOk(w) && CanRemoveFile(w, d, f)
    ensures Evolves(w, RemoveFile(w, d, f, objectKept))
  {
    AllKnown(c, w);
  }

  lemma RemoveRows(c: Settings, w: World, d: Id, f: Id, objectKept: bool)
    requires FilesOk(c, w) && RowsOk(w) && CanRemoveFile(w, d, f)
    ensures FilesOk(c, RemoveFile(w, d, f, objectKept)) && RowsOk(RemoveFile(w, d, f, objectKept))
  {
    var v := RemoveFile(w, d, f, objectKept);
    forall g ensures FileOk(c, v, g) { assert FileOk(c, w, g); }
    forall e ensures DraftOk(v, e) { assert DraftOk(w, e); }
    forall t ensures LinkOk(v, t) { assert LinkOk(w, t); }
    forall t, u | SameOrigin(v, t, u) ensures t == u { assert SameOrigin(w, t, u); }
  }

  lemma RemoveKeeps(c: Settings, w: World, d: Id, f: Id, objectKept: bool)
    requires Inv(c, w) && CanRemoveFile(w, d, f)
    ensures Evolves(w, RemoveFile(w, d, f, objectKept)) && Inv(c, RemoveFile(w, d, f, objectKept))
  {
    var v := RemoveFile(w, d, f, objectKept);
    AllKnown(c, w);
    RemoveEvolves(c, w, d, f, objectKept);
    RemoveRows(c, w, d, f, objectKept);
    UsesStay(w, v);
    SweepsStay(w, v);
    forall g | g in v.importing ensures ImportUndisturbed(w, v, g) { assert ImportOk(w, g); }
    ImportsStay(w, v);
    forall e | e in v.polls ensures e in v.drafts { assert PollOk(w, e); }
    PollsStay(w, v);
    StampsStay(w, v);
  }

  // --- abort and cleanup ---

  lemma DiscardEvolves(c: Settings, w: World, d: Id, kept: set<Id>, cleanup: bool)
    requires FilesOk(c, w) && RowsOk(w) && CanDiscard(w, d, cleanup)
    ensures Evolves(w, DiscardDraft(w, d, kept))
  {
    AllKnown(c, w);
  }

  lemma DiscardRows(c: Settings, w: World, d: Id, kept: set<Id>, cleanup: bool)
    requires FilesOk(c, w) && RowsOk(w) && CanDiscard(w, d, cleanup)
    ensures FilesOk(c, DiscardDraft(w, d, kept)) && RowsOk(DiscardDraft(w, d, kept))
  {
    var v := DiscardDraft(w, d, kept);
    forall g ensures FileOk(c, v, g) { assert FileOk(c, w, g); }
    forall e ensures DraftOk(v, e) { assert DraftOk(w, e); }
    forall t ensures LinkOk(v, t) { assert LinkOk(w, t); }
    forall t, u | SameOrigin(v, t, u) ensures t == u { assert SameOrigin(w, t, u); }
  }

  lemma DiscardKeeps(c: Settings, w: World, d: Id, kept: set<Id>, cleanup: bool)
    requires Inv(c, w) && CanDiscard(w, d, cleanup)
    ensures Evolves(w, DiscardDraft(w, d, kept)) && Inv(c, DiscardDraft(w, d, kept))
  {
    var v := DiscardDraft(w, d, kept);
    AllKnown(c, w);
    DiscardEvolves(c, w, d, kept, cleanup);
    DiscardRows(c, w, d, kept, cleanup);
    UsesStay(w, v);
    SweepsStay(w, v);
    forall g | g in v.importing ensures ImportUndisturbed(w, v, g) { assert ImportOk(w, g); }
    ImportsStay(w, v);
    forall e | e in v.polls ensures e in v.drafts { assert PollOk(w, e); }
    PollsStay(w, v);
    StampsStay(w, v);
  }

  // --- rescan ---

  lemma RescanEvolves(c: Settings, w: World, d: Id, rearmed: set<Id>)
    requires FilesOk(c, w) && RowsOk(w) && Unlocked(w, d) && (forall f <- rearmed :: CanRearm(w, d, f))
    ensures Evolves(w, Rescan(w, d, rearmed))
  {
    AllKnown(c, w);
  }

  lemma RescanRows(c: Settings, w: World, d: Id, rearmed: set<Id>)
    requires FilesOk(c, w) && RowsOk(w) && Unlocked(w, d) && (forall f <- rearmed :: CanRearm(w, d, f))
    ensures FilesOk(c, Rescan(w, d, rearmed)) && RowsOk(Rescan(w, d, rearmed))
  {
    var v := Rescan(w, d, rearmed);
    forall g ensures FileOk(c, v, g) { assert FileOk(c, w, g); }
    forall e ensures DraftOk(v, e) { assert DraftOk(w, e); }
    forall t ensures LinkOk(v, t) { assert LinkOk(w, t); }
    forall t, u | SameOrigin(v, t, u) ensures t == u { assert SameOrigin(w, t, u); }
  }

  lemma RescanKeeps(c: Settings, w: World, d: Id, rearmed: set<Id>)
    requires Inv(c, w) && Unlocked(w, d) && (forall f <- rearmed :: CanRearm(w, d, f))
    ensures Evolves(w, Rescan(w, d, rearmed)) && Inv(c, Rescan(w, d, rearmed))
  {
    var v := Rescan(w, d, rearmed);
    AllKnown(c, w);
    RescanEvolves(c, w, d, rearmed);
    RescanRows(c, w, d, rearmed);
    UsesStay(w, v);
    SweepsStay(w, v);
    forall g | g in v.importing ensures ImportUndisturbed(w, v, g) { assert ImportOk(w, g); }
    ImportsStay(w, v);
    forall e | e in v.polls ensures e in v.drafts { assert PollOk(w, e); }
    PollsStay(w, v);
    StampsStay(w, v);
  }
}
