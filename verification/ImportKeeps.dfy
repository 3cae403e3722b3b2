/** The Drive import task keeps the invariant. */
module ImportKeeps {
  import opened Bytes
  import opened World
  import opened Steps
  import opened Invariant
  import opened Evolution

  lemma LostKeeps(c: Settings, w: World, f: Id)
    requires Inv(c, w) && f in w.importQueue && f !in w.importing
    ensures Evolves(w, ImportLost(w, f)) && Inv(c, ImportLost(w, f))
  {
    var v := ImportLost(w, f);
    AllKnown(c, w);
    SameRowsKeep(c, w, v);
    UsesStay(w, v);
    SweepsStay(w, v);
    forall g | g in v.importing ensures ImportUndisturbed(w, v, g) { assert ImportOk(w, g); }
    ImportsStay(w, v);
    forall e | e in v.polls ensures e in v.drafts { assert PollOk(w, e); }
    PollsStay(w, v);
    StampsStay(w, v);
  }

  lemma BegunImportOk(c: Settings, w: World, f: Id)
    requires Inv(c, w) && f in w.importQueue && f !in w.importing && f in w.files && !w.files[f].completed
    ensures ImportOk(ImportBegun(w, f), f)
  {
    assert StampOk(w, f) && ImportMessageOk(w, f) && FileOk(c, w, f) && DraftOk(w, w.files[f].home);
  }

  lemma BeginRows(c: Settings, w: World, f: Id)
    requires FilesOk(c, w) && RowsOk(w) && f in w.files
    ensures FilesOk(c, ImportBegun(w, f)) && RowsOk(ImportBegun(w, f)) && Evolves(w, ImportBegun(w, f))
  {
    var v := ImportBegun(w, f);
    AllKnown(c, w);
    forall g ensures FileOk(c, v, g) && FileEvolves(w, v, g) { assert FileOk(c, w, g); }
    forall e ensures DraftOk(v, e) { assert DraftOk(w, e); }
    forall t ensures LinkOk(v, t) { assert LinkOk(w, t); }
    forall t, u | SameOrigin(v, t, u) ensures t == u { assert SameOrigin(w, t, u); }
  }

  lemma BeginKeeps(c: Settings, w: World, f: Id)
    requires Inv(c, w) && f in w.importQueue && f !in w.importing && f in w.files && !w.files[f].completed
    ensures Evolves(w, ImportBegun(w, f)) && Inv(c, ImportBegun(w, f))
  {
    var v := ImportBegun(w, f);
    AllKnown(c, w);
    BeginRows(c, w, f);
    UsesStay(w, v);
    SweepsStay(w, v);
    forall g ensures ImportOk(v, g) {
      assert ImportOk(w, g);
      if g in v.importing && g != f { ImportStays(w, v, g); } else if g == f { BegunImportOk(c, w, f); }
    }
    forall e | e in v.polls ensures e in v.drafts { assert PollOk(w, e); }
    PollsStay(w, v);
    StampsStay(w, v);
  }

  lemma LandRows(c: Settings, w: World, f: Id)
    requires FilesOk(c, w) && RowsOk(w) && CanLand(w, f) && ImportOk(w, f)
    ensures FilesOk(c, ImportLand(w, f)) && RowsOk(ImportLand(w, f)) && Evolves(w, ImportLand(w, f))
  {
    var v := ImportLand(w, f);
    AllKnown(c, w);
    forall g ensures FileOk(c, v, g) && FileEvolves(w, v, g) { assert FileOk(c, w, g); }
    forall e ensures DraftOk(v, e) { assert DraftOk(w, e); }
    forall t ensures LinkOk(v, t) { assert LinkOk(w, t); }
    forall t, u | SameOrigin(v, t, u) ensures t == u { assert SameOrigin(w, t, u); }
  }

  lemma LandKeeps(c: Settings, w: World, f: Id)
    requires Inv(c, w) && CanLand(w, f)
    ensures Evolves(w, ImportLand(w, f)) && Inv(c, ImportLand(w, f))
  {
    var v := ImportLand(w, f);
    AllKnown(c, w);
    assert ImportOk(w, f);
    LandRows(c, w, f);
    UsesStay(w, v);
    SweepsStay(w, v);
    forall g ensures ImportOk(v, g) {
      assert ImportOk(w, g);
      if g in v.importing && g != f { ImportStays(w, v, g); }
    }
    forall e | e in v.polls ensures e in v.drafts { assert PollOk(w, e); }
    PollsStay(w, v);
    StampsStay(w, v);
  }

  lemma SaveRows(c: Settings, w: World, f: Id)
    requires FilesOk(c, w) && RowsOk(w) && CanSaveImport(w, f) && ImportOk(w, f)
    ensures FilesOk(c, ImportSave(c, w, f)) && RowsOk(ImportSave(c, w, f)) && Evolves(w, ImportSave(c, w, f))
  {
    var v := ImportSave(c, w, f);
    AllKnown(c, w);
    forall g ensures FileOk(c, v, g) && FileEvolves(w, v, g) { assert FileOk(c, w, g); }
    forall e ensures DraftOk(v, e) { assert DraftOk(w, e); }
    forall t ensures LinkOk(v, t) { assert LinkOk(w, t); }
    forall t, u | SameOrigin(v, t, u) ensures t == u { assert SameOrigin(w, t, u); }
  }

  lemma SaveKeeps(c: Settings, w: World, f: Id)
    requires Inv(c, w) && CanSaveImport(w, f)
    ensures Evolves(w, ImportSave(c, w, f)) && Inv(c, ImportSave(c, w, f))
  {
    var v := ImportSave(c, w, f);
    AllKnown(c, w);
    assert ImportOk(w, f);
    SaveRows(c, w, f);
    UsesStay(w, v);
    SweepsStay(w, v);
    forall g | g in v.importing ensures ImportUndisturbed(w, v, g) { assert ImportOk(w, g); }
    ImportsStay(w, v);
    forall e | e in v.polls ensures e in v.drafts { assert PollOk(w, e); }
    PollsStay(w, v);
    StampsStay(w, v);
  }

  lemma FailRows(c: Settings, w: World, f: Id, objectKept: bool)
    requires FilesOk(c, w) && RowsOk(w) && f in w.importing && ImportOk(w, f)
    ensures FilesOk(c, ImportFail(w, f, objectKept)) && RowsOk(ImportFail(w, f, objectKept))
    ensures Evolves(w, ImportFail(w, f, objectKept))
  {
    var v := ImportFail(w, f, objectKept);
    AllKnown(c, w);
    forall g ensures FileOk(c, v, g) && FileEvolves(w, v, g) { assert FileOk(c, w, g); }
    forall e ensures DraftOk(v, e) { assert DraftOk(w, e); }
    forall t ensures LinkOk(v, t) { assert LinkOk(w, t); }
    forall t, u | SameOrigin(v, t, u) ensures t == u { assert SameOrigin(w, t, u); }
  }

  lemma FailKeeps(c: Settings, w: World, f: Id, objectKept: bool)
    requires Inv(c, w) && f in w.importing
    ensures Evolves(w, ImportFail(w, f, objectKept)) && Inv(c, ImportFail(w, f, objectKept))
  {
    var v := ImportFail(w, f, objectKept);
    AllKnown(c, w);
    assert ImportOk(w, f);
    FailRows(c, w, f, objectKept);
    UsesStay(w, v);
    SweepsStay(w, v);
    forall g | g in v.importing ensures ImportUndisturbed(w, v, g) { assert ImportOk(w, g); }
    ImportsStay(w, v);
    forall e | e in v.polls ensures e in v.drafts { assert PollOk(w, e); }
    PollsStay(w, v);
    StampsStay(w, v);
  }

  lemma CrashKeeps(c: Settings, w: World, f: Id)
    requires Inv(c, w) && f in w.importing
    ensures Evolves(w, ImportCrash(w, f)) && Inv(c, ImportCrash(w, f))
  {
    var v := ImportCrash(w, f);
    AllKnown(c, w);
    SameRowsKeep(c, w, v);
    UsesStay(w, v);
    SweepsStay(w, v);
    forall g | g in v.importing ensures ImportUndisturbed(w, v, g) { assert ImportOk(w, g); }
    ImportsStay(w, v);
    forall e | e in v.polls ensures e in v.drafts { assert PollOk(w, e); }
    PollsStay(w, v);
    StampsStay(w, v);
  }
}
