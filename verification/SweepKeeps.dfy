/** The orphan sweep and the clock keep the invariant. */
module SweepKeeps {
  import opened Bytes
  import opened World
  import opened Steps
  import opened Invariant
  import opened Evolution

  lemma StartKeeps(c: Settings, w: World, s: Id, minAgeHours: nat)
    requires Inv(c, w) && s !in w.sweeps && minAgeHours > 0
    ensures Evolves(w, SweepStart(w, s, minAgeHours)) && Inv(c, SweepStart(w, s, minAgeHours))
  {
    var v := SweepStart(w, s, minAgeHours);
    AllKnown(c, w);
    SameRowsKeep(c, w, v);
    UsesStay(w, v);
    forall g | g in v.importing ensures ImportUndisturbed(w, v, g) { assert ImportOk(w, g); }
    ImportsStay(w, v);
    forall e | e in v.polls ensures e in v.drafts { assert PollOk(w, e); }
    PollsStay(w, v);
    StampsStay(w, v);
    forall e ensures SweepOk(v, e) {
      assert SweepOk(w, e);
      if e in v.sweeps {
        forall g ensures KnownOk(v, v.sweeps[e], g) { assert FileOk(c, w, g); if e in w.sweeps {
          assert KnownOk(w, w.sweeps[e], g); }
        }
      }
    }
  }

  /** An object old enough, whose key was unknown when the sweep started, belongs to no row at all. */
  lemma OrphanHasNoRow(c: Settings, w: World, s: Id, f: Id)
    requires Inv(c, w) && s in w.sweeps && IsOrphan(w, w.sweeps[s], f)
    ensures f in w.used && f !in w.files
  {
    assert SweepOk(w, s) && KnownOk(w, w.sweeps[s], f) && FileOk(c, w, f);
  }

  lemma ListKeeps(c: Settings, w: World, s: Id, f: Id)
    requires Inv(c, w) && s in w.sweeps && IsOrphan(w, w.sweeps[s], f)
    ensures Evolves(w, SweepList(w, s, f)) && Inv(c, SweepList(w, s, f))
  {
    var v := SweepList(w, s, f);
    AllKnown(c, w);
    SameRowsKeep(c, w, v);
    OrphanHasNoRow(c, w, s, f);
    UsesStay(w, v);
    forall g | g in v.importing ensures ImportUndisturbed(w, v, g) { assert ImportOk(w, g); }
    ImportsStay(w, v);
    forall e | e in v.polls ensures e in v.drafts { assert PollOk(w, e); }
    PollsStay(w, v);
    StampsStay(w, v);
    forall e ensures SweepOk(v, e) {
      assert SweepOk(w, e);
      if e in v.sweeps {
        forall g ensures KnownOk(v, v.sweeps[e], g) { assert FileOk(c, w, g); if e in w.sweeps {
          assert KnownOk(w, w.sweeps[e], g); }
        }
      }
    }
  }

  lemma RemoveRows(c: Settings, w: World, f: Id)
    requires FilesOk(c, w) && RowsOk(w) && f !in w.files
    ensures FilesOk(c, SweepDelete(w, f)) && RowsOk(SweepDelete(w, f)) && Evolves(w, SweepDelete(w, f))
  {
    var v := SweepDelete(w, f);
    AllKnown(c, w);
    forall g ensures FileOk(c, v, g) && FileEvolves(w, v, g) { assert FileOk(c, w, g); }
    forall e ensures DraftOk(v, e) { assert DraftOk(w, e); }
    forall t ensures LinkOk(v, t) { assert LinkOk(w, t); }
    forall t, u | SameOrigin(v, t, u) ensures t == u { assert SameOrigin(w, t, u); }
  }

  lemma DeleteKeeps(c: Settings, w: World, s: Id, f: Id)
    requires Inv(c, w) && s in w.sweeps && f in w.sweeps[s].batch
    ensures Evolves(w, SweepDelete(w, f)) && Inv(c, SweepDelete(w, f))
  {
    var v := SweepDelete(w, f);
    AllKnown(c, w);
    assert SweepOk(w, s) && KnownOk(w, w.sweeps[s], f);
    RemoveRows(c, w, f);
    UsesStay(w, v);
    forall g | g in v.importing ensures ImportUndisturbed(w, v, g) { assert ImportOk(w, g); }
    ImportsStay(w, v);
    forall e | e in v.polls ensures e in v.drafts { assert PollOk(w, e); }
    PollsStay(w, v);
    StampsStay(w, v);
    SweepsStay(w, v);
  }

  lemma TickRows(c: Settings, w: World, seconds: nat)
    requires FilesOk(c, w) && RowsOk(w)
    ensures FilesOk(c, Later(w, seconds)) && RowsOk(Later(w, seconds)) && Evolves(w, Later(w, seconds))
  {
    var v := Later(w, seconds);
    AllKnown(c, w);
    forall g ensures FileOk(c, v, g) && FileEvolves(w, v, g) { assert FileOk(c, w, g); }
    forall e ensures DraftOk(v, e) { assert DraftOk(w, e); }
    forall t ensures LinkOk(v, t) { assert LinkOk(w, t); }
    forall t, u | SameOrigin(v, t, u) ensures t == u { assert SameOrigin(w, t, u); }
  }

  lemma TickKeeps(c: Settings, w: World, seconds: nat)
    requires Inv(c, w)
    ensures Evolves(w, Later(w, seconds)) && Inv(c, Later(w, seconds))
  {
    var v := Later(w, seconds);
    AllKnown(c, w);
    TickRows(c, w, seconds);
    UsesStay(w, v);
    forall g | g in v.importing ensures ImportUndisturbed(w, v, g) { assert ImportOk(w, g); }
    ImportsStay(w, v);
    forall e | e in v.polls ensures e in v.drafts { assert PollOk(w, e); }
    PollsStay(w, v);
    StampsStay(w, v);
    SweepsStay(w, v);
  }
}
