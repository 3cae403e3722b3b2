/** Scan submissions, verdicts and the reaper keep the invariant. */
module ScanKeeps {
  import opened Bytes
  import opened World
  import opened Steps
  import opened Invariant
  import opened Evolution

  /** The key a submission reads from the file's parent is the one first parked on its draft. */
  lemma ParentKeyIsFirst(c: Settings, w: World, f: Id)
    requires FilesOk(c, w) && RowsOk(w) && Submittable(w, f)
    ensures JobOk(w, Use(f, w.files[f].home, ParentKey(w, w.files[f])))
  {
    assert FileOk(c, w, f);
    match w.files[f].parent
    case InDraft(d) => assert DraftOk(w, d);
    case InTransfer(t) => assert LinkOk(w, t);
  }

  lemma StartKeeps(c: Settings, w: World, f: Id)
    requires Inv(c, w) && f in w.scanQueue
    ensures Evolves(w, SubmitStart(w, f)) && Inv(c, SubmitStart(w, f))
  {
    var v := SubmitStart(w, f);
    AllKnown(c, w);
    SameRowsKeep(c, w, v);
    if Submittable(w, f) { ParentKeyIsFirst(c, w, f); }
    UsesStay(w, v);
    SweepsStay(w, v);
    forall g | g in v.importing ensures ImportUndisturbed(w, v, g) { assert ImportOk(w, g); }
    ImportsStay(w, v);
    forall e | e in v.polls ensures e in v.drafts { assert PollOk(w, e); }
    PollsStay(w, v);
    StampsStay(w, v);
  }

  lemma PostKeeps(c: Settings, w: World, u: Use, answer: PostOutcome)
    requires Inv(c, w) && u in w.submitting
    ensures Evolves(w, SubmitPost(w, u, answer)) && Inv(c, SubmitPost(w, u, answer))
  {
    var v := SubmitPost(w, u, answer);
    AllKnown(c, w);
    SameRowsKeep(c, w, v);
    UsesStay(w, v);
    SweepsStay(w, v);
    forall g | g in v.importing ensures ImportUndisturbed(w, v, g) { assert ImportOk(w, g); }
    ImportsStay(w, v);
    forall e | e in v.polls ensures e in v.drafts { assert PollOk(w, e); }
    PollsStay(w, v);
    StampsStay(w, v);
  }

  lemma VerdictRows(c: Settings, w: World, u: Use, s: ScanStatus, k: ErrorKind)
    requires FilesOk(c, w) && RowsOk(w) && JobOk(w, u) && u.file in w.files && w.files[u.file].scan == Pending
    requires IsVerdict(s, k)
    ensures FilesOk(c, VerdictSet(w, u.file, s, k)) && RowsOk(VerdictSet(w, u.file, s, k))
    ensures Evolves(w, VerdictSet(w, u.file, s, k))
  {
    var v := VerdictSet(w, u.file, s, k);
    AllKnown(c, w);
    forall g ensures FileOk(c, v, g) && FileEvolves(w, v, g) { assert FileOk(c, w, g); }
    forall e ensures DraftOk(v, e) { assert DraftOk(w, e); }
    forall t ensures LinkOk(v, t) { assert LinkOk(w, t); }
    forall t, u' | SameOrigin(v, t, u') ensures t == u' { assert SameOrigin(w, t, u'); }
  }

  lemma VerdictKeeps(c: Settings, w: World, u: Use, s: ScanStatus, k: ErrorKind)
    requires Inv(c, w) && JobOk(w, u) && u.file in w.files && w.files[u.file].scan == Pending && IsVerdict(s, k)
    ensures Evolves(w, VerdictSet(w, u.file, s, k)) && Inv(c, VerdictSet(w, u.file, s, k))
  {
    var v := VerdictSet(w, u.file, s, k);
    AllKnown(c, w);
    VerdictRows(c, w, u, s, k);
    UsesStay(w, v);
    SweepsStay(w, v);
    forall g | g in v.importing ensures ImportUndisturbed(w, v, g) { assert ImportOk(w, g); }
    ImportsStay(w, v);
    forall e | e in v.polls ensures e in v.drafts { assert PollOk(w, e); }
    forall e, g | e in v.polls ensures LockRespected(w, v, e, g) { assert FileOk(c, w, g); }
    PollsStay(w, v);
    StampsStay(w, v);
  }

  lemma CallKeeps(c: Settings, w: World, u: Use, s: ScanStatus, k: ErrorKind)
    requires Inv(c, w) && u in w.jobs && IsVerdict(s, k)
    ensures Evolves(w, Webhook(w, u, s, k)) && Inv(c, Webhook(w, u, s, k))
  {
    AllKnown(c, w);
    EvolvesReflexive(w);
    assert JobOk(w, u);
    if u.file in w.files && w.files[u.file].scan == Pending { VerdictKeeps(c, w, u, s, k); }
  }

  lemma ReapKeeps(c: Settings, w: World, f: Id)
    requires Inv(c, w) && f in w.files && w.files[f].scan == Pending && w.files[f].submitted
    ensures Evolves(w, Reap(w, f)) && Inv(c, Reap(w, f))
  {
    var v := Reap(w, f);
    AllKnown(c, w);
    SameRowsKeep(c, w, v);
    assert FileOk(c, w, f);
    UsesStay(w, v);
    SweepsStay(w, v);
    forall g | g in v.importing ensures ImportUndisturbed(w, v, g) { assert ImportOk(w, g); }
    ImportsStay(w, v);
    forall e | e in v.polls ensures e in v.drafts { assert PollOk(w, e); }
    PollsStay(w, v);
    StampsStay(w, v);
  }
}
