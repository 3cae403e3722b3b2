/** Finalize requests and their import enqueues keep the invariant. */
module FinalizeKeeps {
  import opened Bytes
  import opened World
  import opened Steps
  import opened Invariant
  import opened Evolution

  // --- Reading, giving up ---

  lemma ReadKeeps(c: Settings, w: World, d: Id, body: Body)
    requires Inv(c, w) && Unlocked(w, d) && body.Accepted()
    ensures Evolves(w, FinalizeRead(w, d, body)) && Inv(c, FinalizeRead(w, d, body))
  {
    var v := FinalizeRead(w, d, body);
    SameRowsKeep(c, w, v);
    UsesStay(w, v);
    SweepsStay(w, v);
    forall g | g in v.importing ensures ImportUndisturbed(w, v, g) { assert ImportOk(w, g); }
    ImportsStay(w, v);
    StampsStay(w, v);
    forall e ensures PollOk(v, e) {
      assert PollOk(w, e);
      forall f ensures e in v.polls ==> SnapOk(v, e, v.polls[e], f) {
        assert FileOk(c, w, f);
        if e in w.polls { assert SnapOk(w, e, w.polls[e], f); }
      }
    }
  }

  function Released(w: World, d: Id): World {
    w.(polls := w.polls - {d})
  }

  lemma ReleaseKeeps(c: Settings, w: World, d: Id)
    requires Inv(c, w)
    ensures Evolves(w, Released(w, d)) && Inv(c, Released(w, d))
  {
    var v := Released(w, d);
    SameRowsKeep(c, w, v);
    AllKnown(c, w);
    UsesStay(w, v);
    SweepsStay(w, v);
    forall g | g in v.importing ensures ImportUndisturbed(w, v, g) { assert ImportOk(w, g); }
    ImportsStay(w, v);
    StampsStay(w, v);
    forall e | e in v.polls ensures e in v.drafts { assert PollOk(w, e); }
    PollsStay(w, v);
  }

  // --- Parking the key ---

  /** What a request knows of the draft it has locked. */
  ghost predicate Locked(w: World, d: Id, p: Poll) {
    d in w.drafts && d !in w.polls && p.body.Accepted() && forall f :: SnapOk(w, d, p, f)
  }

  lemma ParkRows(c: Settings, w: World, d: Id, key: string)
    requires FilesOk(c, w) && RowsOk(w) && d in w.drafts && w.drafts[d].key == "" && key != ""
    ensures FilesOk(c, KeyParked(w, d, key)) && RowsOk(KeyParked(w, d, key)) && Evolves(w, KeyParked(w, d, key))
  {
    var v := KeyParked(w, d, key);
    AllKnown(c, w);
    assert DraftOk(w, d);
    forall g ensures FileOk(c, v, g) { assert FileOk(c, w, g); }
    forall e ensures DraftOk(v, e) && DraftEvolves(w, v, e) { assert DraftOk(w, e); }
    forall t ensures LinkOk(v, t) { assert LinkOk(w, t); }
    forall t, u | SameOrigin(v, t, u) ensures t == u { assert SameOrigin(w, t, u); }
  }

  lemma ParkRest(c: Settings, w: World, d: Id, key: string)
    requires Inv(c, w) && d in w.drafts && d !in w.polls && Evolves(w, KeyParked(w, d, key))
    ensures var v := KeyParked(w, d, key); UsesOk(v) && SweepsOk(v) && ImportsOk(v) && StampsOk(v) && PollsOk(v)
  {
    var v := KeyParked(w, d, key);
    AllKnown(c, w);
    UsesStay(w, v);
    SweepsStay(w, v);
    forall g | g in v.importing ensures ImportUndisturbed(w, v, g) { assert ImportOk(w, g); }
    ImportsStay(w, v);
    StampsStay(w, v);
    forall e | e in v.polls ensures e in v.drafts { assert PollOk(w, e); }
    PollsStay(w, v);
  }

  lemma ParkKeeps(c: Settings, w: World, d: Id, p: Poll)
    requires Inv(c, w) && Locked(w, d, p) && !KeyRefused(p, w.drafts[d].key)
    ensures Evolves(w, Parked(w, d, p.body)) && Inv(c, Parked(w, d, p.body)) && Locked(Parked(w, d, p.body), d, p)
    ensures Parked(w, d, p.body).drafts[d].key == p.body.key
  {
    if p.body.confidential || w.drafts[d].key != "" {
      AllKnown(c, w);
      EvolvesReflexive(w);
    } else {
      ParkRows(c, w, d, p.body.key);
      ParkRest(c, w, d, p.body.key);
      forall f ensures SnapOk(Parked(w, d, p.body), d, p, f) { assert SnapOk(w, d, p, f) && DraftOk(w, d); }
    }
  }

  // --- The import batch ---

  predicate ToStart(w: World, d: Id, f: Id) {
    f in w.files && w.files[f].parent == InDraft(d) && w.files[f].drive && !w.files[f].importStarted
  }

  lemma BatchRows(c: Settings, w: World, d: Id, starting: set<Id>, b: Id)
    requires FilesOk(c, w) && RowsOk(w) && b !in w.used && starting != {}
    ensures FilesOk(c, ImportsBatched(w, starting, b)) && RowsOk(ImportsBatched(w, starting, b))
    ensures Evolves(w, ImportsBatched(w, starting, b))
  {
    var v := ImportsBatched(w, starting, b);
    AllKnown(c, w);
    forall g ensures FileOk(c, v, g) { assert FileOk(c, w, g); }
    forall e ensures DraftOk(v, e) { assert DraftOk(w, e); }
    forall t ensures LinkOk(v, t) { assert LinkOk(w, t); }
    forall t, u | SameOrigin(v, t, u) ensures t == u { assert SameOrigin(w, t, u); }
  }

  lemma BatchStamps(c: Settings, w: World, d: Id, starting: set<Id>, b: Id)
    requires StampsOk(w) && UsesOk(w) && Known(w) && b !in w.used && starting != {}
    requires forall f :: f in starting ==> ToStart(w, d, f)
    ensures StampsOk(ImportsBatched(w, starting, b))
  {
    var v := ImportsBatched(w, starting, b);
    forall e, f ensures e != b ==> (Waits(v, e, f) <==> Waits(w, e, f)) {}
    forall f ensures StampOk(v, f) {
      assert StampOk(w, f);
      if f in starting {
        assert ToStart(w, d, f) && Waits(v, b, f);
      } else {
        if SomewhereWaits(w, f) { var e :| Waits(w, e, f); assert Waits(v, e, f); }
        if SomewhereWaits(v, f) { var e :| Waits(v, e, f); assert Waits(w, e, f); }
      }
    }
    forall e, f ensures WaitOk(v, e, f) {
      assert WaitOk(w, e, f) && StampOk(w, f);
      if f in starting { assert ToStart(w, d, f); }
    }
    forall e, e', f | Waits(v, e, f) && Waits(v, e', f) ensures e == e' {
      if f in starting { assert ToStart(w, d, f) && StampOk(w, f); }
    }
  }

  lemma BatchKeeps(c: Settings, w: World, d: Id, starting: set<Id>, b: Id)
    requires Inv(c, w) && b !in w.used && d !in w.polls
    requires forall f :: f in starting ==> ToStart(w, d, f)
    ensures Evolves(w, ImportsBatched(w, starting, b)) && Inv(c, ImportsBatched(w, starting, b))
  {
    var v := ImportsBatched(w, starting, b);
    AllKnown(c, w);
    if starting == {} {
      EvolvesReflexive(w);
    } else {
      BatchRows(c, w, d, starting, b);
      BatchStamps(c, w, d, starting, b);
      UsesStay(w, v);
      SweepsStay(w, v);
      forall g | g in v.importing ensures ImportUndisturbed(w, v, g) { assert ImportOk(w, g); }
      ImportsStay(w, v);
      forall e | e in v.polls ensures e in v.drafts { assert PollOk(w, e); }
      forall e, g | e in v.polls ensures LockRespected(w, v, e, g) { if g in starting { assert ToStart(w, d, g); } }
      PollsStay(w, v);
    }
  }

  // --- The scans ---

  predicate ToSubmit(w: World, d: Id, f: Id) {
    f in w.files && w.files[f].parent == InDraft(d) && w.files[f].completed
  }

  predicate ToSkip(c: Settings, w: World, d: Id, f: Id) {
    && c.scanEnabled && f in w.files && w.files[f].parent == InDraft(d) && w.files[f].completed
    && w.files[f].scan == Pending
  }

  lemma ScansRows(c: Settings, w: World, d: Id, submitted: set<Id>, skipped: set<Id>)
    requires FilesOk(c, w) && RowsOk(w)
    requires forall f :: f in submitted ==> ToSubmit(w, d, f)
    requires forall f :: f in skipped ==> ToSkip(c, w, d, f)
    ensures var v := ScansSubmitted(w, submitted, skipped); FilesOk(c, v) && RowsOk(v) && Evolves(w, v)
  {
    var v := ScansSubmitted(w, submitted, skipped);
    AllKnown(c, w);
    forall g ensures FileOk(c, v, g) && FileEvolves(w, v, g) {
      assert FileOk(c, w, g);
      if g in submitted { assert ToSubmit(w, d, g); }
      if g in skipped { assert ToSkip(c, w, d, g); }
    }
    forall e ensures DraftOk(v, e) { assert DraftOk(w, e); }
    forall t ensures LinkOk(v, t) { assert LinkOk(w, t); }
    forall t, u | SameOrigin(v, t, u) ensures t == u { assert SameOrigin(w, t, u); }
  }

  lemma ScansKeep(c: Settings, w: World, d: Id, submitted: set<Id>, skipped: set<Id>)
    requires Inv(c, w) && d !in w.polls
    requires forall f :: f in submitted ==> ToSubmit(w, d, f)
    requires forall f :: f in skipped ==> ToSkip(c, w, d, f)
    ensures Evolves(w, ScansSubmitted(w, submitted, skipped)) && Inv(c, ScansSubmitted(w, submitted, skipped))
  {
    var v := ScansSubmitted(w, submitted, skipped);
    AllKnown(c, w);
    ScansRows(c, w, d, submitted, skipped);
    forall f | f in v.scanQueue ensures f in w.scanQueue || ScanMessageOk(w, f) { if f in submitted {
      assert ToSubmit(w, d, f); }
    }
    UsesStay(w, v);
    SweepsStay(w, v);
    forall g | g in v.importing ensures ImportUndisturbed(w, v, g) { assert ImportOk(w, g); }
    ImportsStay(w, v);
    StampsStay(w, v);
    forall e | e in v.polls ensures e in v.drafts { assert PollOk(w, e); }
    forall e, g | e in v.polls ensures LockRespected(w, v, e, g) { if g in skipped { assert ToSkip(c, w, d, g); } }
    PollsStay(w, v);
  }

  // --- The transfer ---

  predicate Publishable(w: World, d: Id, body: Body, f: Id) {
    f in w.files && w.files[f].parent == InDraft(d) ==>
      w.files[f].completed && Exempt(w.files[f].scan) && (body.confidential ==> !w.files[f].drive)
  }

  predicate Draftable(w: World, d: Id, body: Body, t: Id) {
    d in w.drafts && d !in w.polls && body.Accepted() && w.drafts[d].key == body.key && t !in w.used
  }

  lemma CreateFiles(c: Settings, w: World, d: Id, t: Id, body: Body)
    requires FilesOk(c, w) && RowsOk(w) && Draftable(w, d, body, t)
    requires forall f :: Publishable(w, d, body, f)
    ensures FilesOk(c, CreateTransfer(w, d, t, body)) && Evolves(w, CreateTransfer(w, d, t, body))
  {
    var v := CreateTransfer(w, d, t, body);
    AllKnown(c, w);
    forall g ensures FileOk(c, v, g) && FileEvolves(w, v, g) {
      assert FileOk(c, w, g) && Publishable(w, d, body, g);
      if g in w.files && w.files[g].parent.InTransfer? { assert LinkOk(w, w.files[g].parent.transfer); }
    }
    forall e ensures DraftEvolves(w, v, e) {}
    forall u ensures LinkEvolves(w, v, u) {}
  }

  lemma CreateRows(c: Settings, w: World, d: Id, t: Id, body: Body)
    requires RowsOk(w) && Draftable(w, d, body, t)
    ensures RowsOk(CreateTransfer(w, d, t, body))
  {
    var v := CreateTransfer(w, d, t, body);
    assert DraftOk(w, d);
    forall e ensures DraftOk(v, e) { assert DraftOk(w, e); }
    forall u ensures LinkOk(v, u) { assert LinkOk(w, u); }
    forall u, u' | SameOrigin(v, u, u') ensures u == u' {
      assert LinkOk(w, u) && LinkOk(w, u');
      if u != t && u' != t { assert SameOrigin(w, u, u'); }
    }
  }

  lemma CreateKeeps(c: Settings, w: World, d: Id, t: Id, body: Body)
    requires Inv(c, w) && Draftable(w, d, body, t)
    requires forall f :: Publishable(w, d, body, f)
    ensures Evolves(w, CreateTransfer(w, d, t, body)) && Inv(c, CreateTransfer(w, d, t, body))
  {
    var v := CreateTransfer(w, d, t, body);
    AllKnown(c, w);
    CreateFiles(c, w, d, t, body);
    CreateRows(c, w, d, t, body);
    UsesStay(w, v);
    SweepsStay(w, v);
    forall g | g in v.importing ensures ImportUndisturbed(w, v, g) {
      assert ImportOk(w, g) && Publishable(w, d, body, g);
    }
    ImportsStay(w, v);
    StampsStay(w, v);
    forall e | e in v.polls ensures e in v.drafts { assert PollOk(w, e); }
    PollsStay(w, v);
  }

  // --- The answer ---

  /** What the checks of a finalize that answers 200 imply for the rows as they are now. */
  lemma CreatedIsPublishable(c: Settings, w: World, d: Id, p: Poll, f: Id)
    requires FilesOk(c, w) && RowsOk(w) && Locked(w, d, p) && w.drafts[d].key == p.body.key
    requires !ShapeRefused(p) && FinalizeAnswer(c, p, w.drafts[d].key) == Created
    ensures Publishable(ScansSubmitted(w, Submitting(c, p), Skipping(c, p)), d, p.body, f)
  {
    assert SnapOk(w, d, p, f) && FileOk(c, w, f) && DraftOk(w, d);
  }

  lemma SnapshotChoicesHold(c: Settings, w: World, d: Id, p: Poll, f: Id)
    requires FilesOk(c, w) && RowsOk(w) && Locked(w, d, p) && w.drafts[d].key == p.body.key
    requires !ShapeRefused(p)
    ensures f in Skipping(c, p) ==> ToSkip(c, w, d, f)
    ensures f in Submitting(c, p) ==> ToSubmit(w, d, f)
    ensures f in Starting(p) ==> ToStart(w, d, f)
  {
    assert SnapOk(w, d, p, f) && FileOk(c, w, f) && DraftOk(w, d);
  }

  lemma AnswerInPlace(c: Settings, w: World, d: Id, p: Poll, b: Id, t: Id, answer: Answer)
    requires Inv(c, w) && Locked(w, d, p) && w.drafts[d].key == p.body.key && b !in w.used && t !in w.used
    requires !ShapeRefused(p) && (answer == Created ==> FinalizeAnswer(c, p, w.drafts[d].key) == Created)
    ensures Evolves(w, Written(c, w, d, p, b, t, answer)) && Inv(c, Written(c, w, d, p, b, t, answer))
  {
    forall f
      ensures (f in Starting(p) ==> ToStart(w, d, f)) && (f in Skipping(c, p) ==> ToSkip(c, w, d, f))
      ensures f in Submitting(c, p) ==> ToSubmit(w, d, f)
    {
      SnapshotChoicesHold(c, w, d, p, f);
    }
    match answer
    case BadRequest => AllKnown(c, w); EvolvesReflexive(w);
    case StillImporting => BatchKeeps(c, w, d, Starting(p), b);
    case StillScanning => ScansKeep(c, w, d, Submitting(c, p), Skipping(c, p));
    case Created =>
      var v := ScansSubmitted(w, Submitting(c, p), Skipping(c, p));
      ScansKeep(c, w, d, Submitting(c, p), Skipping(c, p));
      forall f ensures Publishable(v, d, p.body, f) { CreatedIsPublishable(c, w, d, p, f); }
      CreateKeeps(c, v, d, t, p.body);
      EvolvesTransitive(w, v, CreateTransfer(v, d, t, p.body));
  }

  lemma AnswerKeeps(c: Settings, w: World, d: Id, b: Id, t: Id)
    requires Inv(c, w) && FinalizeEnabled(w, Answers(d, b, t))
    ensures Evolves(w, FinalizeWrite(c, w, d, b, t)) && Inv(c, FinalizeWrite(c, w, d, b, t))
  {
    var p, u := w.polls[d], Released(w, d);
    ReleaseKeeps(c, w, d);
    assert PollOk(w, d);
    forall f ensures SnapOk(u, d, p, f) { assert SnapOk(w, d, p, f); }
    var answer := FinalizeAnswer(c, p, w.drafts[d].key);
    if answer != BadRequest {
      ParkKeeps(c, u, d, p);
      AnswerInPlace(c, Parked(u, d, p.body), d, p, b, t, answer);
      EvolvesTransitive(w, u, Parked(u, d, p.body));
      EvolvesTransitive(w, Parked(u, d, p.body), FinalizeWrite(c, w, d, b, t));
    }
  }

  // --- The enqueue callback ---

  lemma SendKeeps(c: Settings, w: World, b: Id, f: Id, ok: bool)
    requires Inv(c, w) && b in w.batches && f in w.batches[b].todo
    ensures Evolves(w, BatchSend(w, b, f, ok)) && Inv(c, BatchSend(w, b, f, ok))
  {
    var v := BatchSend(w, b, f, ok);
    SameRowsKeep(c, w, v);
    AllKnown(c, w);
    assert Waits(w, b, f) && WaitOk(w, b, f);
    UsesStay(w, v);
    SweepsStay(w, v);
    forall g | g in v.importing ensures ImportUndisturbed(w, v, g) { assert ImportOk(w, g); }
    ImportsStay(w, v);
    forall e | e in v.polls ensures e in v.drafts { assert PollOk(w, e); }
    PollsStay(w, v);
    SendStamps(w, b, f, ok);
  }

  lemma SendStamps(w: World, b: Id, f: Id, ok: bool)
    requires StampsOk(w) && b in w.batches && f in w.batches[b].todo
    ensures StampsOk(BatchSend(w, b, f, ok))
  {
    var v := BatchSend(w, b, f, ok);
    assert Waits(w, b, f) && WaitOk(w, b, f);
    forall e, g ensures Waits(v, e, g) <==> Waits(w, e, g) && !(ok && g == f) {
      if Waits(w, e, f) { assert e == b; }
    }
    forall g ensures StampOk(v, g) {
      assert StampOk(w, g);
      if SomewhereWaits(w, g) {
        var e :| Waits(w, e, g);
        assert WaitOk(w, e, g);
        if !(ok && g == f) { assert Waits(v, e, g); }
      }
      if SomewhereWaits(v, g) { var e :| Waits(v, e, g); assert Waits(w, e, g); }
    }
    forall e, g ensures WaitOk(v, e, g) { assert WaitOk(w, e, g); }
    forall e, e', g | Waits(v, e, g) && Waits(v, e', g) ensures e == e' { assert Waits(w, e, g) && Waits(w, e', g); }
  }

  lemma EndRows(c: Settings, w: World, b: Id)
    requires FilesOk(c, w) && RowsOk(w) && b in w.batches
    ensures FilesOk(c, BatchEnd(w, b)) && RowsOk(BatchEnd(w, b)) && Evolves(w, BatchEnd(w, b))
  {
    var v := BatchEnd(w, b);
    AllKnown(c, w);
    forall g ensures FileOk(c, v, g) && FileEvolves(w, v, g) { assert FileOk(c, w, g); }
    forall e ensures DraftOk(v, e) { assert DraftOk(w, e); }
    forall t ensures LinkOk(v, t) { assert LinkOk(w, t); }
    forall t, u | SameOrigin(v, t, u) ensures t == u { assert SameOrigin(w, t, u); }
  }

  lemma EndStamps(w: World, b: Id)
    requires StampsOk(w) && b in w.batches && w.batches[b].todo == {}
    ensures StampsOk(BatchEnd(w, b))
  {
    var v := BatchEnd(w, b);
    forall e, g ensures Waits(v, e, g) <==> Waits(w, e, g) && e != b {}
    forall g ensures StampOk(v, g) {
      assert StampOk(w, g) && WaitOk(w, b, g);
      if g in w.batches[b].refused { assert Waits(w, b, g); }
      if SomewhereWaits(w, g) { var e :| Waits(w, e, g); if e != b { assert Waits(v, e, g); } }
      if SomewhereWaits(v, g) { var e :| Waits(v, e, g); assert Waits(w, e, g); }
    }
    forall e, g ensures WaitOk(v, e, g) { assert WaitOk(w, e, g); if g in w.batches[b].refused {
      assert Waits(w, b, g); }
    }
    forall e, e', g | Waits(v, e, g) && Waits(v, e', g) ensures e == e' { assert Waits(w, e, g) && Waits(w, e', g); }
  }

  lemma EndKeeps(c: Settings, w: World, b: Id)
    requires Inv(c, w) && b in w.batches && w.batches[b].todo == {}
    ensures Evolves(w, BatchEnd(w, b)) && Inv(c, BatchEnd(w, b))
  {
    var v := BatchEnd(w, b);
    EndRows(c, w, b);
    EndStamps(w, b);
    AllKnown(c, w);
    UsesStay(w, v);
    SweepsStay(w, v);
    forall g | g in v.importing ensures ImportUndisturbed(w, v, g) { assert ImportOk(w, g); }
    ImportsStay(w, v);
    forall e | e in v.polls ensures e in v.drafts { assert PollOk(w, e); }
    PollsStay(w, v);
  }
}
