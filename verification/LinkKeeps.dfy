/** Deactivation, purge and hard delete keep the invariant. */
module LinkKeeps {
  import opened Bytes
  import opened World
  import opened Steps
  import opened Invariant
  import opened Evolution

  // --- The elementary changes ---

  /** A row that moves forward, to a state its object and its purge agree with. */
  predicate Advances(w: World, t: Id, r: TransferRow, q: TransferRow) {
    && TransferEvolves(r, q)
    && (q.status == PendingFileDeletion <==> q.purgeAt.Some?)
    && q.status != Active && q.reason.Some?
    && (q.status == PendingFileDeletion ==> r.status == Active)
    && (q.status == Deactivated ==> t in w.wiped)
  }

  predicate Unguarded(w: World, t: Id) {
    t in w.transfers ==> !Guarded(w, t)
  }

  lemma SetRows(c: Settings, w: World, t: Id, row: TransferRow)
    requires FilesOk(c, w) && RowsOk(w) && t in w.transfers && Advances(w, t, w.transfers[t], row)
    ensures FilesOk(c, LinkSet(w, t, row)) && RowsOk(LinkSet(w, t, row)) && Evolves(w, LinkSet(w, t, row))
  {
    var v := LinkSet(w, t, row);
    AllKnown(c, w);
    forall g ensures FileOk(c, v, g) && FileEvolves(w, v, g) { assert FileOk(c, w, g); }
    forall e ensures DraftOk(v, e) { assert DraftOk(w, e); }
    forall t ensures LinkOk(v, t) { assert LinkOk(w, t); }
    forall t, u | SameOrigin(v, t, u) ensures t == u { assert SameOrigin(w, t, u); }
  }

  lemma SetKeeps(c: Settings, w: World, t: Id, row: TransferRow)
    requires Inv(c, w) && t in w.transfers && Advances(w, t, w.transfers[t], row)
    ensures Evolves(w, LinkSet(w, t, row)) && Inv(c, LinkSet(w, t, row))
  {
    var v := LinkSet(w, t, row);
    AllKnown(c, w);
    SetRows(c, w, t, row);
    UsesStay(w, v);
    SweepsStay(w, v);
    forall g | g in v.importing ensures ImportUndisturbed(w, v, g) { assert ImportOk(w, g); }
    ImportsStay(w, v);
    forall e | e in v.polls ensures e in v.drafts { assert PollOk(w, e); }
    PollsStay(w, v);
    StampsStay(w, v);
  }

  lemma AskRows(c: Settings, w: World, t: Id)
    requires FilesOk(c, w) && RowsOk(w) && t in w.used && (t in w.transfers ==> w.transfers[t].status != Active)
    ensures FilesOk(c, DestroyAsked(w, t)) && RowsOk(DestroyAsked(w, t)) && Evolves(w, DestroyAsked(w, t))
  {
    var v := DestroyAsked(w, t);
    AllKnown(c, w);
    forall g ensures FileOk(c, v, g) && FileEvolves(w, v, g) { assert FileOk(c, w, g); }
    forall e ensures DraftOk(v, e) { assert DraftOk(w, e); }
    forall t ensures LinkOk(v, t) { assert LinkOk(w, t); }
    forall t, u | SameOrigin(v, t, u) ensures t == u { assert SameOrigin(w, t, u); }
  }

  lemma AskKeeps(c: Settings, w: World, t: Id)
    requires Inv(c, w) && t in w.used && (t in w.transfers ==> w.transfers[t].status != Active)
    ensures Evolves(w, DestroyAsked(w, t)) && Inv(c, DestroyAsked(w, t))
  {
    var v := DestroyAsked(w, t);
    AllKnown(c, w);
    AskRows(c, w, t);
    UsesStay(w, v);
    SweepsStay(w, v);
    forall g | g in v.importing ensures ImportUndisturbed(w, v, g) { assert ImportOk(w, g); }
    ImportsStay(w, v);
    forall e | e in v.polls ensures e in v.drafts { assert PollOk(w, e); }
    PollsStay(w, v);
    StampsStay(w, v);
  }

  lemma DeleteRows(c: Settings, w: World, t: Id, kept: set<Id>)
    requires FilesOk(c, w) && RowsOk(w) && Unguarded(w, t)
    ensures FilesOk(c, DeleteObjects(w, FilesOf(w, InTransfer(t)), kept))
    ensures RowsOk(DeleteObjects(w, FilesOf(w, InTransfer(t)), kept))
    ensures Evolves(w, DeleteObjects(w, FilesOf(w, InTransfer(t)), kept))
  {
    var v := DeleteObjects(w, FilesOf(w, InTransfer(t)), kept);
    AllKnown(c, w);
    forall g ensures FileOk(c, v, g) && FileEvolves(w, v, g) { assert FileOk(c, w, g); }
    forall e ensures DraftOk(v, e) { assert DraftOk(w, e); }
    forall t ensures LinkOk(v, t) { assert LinkOk(w, t); }
    forall t, u | SameOrigin(v, t, u) ensures t == u { assert SameOrigin(w, t, u); }
  }

  lemma DeleteKeeps(c: Settings, w: World, t: Id, kept: set<Id>)
    requires Inv(c, w) && Unguarded(w, t)
    ensures Evolves(w, DeleteObjects(w, FilesOf(w, InTransfer(t)), kept))
    ensures Inv(c, DeleteObjects(w, FilesOf(w, InTransfer(t)), kept))
  {
    var v := DeleteObjects(w, FilesOf(w, InTransfer(t)), kept);
    AllKnown(c, w);
    DeleteRows(c, w, t, kept);
    UsesStay(w, v);
    SweepsStay(w, v);
    forall g | g in v.importing ensures ImportUndisturbed(w, v, g) { assert ImportOk(w, g); }
    ImportsStay(w, v);
    forall e | e in v.polls ensures e in v.drafts { assert PollOk(w, e); }
    PollsStay(w, v);
    StampsStay(w, v);
  }

  lemma DropRows(c: Settings, w: World, t: Id)
    requires FilesOk(c, w) && RowsOk(w)
    ensures FilesOk(c, DropTransfer(w, t)) && RowsOk(DropTransfer(w, t)) && Evolves(w, DropTransfer(w, t))
  {
    var v := DropTransfer(w, t);
    AllKnown(c, w);
    forall g ensures FileOk(c, v, g) && FileEvolves(w, v, g) { assert FileOk(c, w, g); }
    forall e ensures DraftOk(v, e) { assert DraftOk(w, e); }
    forall t ensures LinkOk(v, t) { assert LinkOk(w, t); }
    forall t, u | SameOrigin(v, t, u) ensures t == u { assert SameOrigin(w, t, u); }
  }

  lemma DropKeeps(c: Settings, w: World, t: Id)
    requires Inv(c, w)
    ensures Evolves(w, DropTransfer(w, t)) && Inv(c, DropTransfer(w, t))
  {
    var v := DropTransfer(w, t);
    AllKnown(c, w);
    DropRows(c, w, t);
    UsesStay(w, v);
    SweepsStay(w, v);
    forall g | g in v.importing ensures ImportUndisturbed(w, v, g) { assert ImportOk(w, g); }
    ImportsStay(w, v);
    forall e | e in v.polls ensures e in v.drafts { assert PollOk(w, e); }
    PollsStay(w, v);
    StampsStay(w, v);
  }

  /** What a purge may note: due transfers only, and as wiped only those without objects. */
  ghost predicate Markable(w: World, purging: set<Id>, wiped: set<Id>) {
    && wiped <= purging <= w.used
    && (forall t :: t in purging ==> t in w.purging || PurgeDue(w, t))
    && (forall t, f :: t in wiped && f in w.files && w.files[f].parent == InTransfer(t) ==> f !in w.bucket)
  }

  lemma MarkRows(c: Settings, w: World, purging: set<Id>, wiped: set<Id>)
    requires FilesOk(c, w) && RowsOk(w) && Markable(w, purging, wiped)
    ensures FilesOk(c, Marked(w, purging, wiped)) && RowsOk(Marked(w, purging, wiped))
    ensures Evolves(w, Marked(w, purging, wiped))
  {
    var v := Marked(w, purging, wiped);
    AllKnown(c, w);
    forall g ensures FileOk(c, v, g) && FileEvolves(w, v, g) { assert FileOk(c, w, g); }
    forall e ensures DraftOk(v, e) { assert DraftOk(w, e); }
    forall t ensures LinkOk(v, t) { assert LinkOk(w, t); }
    forall t, u | SameOrigin(v, t, u) ensures t == u { assert SameOrigin(w, t, u); }
  }

  lemma MarkKeeps(c: Settings, w: World, purging: set<Id>, wiped: set<Id>)
    requires Inv(c, w) && Markable(w, purging, wiped)
    ensures Evolves(w, Marked(w, purging, wiped)) && Inv(c, Marked(w, purging, wiped))
  {
    var v := Marked(w, purging, wiped);
    AllKnown(c, w);
    MarkRows(c, w, purging, wiped);
    UsesStay(w, v);
    SweepsStay(w, v);
    forall g | g in v.importing ensures ImportUndisturbed(w, v, g) { assert ImportOk(w, g); }
    ImportsStay(w, v);
    forall e | e in v.polls ensures e in v.drafts { assert PollOk(w, e); }
    PollsStay(w, v);
    StampsStay(w, v);
  }

  // --- The steps ---

  lemma DeactivateKeeps(c: Settings, w: World, t: Id, reason: Reason)
    requires Inv(c, w) && t in w.transfers
    ensures Evolves(w, Deactivate(c, w, t, reason)) && Inv(c, Deactivate(c, w, t, reason))
  {
    if w.transfers[t].status == Active {
      var row := w.transfers[t].(status := PendingFileDeletion, reason := Some(reason),
                                 purgeAt := Some(w.now + c.purgeDelay));
      assert LinkOk(w, t) && Advances(w, t, w.transfers[t], row);
      SetKeeps(c, w, t, row);
    } else {
      AllKnown(c, w);
      EvolvesReflexive(w);
    }
  }

  lemma PurgeReadKeeps(c: Settings, w: World)
    requires Inv(c, w)
    ensures Evolves(w, PurgeRead(w)) && Inv(c, PurgeRead(w))
  {
    var due := set t | t in w.transfers && PurgeDue(w, t);
    forall t | t in due ensures t in w.used { assert LinkOk(w, t); }
    forall t, f | t in w.wiped && f in w.files && w.files[f].parent == InTransfer(t) ensures f !in w.bucket {
      assert FileOk(c, w, f);
    }
    MarkKeeps(c, w, w.purging + due, w.wiped);
  }

  lemma WipeKeeps(c: Settings, w: World, t: Id, kept: set<Id>)
    requires Inv(c, w) && t in w.purging
    ensures Evolves(w, PurgeWipe(w, t, kept)) && Inv(c, PurgeWipe(w, t, kept))
  {
    var files := FilesOf(w, InTransfer(t));
    var v := DeleteObjects(w, files, kept);
    assert LinkOk(w, t);
    DeleteKeeps(c, w, t, kept);
    forall u, f | u in w.wiped && f in v.files && v.files[f].parent == InTransfer(u) ensures f !in v.bucket {
      assert FileOk(c, v, f);
    }
    if files !! kept {
      MarkKeeps(c, v, w.purging, w.wiped + {t});
    } else {
      MarkKeeps(c, v, w.purging - {t}, w.wiped - {t});
    }
    EvolvesTransitive(w, v, PurgeWipe(w, t, kept));
  }

  lemma FlipKeeps(c: Settings, w: World, t: Id)
    requires Inv(c, w) && t in w.wiped
    ensures Evolves(w, PurgeFlip(w, t)) && Inv(c, PurgeFlip(w, t))
  {
    AllKnown(c, w);
    EvolvesReflexive(w);
    var v := if t in w.transfers then LinkSet(w, t, w.transfers[t].(status := Deactivated, purgeAt := None)) else w;
    assert LinkOk(w, t);
    if t in w.transfers { SetKeeps(c, w, t, w.transfers[t].(status := Deactivated, purgeAt := None)); }
    forall u, f | u in w.wiped && f in v.files && v.files[f].parent == InTransfer(u) ensures f !in v.bucket {
      assert FileOk(c, v, f);
    }
    MarkKeeps(c, v, w.purging - {t}, w.wiped - {t});
    EvolvesTransitive(w, v, PurgeFlip(w, t));
  }

  lemma DestroyKeeps(c: Settings, w: World, t: Id, kept: set<Id>)
    requires Inv(c, w) && t in w.transfers
    ensures Evolves(w, Destroy(w, t, kept)) && Inv(c, Destroy(w, t, kept))
  {
    AllKnown(c, w);
    EvolvesReflexive(w);
    assert LinkOk(w, t);
    match w.transfers[t].status
    case Active =>
    case Deactivated => DropKeeps(c, w, t);
    case PendingFileDeletion =>
      var asked := DestroyAsked(w, t);
      var deleted := DeleteObjects(asked, FilesOf(asked, InTransfer(t)), kept);
      assert FilesOf(asked, InTransfer(t)) == FilesOf(w, InTransfer(t));
      AskKeeps(c, w, t);
      DeleteKeeps(c, asked, t, kept);
      EvolvesTransitive(w, asked, deleted);
      DropKeeps(c, deleted, t);
      EvolvesTransitive(w, deleted, DropTransfer(deleted, t));
  }
}
