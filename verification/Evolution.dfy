/** How any state relates to any later one: what only grows, what never comes back, what never changes again. */
module Evolution {
  import opened Bytes
  import opened World
  import opened Invariant

  /** A file row later on: same file, upload and verdict not undone, published at most once. */
  predicate RowEvolves(r: FileRow, q: FileRow) {
    && q.home == r.home && q.drive == r.drive && q.overScanCap == r.overScanCap && q.createdAt == r.createdAt
    && (r.completed ==> q.completed)
    && (Settled(r) ==> q.scan == r.scan && q.kind == r.kind)
    && (q.parent == r.parent || (r.parent.InDraft? && q.parent.InTransfer?))
  }

  function Phase(s: TransferStatus): nat {
    match s
    case Active => 0
    case PendingFileDeletion => 1
    case Deactivated => 2
  }

  /** A transfer row later on: the status only moves forward, the first reason and deadline stay. */
  predicate TransferEvolves(r: TransferRow, q: TransferRow) {
    && q.origin == r.origin && q.key == r.key && q.confidential == r.confidential && q.expiresAt == r.expiresAt
    && Phase(r.status) <= Phase(q.status)
    && (r.status != Active ==> q.reason == r.reason)
    && (q.status == r.status ==> q.purgeAt == r.purgeAt)
  }

  /** Rows do not come back: an id once used and gone stays gone. */
  predicate FileEvolves(w: World, v: World, f: Id) {
    f in v.files ==>
      if f in w.used then f in w.files && RowEvolves(w.files[f], v.files[f]) else v.files[f].createdAt >= w.now
  }

  predicate DraftEvolves(w: World, v: World, d: Id) {
    && (d in w.used && d in v.drafts ==>
          && d in w.drafts && v.drafts[d].createdAt == w.drafts[d].createdAt
          && (w.drafts[d].key != "" ==> v.drafts[d].key == w.drafts[d].key))
    && (d in w.firstKey ==> d in v.firstKey && v.firstKey[d] == w.firstKey[d])
  }

  /** A new transfer comes from a draft that is still there, or still to come. */
  predicate LinkEvolves(w: World, v: World, t: Id) {
    t in v.transfers ==>
      if t in w.used then t in w.transfers && TransferEvolves(w.transfers[t], v.transfers[t])
      else v.transfers[t].origin in w.drafts || v.transfers[t].origin !in w.used
  }

  ghost predicate Evolves(w: World, v: World) {
    && w.now <= v.now && w.used <= v.used
    && (forall f :: FileEvolves(w, v, f))
    && (forall d :: DraftEvolves(w, v, d))
    && (forall t :: LinkEvolves(w, v, t))
    && w.accepted <= v.accepted && w.jobs <= v.jobs && w.sealings <= v.sealings && w.destroyAsked <= v.destroyAsked
  }

  predicate Known(w: World) {
    w.files.Keys <= w.used && w.transfers.Keys <= w.used
  }

  lemma AllKnown(c: Settings, w: World)
    requires FilesOk(c, w) && RowsOk(w)
    ensures Known(w)
  {
    forall f | f in w.files ensures f in w.used { assert FileOk(c, w, f); }
    forall t | t in w.transfers ensures t in w.used { assert LinkOk(w, t); }
  }

  lemma EvolvesReflexive(w: World)
    requires Known(w)
    ensures Evolves(w, w)
  {}

  lemma EvolvesTransitive(w: World, v: World, x: World)
    requires Evolves(w, v) && Evolves(v, x)
    ensures Evolves(w, x)
  {
    forall f ensures FileEvolves(w, x, f) { assert FileEvolves(w, v, f) && FileEvolves(v, x, f); }
    forall d ensures DraftEvolves(w, x, d) { assert DraftEvolves(w, v, d) && DraftEvolves(v, x, d); }
    forall t ensures LinkEvolves(w, x, t) {
      assert LinkEvolves(w, v, t) && LinkEvolves(v, x, t);
      if t in x.transfers { assert DraftEvolves(w, v, x.transfers[t].origin); }
    }
  }

  // --- What stays true of worker state just because the rest evolves ---

  lemma UseStays(w: World, v: World, u: Use)
    requires Evolves(w, v) && UseOk(w, u)
    ensures UseOk(v, u)
    ensures JobOk(w, u) ==> JobOk(v, u)
  {
    assert FileEvolves(w, v, u.file) && DraftEvolves(w, v, u.home);
  }

  lemma MessagesStay(w: World, v: World, f: Id)
    requires Evolves(w, v)
    ensures ImportMessageOk(w, f) ==> ImportMessageOk(v, f)
    ensures ScanMessageOk(w, f) ==> ScanMessageOk(v, f)
  {
    assert FileEvolves(w, v, f);
  }

  lemma UsesStay(w: World, v: World)
    requires Evolves(w, v) && UsesOk(w)
    requires forall u :: u in v.jobs ==> u in w.jobs || JobOk(w, u)
    requires forall u :: u in v.submitting ==> u in w.submitting || JobOk(w, u)
    requires forall u :: u in v.sealings ==> u in w.sealings || UseOk(w, u)
    requires forall f :: f in v.accepted ==> f in w.accepted || ImportMessageOk(w, f)
    requires forall f :: f in v.scanQueue ==> f in w.scanQueue || ScanMessageOk(w, f)
    ensures UsesOk(v)
  {
    forall u | u in v.jobs ensures JobOk(v, u) { assert JobOk(w, u); UseStays(w, v, u); }
    forall u | u in v.submitting ensures JobOk(v, u) { assert JobOk(w, u); UseStays(w, v, u); }
    forall u | u in v.sealings ensures UseOk(v, u) { assert UseOk(w, u); UseStays(w, v, u); }
    forall f | f in v.accepted ensures ImportMessageOk(v, f) { assert ImportMessageOk(w, f); MessagesStay(w, v, f); }
    forall f | f in v.scanQueue ensures ScanMessageOk(v, f) { assert ScanMessageOk(w, f); MessagesStay(w, v, f); }
  }

  lemma SweepsStay(w: World, v: World)
    requires Evolves(w, v) && SweepsOk(w) && v.sweeps == w.sweeps
    ensures SweepsOk(v)
  {
    forall s ensures SweepOk(v, s) {
      assert SweepOk(w, s);
      if s in v.sweeps {
        forall f ensures KnownOk(v, v.sweeps[s], f) { assert KnownOk(w, w.sweeps[s], f) && FileEvolves(w, v, f); }
      }
    }
  }

  /**
   A file still being imported keeps what its import relies on, if its row is still in the draft and its object
   is not taken.
   */
  predicate ImportUndisturbed(w: World, v: World, f: Id) {
    f in w.importing ==>
      && f in v.importing && v.importing[f] == w.importing[f]
      && (f in v.files && f in w.files ==>
            !v.files[f].completed && v.files[f].parent == w.files[f].parent && (f in w.bucket ==> f in v.bucket))
  }

  lemma ImportStays(w: World, v: World, f: Id)
    requires Evolves(w, v) && ImportOk(w, f) && f in w.importing && ImportUndisturbed(w, v, f)
    ensures ImportOk(v, f)
  {
    assert FileEvolves(w, v, f) && DraftEvolves(w, v, w.importing[f].home);
  }

  /** What other actors may do to a draft while a finalize holds its lock. */
  predicate LockRespected(w: World, v: World, d: Id, f: Id) {
    && (f in v.files && v.files[f].parent == InDraft(d) <==> f in w.files && w.files[f].parent == InDraft(d))
    && (f in v.files && f in w.files && w.files[f].parent == InDraft(d) ==>
          && (v.files[f].importStarted ==> w.files[f].importStarted)
          && (d !in v.firstKey && !w.files[f].drive ==>
              v.files[f].scan == w.files[f].scan && v.files[f].kind == w.files[f].kind))
  }

  lemma PollStays(w: World, v: World, d: Id)
    requires Evolves(w, v) && PollOk(w, d) && Known(w)
    requires d in w.polls && d in v.polls && v.polls[d] == w.polls[d] && d in v.drafts
    requires forall f :: LockRespected(w, v, d, f)
    ensures PollOk(v, d)
  {
    forall f ensures SnapOk(v, d, v.polls[d], f) {
      assert SnapOk(w, d, w.polls[d], f) && LockRespected(w, v, d, f) && FileEvolves(w, v, f) && DraftEvolves(w, v, d);
    }
  }

  lemma ImportsStay(w: World, v: World)
    requires Evolves(w, v) && ImportsOk(w) && v.importing.Keys <= w.importing.Keys
    requires forall f :: f in v.importing ==> ImportUndisturbed(w, v, f)
    ensures ImportsOk(v)
  {
    forall f ensures ImportOk(v, f) {
      if f in v.importing { assert ImportOk(w, f) && ImportUndisturbed(w, v, f); ImportStays(w, v, f); }
    }
  }

  lemma PollsStay(w: World, v: World)
    requires Evolves(w, v) && PollsOk(w) && Known(w)
    requires forall d :: d in v.polls ==> d in w.polls && v.polls[d] == w.polls[d] && d in v.drafts
    requires forall d, f :: d in v.polls ==> LockRespected(w, v, d, f)
    ensures PollsOk(v)
  {
    forall d ensures PollOk(v, d) {
      if d in v.polls { assert PollOk(w, d); PollStays(w, v, d); }
    }
  }

  /** The import bookkeeping is untouched, but for rows added or gone. */
  predicate StampKept(w: World, v: World, f: Id) {
    f in v.files ==>
      if f in w.files
      then v.files[f].importStarted == w.files[f].importStarted && v.files[f].drive == w.files[f].drive
                     else f !in w.used && !v.files[f].importStarted
  }

  lemma StampsStay(w: World, v: World)
    requires StampsOk(w) && UsesOk(w)
    requires v.accepted == w.accepted && v.batches == w.batches && w.used <= v.used
    requires forall f ::
        v.importQueue[f] + (if f in v.importing then 1 else 0) <= w.importQueue[f] + (if f in w.importing then 1 else 0)
    requires forall f :: StampKept(w, v, f)
    ensures StampsOk(v)
  {
    forall f ensures StampOk(v, f) {
      assert StampOk(w, f) && StampKept(w, v, f);
      if f in w.accepted { assert ImportMessageOk(w, f); }
      SameWaits(w, v, f);
      if SomewhereWaits(w, f) { var b :| Waits(w, b, f); assert WaitOk(w, b, f); }
    }
    forall b, f ensures WaitOk(v, b, f) {
      assert Waits(v, b, f) == Waits(w, b, f) && WaitOk(w, b, f) && StampKept(w, v, f);
    }
    forall b, e, f | Waits(v, b, f) && Waits(v, e, f) ensures b == e { assert Waits(w, b, f) && Waits(w, e, f); }
  }

  lemma SameWaits(w: World, v: World, f: Id)
    requires v.batches == w.batches
    ensures SomewhereWaits(v, f) <==> SomewhereWaits(w, f)
  {
    if SomewhereWaits(w, f) { var b :| Waits(w, b, f); assert Waits(v, b, f); }
    if SomewhereWaits(v, f) { var b :| Waits(v, b, f); assert Waits(w, b, f); }
  }

  /** Only queues, batches, snapshots and worker state differ. */
  predicate SameRows(w: World, v: World) {
    && v.now == w.now && v.used == w.used && v.drafts == w.drafts && v.files == w.files && v.transfers == w.transfers
    && v.bucket == w.bucket && v.firstKey == w.firstKey && v.destroyAsked == w.destroyAsked
    && v.purging == w.purging && v.wiped == w.wiped
    && w.accepted <= v.accepted && w.jobs <= v.jobs && w.sealings <= v.sealings
  }

  lemma SameRowsKeep(c: Settings, w: World, v: World)
    requires FilesOk(c, w) && RowsOk(w) && SameRows(w, v)
    ensures FilesOk(c, v) && RowsOk(v) && Evolves(w, v)
  {
    AllKnown(c, w);
    forall f ensures FileOk(c, v, f) { assert FileOk(c, w, f); }
    forall d ensures DraftOk(v, d) { assert DraftOk(w, d); }
    forall t ensures LinkOk(v, t) { assert LinkOk(w, t); }
    forall t, u | SameOrigin(v, t, u) ensures t == u { assert SameOrigin(w, t, u); }
  }
}
