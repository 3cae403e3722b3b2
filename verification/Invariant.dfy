/** What every step of the backend keeps, one predicate an entity. */
module Invariant {
  import opened Bytes
  import opened World

  // --- Rows ---

  /** Bytes of a live link: ACTIVE, or in its grace window, and never asked to be hard-deleted. */
  predicate Guarded(w: World, t: Id) {
    && t in w.transfers && t !in w.destroyAsked
    && match w.transfers[t].status
       case Active => true
       case PendingFileDeletion => w.transfers[t].purgeAt.Some? && w.transfers[t].purgeAt.value > w.now
       case Deactivated => false
  }

  /** The wipe of t was complete. */
  predicate Emptied(w: World, t: Id) {
    t in w.wiped || (t in w.transfers && w.transfers[t].status == Deactivated)
  }

  predicate ParentOk(w: World, f: Id, r: FileRow) {
    match r.parent
    case InDraft(d) => d in w.drafts && d == r.home
    case InTransfer(t) =>
      t in w.transfers && w.transfers[t].origin == r.home && (w.transfers[t].confidential ==> !r.drive)
  }

  /** The row of a file and the object behind it. */
  predicate BytesOk(w: World, f: Id, r: FileRow) {
    && f in w.used && r.createdAt <= w.now
    && (f in w.bucket ==> r.createdAt <= w.bucket[f])
    && match r.parent
       case InDraft(_) => r.completed ==> f in w.bucket
       case InTransfer(t) => r.completed && (Guarded(w, t) ==> f in w.bucket) && (Emptied(w, t) ==> f !in w.bucket)
  }

  predicate ScanOk(c: Settings, keyed: bool, r: FileRow) {
    && (!r.completed ==> r.scan == Pending && !r.submitted)
    && (r.scan != ScanError ==> r.kind == NoKind)
    && (!c.scanEnabled && r.completed ==> r.scan == Skipped)
    && (!keyed ==> r.scan == Pending || r.scan == Skipped || r.scan == TooLarge)
    && (r.parent.InTransfer? ==> Exempt(r.scan))
  }

  predicate FileOk(c: Settings, w: World, f: Id) {
    f in w.files ==>
      && ParentOk(w, f, w.files[f]) && BytesOk(w, f, w.files[f])
      && ScanOk(c, w.files[f].home in w.firstKey, w.files[f])
  }

  predicate DraftOk(w: World, d: Id) {
    && (d in w.drafts ==>
          && d in w.used && w.drafts[d].createdAt <= w.now
          && (w.drafts[d].key == "" ==> d !in w.firstKey)
          && (w.drafts[d].key != "" ==> d in w.firstKey && w.firstKey[d] == w.drafts[d].key))
    && (d in w.firstKey ==> d in w.used && w.firstKey[d] != "")
  }

  predicate LinkOk(w: World, t: Id) {
    t in w.transfers ==>
      var r := w.transfers[t];
      && t in w.used && r.origin in w.used && r.origin !in w.drafts
      && (r.reason == None <==> r.status == Active) && (r.status == Active ==> t !in w.destroyAsked)
      && (r.purgeAt.Some? <==> r.status == PendingFileDeletion)
      && (r.confidential ==> r.key == "" && r.origin !in w.firstKey)
      && (!r.confidential ==> r.key != "" && r.origin in w.firstKey && w.firstKey[r.origin] == r.key)
      && (t in w.purging ==> r.status != Active && (r.status == PendingFileDeletion ==> r.purgeAt.value <= w.now))
  }

  predicate SameOrigin(w: World, t: Id, u: Id) {
    t in w.transfers && u in w.transfers && w.transfers[t].origin == w.transfers[u].origin
  }

  // --- Workers ---

  /** A key was used only if it is the one first parked on the file's draft. */
  predicate UseOk(w: World, u: Use) {
    && u.file in w.used
    && u.home in w.firstKey && w.firstKey[u.home] == u.key
    && (u.file in w.files ==> w.files[u.file].home == u.home)
  }

  /** A scan job was only ever submitted for a file whose bytes had landed. */
  predicate JobOk(w: World, u: Use) {
    UseOk(w, u) && (u.file in w.files ==> w.files[u.file].completed)
  }

  predicate ImportMessageOk(w: World, f: Id) {
    f in w.used && (f in w.files ==> w.files[f].drive)
  }

  predicate ScanMessageOk(w: World, f: Id) {
    f in w.used && (f in w.files ==> w.files[f].completed)
  }

  predicate ImportOk(w: World, f: Id) {
    f in w.importing ==>
      var i := w.importing[f];
      && f in w.used && i.home in w.used
      && (i.key != "" ==> i.home in w.firstKey && w.firstKey[i.home] == i.key)
      && (i.landed ==> i.key != "")
      && (f in w.files ==>
            && w.files[f].home == i.home && w.files[f].drive && !w.files[f].completed && w.files[f].parent.InDraft?
            && (i.landed ==> f in w.bucket))
  }

  // --- Snapshots ---

  /** One row of a finalize in progress, as read, against the row now. */
  predicate SnapOk(w: World, d: Id, p: Poll, f: Id) {
    && (f in p.rows <==> f in w.files && w.files[f].parent == InDraft(d))
    && (f in p.rows ==>
          var snap, r := p.rows[f], w.files[f];
          && snap.parent == r.parent && snap.home == r.home && snap.drive == r.drive
          && (snap.completed ==> r.completed)
          && (Settled(snap) ==> r.scan == snap.scan && r.kind == snap.kind)
          && (d !in w.firstKey && !snap.drive ==> r.scan == snap.scan && r.kind == snap.kind)
          && (r.importStarted ==> snap.importStarted))
  }

  ghost predicate PollOk(w: World, d: Id) {
    d in w.polls ==> d in w.drafts && w.polls[d].body.Accepted() && forall f :: SnapOk(w, d, w.polls[d], f)
  }

  predicate KnownOk(w: World, s: Sweep, f: Id) {
    && (f in w.files && f !in s.known ==> w.files[f].createdAt >= s.start)
    && (f in s.batch ==> f in w.used && f !in w.files)
  }

  ghost predicate SweepOk(w: World, s: Id) {
    s in w.sweeps ==>
      && w.sweeps[s].start <= w.now
      && w.sweeps[s].cutoff.Some? && w.sweeps[s].cutoff.value < w.sweeps[s].start
      && forall f :: KnownOk(w, w.sweeps[s], f)
  }

  // --- Import bookkeeping ---

  predicate Waits(w: World, b: Id, f: Id) {
    b in w.batches && (f in w.batches[b].todo || f in w.batches[b].refused)
  }

  /** An enqueue still to be made or undone: nothing was accepted yet, and the stamp is on. */
  predicate WaitOk(w: World, b: Id, f: Id) {
    Waits(w, b, f) ==>
      && f !in w.accepted && f in w.used
      && (f in w.files ==> w.files[f].importStarted && w.files[f].drive)
      && !(f in w.batches[b].todo && f in w.batches[b].refused)
  }

  ghost predicate SomewhereWaits(w: World, f: Id) {
    exists b :: Waits(w, b, f)
  }

  /** At most one message accepted and alive, and the stamp is on exactly when one was accepted or is still to be. */
  ghost predicate StampOk(w: World, f: Id) {
    && w.importQueue[f] + (if f in w.importing then 1 else 0) <= w.accepted[f] <= 1
    && (f in w.files ==> (w.files[f].importStarted <==> f in w.accepted || SomewhereWaits(w, f)))
  }

  // --- Groups ---

  ghost predicate FilesOk(c: Settings, w: World) {
    forall f :: FileOk(c, w, f)
  }

  ghost predicate RowsOk(w: World) {
    && (forall d :: DraftOk(w, d))
    && (forall t :: LinkOk(w, t))
    && (forall t, u :: SameOrigin(w, t, u) ==> t == u)
    && w.wiped <= w.purging <= w.used && w.bucket.Keys <= w.used && w.destroyAsked <= w.used
  }

  ghost predicate UsesOk(w: World) {
    && (forall u :: u in w.jobs ==> JobOk(w, u))
    && (forall u :: u in w.submitting ==> JobOk(w, u))
    && (forall u :: u in w.sealings ==> UseOk(w, u))
    && (forall f :: f in w.accepted ==> ImportMessageOk(w, f))
    && (forall f :: f in w.scanQueue ==> ScanMessageOk(w, f))
  }

  ghost predicate ImportsOk(w: World) {
    forall f :: ImportOk(w, f)
  }

  ghost predicate PollsOk(w: World) {
    forall d :: PollOk(w, d)
  }

  ghost predicate SweepsOk(w: World) {
    forall s :: SweepOk(w, s)
  }

  ghost predicate StampsOk(w: World) {
    && (forall f :: StampOk(w, f))
    && (forall b, f :: WaitOk(w, b, f))
    && (forall b, e, f :: Waits(w, b, f) && Waits(w, e, f) ==> b == e)
    && w.batches.Keys <= w.used
  }

  ghost predicate Inv(c: Settings, w: World) {
    FilesOk(c, w) && RowsOk(w) && UsesOk(w) && ImportsOk(w) && PollsOk(w) && SweepsOk(w) && StampsOk(w)
  }

  lemma EmptyInv(c: Settings)
    ensures Inv(c, EMPTY_WORLD)
  {}
}
