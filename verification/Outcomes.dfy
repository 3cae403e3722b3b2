/** What finalizes, links and the download view promise, from the request to every later state. */
module Outcomes {
  import opened Bytes
  import opened World
  import opened Steps
  import opened Invariant
  import opened Evolution
  import opened Guarantees
  import opened RowFacts
  import Backend

  // --- What a finalize answers ---

  /** A draft's rows as a request may publish them: nothing missing, nothing failed, nothing it must not mix. */
  predicate WellFormed(p: Poll, parked: string) {
    && p.rows != map[]
    && (forall f <- p.rows :: if p.rows[f].drive then !p.body.confidential && !p.rows[f].importFailed
                              else p.rows[f].completed)
    && (parked == "" || (!p.body.confidential && p.body.key == parked))
  }

  predicate AllLanded(p: Poll) {
    forall f <- p.rows :: p.rows[f].completed
  }

  /** Each answer, as a condition on the rows read: which checks come first makes no difference. */
  lemma FinalizeAnswersExactly(c: Settings, p: Poll, parked: string)
    ensures FinalizeAnswer(c, p, parked) == StillImporting <==> WellFormed(p, parked) && !AllLanded(p)
    ensures FinalizeAnswer(c, p, parked) == Created <==>
              && WellFormed(p, parked) && AllLanded(p)
              && (c.scanEnabled ==>
                    forall f <- p.rows ::
                      || p.rows[f].scan in {Clean, Skipped, TooLarge, Unscannable}
                      || (p.body.confidential && p.rows[f].scan == Pending))
    ensures FinalizeAnswer(c, p, parked) == StillScanning <==>
              && WellFormed(p, parked) && AllLanded(p) && c.scanEnabled && !p.body.confidential
              && (forall f <- p.rows :: p.rows[f].scan != Infected && p.rows[f].scan != ScanError)
              && (exists f <- p.rows :: p.rows[f].scan == Pending)
  {
    if exists f <- p.rows :: StillScans(c, p, f) {
      var f :| f in p.rows && StillScans(c, p, f);
      assert p.rows[f].scan == Pending;
    }
    if f :| f in p.rows && p.rows[f].scan == Pending && !p.body.confidential { assert StillScans(c, p, f); }
    if f :| f in p.rows && (p.rows[f].scan == Infected || p.rows[f].scan == ScanError) { assert Blocks(p, f); }
  }

  /** Whatever is not refused parks the key it was sent, for good. */
  lemma AnswerParksTheKey(c: Settings, w: World, d: Id, b: Id, t: Id)
    requires Reachable(c, w) && FinalizeEnabled(w, Answers(d, b, t)) && !w.polls[d].body.confidential
    requires FinalizeAnswer(c, w.polls[d], w.drafts[d].key) != BadRequest
    ensures var v := FinalizeWrite(c, w, d, b, t); d in v.firstKey && v.firstKey[d] == w.polls[d].body.key
  {
    ReachableInv(c, w);
    assert DraftOk(w, d);
    var p, u := w.polls[d], w.(polls := w.polls - {d});
    var answer := FinalizeAnswer(c, p, w.drafts[d].key);
    assert Parked(u, d, p.body).firstKey[d] == p.body.key;
    FinalizeKept(c, Parked(u, d, p.body), d, p, b, t, answer);
  }

  lemma FinalizeKept(c: Settings, w: World, d: Id, p: Poll, b: Id, t: Id, answer: Answer)
    requires d in w.drafts
    ensures Written(c, w, d, p, b, t, answer).firstKey == w.firstKey
  {
    match answer
    case BadRequest =>
    case StillImporting => BatchedRow(w, Starting(p), b, d);
    case StillScanning => ScannedRows(c, w, p, d);
    case Created =>
      ScannedRows(c, w, p, d);
      CreatedRow(ScansSubmitted(w, Submitting(c, p), Skipping(c, p)), d, t, p.body, d);
  }

  /**
   A 202 stamps and enqueues every Drive file it found without a stamp, once. One it found stamped it leaves alone,
   even if the callback that set the stamp has just taken it back: that file is for the next poll.
   */
  lemma ImportsAreStamped(c: Settings, w: World, d: Id, b: Id, t: Id, f: Id)
    requires Reachable(c, w) && FinalizeEnabled(w, Answers(d, b, t))
    requires FinalizeAnswer(c, w.polls[d], w.drafts[d].key) == StillImporting
    requires f in w.polls[d].rows && w.polls[d].rows[f].drive && !w.polls[d].rows[f].completed
    ensures var v := FinalizeWrite(c, w, d, b, t);
            && f in w.files && f in v.files
            && (b in v.batches && f in v.batches[b].todo <==> !w.polls[d].rows[f].importStarted)
            && v.files[f].importStarted == (!w.polls[d].rows[f].importStarted || w.files[f].importStarted)
  {
    ReachableInv(c, w);
    Snapshotted(c, w, d, f);
    FinalizeRow(c, w, d, b, t, f);
    var p, u := w.polls[d], w.(polls := w.polls - {d});
    BatchTodo(Parked(u, d, p.body), Starting(p), b);
    assert b !in w.batches;
  }

  lemma BatchTodo(w: World, starting: set<Id>, b: Id)
    ensures var v := ImportsBatched(w, starting, b);
            && (starting != {} ==> b in v.batches && v.batches[b] == Batch(starting, {}))
            && (starting == {} ==> v.batches == w.batches)
  {}

  predicate ToScan(c: Settings, w: World, d: Id, f: Id)
    requires d in w.polls && f in w.files
  {
    && c.scanEnabled && !w.polls[d].body.confidential && f in w.polls[d].rows
    && w.polls[d].rows[f].scan == Pending && w.polls[d].rows[f].completed && !w.files[f].submitted
  }

  /**
   A finalize submits to the scanner exactly the files it read as landed and waiting that were never submitted, as
   the row says now and not only as it read it: once each, whatever came in between, and none if it is refused.
   */
  lemma ScansAreSubmittedOnce(c: Settings, w: World, d: Id, b: Id, t: Id, f: Id)
    requires Reachable(c, w) && FinalizeEnabled(w, Answers(d, b, t)) && f in w.files
    ensures var v, answer := FinalizeWrite(c, w, d, b, t), FinalizeAnswer(c, w.polls[d], w.drafts[d].key);
            && f in v.files
            && if ToScan(c, w, d, f) && (answer == StillScanning || answer == Created)
               then v.scanQueue[f] == w.scanQueue[f] + 1 && v.files[f].submitted
               else v.scanQueue[f] == w.scanQueue[f] && v.files[f].submitted == w.files[f].submitted
  {
    ReachableInv(c, w);
    MarksHold(c, w, d, f);
    Snapshotted(c, w, d, f);
    FinalizeRow(c, w, d, b, t, f);
    QueuedByAnswer(c, w, d, b, t);
  }

  lemma QueuedByAnswer(c: Settings, w: World, d: Id, b: Id, t: Id)
    requires d in w.polls && d in w.drafts
    ensures var answer := FinalizeAnswer(c, w.polls[d], w.drafts[d].key);
            FinalizeWrite(c, w, d, b, t).scanQueue
            == if answer == StillScanning || answer == Created
               then w.scanQueue + multiset(Submitting(c, w.polls[d])) else w.scanQueue
  {
    var p, u := w.polls[d], w.(polls := w.polls - {d});
    var answer := FinalizeAnswer(c, p, w.drafts[d].key);
    if answer != BadRequest {
      assert Parked(u, d, p.body).scanQueue == w.scanQueue;
      QueuedScans(c, Parked(u, d, p.body), d, p, b, t, answer);
    }
  }

  lemma QueuedScans(c: Settings, w: World, d: Id, p: Poll, b: Id, t: Id, answer: Answer)
    requires d in w.drafts
    ensures var sent := answer == StillScanning || answer == Created;
            Written(c, w, d, p, b, t, answer).scanQueue
            == w.scanQueue + if sent then multiset(Submitting(c, p)) else multiset{}
  {}

  // --- What a finalize publishes ---

  lemma PublishedLink(c: Settings, w: World, d: Id, b: Id, t: Id)
    requires Inv(c, w) && FinalizeEnabled(w, Answers(d, b, t))
    ensures var p, v := w.polls[d], FinalizeWrite(c, w, d, b, t);
            && (t in v.transfers <==> FinalizeAnswer(c, p, w.drafts[d].key) == Created)
            && (t in v.transfers ==>
                  && v.transfers[t] == TransferRow(d, p.body.key, p.body.confidential, w.now + p.body.lifetime,
                                                   Active, None, None)
                  && d !in v.drafts)
  {
    var p, u := w.polls[d], w.(polls := w.polls - {d});
    var answer := FinalizeAnswer(c, p, w.drafts[d].key);
    AllKnown(c, w);
    assert PollOk(w, d);
    if answer != BadRequest {
      ParkedLinks(u, d, p.body);
      NewTransfer(c, Parked(u, d, p.body), d, p, b, t, answer);
    }
  }

  lemma ParkedLinks(w: World, d: Id, body: Body)
    requires d in w.drafts && body.Accepted()
    requires w.drafts[d].key != "" ==> !body.confidential && w.drafts[d].key == body.key
    ensures var v := Parked(w, d, body); SameLinks(w, v) && d in v.drafts && v.drafts[d].key == body.key
  {}

  lemma PublishedFile(c: Settings, w: World, d: Id, b: Id, t: Id, f: Id)
    requires Inv(c, w) && FinalizeEnabled(w, Answers(d, b, t))
    requires FinalizeAnswer(c, w.polls[d], w.drafts[d].key) == Created
    ensures f in FilesOf(FinalizeWrite(c, w, d, b, t), InTransfer(t)) <==> f in w.polls[d].rows
  {
    Snapshotted(c, w, d, f);
    FinalizeRow(c, w, d, b, t, f);
    AllKnown(c, w);
    assert FileOk(c, w, f);
  }

  /** A request creates the transfer exactly if it answers so, with the key, the files and the deadline it was sent. */
  lemma WhatIsPublished(c: Settings, w: World, d: Id, b: Id, t: Id)
    requires Inv(c, w) && FinalizeEnabled(w, Answers(d, b, t))
    ensures var p, v := w.polls[d], FinalizeWrite(c, w, d, b, t);
            && (t in v.transfers <==> FinalizeAnswer(c, p, w.drafts[d].key) == Created)
            && (t in v.transfers ==>
                  && v.transfers[t] == TransferRow(d, p.body.key, p.body.confidential, w.now + p.body.lifetime,
                                                   Active, None, None)
                  && d !in v.drafts && FilesOf(v, InTransfer(t)) == p.rows.Keys)
  {
    PublishedLink(c, w, d, b, t);
    var v := FinalizeWrite(c, w, d, b, t);
    if t in v.transfers {
      forall f ensures f in FilesOf(v, InTransfer(t)) <==> f in w.polls[d].rows { PublishedFile(c, w, d, b, t, f); }
    }
  }

  lemma NewTransfer(c: Settings, w: World, d: Id, p: Poll, b: Id, t: Id, answer: Answer)
    requires d in w.drafts
    ensures var v := Written(c, w, d, p, b, t, answer);
            && (answer != Created ==> v.transfers == w.transfers)
            && (answer == Created ==>
                  && v.transfers == w.transfers[t := TransferRow(d, w.drafts[d].key, p.body.confidential,
                                                                 w.now + p.body.lifetime, Active, None, None)]
                  && d !in v.drafts)
  {
    match answer
    case BadRequest =>
    case StillImporting => BatchedRow(w, Starting(p), b, d);
    case StillScanning => ScannedRows(c, w, p, d);
    case Created =>
      ScannedRows(c, w, p, d);
      CreatedRow(ScansSubmitted(w, Submitting(c, p), Skipping(c, p)), d, t, p.body, d);
  }

  // --- How long a link serves ---

  /** In every state after the finalize that made the link: the deadline is the one asked for, and decides expiry. */
  lemma DeadlineIsForever(c: Settings, w: World, d: Id, b: Id, t: Id, u: World)
    requires Reachable(c, w) && FinalizeEnabled(w, Answers(d, b, t))
    requires t in FinalizeWrite(c, w, d, b, t).transfers && Leads(c, FinalizeWrite(c, w, d, b, t), u)
    requires t in u.transfers
    ensures u.transfers[t].expiresAt == w.now + w.polls[d].body.lifetime
    ensures LinkEnabled(u, Deactivates(t, Expired)) <==> u.now >= w.now + w.polls[d].body.lifetime
  {
    var v := FinalizeWrite(c, w, d, b, t);
    ReachableInv(c, w);
    PublishedLink(c, w, d, b, t);
    ReachedNext(c, w, OnFinalize(Answers(d, b, t)), true);
    LaterEvolves(c, v, u);
    AllKnown(c, v);
    assert LinkEvolves(v, u, t);
  }

  /** While the link is up, each of its files is served to anyone exactly until that deadline. */
  lemma ServedUntilTheDeadline(c: Settings, w: World, d: Id, b: Id, t: Id, u: World, f: Id, resuming: bool)
    requires Reachable(c, w) && FinalizeEnabled(w, Answers(d, b, t))
    requires t in FinalizeWrite(c, w, d, b, t).transfers && Leads(c, FinalizeWrite(c, w, d, b, t), u)
    requires t in u.transfers && u.transfers[t].status == Active && f in FilesOf(u, InTransfer(t))
    ensures Admits(u, t, f, resuming) <==> u.now < w.now + w.polls[d].body.lifetime
  {
    DeadlineIsForever(c, w, d, b, t, u);
    ReachedNext(c, w, OnFinalize(Answers(d, b, t)), true);
    LaterEvolves(c, FinalizeWrite(c, w, d, b, t), u);
    assert FileOk(c, u, f);
  }

  /** The purge has not touched the link before its time. */
  predicate PurgedInTime(w: World, v: World, t: Id) {
    (t in w.transfers && w.transfers[t].status == PendingFileDeletion && w.transfers[t].purgeAt.Some?) ==>
      (t in v.transfers && v.transfers[t].status == Deactivated ==> w.transfers[t].purgeAt.value <= v.now)
  }

  lemma FlippedInTime(c: Settings, w: World, x: Step, t: Id)
    requires Inv(c, w) && Enabled(w, x) && Orderly(w, x)
    requires t in w.transfers && w.transfers[t].status == PendingFileDeletion && w.transfers[t].purgeAt.Some?
    ensures t in Apply(c, w, x).transfers && Apply(c, w, x).transfers[t].status == Deactivated ==>
              w.transfers[t].purgeAt.value <= w.now
  {
    assert LinkOk(w, t);
    match x
    case OnLink(y) => LinkFlippedInTime(c, w, y, t);
    case OnDraft(y) => DraftLinks(c, w, y);
    case OnFinalize(y) => FinalizeLinks(c, w, y, t);
    case OnImport(y) => ImportRow(c, w, y, t);
    case OnScan(y) => ScanRow(w, y, t);
    case _ =>
  }

  lemma LinkFlippedInTime(c: Settings, w: World, x: LinkStep, t: Id)
    requires LinkOk(w, t) && w.wiped <= w.purging && LinkEnabled(w, x)
    requires t in w.transfers && w.transfers[t].status == PendingFileDeletion && w.transfers[t].purgeAt.Some?
    ensures t in ApplyLink(c, w, x).transfers && ApplyLink(c, w, x).transfers[t].status == Deactivated ==>
              w.transfers[t].purgeAt.value <= w.now
  {
    match x
    case Deactivates(s, reason) =>
    case ReadsPurge =>
    case Wipes(s, kept) => WipedRow(w, s, kept);
    case Flips(s) =>
    case Destroys(s, kept) => DestroyLinks(w, s, kept);
  }

  lemma DestroyLinks(w: World, t: Id, kept: set<Id>)
    requires t in w.transfers
    ensures Destroy(w, t, kept).transfers == w.transfers || Destroy(w, t, kept).transfers == w.transfers - {t}
    ensures Destroy(w, t, kept).now == w.now
  {
    var asked := DestroyAsked(w, t);
    var v := DeleteObjects(asked, FilesOf(w, InTransfer(t)), kept);
    assert v.transfers == w.transfers && v.now == w.now;
    assert DropTransfer(v, t).transfers == w.transfers - {t} == DropTransfer(w, t).transfers;
    match w.transfers[t].status
    case Active =>
    case PendingFileDeletion =>
    case Deactivated =>
  }

  lemma DraftLinks(c: Settings, w: World, x: DraftStep)
    requires DraftEnabled(w, x)
    ensures ApplyDraft(c, w, x).transfers == w.transfers
  {
    match x
    case Adds(d, f, drive, overScanCap) =>
    case Completes(d, f, outcome) => CompleteLinks(c, w, d, f, outcome);
    case Removes(d, f, kept) =>
    case Discards(d, kept, _) =>
    case Rescans(d, rearmed) =>
  }

  lemma CompleteLinks(c: Settings, w: World, d: Id, f: Id, outcome: Completion)
    requires CanCompleteUpload(w, d, f)
    ensures CompleteUpload(c, w, d, f, outcome).transfers == w.transfers
  {
    match outcome
    case Landed =>
    case HeadFails =>
    case S3Rejects =>
    case SizeMismatch(kept) =>
  }

  lemma FinalizeLinks(c: Settings, w: World, x: FinalizeStep, t: Id)
    requires Inv(c, w) && FinalizeEnabled(w, x) && t in w.transfers
    ensures t in ApplyFinalize(c, w, x).transfers && ApplyFinalize(c, w, x).transfers[t] == w.transfers[t]
  {
    match x
    case Finalizes(d, body) =>
    case Answers(d, b, u) => AnswerLinks(c, w, d, b, u, t);
    case GivesUp(d) =>
    case Sends(b, f, ok) =>
    case EndsBatch(b) =>
  }

  lemma AnswerLinks(c: Settings, w: World, d: Id, b: Id, u: Id, t: Id)
    requires Inv(c, w) && FinalizeEnabled(w, Answers(d, b, u)) && t in w.transfers
    ensures t in FinalizeWrite(c, w, d, b, u).transfers && FinalizeWrite(c, w, d, b, u).transfers[t] == w.transfers[t]
  {
    var p, released := w.polls[d], w.(polls := w.polls - {d});
    var answer := FinalizeAnswer(c, p, w.drafts[d].key);
    AllKnown(c, w);
    if answer != BadRequest {
      ParkedRows(released, d, p.body);
      assert Parked(released, d, p.body).transfers == w.transfers;
      NewTransfer(c, Parked(released, d, p.body), d, p, b, u, answer);
    }
  }

  lemma {:induction false} InTimeRun(c: Settings, w: World, run: seq<Step>, t: Id)
    requires Inv(c, w) && Possible(c, w, run) && OrderlyRun(c, w, run)
    ensures PurgedInTime(w, After(c, w, run), t)
    decreases run
  {
    if run != [] {
      var v := Apply(c, w, run[0]);
      StepKeeps(c, w, run[0]);
      InTimeRun(c, v, run[1..], t);
      RunKeeps(c, v, run[1..]);
      if t in w.transfers && w.transfers[t].status == PendingFileDeletion && w.transfers[t].purgeAt.Some? {
        AllKnown(c, w);
        FlippedInTime(c, w, run[0], t);
        assert LinkEvolves(w, v, t) && LinkEvolves(v, After(c, v, run[1..]), t) && LinkOk(v, t);
        if t !in v.transfers { StaysGone(c, w, v, After(c, v, run[1..]), t); }
      }
    }
  }

  lemma StaysGone(c: Settings, w: World, v: World, x: World, t: Id)
    requires t in w.used && Evolves(w, v) && Evolves(v, x) && t !in v.transfers
    ensures t !in x.transfers
  {
    assert LinkEvolves(v, x, t);
  }

  // --- After the link is closed ---

  lemma ClosedLink(c: Settings, w: World, t: Id, reason: Reason, u: World)
    requires Reachable(c, w) && t in w.transfers && w.transfers[t].status == Active
    requires LinkEnabled(w, Deactivates(t, reason)) && Leads(c, Deactivate(c, w, t, reason), u) && t in u.transfers
    ensures u.transfers[t].status != Active && u.transfers[t].reason == Some(reason)
    ensures u.transfers[t].status == PendingFileDeletion ==> u.transfers[t].purgeAt == Some(w.now + c.purgeDelay)
    ensures u.transfers[t].status == Deactivated ==> w.now + c.purgeDelay <= u.now
  {
    var v := Deactivate(c, w, t, reason);
    ReachedNext(c, w, OnLink(Deactivates(t, reason)), true);
    ReachableInv(c, v);
    LaterEvolves(c, v, u);
    AllKnown(c, v);
    assert LinkEvolves(v, u, t) && LinkOk(u, t);
    var run :| Possible(c, v, run) && OrderlyRun(c, v, run) && u == After(c, v, run);
    InTimeRun(c, v, run, t);
  }

  /**
   After a link closes: nobody gets in again, but for a resume of a download that the first full download cut short,
   and that exactly until the purge delay is over.
   */
  lemma GraceWindowExactly(c: Settings, w: World, t: Id, reason: Reason, u: World, f: Id, resuming: bool)
    requires Reachable(c, w) && t in w.transfers && w.transfers[t].status == Active
    requires LinkEnabled(w, Deactivates(t, reason)) && Leads(c, Deactivate(c, w, t, reason), u) && t in u.transfers
    requires f in FilesOf(u, InTransfer(t))
    ensures Admits(u, t, f, resuming) <==> resuming && reason == FirstDownload && u.now < w.now + c.purgeDelay
  {
    ClosedLink(c, w, t, reason, u);
    ReachedNext(c, w, OnLink(Deactivates(t, reason)), true);
    LaterEvolves(c, Deactivate(c, w, t, reason), u);
    assert FileOk(c, u, f) && LinkOk(u, t);
  }

  /** The purge takes a closed link exactly when the delay is over, whatever closed it, if it has not done so yet. */
  lemma PurgedAfterTheDelay(c: Settings, w: World, t: Id, reason: Reason, u: World)
    requires Reachable(c, w) && t in w.transfers && w.transfers[t].status == Active
    requires LinkEnabled(w, Deactivates(t, reason)) && Leads(c, Deactivate(c, w, t, reason), u) && t in u.transfers
    ensures t in Backend.DueNow(u) <==> u.transfers[t].status != Deactivated && u.now >= w.now + c.purgeDelay
    ensures u.now < w.now + c.purgeDelay ==> u.transfers[t].status == PendingFileDeletion
  {
    ClosedLink(c, w, t, reason, u);
  }

  /** A link that is closed already is left exactly as it is by a second feed. */
  lemma FirstFeedWins(c: Settings, w: World, t: Id, reason: Reason)
    requires t in w.transfers && w.transfers[t].status != Active
    ensures Deactivate(c, w, t, reason) == w
  {}

  /** Serving does not wait for the expiry task: a request is let through exactly if it would be after the task ran. */
  lemma ServingAgreesWithExpiry(c: Settings, w: World, t: Id, f: Id, resuming: bool)
    ensures Admits(w, t, f, resuming) <==> Admits(Backend.Lapsed(c, w, Backend.ExpiredNow(w)), t, f, resuming)
  {
    var v := Backend.Lapsed(c, w, Backend.ExpiredNow(w));
    assert v.files == w.files && v.now == w.now && v.transfers.Keys == w.transfers.Keys;
    if t in w.transfers {
      assert t in Backend.ExpiredNow(w) <==> w.transfers[t].status == Active && w.transfers[t].expiresAt <= w.now;
    }
  }

  // --- Hard delete ---

  /** A hard delete leaves an ACTIVE link alone; any other goes, with its rows and objects, unless S3 refuses. */
  lemma DestroyExactly(c: Settings, w: World, t: Id, kept: set<Id>, f: Id)
    requires Inv(c, w) && t in w.transfers
    ensures var v, mine := Destroy(w, t, kept), FilesOf(w, InTransfer(t));
            && (w.transfers[t].status == Active ==> v == w)
            && (t !in v.transfers <==>
                  || w.transfers[t].status == Deactivated
                  || (w.transfers[t].status == PendingFileDeletion && mine !! kept))
            && (t !in v.transfers ==> f in mine ==> f !in v.files && f !in v.bucket)
            && (f !in mine ==> (f in v.files <==> f in w.files) && (f in v.bucket <==> f in w.bucket))
            && v.transfers - {t} == w.transfers - {t}
  {
    assert FileOk(c, w, f) && LinkOk(w, t);
    match w.transfers[t].status
    case Active =>
    case PendingFileDeletion => DestroyedInGrace(w, t, kept, f);
    case Deactivated => DestroyedLink(w, t, f);
  }

  lemma DestroyedInGrace(w: World, t: Id, kept: set<Id>, f: Id)
    requires t in w.transfers && w.transfers[t].status == PendingFileDeletion
    ensures var v, mine := Destroy(w, t, kept), FilesOf(w, InTransfer(t));
            && v.transfers == (if mine !! kept then w.transfers - {t} else w.transfers)
            && (f in v.files <==> f in w.files && (f !in mine || !(mine !! kept)))
            && (f in v.bucket <==> f in w.bucket && (f !in mine || f in kept))
  {
    var mine, asked := FilesOf(w, InTransfer(t)), DestroyAsked(w, t);
    var deleted := DeleteObjects(asked, mine, kept);
    assert deleted.transfers == w.transfers && deleted.files == w.files;
    assert f in deleted.bucket <==> f in w.bucket && (f !in mine || f in kept);
    DestroyedLink(deleted, t, f);
    if mine !! kept { assert Destroy(w, t, kept) == DropTransfer(deleted, t); }
  }

  lemma DestroyedLink(w: World, t: Id, f: Id)
    ensures var v := DropTransfer(w, t);
            && t !in v.transfers && v.transfers == w.transfers - {t} && v.bucket == w.bucket
            && (f in v.files <==> f in w.files && w.files[f].parent != InTransfer(t))
  {}
}
