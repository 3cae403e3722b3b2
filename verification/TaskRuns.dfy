/** The periodic tasks, run to their end without anyone in between, are runs of the protocol's steps. */
module TaskRuns {
  import opened World
  import opened Steps
  import opened Backend
  import Guarantees

  /** An orderly run of the code from w that ends in v. */
  ghost predicate IsRun(c: Settings, w: World, run: seq<Step>, v: World) {
    Possible(c, w, run) && OrderlyRun(c, w, run) && After(c, w, run) == v
  }

  lemma OneStep(c: Settings, w: World, run: seq<Step>, v: World, x: Step)
    requires IsRun(c, w, run, v) && Enabled(v, x) && Orderly(v, x)
    ensures IsRun(c, w, run + [x], Apply(c, v, x))
  {
    Guarantees.Appended(c, w, run, x);
  }

  // --- The purge: one read of the query, then a wipe for each transfer, and a flip if nothing was refused ---

  lemma PurgedMarked(w: World, purging: set<Id>, wiped: set<Id>, t: Id, failing: set<Id>)
    ensures PurgedOne(Marked(w, purging, wiped), t, failing) == Marked(PurgedOne(w, t, failing), purging, wiped)
  {
    assert FilesOf(Marked(w, purging, wiped), InTransfer(t)) == FilesOf(w, InTransfer(t));
  }

  lemma CompleteWipe(v: World, t: Id, failing: set<Id>)
    requires t in v.purging && t in v.transfers && FilesOf(v, InTransfer(t)) !! failing
    ensures t in PurgeWipe(v, t, failing).wiped
    ensures PurgeFlip(PurgeWipe(v, t, failing), t) == Marked(PurgedOne(v, t, failing), v.purging - {t}, v.wiped - {t})
  {
    assert v.wiped + {t} - {t} == v.wiped - {t};
  }

  lemma RefusedWipe(v: World, t: Id, failing: set<Id>)
    requires t in v.purging && t in v.transfers && !(FilesOf(v, InTransfer(t)) !! failing)
    ensures PurgeWipe(v, t, failing) == Marked(PurgedOne(v, t, failing), v.purging - {t}, v.wiped - {t})
  {}

  /** The purge of one transfer is its wipe step, followed by its flip step when the wipe was complete. */
  lemma PurgedOneIsItsSteps(c: Settings, w: World, run: seq<Step>, v: World, t: Id, failing: set<Id>)
    returns (longer: seq<Step>)
    requires IsRun(c, w, run, v) && t in v.purging && t in v.transfers
    ensures IsRun(c, w, longer, Marked(PurgedOne(v, t, failing), v.purging - {t}, v.wiped - {t}))
  {
    longer := run + [OnLink(Wipes(t, failing))];
    OneStep(c, w, run, v, OnLink(Wipes(t, failing)));
    if FilesOf(v, InTransfer(t)) !! failing {
      CompleteWipe(v, t, failing);
      OneStep(c, w, longer, PurgeWipe(v, t, failing), OnLink(Flips(t)));
      longer := longer + [OnLink(Flips(t))];
    } else {
      RefusedWipe(v, t, failing);
    }
  }

  lemma {:induction false} PurgeRun(c: Settings, w: World, due: seq<Id>, failing: set<Id>) returns (run: seq<Step>)
    requires Distinct(due) && forall t | t in due :: PurgeDue(w, t)
    ensures var purging := w.purging + DueNow(w) - Elements(due);
            IsRun(c, w, run, Marked(Purged(w, Elements(due), failing), purging, w.wiped - Elements(due)))
  {
    if due == [] {
      run := [OnLink(ReadsPurge)];
      NothingYet(c, w, failing);
      assert IsRun(c, w, [], w);
      OneStep(c, w, [], w, OnLink(ReadsPurge));
      assert [] + run == run && w.wiped - {} == w.wiped && w.purging + DueNow(w) - {} == w.purging + DueNow(w);
    } else {
      var rest, t := due[..|due| - 1], due[|due| - 1];
      var shorter := PurgeRun(c, w, rest, failing);
      OneMore(due, |rest|);
      var purging, wiped := w.purging + DueNow(w) - Elements(rest), w.wiped - Elements(rest);
      var v := Purged(w, Elements(rest), failing);
      assert due[..|rest| + 1] == due && PurgeDue(w, t);
      run := PurgedOneIsItsSteps(c, w, shorter, Marked(v, purging, wiped), t, failing);
      PurgedMarked(v, purging, wiped, t, failing);
      PurgeOneMore(w, Elements(rest), t, failing);
      assert purging - {t} == w.purging + DueNow(w) - Elements(due) && wiped - {t} == w.wiped - Elements(due);
    }
  }

  // --- The cleanup: one discard for each draft it can lock ---

  lemma {:induction false} CleanupRun(c: Settings, w: World, ids: seq<Id>, failing: set<Id>) returns (run: seq<Step>)
    ensures IsRun(c, w, run, Cleaned(w, Discarded(w, Elements(ids)), failing))
  {
    if ids == [] {
      run := [];
      NothingYet(c, w, failing);
    } else {
      var rest, d := ids[..|ids| - 1], ids[|ids| - 1];
      run := CleanupRun(c, w, rest, failing);
      OneMore(ids, |rest|);
      assert ids[..|rest| + 1] == ids;
      DiscardedOneMore(w, Elements(rest), d);
      CleanedOneMore(w, Discarded(w, Elements(rest)), d, failing);
      var v := Cleaned(w, Discarded(w, Elements(rest)), failing);
      if CanDiscard(v, d, true) {
        OneStep(c, w, run, v, OnDraft(Discards(d, failing, true)));
        run := run + [OnDraft(Discards(d, failing, true))];
      }
    }
  }

  // --- The expiry: one conditional update for each transfer ---

  lemma LapsedOneIsItsStep(c: Settings, w: World, run: seq<Step>, v: World, t: Id) returns (longer: seq<Step>)
    requires IsRun(c, w, run, v) && (t in v.transfers ==> v.transfers[t].expiresAt <= v.now)
    ensures IsRun(c, w, longer, LapsedOne(c, v, t))
  {
    longer := run;
    if t in v.transfers {
      OneStep(c, w, run, v, OnLink(Deactivates(t, Expired)));
      longer := run + [OnLink(Deactivates(t, Expired))];
    }
  }

  lemma {:induction false} ExpiryRun(c: Settings, w: World, ids: seq<Id>) returns (run: seq<Step>)
    requires forall t | t in ids && t in w.transfers :: w.transfers[t].expiresAt <= w.now
    ensures IsRun(c, w, run, Lapsed(c, w, Elements(ids)))
  {
    if ids == [] {
      run := [];
      NothingYet(c, w, {});
    } else {
      var rest, t := ids[..|ids| - 1], ids[|ids| - 1];
      var shorter := ExpiryRun(c, w, rest);
      OneMore(ids, |rest|);
      assert ids[..|rest| + 1] == ids;
      LapseOneMore(c, w, Elements(rest), t);
      run := LapsedOneIsItsStep(c, w, shorter, Lapsed(c, w, Elements(rest)), t);
    }
  }

  // --- What the guarantees say of the tasks ---

  lemma {:induction false} Listing(rows: set<Id>) returns (order: seq<Id>)
    ensures Elements(order) == rows && Distinct(order)
  {
    if rows == {} {
      order := [];
    } else {
      var f :| f in rows;
      var rest := Listing(rows - {f});
      assert f !in Elements(rest);
      Appended(rest, f);
      order := rest + [f];
    }
  }

  lemma {:induction false} ReachableOn(c: Settings, w: World, run: seq<Step>)
    requires Guarantees.Reachable(c, w) && Possible(c, w, run) && OrderlyRun(c, w, run)
    ensures Guarantees.Reachable(c, After(c, w, run))
    decreases run
  {
    if run != [] {
      Guarantees.ReachedNext(c, w, run[0], true);
      ReachableOn(c, Apply(c, w, run[0]), run[1..]);
    }
  }

  /** The purge takes a reachable state to a reachable one; the marks are those of purges running elsewhere. */
  lemma PurgeTaskIsARun(c: Settings, w: World, failing: set<Id>)
    ensures var v := Marked(Purged(w, DueNow(w), failing), w.purging - DueNow(w), w.wiped - DueNow(w));
            && Guarantees.Leads(c, w, v)
            && (Guarantees.Reachable(c, w) ==> Guarantees.Reachable(c, v))
    ensures w.purging == {} && w.wiped == {} ==> Guarantees.Leads(c, w, Purged(w, DueNow(w), failing))
  {
    var due := Listing(DueNow(w));
    forall t | t in due ensures PurgeDue(w, t) { assert t in Elements(due); }
    var run := PurgeRun(c, w, due, failing);
    assert w.purging + DueNow(w) - DueNow(w) == w.purging - DueNow(w);
    if Guarantees.Reachable(c, w) { ReachableOn(c, w, run); }
  }

  lemma CleanupTaskIsARun(c: Settings, w: World, failing: set<Id>)
    ensures var v := Cleaned(w, AbandonedNow(w), failing);
            && Guarantees.Leads(c, w, v)
            && (Guarantees.Reachable(c, w) ==> Guarantees.Reachable(c, v))
  {
    var ids := Listing(AbandonedNow(w));
    var run := CleanupRun(c, w, ids, failing);
    assert Discarded(w, AbandonedNow(w)) == AbandonedNow(w);
    if Guarantees.Reachable(c, w) { ReachableOn(c, w, run); }
  }

  lemma ExpiryTaskIsARun(c: Settings, w: World)
    ensures var v := Lapsed(c, w, ExpiredNow(w));
            && Guarantees.Leads(c, w, v)
            && (Guarantees.Reachable(c, w) ==> Guarantees.Reachable(c, v))
  {
    var ids := Listing(ExpiredNow(w));
    forall t | t in ids && t in w.transfers ensures w.transfers[t].expiresAt <= w.now { assert t in Elements(ids); }
    var run := ExpiryRun(c, w, ids);
    if Guarantees.Reachable(c, w) { ReachableOn(c, w, run); }
  }
}
