/** The enqueue callback of a finalize request, and the steps it is made of. */
module ImportEnqueue {
  import opened World
  import B = Backend

  /** The messages the broker took. */
  function Taken(ids: seq<Id>, refused: set<Id>): multiset<Id> {
    if ids == [] then multiset{}
    else
      var n := |ids| - 1;
      Taken(ids[..n], refused) + if ids[n] in refused then multiset{} else multiset{ids[n]}
  }

  function Failed(ids: seq<Id>, refused: set<Id>): set<Id> {
    set f | f in ids && f in refused
  }

  lemma OneMoreTried(ids: seq<Id>, i: nat, refused: set<Id>)
    requires i < |ids|
    ensures Taken(ids[..i + 1], refused)
            == Taken(ids[..i], refused) + if ids[i] in refused then multiset{} else multiset{ids[i]}
    ensures Failed(ids[..i + 1], refused) == Failed(ids[..i], refused) + if ids[i] in refused then {ids[i]} else {}
  {
    assert ids[..i + 1] == ids[..i] + [ids[i]];
    assert ids[..i + 1][..i] == ids[..i];
  }

  /** Each id gets one message, unless it was refused. */
  lemma {:induction false} TakenOnce(ids: seq<Id>, refused: set<Id>, f: Id)
    requires B.Distinct(ids)
    ensures Taken(ids, refused)[f] == if f in ids && f !in refused then 1 else 0
  {
    if ids != [] {
      var n := |ids| - 1;
      assert ids == ids[..n] + [ids[n]];
      TakenOnce(ids[..n], refused, f);
    }
  }

  /** The enqueues of a batch one after the other, with the broker refusing the ids of refused. */
  function AllSent(w: World, b: Id, ids: seq<Id>, refused: set<Id>): (v: World)
    requires b in w.batches && B.Elements(ids) <= w.batches[b].todo && B.Distinct(ids)
    ensures b in v.batches && v.batches[b].todo == w.batches[b].todo - B.Elements(ids)
  {
    if ids == [] then w
    else
      var n := |ids| - 1;
      B.OneMore(ids, n);
      assert ids[..n + 1] == ids;
      BatchSend(AllSent(w, b, ids[..n], refused), b, ids[n], ids[n] !in refused)
  }

  lemma SendEffect(w: World, b: Id, f: Id, ok: bool)
    requires b in w.batches && f in w.batches[b].todo
    ensures var v := BatchSend(w, b, f, ok);
            && v.files == w.files && b in v.batches
            && v.batches[b].refused == w.batches[b].refused + (if ok then {} else {f})
            && v.importQueue == w.importQueue + (if ok then multiset{f} else multiset{})
            && v.accepted == w.accepted + (if ok then multiset{f} else multiset{})
  {}

  lemma Associates(a: multiset<Id>, b: multiset<Id>, c: multiset<Id>)
    ensures (a + b) + c == a + (b + c)
  {}

  /** What all of them together do to the rows, the queue and the batch. */
  lemma {:induction false} AllSentInOneGo(w: World, b: Id, ids: seq<Id>, refused: set<Id>, v: World)
    requires b in w.batches && w.batches[b].refused == {} && B.Elements(ids) <= w.batches[b].todo && B.Distinct(ids)
    requires v == AllSent(w, b, ids, refused)
    ensures v.files == w.files && v.batches[b].refused == Failed(ids, refused)
    ensures v.importQueue == w.importQueue + Taken(ids, refused)
    ensures v.accepted == w.accepted + Taken(ids, refused)
    decreases |ids|
  {
    if ids != [] {
      var n := |ids| - 1;
      var more := if ids[n] in refused then multiset{} else multiset{ids[n]};
      assert ids[..n + 1] == ids;
      B.OneMore(ids, n);
      OneMoreTried(ids, n, refused);
      var u := AllSent(w, b, ids[..n], refused);
      AllSentInOneGo(w, b, ids[..n], refused, u);
      SendEffect(u, b, ids[n], ids[n] !in refused);
      Associates(w.importQueue, Taken(ids[..n], refused), more);
      Associates(w.accepted, Taken(ids[..n], refused), more);
    }
  }

  class Callback {
    var files: map<Id, FileRow>
    var importQueue: multiset<Id>

    constructor (files: map<Id, FileRow>, importQueue: multiset<Id>)
      ensures this.files == files && this.importQueue == importQueue
    {
      this.files, this.importQueue := files, importQueue;
    }

    /** _enqueue_drive_imports: every id is tried, then the stamps of the refused ones are cleared in one UPDATE. */
    method EnqueueDriveImports(ids: seq<Id>, refused: set<Id>) returns (raised: bool)
      modifies this
      ensures files == Stamped(old(files), Failed(ids, refused), false)
      ensures importQueue == old(importQueue) + Taken(ids, refused)
      ensures raised <==> Failed(ids, refused) != {}
    {
      var failures: set<Id> := {};
      for i := 0 to |ids|
        invariant failures == Failed(ids[..i], refused) && files == old(files)
        invariant importQueue == old(importQueue) + Taken(ids[..i], refused)
      {
        OneMoreTried(ids, i, refused);
        if ids[i] in refused {
          failures := failures + {ids[i]};
        } else {
          importQueue := importQueue + multiset{ids[i]};
        }
      }
      assert ids[..|ids|] == ids;
      files := Stamped(files, failures, false);
      raised := failures != {};
    }
  }

  /** The callback's rows and queue are those the batch's own steps lead to. */
  lemma CallbackIsItsSteps(w: World, b: Id, ids: seq<Id>, refused: set<Id>)
    requires b in w.batches && B.Elements(ids) == w.batches[b].todo && w.batches[b].refused == {} && B.Distinct(ids)
    ensures BatchEnd(AllSent(w, b, ids, refused), b).files == Stamped(w.files, Failed(ids, refused), false)
    ensures BatchEnd(AllSent(w, b, ids, refused), b).importQueue == w.importQueue + Taken(ids, refused)
  {
    AllSentInOneGo(w, b, ids, refused, AllSent(w, b, ids, refused));
  }
}
