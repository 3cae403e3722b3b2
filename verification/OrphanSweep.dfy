/** The orphan sweep's loops over the bucket's listings: batched deletes, dry runs, open multipart uploads. */
module OrphanSweep {
  import opened Bytes

  const DELETE_BATCH_SIZE := 1000

  /** One listed object, or one listed multipart upload: its key or (key, upload id), and its age. */
  datatype Listed<K> = Listed(key: K, at: nat)

  /** Belongs to no row, and is old enough when there is an age limit. */
  predicate Orphan<K(==)>(x: Listed<K>, known: set<K>, cutoff: Option<int>) {
    x.key !in known && (cutoff.None? || x.at <= cutoff.value)
  }

  function Orphans<K(==)>(listing: seq<Listed<K>>, known: set<K>, cutoff: Option<int>): (r: seq<K>) {
    if listing == [] then []
    else
      var n := |listing| - 1;
      if Orphan(listing[n], known, cutoff) then Orphans(listing[..n], known, cutoff) + [listing[n].key]
      else Orphans(listing[..n], known, cutoff)
  }

  /** Exactly the orphans' keys. */
  lemma {:induction false} OrphansAre<K>(listing: seq<Listed<K>>, known: set<K>, cutoff: Option<int>, key: K)
    ensures key in Orphans(listing, known, cutoff) <==>
              && key !in known
              && exists i | 0 <= i < |listing| ::
                   listing[i].key == key && (cutoff == None || listing[i].at <= cutoff.value)
  {
    if listing != [] {
      var n := |listing| - 1;
      OrphansAre(listing[..n], known, cutoff, key);
      if key in Orphans(listing[..n], known, cutoff) {
        var i :| 0 <= i < n && listing[..n][i].key == key && (cutoff == None || listing[..n][i].at <= cutoff.value);
        assert listing[i].key == key;
      }
    }
  }

  lemma OrphansGrow<K>(listing: seq<Listed<K>>, x: Listed<K>, known: set<K>, cutoff: Option<int>)
    ensures Orphans(listing + [x], known, cutoff)
            == if Orphan(x, known, cutoff) then Orphans(listing, known, cutoff) + [x.key]
               else Orphans(listing, known, cutoff)
  {
    assert (listing + [x])[..|listing|] == listing;
  }

  /** How many of the keys went, when S3 refuses those of failing. */
  function Gone<K(==)>(keys: seq<K>, failing: set<K>): (n: nat)
    ensures n <= |keys|
  {
    if keys == [] then 0 else Gone(keys[..|keys| - 1], failing) + if keys[|keys| - 1] in failing then 0 else 1
  }

  lemma {:induction false} GoneAdds<K>(a: seq<K>, b: seq<K>, failing: set<K>)
    ensures Gone(a + b, failing) == Gone(a, failing) + Gone(b, failing)
  {
    if b == [] {
      assert a + b == a;
    } else {
      assert (a + b)[..|a + b| - 1] == a + b[..|b| - 1];
      GoneAdds(a, b[..|b| - 1], failing);
    }
  }

  /** The fewest requests of at most 1000 keys that delete so many: all of them full but the last. */
  function Batches(n: nat): seq<nat> {
    if n == 0 then [] else if n <= 1000 then [n] else [1000] + Batches(n - 1000)
  }

  lemma FullBatches(n: nat, m: nat)
    requires n % 1000 == 0 && m == 1000
    ensures (n + m) % 1000 == 0
  {}

  lemma {:induction false} BatchesAdd(n: nat, m: nat)
    requires n % 1000 == 0
    ensures Batches(n + m) == Batches(n) + Batches(m)
  {
    if n == 0 {
      assert [] + Batches(m) == Batches(m);
    } else {
      BatchesAdd(n - 1000, m);
      assert Batches(n) == [1000] + Batches(n - 1000) && (m == 0 || Batches(n + m) == [1000] + Batches(n - 1000 + m));
      assert [1000] + (Batches(n - 1000) + Batches(m)) == [1000] + Batches(n - 1000) + Batches(m);
      if m == 0 { assert Batches(n) + [] == Batches(n); }
    }
  }

  function Without<K, V>(objects: map<K, V>, keys: seq<K>, failing: set<K>): map<K, V> {
    map k | k in objects && (k !in keys || k in failing) :: objects[k]
  }

  class Sweep<K(==)> {
    var objects: map<K, nat>
    // The sizes of the delete requests sent, for the request limit of S3.
    ghost var requests: seq<nat>

    constructor (objects: map<K, nat>)
      ensures this.objects == objects && requests == []
    {
      this.objects, requests := objects, [];
    }

    ghost predicate RequestsFit()
      reads this
    {
      forall i | 0 <= i < |requests| :: 0 < requests[i] <= 1000
    }

    /** _flush_batch: one DeleteObjects request. */
    method FlushBatch(batch: seq<K>, failing: set<K>) returns (deleted: nat)
      requires 0 < |batch| <= DELETE_BATCH_SIZE && RequestsFit()
      modifies this
      ensures objects == Without(old(objects), batch, failing) && deleted == Gone(batch, failing)
      ensures requests == old(requests) + [|batch|] && RequestsFit()
    {
      deleted := 0;
      for i := 0 to |batch|
        invariant objects == Without(old(objects), batch[..i], failing) && deleted == Gone(batch[..i], failing)
        invariant requests == old(requests)
      {
        assert batch[..i + 1] == batch[..i] + [batch[i]];
        assert batch[..i + 1][..i] == batch[..i];
        if batch[i] !in failing {
          objects := objects - {batch[i]};
          deleted := deleted + 1;
        }
      }
      assert batch[..|batch|] == batch;
      requests := requests + [|batch|];
    }

    /** A flush in the middle of a scan: deleted counts what went so far, flushed what was asked for. */
    method FlushOnto(ghost was: map<K, nat>, ghost sent: seq<nat>, ghost flushed: seq<K>, batch: seq<K>,
                     failing: set<K>, deleted: nat)
      returns (total: nat)
      requires 0 < |batch| <= DELETE_BATCH_SIZE && RequestsFit()
      requires |flushed| % 1000 == 0 && requests == sent + Batches(|flushed|)
      requires objects == Without(was, flushed, failing) && deleted == Gone(flushed, failing)
      modifies this
      ensures RequestsFit() && requests == sent + Batches(|flushed + batch|)
      ensures objects == Without(was, flushed + batch, failing) && total == Gone(flushed + batch, failing)
    {
      BatchesAdd(|flushed|, |batch|);
      assert sent + Batches(|flushed|) + [|batch|] == sent + (Batches(|flushed|) + [|batch|]);
      var n := FlushBatch(batch, failing);
      MoreWithout(was, flushed, batch, failing);
      GoneAdds(flushed, batch, failing);
      total := deleted + n;
    }

    /** The body of _scan_objects' loop, for one listed object. */
    method Consider(x: Listed<K>, ghost was: map<K, nat>, ghost sent: seq<nat>, ghost seen: seq<Listed<K>>,
                    ghost flushed: seq<K>, batch: seq<K>,
                    known: set<K>, apply: bool, cutoff: Option<int>, failing: set<K>, deleted: nat)
      returns (ghost newFlushed: seq<K>, newBatch: seq<K>, newDeleted: nat)
      requires RequestsFit() && Progress(was, sent, seen, flushed, batch, known, apply, cutoff, failing, deleted)
      modifies this
      ensures RequestsFit()
      ensures Progress(was, sent, seen + [x], newFlushed, newBatch, known, apply, cutoff, failing, newDeleted)
    {
      newFlushed, newBatch, newDeleted := flushed, batch, deleted;
      OrphansGrow(seen, x, known, cutoff);
      if x.key in known || (cutoff.Some? && x.at > cutoff.value) {
        return;
      }
      if apply {
        newBatch := batch + [x.key];
        assert (flushed + batch) + [x.key] == flushed + newBatch;
        if |newBatch| >= DELETE_BATCH_SIZE {
          newDeleted := FlushOnto(was, sent, flushed, newBatch, failing, deleted);
          FullBatches(|flushed|, |newBatch|);
          newFlushed := flushed + newBatch;
          newBatch := [];
          assert newFlushed + [] == newFlushed;
        }
      } else {
        newDeleted := deleted + 1;
      }
    }

    /** _scan_objects: a dry run counts the orphans, a real one deletes them in batches. */
    method ScanObjects(pages: seq<seq<Listed<K>>>, known: set<K>, apply: bool, cutoff: Option<int>, failing: set<K>)
      returns (scanned: nat, deleted: nat)
      requires RequestsFit()
      modifies this
      ensures RequestsFit()
      ensures scanned == |Join(pages)|
      ensures var orphans := Orphans(Join(pages), known, cutoff);
              if apply then objects == Without(old(objects), orphans, failing) && deleted == Gone(orphans, failing)
              else objects == old(objects) && deleted == |orphans|
      ensures requests == old(requests) + if apply then Batches(|Orphans(Join(pages), known, cutoff)|) else []
    {
      scanned, deleted := 0, 0;
      var batch: seq<K> := [];
      ghost var flushed: seq<K> := [];
      ghost var seen: seq<Listed<K>> := [];
      for i := 0 to |pages|
        invariant seen == Join(pages[..i]) && scanned == |seen| && RequestsFit()
        invariant Progress(old(objects), old(requests), seen, flushed, batch, known, apply, cutoff, failing, deleted)
      {
        var page := pages[i];
        ghost var before := seen;
        for j := 0 to |page|
          invariant seen == before + page[..j] && scanned == |seen| && RequestsFit()
          invariant Progress(old(objects), old(requests), seen, flushed, batch, known, apply, cutoff, failing, deleted)
        {
          scanned := scanned + 1;
          assert seen + [page[j]] == before + page[..j + 1];
          flushed, batch, deleted :=
            Consider(page[j], old(objects), old(requests), seen, flushed, batch, known, apply, cutoff, failing,
                     deleted);
          seen := seen + [page[j]];
        }
        assert page[..|page|] == page && pages[..i + 1] == pages[..i] + [page];
        JoinAppend(pages[..i], page);
      }
      assert pages[..|pages|] == pages;
      if apply && batch != [] {
        deleted := FlushOnto(old(objects), old(requests), flushed, batch, failing, deleted);
      } else {
        assert flushed + [] == flushed;
      }
    }

    /** _scan_mpus: open uploads are aborted one by one, and a refusal does not stop the sweep. */
    method ScanUploads(listing: seq<Listed<K>>, known: set<K>, apply: bool, cutoff: Option<int>, failing: set<K>)
      returns (aborted: nat)
      modifies this`objects
      ensures UploadsDone(old(objects), Orphans(listing, known, cutoff), apply, failing, aborted)
    {
      aborted := 0;
      for i := 0 to |listing|
        invariant UploadsDone(old(objects), Orphans(listing[..i], known, cutoff), apply, failing, aborted)
      {
        ghost var orphans := Orphans(listing[..i], known, cutoff);
        assert listing[..i + 1] == listing[..i] + [listing[i]];
        OrphansGrow(listing[..i], listing[i], known, cutoff);
        var key := listing[i].key;
        if key in known || (cutoff.Some? && listing[i].at > cutoff.value) {
          continue;
        }
        OneMoreWithout(old(objects), orphans, key, failing);
        if !apply {
          aborted := aborted + 1;
        } else if key !in failing {
          objects := objects - {key};
          aborted := aborted + 1;
        }
      }
      assert listing[..|listing|] == listing;
    }

    /** The orphans that could be aborted are gone and counted; a dry run only counts them. */
    predicate UploadsDone(was: map<K, nat>, orphans: seq<K>, apply: bool, failing: set<K>, aborted: nat)
      reads this
    {
      if apply then objects == Without(was, orphans, failing) && aborted == Gone(orphans, failing)
      else objects == was && aborted == |orphans|
    }

    /** Orphans so far are those already deleted and those still in the batch. */
    ghost predicate Progress(was: map<K, nat>, sent: seq<nat>, seen: seq<Listed<K>>, flushed: seq<K>, batch: seq<K>,
                             known: set<K>, apply: bool, cutoff: Option<int>, failing: set<K>, deleted: nat)
      reads this
    {
      if apply then
        && Orphans(seen, known, cutoff) == flushed + batch && |batch| < DELETE_BATCH_SIZE
        && objects == Without(was, flushed, failing) && deleted == Gone(flushed, failing)
        && |flushed| % 1000 == 0 && requests == sent + Batches(|flushed|)
      else requests == sent && objects == was && batch == [] && deleted == |Orphans(seen, known, cutoff)|
    }
  }

  lemma MoreWithout<K, V>(objects: map<K, V>, a: seq<K>, b: seq<K>, failing: set<K>)
    ensures Without(Without(objects, a, failing), b, failing) == Without(objects, a + b, failing)
  {}

  lemma OneMoreWithout<K, V>(objects: map<K, V>, a: seq<K>, key: K, failing: set<K>)
    ensures Without(objects, a + [key], failing)
            == if key in failing then Without(objects, a, failing) else Without(objects, a, failing) - {key}
    ensures Gone(a + [key], failing) == Gone(a, failing) + if key in failing then 0 else 1
  {
    assert (a + [key])[..|a|] == a;
  }

  /** A sweep never takes a key it knew, nor one too young for its age limit. */
  lemma SweepSpares<K>(objects: map<K, nat>, listing: seq<Listed<K>>, known: set<K>, cutoff: Option<int>,
                       failing: set<K>, k: K)
    requires k in objects
    requires (k in known
              || (cutoff.Some? && forall i | 0 <= i < |listing| && listing[i].key == k :: listing[i].at > cutoff.value))
    ensures k in Without(objects, Orphans(listing, known, cutoff), failing)
  {
    OrphansAre(listing, known, cutoff, k);
  }
}
