/** The loops that re-arm scans over many rows: the reaper's tick and /rescan/. */
module ScanRearming {
  import opened Bytes
  import opened ScanClaims

  /** wait is the file's own scan budget. */
  datatype Row = Row(status: Status, stamp: Option<nat>, wait: nat)

  datatype Table = Table(rows: map<nat, Row>, queue: multiset<nat>)

  /** A row the reaper read as stale, with the stamp it read. */
  datatype Candidate = Candidate(file: nat, seen: nat)

  predicate Matches(t: Table, x: Candidate) {
    x.file in t.rows && t.rows[x.file].status == Pending && t.rows[x.file].stamp == Some(x.seen)
  }

  function Enqueued(t: Table, f: nat, now: nat): Table
    requires f in t.rows
  {
    Table(t.rows[f := t.rows[f].(status := Pending, stamp := Some(now))], t.queue + multiset{f})
  }

  /** One tick over its candidates: it claims, enqueues, and stops at the first refusal of the broker. */
  function Reaped(t: Table, candidates: seq<Candidate>, now: nat, refused: set<nat>): Table
    decreases candidates
  {
    if candidates == [] then t
    else if !Matches(t, candidates[0]) then Reaped(t, candidates[1..], now, refused)
    else if candidates[0].file in refused then t
    else Reaped(Enqueued(t, candidates[0].file, now), candidates[1..], now, refused)
  }

  /**
   After a tick each row is as before, or was one of its candidates and carries its clock; then it got exactly
   one message.
   */
  lemma {:induction false} ReapedRow(t: Table, candidates: seq<Candidate>, now: nat, refused: set<nat>, f: nat)
    requires f in t.rows && forall i | 0 <= i < |candidates| :: candidates[i].seen < now
    ensures var u := Reaped(t, candidates, now, refused);
            && f in u.rows
            && if u.rows[f] == t.rows[f] then u.queue[f] == t.queue[f]
               else && u.rows[f] == t.rows[f].(stamp := Some(now)) && u.queue[f] == t.queue[f] + 1
                    && t.rows[f].status == Pending && t.rows[f].stamp.Some?
                    && Candidate(f, t.rows[f].stamp.value) in candidates
    decreases candidates
  {
    if candidates != [] {
      var x, rest := candidates[0], candidates[1..];
      assert candidates == [x] + rest;
      if !Matches(t, x) {
        ReapedRow(t, rest, now, refused, f);
      } else if x.file !in refused {
        ReapedRow(Enqueued(t, x.file, now), rest, now, refused, f);
      }
    }
  }

  /** Whether the broker refuses a claim of this tick, by the rows as the tick found them. */
  predicate Stops(t: Table, candidates: seq<Candidate>, refused: set<nat>) {
    exists i | 0 <= i < |candidates| :: Matches(t, candidates[i]) && candidates[i].file in refused
  }

  predicate DistinctFiles(candidates: seq<Candidate>) {
    forall i, j | 0 <= i < j < |candidates| :: candidates[i].file != candidates[j].file
  }

  lemma MatchesStill(t: Table, f: nat, now: nat, x: Candidate)
    requires f in t.rows && x.file != f
    ensures Matches(Enqueued(t, f, now), x) <==> Matches(t, x)
  {}

  /**
   The k-th candidate is re-armed, with one message, if and only if its row still is as it was read and neither it
   nor a candidate before it is refused by the broker.
   */
  lemma {:induction false} ReapedExactly(t: Table, candidates: seq<Candidate>, now: nat, refused: set<nat>, k: nat)
    requires k < |candidates| && DistinctFiles(candidates) && candidates[k].file in t.rows && candidates[k].seen < now
    ensures var u, f := Reaped(t, candidates, now, refused), candidates[k].file;
            && f in u.rows
            && if Matches(t, candidates[k]) && !Stops(t, candidates[..k + 1], refused)
               then u.rows[f] == t.rows[f].(stamp := Some(now)) && u.queue[f] == t.queue[f] + 1
               else u.rows[f] == t.rows[f] && u.queue[f] == t.queue[f]
    decreases candidates
  {
    var x, rest, f := candidates[0], candidates[1..], candidates[k].file;
    var u := if Matches(t, x) then Enqueued(t, x.file, now) else t;
    assert candidates == [x] + rest;
    if k == 0 {
      assert candidates[..1] == [x];
      assert Matches(t, x) && x.file in refused ==> Matches(t, candidates[..1][0]);
      if !Stops(t, [x], refused) { LaterUntouched(u, rest, now, refused, f); }
    } else if !(Matches(t, x) && x.file in refused) {
      forall i | 0 <= i < |rest| ensures Matches(u, rest[i]) <==> Matches(t, rest[i]) {
        assert rest[i] == candidates[i + 1];
        if Matches(t, x) { MatchesStill(t, x.file, now, rest[i]); }
      }
      ReapedExactly(u, rest, now, refused, k - 1);
      StopsLater(t, u, candidates, refused, k);
    } else {
      assert Matches(t, candidates[..k + 1][0]);
    }
  }

  /** A tick that goes on past a candidate stops later if and only if it was going to. */
  lemma StopsNext(t: Table, candidates: seq<Candidate>, now: nat, refused: set<nat>)
    requires candidates != [] && DistinctFiles(candidates)
    requires Matches(t, candidates[0]) ==> candidates[0].file !in refused
    ensures var u := if Matches(t, candidates[0]) then Enqueued(t, candidates[0].file, now) else t;
            Stops(u, candidates[1..], refused) <==> Stops(t, candidates, refused)
  {
    var u := if Matches(t, candidates[0]) then Enqueued(t, candidates[0].file, now) else t;
    forall i | 0 <= i < |candidates[1..]| ensures Matches(u, candidates[1..][i]) <==> Matches(t, candidates[1..][i]) {
      assert candidates[1..][i] == candidates[i + 1];
      if Matches(t, candidates[0]) { MatchesStill(t, candidates[0].file, now, candidates[i + 1]); }
    }
    if |candidates| > 1 {
      StopsLater(t, u, candidates, refused, |candidates| - 1);
      assert candidates[..|candidates|] == candidates && candidates[1..][..|candidates| - 1] == candidates[1..];
    }
  }

  lemma StopsLater(t: Table, u: Table, candidates: seq<Candidate>, refused: set<nat>, k: nat)
    requires 0 < k < |candidates| && !(Matches(t, candidates[0]) && candidates[0].file in refused)
    requires forall i | 0 <= i < |candidates[1..]| :: Matches(u, candidates[1..][i]) <==> Matches(t, candidates[1..][i])
    ensures Stops(t, candidates[..k + 1], refused) <==> Stops(u, candidates[1..][..k], refused)
  {
    if Stops(t, candidates[..k + 1], refused) {
      var i :| 0 <= i < k + 1 && Matches(t, candidates[..k + 1][i]) && candidates[..k + 1][i].file in refused;
      assert candidates[1..][i - 1] == candidates[i];
      assert Matches(u, candidates[1..][..k][i - 1]);
    }
    if Stops(u, candidates[1..][..k], refused) {
      var i :| 0 <= i < k && Matches(u, candidates[1..][..k][i]) && candidates[1..][..k][i].file in refused;
      assert candidates[1..][i] == candidates[i + 1];
      assert Matches(t, candidates[..k + 1][i + 1]);
    }
  }

  lemma {:induction false} LaterUntouched(t: Table, candidates: seq<Candidate>, now: nat, refused: set<nat>, f: nat)
    requires f in t.rows && forall i | 0 <= i < |candidates| :: candidates[i].file != f
    ensures var u := Reaped(t, candidates, now, refused);
            f in u.rows && u.rows[f] == t.rows[f] && u.queue[f] == t.queue[f]
    decreases candidates
  {
    if candidates != [] {
      var x, rest := candidates[0], candidates[1..];
      if !Matches(t, x) {
        LaterUntouched(t, rest, now, refused, f);
      } else if x.file !in refused {
        LaterUntouched(Enqueued(t, x.file, now), rest, now, refused, f);
      }
    }
  }

  /** What rescan does with one completed file of its draft. */
  function Rescanned(t: Table, files: seq<nat>, now: nat): Table
    decreases files
  {
    if files == [] then t
    else if files[0] in t.rows && Rearmable(t.rows[files[0]], now)
    then Rescanned(Enqueued(t, files[0], now), files[1..], now)
    else Rescanned(t, files[1..], now)
  }

  predicate Rearmable(r: Row, now: nat) {
    r.status == Transient || (r.status == Pending && (r.stamp.None? || r.stamp.value + r.wait <= now))
  }

  /** A scan that is pending without a stamp, or whose stamp is a whole budget old. */
  predicate LostScan(r: Row, now: nat) {
    r.status == Pending && (r.stamp == None || now >= r.stamp.value + r.wait)
  }

  /** rescan re-arms exactly the lost and the transiently failed, each with one message. */
  lemma {:induction false} RescannedRow(t: Table, files: seq<nat>, now: nat, f: nat)
    requires f in t.rows && forall i, j | 0 <= i < j < |files| :: files[i] != files[j]
    ensures var u := Rescanned(t, files, now);
            && f in u.rows
            && if f in files && (t.rows[f].status == Transient || LostScan(t.rows[f], now))
               then u.rows[f] == t.rows[f].(status := Pending, stamp := Some(now)) && u.queue[f] == t.queue[f] + 1
               else u.rows[f] == t.rows[f] && u.queue[f] == t.queue[f]
    decreases files
  {
    if files != [] {
      var rest := files[1..];
      assert files == [files[0]] + rest;
      assert forall i, j | 0 <= i < j < |rest| :: rest[i] == files[i + 1] && rest[j] == files[j + 1];
      if files[0] in t.rows && Rearmable(t.rows[files[0]], now) {
        RescannedRow(Enqueued(t, files[0], now), rest, now, f);
      } else {
        RescannedRow(t, rest, now, f);
      }
    }
  }

  class ScanTable {
    var rows: map<nat, Row>
    var queue: multiset<nat>

    constructor (rows: map<nat, Row>, queue: multiset<nat>)
      ensures this.rows == rows && this.queue == queue
    {
      this.rows, this.queue := rows, queue;
    }

    function Contents(): Table
      reads this
    {
      Table(rows, queue)
    }

    /** The reaper's query: pending, stamped, and past both the floor and the file's own budget. */
    method Stale(now: nat, floor: nat) returns (candidates: seq<Candidate>)
      ensures DistinctFiles(candidates)
      ensures forall x: Candidate :: x in candidates <==>
                && x.file in rows && rows[x.file].status == Pending && rows[x.file].stamp == Some(x.seen)
                && now - x.seen >= floor && now - x.seen >= rows[x.file].wait
    {
      candidates := [];
      var left := rows.Keys;
      while left != {}
        invariant left <= rows.Keys && DistinctFiles(candidates)
        invariant forall x: Candidate :: x in candidates <==>
                    && x.file in rows.Keys - left && rows[x.file].status == Pending
                    && rows[x.file].stamp == Some(x.seen)
                    && now - x.seen >= floor && now - x.seen >= rows[x.file].wait
        decreases |left|
      {
        var f :| f in left;
        var r := rows[f];
        forall i | 0 <= i < |candidates| ensures candidates[i].file != f { assert candidates[i] in candidates; }
        if r.status == Pending && r.stamp.Some? && r.stamp.value + floor <= now && r.stamp.value + r.wait <= now {
          candidates := candidates + [Candidate(f, r.stamp.value)];
        }
        left := left - {f};
      }
    }

    /** reap_stale_pending_scans_task past its query: claim, enqueue, give the stamp back when the broker refuses. */
    method Reap(candidates: seq<Candidate>, now: nat, refused: set<nat>) returns (raised: bool)
      modifies this
      ensures Contents() == Reaped(old(Contents()), candidates, now, refused)
      ensures DistinctFiles(candidates) ==> (raised <==> Stops(old(Contents()), candidates, refused))
    {
      raised := false;
      for i := 0 to |candidates|
        invariant Reaped(Contents(), candidates[i..], now, refused) == Reaped(old(Contents()), candidates, now, refused)
        invariant DistinctFiles(candidates) ==>
                    (Stops(Contents(), candidates[i..], refused) <==> Stops(old(Contents()), candidates, refused))
      {
        ghost var rest, t := candidates[i..], Contents();
        assert rest[0] == candidates[i];
        if DistinctFiles(candidates) && !(Matches(t, rest[0]) && rest[0].file in refused) {
          StopsNext(t, rest, now, refused);
        }
        var x := candidates[i];
        assert candidates[i..][1..] == candidates[i + 1..];
        var claimed := x.file in rows && rows[x.file].status == Pending && rows[x.file].stamp == Some(x.seen);
        if claimed {
          ghost var before := Contents();
          rows := rows[x.file := rows[x.file].(stamp := Some(now))];
          if x.file in refused {
            rows := rows[x.file := rows[x.file].(stamp := Some(x.seen))];
            assert rows == before.rows;
            return true;
          }
          queue := queue + multiset{x.file};
          assert Contents() == Enqueued(before, x.file, now);
        }
      }
    }

    /** rescan over the completed files of a draft. */
    method Rescan(files: seq<nat>, now: nat) returns (rescanned: seq<nat>)
      modifies this
      ensures Contents() == Rescanned(old(Contents()), files, now)
      ensures forall f :: f in rescanned ==> f in files
      ensures (forall i, j | 0 <= i < j < |files| :: files[i] != files[j]) ==>
                forall f | f in files ::
                  f in rescanned <==>
                    f in old(rows) && (old(rows)[f].status == Transient || LostScan(old(rows)[f], now))
    {
      rescanned := [];
      for i := 0 to |files|
        invariant forall f :: f in rescanned ==> f in files[..i]
        invariant forall f :: f in rows <==> f in old(rows)
        invariant forall f | f in rows && f !in files[..i] :: rows[f] == old(rows)[f]
        invariant (forall i, j | 0 <= i < j < |files| :: files[i] != files[j]) ==>
                    forall f | f in files[..i] ::
                      f in rescanned <==>
                        f in old(rows) && (old(rows)[f].status == Transient || LostScan(old(rows)[f], now))
        invariant Rescanned(Contents(), files[i..], now) == Rescanned(old(Contents()), files, now)
      {
        var f := files[i];
        assert files[i..][1..] == files[i + 1..] && files[..i + 1] == files[..i] + [f];
        if f !in rows {
          continue;
        }
        var isPending, isTransient := rows[f].status == Pending, rows[f].status == Transient;
        if !isPending && !isTransient {
          continue;
        }
        if isPending && rows[f].stamp.Some? && now < rows[f].stamp.value + rows[f].wait {
          continue;
        }
        rows := rows[f := rows[f].(status := Pending, stamp := Some(now))];
        queue := queue + multiset{f};
        rescanned := rescanned + [f];
      }
    }
  }
}
