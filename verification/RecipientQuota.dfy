// The sliding-window cap on the invitation emails of one agent: finalize requests
// check it under a lock on the agent's row, and log their event later on.
module RecipientQuota {
  import opened Bytes

  /** A TRANSFER_CREATED event: when it was logged, for how many recipients, and when its request checked the quota. */
  datatype Event = Event(created: nat, amount: nat, checked: nat)

  datatype Quota = Quota(limit: nat, period: nat)

  datatype Request = Request(amount: nat, checked: nat)

  /**
   holder is the finalize that holds the agent's row lock; alive the transfers not deleted, by their event's
   index. The check counts events, not transfers, so a hard delete gives nothing back: alive plays no part in it.
   */
  datatype State = State(now: nat, events: seq<Event>, holder: Option<Request>, alive: set<nat>)

  datatype Step =
    | Tick
    | Check(amount: nat)
    | CreateEmail
    | CreateLink
    | RollBack
    | HardDelete(transfer: nat)

  const FRESH := State(0, [], None, {})

  function SumSince(events: seq<Event>, since: int): nat {
    if events == [] then 0
    else
      var last := events[|events| - 1];
      SumSince(events[..|events| - 1], since) + if last.created >= since then last.amount else 0
  }

  /** Recipients of the transfers created from a to b, both included. */
  function SumBetween(events: seq<Event>, a: int, b: int): nat {
    if events == [] then 0
    else
      var last := events[|events| - 1];
      SumBetween(events[..|events| - 1], a, b) + if a <= last.created <= b then last.amount else 0
  }

  predicate Passes(q: Quota, s: State, amount: nat) {
    SumSince(s.events, s.now - q.period) + amount <= q.limit
  }

  /** A request that does not pass is refused, and so does not move. */
  predicate Enabled(q: Quota, s: State, x: Step) {
    match x
    case Check(amount) => s.holder == None && Passes(q, s, amount)
    case CreateEmail => s.holder.Some?
    case RollBack => s.holder.Some?
    case HardDelete(transfer) => transfer in s.alive
    case _ => true
  }

  function Apply(q: Quota, s: State, x: Step): State
    requires Enabled(q, s, x)
  {
    match x
    case Tick => s.(now := s.now + 1)
    case Check(amount) => s.(holder := Some(Request(amount, s.now)))
    case CreateEmail =>
      s.(events := s.events + [Event(s.now, s.holder.value.amount, s.holder.value.checked)], holder := None,
         alive := s.alive + {|s.events|})
    case CreateLink => s.(events := s.events + [Event(s.now, 0, s.now)], alive := s.alive + {|s.events|})
    case RollBack => s.(holder := None)
    case HardDelete(transfer) => s.(alive := s.alive - {transfer})
  }

  /** Each event's own check still bounds everything up to it. */
  predicate EventOk(q: Quota, events: seq<Event>, k: nat)
    requires k < |events|
  {
    && events[k].checked <= events[k].created
    && (events[k].amount > 0 ==> SumSince(events[..k + 1], events[k].checked - q.period) <= q.limit)
  }

  ghost predicate Inv(q: Quota, s: State) {
    && (forall i, j | 0 <= i <= j < |s.events| :: s.events[i].created <= s.events[j].created)
    && (forall i | 0 <= i < |s.events| :: s.events[i].created <= s.now)
    && (forall k | 0 <= k < |s.events| :: EventOk(q, s.events, k))
    && (s.holder.Some? ==>
          && s.holder.value.checked <= s.now
          && SumSince(s.events, s.holder.value.checked - q.period) + s.holder.value.amount <= q.limit)
  }

  lemma Appended(q: Quota, events: seq<Event>, e: Event)
    requires forall k | 0 <= k < |events| :: EventOk(q, events, k)
    ensures forall k | 0 <= k < |events| :: EventOk(q, events + [e], k)
    ensures forall since ::
              SumSince(events + [e], since) == SumSince(events, since) + if e.created >= since then e.amount else 0
  {
    forall k | 0 <= k < |events| ensures EventOk(q, events + [e], k) {
      assert EventOk(q, events, k);
      assert (events + [e])[..k + 1] == events[..k + 1];
    }
    assert (events + [e])[..|events|] == events;
  }

  lemma StepKeeps(q: Quota, s: State, x: Step)
    requires Inv(q, s) && Enabled(q, s, x)
    ensures Inv(q, Apply(q, s, x))
  {
    var t := Apply(q, s, x);
    if x.CreateEmail? || x.CreateLink? {
      var e := t.events[|s.events|];
      Appended(q, s.events, e);
      assert t.events[..|s.events| + 1] == t.events;
    }
  }

  predicate Possible(q: Quota, s: State, run: seq<Step>)
    decreases run
  {
    run == [] || (Enabled(q, s, run[0]) && Possible(q, Apply(q, s, run[0]), run[1..]))
  }

  function After(q: Quota, s: State, run: seq<Step>): State
    requires Possible(q, s, run)
    decreases run
  {
    if run == [] then s else After(q, Apply(q, s, run[0]), run[1..])
  }

  lemma {:induction false} RunKeeps(q: Quota, s: State, run: seq<Step>)
    requires Inv(q, s) && Possible(q, s, run)
    ensures Inv(q, After(q, s, run))
    decreases run
  {
    if run != [] {
      StepKeeps(q, s, run[0]);
      RunKeeps(q, Apply(q, s, run[0]), run[1..]);
    }
  }

  lemma {:induction false} BetweenIsSince(events: seq<Event>, a: int, b: int, since: int)
    requires since <= a
    ensures SumBetween(events, a, b) <= SumSince(events, since)
  {
    if events != [] { BetweenIsSince(events[..|events| - 1], a, b, since); }
  }

  lemma {:induction false} WindowBounded(q: Quota, events: seq<Event>, a: int)
    requires forall i, j | 0 <= i <= j < |events| :: events[i].created <= events[j].created
    requires forall k | 0 <= k < |events| :: EventOk(q, events, k)
    ensures SumBetween(events, a, a + q.period) <= q.limit
  {
    if events != [] {
      var n := |events| - 1;
      var front, last := events[..n], events[n];
      forall k | 0 <= k < |front| ensures EventOk(q, front, k) {
        assert EventOk(q, events, k) && front[..k + 1] == events[..k + 1];
      }
      if a <= last.created <= a + q.period && last.amount > 0 {
        assert EventOk(q, events, n) && events[..n + 1] == events;
        BetweenIsSince(events, a, a + q.period, last.checked - q.period);
      } else {
        WindowBounded(q, front, a);
      }
    }
  }

  /** The TRANSFER_CREATED events of a run, read off its steps: who was mailed when, and what was asked for last. */
  function Logged(now: nat, asked: Option<Request>, run: seq<Step>): seq<Event>
    decreases run
  {
    if run == [] then []
    else
      match run[0]
      case Tick => Logged(now + 1, asked, run[1..])
      case Check(amount) => Logged(now, Some(Request(amount, now)), run[1..])
      case CreateEmail =>
        var mailed := if asked.Some? then [Event(now, asked.value.amount, asked.value.checked)] else [];
        mailed + Logged(now, None, run[1..])
      case CreateLink => [Event(now, 0, now)] + Logged(now, asked, run[1..])
      case RollBack => Logged(now, None, run[1..])
      case HardDelete(_) => Logged(now, asked, run[1..])
  }

  lemma {:induction false} EventsAreLogged(q: Quota, s: State, run: seq<Step>)
    requires Possible(q, s, run)
    ensures After(q, s, run).events == s.events + Logged(s.now, s.holder, run)
    decreases run
  {
    if run != [] { EventsAreLogged(q, Apply(q, s, run[0]), run[1..]); }
  }

  /** However finalizes and deletions interleave, the mails of a run keep every window within the limit. */
  lemma NoWindowExceedsTheLimit(q: Quota, run: seq<Step>, a: int)
    requires Possible(q, FRESH, run)
    ensures SumBetween(Logged(0, None, run), a, a + q.period) <= q.limit
  {
    RunKeeps(q, FRESH, run);
    EventsAreLogged(q, FRESH, run);
    assert [] + Logged(0, None, run) == Logged(0, None, run);
    WindowBounded(q, After(q, FRESH, run).events, a);
  }

  /**
   The check refuses no more than it must: a refused request would have broken the limit had it been logged at
   once.
   */
  lemma RefusalsAreNeeded(q: Quota, s: State, amount: nat)
    requires Inv(q, s) && !Passes(q, s, amount)
    ensures SumBetween(s.events + [Event(s.now, amount, s.now)], s.now - q.period, s.now) > q.limit
  {
    assert (s.events + [Event(s.now, amount, s.now)])[..|s.events|] == s.events;
    UpToNow(s.events, s.now - q.period, s.now);
  }

  lemma {:induction false} UpToNow(events: seq<Event>, a: int, b: int)
    requires forall i | 0 <= i < |events| :: events[i].created <= b
    ensures SumBetween(events, a, b) == SumSince(events, a)
  {
    if events != [] { UpToNow(events[..|events| - 1], a, b); }
  }
}
