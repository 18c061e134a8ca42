// The simulated clock: a timer queue that delivers ticks one at a time, in a fixed order.

module Clock {
  import opened Sorting

  type Time = int

  /** A pending timer; a period of 0 is a one-shot. `seqno` is its creation order. */
  datatype Waiter = Waiter(deadline: Time, period: nat, seqno: nat, stopped: bool)

  datatype Tick = Tick(at: Time, seqno: nat)

  predicate Sooner(a: Waiter, b: Waiter) {
    if a.deadline != b.deadline then a.deadline < b.deadline else a.seqno < b.seqno
  }

  predicate Earlier(a: Tick, b: Tick) {
    if a.at != b.at then a.at < b.at else a.seqno < b.seqno
  }

  ghost predicate UniqueSeqnos(ws: seq<Waiter>) {
    forall i, j :: 0 <= i < j < |ws| ==> ws[i].seqno != ws[j].seqno
  }

  // ---------------------------------------------------------------------------
  // What advancing means, one delivery at a time
  // ---------------------------------------------------------------------------

  predicate Live(w: Waiter, target: Time) {
    !w.stopped && w.deadline <= target
  }

  /** The first timer in the queue that may fire by `target`, or -1. */
  function NextDue(queue: seq<Waiter>, target: Time): (i: int)
    ensures -1 <= i < |queue|
    ensures i >= 0 ==> Live(queue[i], target)
  {
    if queue == [] || queue[0].deadline > target then -1
    else if !queue[0].stopped then 0
    else if NextDue(queue[1..], target) < 0 then -1 else NextDue(queue[1..], target) + 1
  }

  /** The queue once timer `i` has fired: a ticker is due again a period later, a one-shot is gone. */
  function Fired(queue: seq<Waiter>, i: nat): seq<Waiter>
    requires i < |queue|
  {
    var w := queue[i];
    if w.period > 0 then queue[i := w.(deadline := w.deadline + w.period)] else queue[..i] + queue[i + 1..]
  }

  /** How much there is left to deliver, at most. */
  function Work(ws: seq<Waiter>, target: Time): nat {
    if ws == [] then 0 else Load(ws[0], target) + Work(ws[1..], target)
  }

  function Load(w: Waiter, target: Time): nat {
    if Live(w, target) then target - w.deadline + 1 else 0
  }

  lemma {:induction false} WorkOfInsert(w: Waiter, ws: seq<Waiter>, target: Time)
    ensures Work(Insert(Sooner, w, ws), target) == Load(w, target) + Work(ws, target)
  {
    if ws != [] && !Sooner(w, ws[0]) {
      WorkOfInsert(w, ws[1..], target);
      assert ([ws[0]] + Insert(Sooner, w, ws[1..]))[1..] == Insert(Sooner, w, ws[1..]);
    } else {
      assert ([w] + ws)[1..] == ws;
    }
  }

  lemma {:induction false} WorkOfSort(ws: seq<Waiter>, target: Time)
    ensures Work(SortBy(Sooner, ws), target) == Work(ws, target)
  {
    if ws != [] {
      WorkOfSort(ws[1..], target);
      WorkOfInsert(ws[0], SortBy(Sooner, ws[1..]), target);
    }
  }

  lemma {:induction false} FiringIsProgress(queue: seq<Waiter>, i: nat, target: Time)
    requires i < |queue| && Live(queue[i], target)
    ensures Work(Fired(queue, i), target) < Work(queue, target)
  {
    var w := queue[i];
    if i == 0 {
      assert if w.period > 0 then Fired(queue, i)[1..] == queue[1..] else Fired(queue, i) == queue[1..];
    } else {
      FiringIsProgress(queue[1..], i - 1, target);
      assert Fired(queue, i)[1..] == Fired(queue[1..], i - 1);
    }
  }

  /** Every delivery up to `target`, and the queue that is left. */
  function Run(ws: seq<Waiter>, target: Time): (r: (seq<Tick>, seq<Waiter>))
    decreases Work(ws, target)
  {
    var queue := SortBy(Sooner, ws);
    var i := NextDue(queue, target);
    if i < 0 then ([], queue)
    else
      WorkOfSort(ws, target);
      FiringIsProgress(queue, i, target);
      var rest := Run(Fired(queue, i), target);
      ([Tick(queue[i].deadline, queue[i].seqno)] + rest.0, rest.1)
  }

  // ---------------------------------------------------------------------------
  // The clock
  // ---------------------------------------------------------------------------

  class FakeClock {
    var now: Time
    var waiters: seq<Waiter>
    var count: nat

    ghost predicate Valid() reads this {
      UniqueSeqnos(waiters) && forall w <- waiters :: w.seqno <= count
    }

    constructor (start: Time)
      ensures Valid() && now == start && waiters == []
    {
      now, waiters, count := start, [], 0;
    }

    /** Moves the clock and fires nothing: deadlines now past are delivered by the next advance. */
    method Set(t: Time)
      requires Valid()
      modifies this`now
      ensures Valid() && now == t
    {
      now := t;
    }

    method Register(d: Time, period: nat) returns (seqno: nat)
      requires Valid()
      modifies this`waiters, this`count
      ensures Valid() && waiters == old(waiters) + [Waiter(now + d, period, seqno, false)]
      ensures forall w <- old(waiters) :: w.seqno < seqno
    {
      count := count + 1;
      seqno := count;
      waiters := waiters + [Waiter(now + d, period, seqno, false)];
    }

    /** Marks the timer before unregistering it, so that a delivery in progress is abandoned rather than waited for. */
    method Stop(seqno: nat)
      requires Valid()
      modifies this`waiters
      ensures Valid() && forall w :: w in waiters <==> w in old(waiters) && w.seqno != seqno
    {
      for i := 0 to |waiters|
        invariant waiters == old(waiters) && forall k :: 0 <= k < i ==> waiters[k].seqno != seqno
      {
        if waiters[i].seqno == seqno {
          waiters := waiters[..i] + waiters[i + 1..];
          RemovedOne(old(waiters), i);
          return;
        }
      }
    }

    method FindDue(target: Time) returns (i: int)
      ensures i == NextDue(waiters, target)
    {
      for k := 0 to |waiters|
        invariant NextDue(waiters, target) ==
                  if NextDue(waiters[k..], target) < 0 then -1 else NextDue(waiters[k..], target) + k
      {
        assert waiters[k..][1..] == waiters[k + 1..];
        if waiters[k].deadline > target {
          return -1;
        }
        if !waiters[k].stopped {
          return k;
        }
      }
      return -1;
    }

    /** Takes one delivery: the clock reads the timer's own deadline while its tick is delivered. */
    method Fire(i: nat) returns (tick: Tick)
      requires Valid() && i < |waiters|
      modifies this`now, this`waiters
      ensures Valid() && waiters == Fired(old(waiters), i) && now == tick.at
      ensures tick == Tick(old(waiters)[i].deadline, old(waiters)[i].seqno)
    {
      FiringKeepsSeqnos(waiters, i);
      var w := waiters[i];
      now := w.deadline;
      if w.period > 0 {
        waiters := waiters[i := w.(deadline := w.deadline + w.period)];
      } else {
        waiters := waiters[..i] + waiters[i + 1..];
      }
      tick := Tick(w.deadline, w.seqno);
    }

    method SortWaiters()
      requires Valid()
      modifies this`waiters
      ensures Valid() && waiters == SortBy(Sooner, old(waiters))
    {
      SortKeepsSeqnos(waiters);
      waiters := SortBy(Sooner, waiters);
    }

    method Advance(d: Time) returns (ticks: seq<Tick>)
      requires Valid() && d >= 0
      modifies this`now, this`waiters
      ensures Valid() && now == old(now) + d && (ticks, waiters) == Run(old(waiters), now)
    {
      hide SortBy, Fired, NextDue, Work;
      var target := now + d;
      ticks := [];
      ghost var all := Run(waiters, target);
      assert [] + all.0 == all.0;
      while true
        invariant Valid() && all == (ticks + Run(waiters, target).0, Run(waiters, target).1)
        decreases Work(waiters, target)
      {
        WorkOfSort(waiters, target);
        SortWaiters();
        var i := FindDue(target);
        if i < 0 {
          now := target;
          assert ticks + [] == ticks;
          return;
        }
        FiringIsProgress(waiters, i, target);
        var tick := Fire(i);
        ghost var rest := Run(waiters, target).0;
        assert ticks + ([tick] + rest) == (ticks + [tick]) + rest;
        ticks := ticks + [tick];
      }
    }
  }

  // ---------------------------------------------------------------------------
  // One creation number, one timer
  // ---------------------------------------------------------------------------

  lemma UniqueIsOrdered(ws: seq<Waiter>)
    requires UniqueSeqnos(ws)
    ensures Distinct(ws) && StrictOrderOn(Sooner, ws)
  {
  }

  lemma SortKeepsSeqnos(ws: seq<Waiter>)
    requires UniqueSeqnos(ws)
    ensures UniqueSeqnos(SortBy(Sooner, ws)) && Ascending(Sooner, SortBy(Sooner, ws))
    ensures forall w :: w in SortBy(Sooner, ws) <==> w in ws
  {
    var queue := SortBy(Sooner, ws);
    UniqueIsOrdered(ws);
    SortKeeps(Sooner, ws);
    SortAscends(Sooner, ws);
    forall i, j | 0 <= i < j < |queue| ensures queue[i].seqno != queue[j].seqno {
      assert Sooner(queue[i], queue[j]) && queue[i] in ws && queue[j] in ws;
    }
  }

  lemma RemovedOne(ws: seq<Waiter>, i: nat)
    requires i < |ws| && UniqueSeqnos(ws)
    ensures var rest := ws[..i] + ws[i + 1..];
            UniqueSeqnos(rest) && forall w :: w in rest <==> w in ws && w.seqno != ws[i].seqno
  {
    var rest := ws[..i] + ws[i + 1..];
    forall j, k | 0 <= j < k < |rest| ensures rest[j].seqno != rest[k].seqno {
      assert rest[j] == ws[if j < i then j else j + 1] && rest[k] == ws[if k < i then k else k + 1];
    }
    forall w ensures w in rest <==> w in ws && w.seqno != ws[i].seqno {
      if w in rest {
        var k :| 0 <= k < |rest| && rest[k] == w;
        assert w == ws[if k < i then k else k + 1];
      }
      if w in ws && w.seqno != ws[i].seqno {
        var k :| 0 <= k < |ws| && ws[k] == w;
        assert w == rest[if k < i then k else k - 1];
      }
    }
  }

  lemma FiringKeepsSeqnos(queue: seq<Waiter>, i: nat)
    requires i < |queue| && UniqueSeqnos(queue)
    ensures UniqueSeqnos(Fired(queue, i))
    ensures forall w :: w in Fired(queue, i) <==>
              (w in queue && w.seqno != queue[i].seqno) ||
              (queue[i].period > 0 && w == queue[i].(deadline := queue[i].deadline + queue[i].period))
  {
    var w := queue[i];
    if w.period > 0 {
      var next := Fired(queue, i);
      assert next[i] == w.(deadline := w.deadline + w.period);
      assert forall k :: 0 <= k < |queue| && k != i ==> next[k] == queue[k];
    } else {
      RemovedOne(queue, i);
    }
  }

  // ---------------------------------------------------------------------------
  // The schedule
  // ---------------------------------------------------------------------------

  /** The instants a timer is due at: its deadline, and for a ticker every period after it. */
  predicate DueAt(w: Waiter, t: Time) {
    t == w.deadline || (w.period > 0 && t > w.deadline && (t - w.deadline) % w.period == 0)
  }

  predicate DueBy(w: Waiter, tick: Tick, target: Time) {
    !w.stopped && tick.seqno == w.seqno && tick.at <= target && DueAt(w, tick.at)
  }

  ghost predicate Due(ws: seq<Waiter>, tick: Tick, target: Time) {
    exists w <- ws :: DueBy(w, tick, target)
  }

  lemma {:induction false} NextDueIsSoonest(queue: seq<Waiter>, target: Time)
    requires Ascending(Sooner, queue)
    ensures var i := NextDue(queue, target);
            if i < 0 then forall w <- queue :: !Live(w, target)
            else forall w <- queue :: Live(w, target) && w != queue[i] ==> Sooner(queue[i], w)
  {
    if queue != [] {
      NextDueIsSoonest(queue[1..], target);
      assert forall w <- queue :: w == queue[0] || w in queue[1..];
      assert forall w <- queue[1..] :: Sooner(queue[0], w);
    }
  }

  /** Firing takes exactly one instant out of a timer's schedule. */
  lemma OneTickLess(w: Waiter, t: Time)
    requires w.period > 0
    ensures DueAt(w, t) <==> t == w.deadline || DueAt(w.(deadline := w.deadline + w.period), t)
  {
    if t >= w.deadline + w.period {
      PeriodOff(t - w.deadline, w.period);
    }
  }

  lemma PeriodOff(x: nat, p: nat)
    requires 0 < p <= x
    ensures (x - p) % p == x % p
  {
    var q, r := (x - p) / p, (x - p) % p;
    assert x == (q + 1) * p + r by { assert x - p == q * p + r; }
    RemainderIs(x, p, q + 1, r);
  }

  lemma RemainderIs(x: nat, p: nat, q: nat, r: nat)
    requires p > 0 && x == q * p + r && r < p
    ensures x % p == r
  {
    assert x == (x / p) * p + x % p;
    var d := x / p - q;
    assert d * p == r - x % p;
    WholeMultiples(d, p);
  }

  lemma WholeMultiples(d: int, p: int)
    requires p > 0
    ensures d >= 1 ==> d * p >= p
    ensures d <= -1 ==> d * p <= -p
  {
  }

  lemma FiringTakesOneTick(queue: seq<Waiter>, i: nat, target: Time, tick: Tick)
    requires i < |queue| && UniqueSeqnos(queue) && Live(queue[i], target)
    ensures Due(queue, tick, target) <==>
              tick == Tick(queue[i].deadline, queue[i].seqno) || Due(Fired(queue, i), tick, target)
  {
    hide DueAt, Fired;
    var w, next := queue[i], Fired(queue, i);
    var w' := w.(deadline := w.deadline + w.period);
    FiringKeepsSeqnos(queue, i);
    if w.period > 0 {
      OneTickLess(w, tick.at);
      assert w' in next;
    }
    assert DueAt(w, w.deadline) && (w.period == 0 ==> (DueAt(w, tick.at) <==> tick.at == w.deadline)) by {
      OneShot(w, tick.at);
    }
    if Due(queue, tick, target) {
      var x :| x in queue && DueBy(x, tick, target);
      if x.seqno == w.seqno {
        assert x == w;
        assert tick.at != w.deadline ==> DueBy(w', tick, target);
      } else {
        assert x in next;
      }
    }
    if Due(next, tick, target) {
      var x :| x in next && DueBy(x, tick, target);
      assert x in queue || (x == w' && DueBy(w, tick, target));
    }
    if tick == Tick(w.deadline, w.seqno) {
      assert DueBy(w, tick, target);
    }
  }

  lemma OneShot(w: Waiter, t: Time)
    ensures DueAt(w, w.deadline) && (w.period == 0 ==> (DueAt(w, t) <==> t == w.deadline))
  {
  }

  /**
   * Every live timer fires exactly at the instants it is due by the target -- a ticker once per deadline, a one-shot
   * at most once -- and nothing else fires.
   */
  lemma {:induction false} DeliversExactlyTheDue(ws: seq<Waiter>, target: Time, tick: Tick)
    requires UniqueSeqnos(ws)
    ensures tick in Run(ws, target).0 <==> Due(ws, tick, target)
    decreases Work(ws, target)
  {
    hide DueAt, Fired;
    var queue := SortBy(Sooner, ws);
    var i := NextDue(queue, target);
    SortKeepsSeqnos(ws);
    NextDueIsSoonest(queue, target);
    SameDue(ws, queue, tick, target);
    if i < 0 {
      NoneDue(queue, tick, target);
    } else {
      WorkOfSort(ws, target);
      FiringIsProgress(queue, i, target);
      FiringKeepsSeqnos(queue, i);
      FiringTakesOneTick(queue, i, target, tick);
      DeliversExactlyTheDue(Fired(queue, i), target, tick);
    }
  }

  lemma SameDue(a: seq<Waiter>, b: seq<Waiter>, tick: Tick, target: Time)
    requires forall w :: w in a <==> w in b
    ensures Due(a, tick, target) <==> Due(b, tick, target)
  {
  }

  lemma NoneDue(ws: seq<Waiter>, tick: Tick, target: Time)
    requires forall w <- ws :: !Live(w, target)
    ensures !Due(ws, tick, target)
  {
  }

  /** Deliveries come in order of deadline, and of creation among equal deadlines; in particular none is repeated. */
  lemma {:induction false} DeliversInOrder(ws: seq<Waiter>, target: Time)
    requires UniqueSeqnos(ws)
    ensures Ascending(Earlier, Run(ws, target).0)
    decreases Work(ws, target)
  {
    hide DueAt, Fired, Due, Earlier;
    var queue := SortBy(Sooner, ws);
    var i := NextDue(queue, target);
    SortKeepsSeqnos(ws);
    if i >= 0 {
      WorkOfSort(ws, target);
      FiringIsProgress(queue, i, target);
      FiringKeepsSeqnos(queue, i);
      var first, rest := Tick(queue[i].deadline, queue[i].seqno), Run(Fired(queue, i), target).0;
      DeliversInOrder(Fired(queue, i), target);
      forall tick <- rest ensures Earlier(first, tick) {
        DeliversExactlyTheDue(Fired(queue, i), target, tick);
        LaterTickIsLater(queue, i, target, tick);
      }
    }
  }

  lemma LaterTickIsLater(queue: seq<Waiter>, i: nat, target: Time, tick: Tick)
    requires UniqueSeqnos(queue) && Ascending(Sooner, queue) && i < |queue| && i == NextDue(queue, target)
    requires Due(Fired(queue, i), tick, target)
    ensures Earlier(Tick(queue[i].deadline, queue[i].seqno), tick)
  {
    hide DueAt, Fired, NextDue;
    NextDueIsSoonest(queue, target);
    FiringKeepsSeqnos(queue, i);
    var w :| w in Fired(queue, i) && DueBy(w, tick, target);
    NotBeforeDeadline(w, tick.at);
    assert w in queue && w != queue[i] ==> Live(w, target);
  }

  lemma NotBeforeDeadline(w: Waiter, t: Time)
    requires DueAt(w, t)
    ensures t >= w.deadline
  {
  }

  /** A timer after an advance to `target`: untouched if it did not fire, else at its first deadline past the target. */
  predicate Becomes(w: Waiter, w': Waiter, target: Time) {
    if !Live(w, target) then w' == w
    else
      && w.period > 0 && w' == w.(deadline := w'.deadline)
      && w'.deadline - w.period <= target < w'.deadline && DueAt(w, w'.deadline)
  }

  lemma BecomesInOneMore(w: Waiter, w': Waiter, target: Time)
    requires Live(w, target) && w.period > 0
    ensures Becomes(w, w', target) <==> Becomes(w.(deadline := w.deadline + w.period), w', target)
  {
    OneTickLess(w, w'.deadline);
    var next := w.(deadline := w.deadline + w.period);
    if !Live(next, target) {
      if Becomes(w, w', target) { FirstPast(w, w'.deadline, target); }
    }
  }

  lemma FirstPast(w: Waiter, t: Time, target: Time)
    requires w.period > 0 && w.deadline <= target < w.deadline + w.period && DueAt(w, t) && t - w.period <= target < t
    ensures t == w.deadline + w.period
  {
    var x, p := t - w.deadline, w.period;
    assert 0 < x < 2 * p && x % p == 0;
    if x < p {
      RemainderIs(x, p, 0, x);
    } else if x > p {
      RemainderIs(x, p, 1, x - p);
    }
  }

  /**
   * What is left in the queue: every one-shot that fired is gone, every ticker stands at its first deadline past the
   * target, and every other timer is untouched. So no live deadline at or before the target remains.
   */
  lemma {:induction false} LeavesOnlyTheFuture(ws: seq<Waiter>, target: Time, w': Waiter)
    requires UniqueSeqnos(ws)
    ensures w' in Run(ws, target).1 <==> exists w <- ws :: Becomes(w, w', target)
    ensures w' in Run(ws, target).1 ==> !Live(w', target)
    decreases Work(ws, target)
  {
    hide DueAt, Fired, Becomes;
    var queue := SortBy(Sooner, ws);
    var i := NextDue(queue, target);
    SortKeepsSeqnos(ws);
    NextDueIsSoonest(queue, target);
    if i < 0 {
      forall w <- queue ensures Becomes(w, w', target) <==> w' == w { IdleStays(w, w', target); }
    } else {
      WorkOfSort(ws, target);
      FiringIsProgress(queue, i, target);
      FiringKeepsSeqnos(queue, i);
      var next := Fired(queue, i);
      LeavesOnlyTheFuture(next, target, w');
      FiringKeepsFuture(queue, i, target, w');
    }
  }

  lemma IdleStays(w: Waiter, w': Waiter, target: Time)
    requires !Live(w, target)
    ensures Becomes(w, w', target) <==> w' == w
  {
  }

  lemma FiringKeepsFuture(queue: seq<Waiter>, i: nat, target: Time, w': Waiter)
    requires i < |queue| && UniqueSeqnos(queue) && Live(queue[i], target)
    ensures (exists w <- queue :: Becomes(w, w', target)) <==> (exists w <- Fired(queue, i) :: Becomes(w, w', target))
  {
    hide DueAt, Fired, Becomes;
    var w, next := queue[i], Fired(queue, i);
    FiringKeepsSeqnos(queue, i);
    if w.period > 0 {
      BecomesInOneMore(w, w', target);
      assert w.(deadline := w.deadline + w.period) in next;
    } else {
      OneShotIsGone(w, w', target);
    }
    if x :| x in queue && Becomes(x, w', target) {
      assert x.seqno == w.seqno ==> x == w;
      assert x != w ==> x in next;
    }
    if x :| x in next && Becomes(x, w', target) {
      assert x in queue || x == w.(deadline := w.deadline + w.period);
    }
  }

  lemma OneShotIsGone(w: Waiter, w': Waiter, target: Time)
    requires Live(w, target) && w.period == 0
    ensures !Becomes(w, w', target)
  {
  }
}
