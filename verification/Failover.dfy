// From one tenure to the next: the copy a worker holds is a ledger it can lead from, and no result is reported again.

module Failover {
  import opened Membership
  import opened Options
  import opened Ledgers
  import opened Replication

  /** A copy a node can lead from. */
  ghost predicate CopyInv(c: CopyState) {
    UniqueTasks(c.ledger) && |c.ledger| <= c.size
  }

  /** The task's result has been reported in the tenure from `p` to `l`, or was known to its leader from the start. */
  predicate IsReported(p: LeaderState, l: LeaderState, id: TaskID) {
    HoldsFinished(p.ledger, id) || Reports(l.reported, id) > 0
  }

  /** Each task once, and what is finished has been reported. */
  ghost predicate IsSound(p: LeaderState, l: LeaderState, ledger: seq<TaskRecord>) {
    UniqueTasks(ledger) && forall r <- ledger :: IsFinished(r) ==> IsReported(p, l, r.taskID)
  }

  ghost predicate AllSound(p: LeaderState, l: LeaderState) {
    IsSound(p, l, l.ledger) && forall s <- l.sent :: IsSound(p, l, s.ledger)
  }

  // ---------------------------------------------------------------------------
  // What a tenure sends
  // ---------------------------------------------------------------------------

  lemma GrowthKeepsSound(p: LeaderState, a: LeaderState, b: LeaderState)
    requires LedgerInv(b) && Tenure(a, b) && AllSound(p, a) && b.sent == a.sent
    ensures AllSound(p, b)
  {
    hide Reports;
    forall id | IsReported(p, a, id) ensures IsReported(p, b, id) { assert KeepsRecord(a, b, id); }
    forall s <- b.sent ensures IsSound(p, b, s.ledger) { assert IsSound(p, a, s.ledger); }
    forall r <- b.ledger | IsFinished(r) ensures IsReported(p, b, r.taskID) {
      var i :| 0 <= i < |b.ledger| && b.ledger[i] == r;
      IndexIsUnique(b.ledger, i);
      assert KeepsRecord(a, b, r.taskID);
      var k := IndexOf(a.ledger, r.taskID);
      assert k >= 0 ==> a.ledger[k] in a.ledger;
    }
  }

  lemma ResentKeepsSound(p: LeaderState, a: LeaderState, b: LeaderState)
    requires AllSound(p, a) && Resent(a, b)
    ensures AllSound(p, b)
  {
    hide Reports, IdList, Trimmed, ShedsInOrder, HoldsFinished;
    var current := Snapshot(a.term, IdList(a.attached), a.ledger, a.version);
    TrimmingSheds(a.cfg, current);
    ShedsFacts(Payload(a, IdList(a.attached)).value.ledger, a.ledger);
    forall s <- b.sent ensures IsSound(p, b, s.ledger) {
      assert s in a.sent ==> IsSound(p, a, s.ledger);
    }
  }

  lemma FlushKeepsSound(p: LeaderState, h: LeaderState)
    requires LedgerInv(h) && AllSound(p, h)
    ensures AllSound(p, Flushed(h))
  {
    hide Flushed, AllSound, Resent, IdList, KeepsRecord;
    var l' := Flushed(h);
    FlushIsTenure(h);
    FlushSends(h);
    var q := l'.(sent := h.sent);
    forall id ensures KeepsRecord(h, q, id) { OnlyLedgerAndReportsCount(h, l', q, id); }
    GrowthKeepsSound(p, h, q);
    if l'.sent == h.sent {
      assert l' == q;
    } else {
      ResentKeepsSound(p, q, l');
    }
  }

  lemma OnlyLedgerAndReportsCount(h: LeaderState, l': LeaderState, q: LeaderState, id: TaskID)
    requires KeepsRecord(h, l', id) && q == l'.(sent := q.sent)
    ensures KeepsRecord(h, q, id)
  {
  }

  lemma StepKeepsSound(p: LeaderState, l: LeaderState, e: LeadEvent)
    requires LedgerInv(l) && AllSound(p, l)
    ensures l.cfg.size > 0 && AllSound(p, LeadStep(l, e))
  {
    hide Handled, Flushed, AllSound, Resent, Tenure;
    HasRoom(l);
    var h := Handled(l, e);
    HandledIsTenure(l, e);
    HandledHandles(l, e);
    if h.sent == l.sent {
      GrowthKeepsSound(p, l, h);
    } else {
      ResentKeepsSound(p, l, h);
    }
    FlushKeepsSound(p, h);
  }

  lemma {:induction false} TenureKeepsSound(p: LeaderState, states: seq<LeaderState>, events: seq<LeadEvent>, k: nat)
    requires IsTenure(p, states, events) && k < |states|
    ensures AllSound(p, states[k])
  {
    hide LeadStep, LedgerInv, Flushed, AllSound;
    if k == 0 {
      PromotionIsSound(p);
      FlushKeepsSound(p, p);
    } else {
      TenureKeepsSound(p, states, events, k - 1);
      TenureKeepsLedger(p, states, events, k - 1);
      assert TenureStep(states[k - 1], events[k - 1], states[k]);
      StepKeepsSound(p, states[k - 1], events[k - 1]);
    }
  }

  lemma PromotionIsSound(p: LeaderState)
    requires LedgerInv(p) && p.sent == []
    ensures AllSound(p, p)
  {
    forall r <- p.ledger | IsFinished(r) ensures HoldsFinished(p.ledger, r.taskID) {
      var i :| 0 <= i < |p.ledger| && p.ledger[i] == r;
      IndexIsUnique(p.ledger, i);
    }
  }

  // ---------------------------------------------------------------------------
  // What a worker takes over
  // ---------------------------------------------------------------------------

  lemma NewestIsSound(p: LeaderState, l: LeaderState, ledger: seq<TaskRecord>, size: nat)
    requires IsSound(p, l, ledger)
    ensures IsSound(p, l, Newest(ledger, size)) && |Newest(ledger, size)| <= size
  {
    var kept := Newest(ledger, size);
    forall r <- kept ensures r in ledger {
      var i :| 0 <= i < |kept| && kept[i] == r;
      assert r == ledger[|ledger| - |kept| + i];
    }
  }

  /**
   * Whatever part of a tenure's snapshots reaches a newly attached worker, in whatever order and however often, its
   * copy is a ledger to lead from, and every result in it has been reported.
   */
  lemma CopyIsSound(p: LeaderState, states: seq<LeaderState>, events: seq<LeadEvent>, k: nat,
                    c: CopyState, ss: seq<Snapshot>)
    requires IsTenure(p, states, events) && k < |states|
    requires CopyInv(c) && !c.held && forall s <- ss :: s in states[k].sent
    ensures var c' := ReceivedAll(c, ss);
            && CopyInv(c') && c'.size == c.size
            && (ss != [] ==> IsSound(p, states[k], c'.ledger))
  {
    hide IsTenure, IsSound, Newest;
    if ss != [] {
      TenureKeepsSound(p, states, events, k);
      HoldsTheGreatest(c, ss);
      var c' := ReceivedAll(c, ss);
      var s :| s in ss && HoldsKeyOf(c', s) && c'.ledger == Newest(s.ledger, c.size);
      NewestIsSound(p, states[k], s.ledger, c.size);
      SoundIsUnique(p, states[k], c'.ledger);
    }
  }

  lemma SoundIsUnique(p: LeaderState, l: LeaderState, ledger: seq<TaskRecord>)
    requires IsSound(p, l, ledger)
    ensures UniqueTasks(ledger)
  {
  }

  lemma CanTakeOver(cfg: LeaderConfig, term: nat, c: CopyState)
    requires CopyInv(c) && cfg.size == c.size > 0
    ensures LedgerInv(AtPromotion(cfg, term, c.ledger, c.version))
  {
  }

  /**
   * A result is not reported again by the leader that takes over: it led from a copy of the tenure before, in which the
   * task was finished, so that leader had reported it (or known of it from the start), and this one does not while it
   * keeps the record, which stays what it was.
   */
  lemma NotReportedAgain(p: LeaderState, states: seq<LeaderState>, events: seq<LeadEvent>, k: nat,
                         c: CopyState, ss: seq<Snapshot>, q: LeaderState, next: seq<LeaderState>,
                         more: seq<LeadEvent>, j: nat, id: TaskID)
    requires IsTenure(p, states, events) && k < |states|
    requires CopyInv(c) && !c.held && ss != [] && forall s <- ss :: s in states[k].sent
    requires var c' := ReceivedAll(c, ss);
             && q.cfg.size == c.size > 0 && q == AtPromotion(q.cfg, q.term, c'.ledger, c'.version)
             && HoldsFinished(c'.ledger, id)
    requires |next| == |more| + 1 && next[0] == Flushed(q)
    requires forall i :: 0 <= i < |more| ==> TenureStep(next[i], more[i], next[i + 1])
    requires j < |next| && forall i :: 0 < i <= j ==> IndexOf(next[i].ledger, id) >= 0
    ensures IsReported(p, states[k], id)
    ensures IsTenure(q, next, more) && Reports(next[j].reported, id) == 0
    ensures HoldsFinished(next[j].ledger, id)
    ensures var held := ReceivedAll(c, ss).ledger;
            next[j].ledger[IndexOf(next[j].ledger, id)] == held[IndexOf(held, id)]
  {
    hide TenureStep, Flushed, ReceivedAll, CopyInv, LedgerInv;
    var c' := ReceivedAll(c, ss);
    CopyIsSound(p, states, events, k, c, ss);
    assert c'.ledger[IndexOf(c'.ledger, id)] in c'.ledger;
    CanTakeOver(q.cfg, q.term, c');
    FlushedIs(q);
    ReportedExactlyOnce(q, next, more, 0, j, id);
    FirstResultWins(q, next, more, 0, j, id);
  }
}
