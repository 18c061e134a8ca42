// A leader's snapshots keep up with it: whatever it now holds it has sent, and a worker reached by everything sent
// holds it.

module Delivery {
  import opened Membership
  import opened Options
  import opened Ledgers
  import opened Replication

  // ---------------------------------------------------------------------------
  // A ledger that moves is owed to the workers
  // ---------------------------------------------------------------------------

  /** What moves the version is marked as not yet sent, and no mark is lost. */
  predicate Marks(l: LeaderState, l': LeaderState) {
    (l.dirty ==> l'.dirty) && (l'.version != l.version ==> l'.dirty)
  }

  lemma WithAssigneeMarks(l: LeaderState, id: TaskID, w: NodeID)
    ensures Marks(l, WithAssignee(l, id, w))
  {
  }

  lemma CompletedMarks(l: LeaderState, res: TaskResult)
    ensures Marks(l, Completed(l, res))
  {
  }

  lemma LaunchedMarks(l: LeaderState, t: Task)
    ensures Marks(l, Launched(l, t))
  {
    hide Completed;
    CompletedMarks(l, TaskResult(t.taskID, l.cfg.self, false, BUSY));
  }

  lemma {:induction false} AssignFromMarks(l: LeaderState, t: Task, workers: seq<NodeID>, k: nat)
    requires k <= |workers|
    ensures Marks(l, AssignFrom(l, t, workers, k))
    decreases |workers| - k
  {
    hide WithAssignee, Launched;
    if k == |workers| {
      WithAssigneeMarks(l, t.taskID, l.cfg.self);
      LaunchedMarks(WithAssignee(l, t.taskID, l.cfg.self), t);
    } else {
      var sent := l.(taskSends := l.taskSends + 1);
      var moved := sent.(next := (l.next + k + 1) % |workers|);
      WithAssigneeMarks(moved, t.taskID, workers[(l.next + k) % |workers|]);
      AssignFromMarks(sent, t, workers, k + 1);
    }
  }

  lemma {:induction false} AssignAllMarks(l: LeaderState, ts: seq<Task>)
    ensures Marks(l, AssignAll(l, ts))
  {
    hide AssignFrom, IdList;
    if ts != [] {
      var l1 := AssignAll(l, ts[..|ts| - 1]);
      AssignAllMarks(l, ts[..|ts| - 1]);
      AssignFromMarks(l1, ts[|ts| - 1], IdList(l1.attached), 0);
    }
  }

  lemma HandledMarks(l: LeaderState, e: LeadEvent)
    requires LedgerInv(l)
    ensures Marks(l, Handled(l, e))
  {
    hide Completed, AssignAll, PendingTasks, MakeRoom, IdList, Payload, AssignFrom;
    match e
    case Submit(task) =>
      var l1 := Appended(l, TaskRecord(task.taskID, Pending, task.kind, task.body, [], NO_NODE));
      AssignFromMarks(l1, task, IdList(l1.attached), 0);
    case ResultIn(res) => CompletedMarks(l, res);
    case OwnResult(res) => CompletedMarks(l.(inflight := if l.inflight > 0 then l.inflight - 1 else 0), res);
    case WorkerGone(worker) =>
      AssignAllMarks(l.(attached := l.attached - {worker}), PendingTasks(l.ledger, AssignedTo(worker)));
    case Tick => AssignAllMarks(l.(reissueDue := false), PendingTasks(l.ledger, Anyone()));
    case _ =>
  }

  // ---------------------------------------------------------------------------
  // And is sent
  // ---------------------------------------------------------------------------

  /** The snapshot of the present state, if there is anybody to send it to and it can be made to fit, has been sent. */
  ghost predicate IsDelivered(l: LeaderState) {
    var roster := IdList(l.attached);
    roster != [] && Payload(l, roster).Some? ==> Payload(l, roster).value in l.sent
  }

  /** As a flush leaves it. */
  ghost predicate IsFlushed(l: LeaderState) {
    !l.dirty && l.sentTerm == l.term && l.sentWorkers == IdList(l.attached) && IsDelivered(l)
  }

  /** What an event does that matters to the next flush. */
  ghost predicate LeadsTo(l: LeaderState, h: LeaderState) {
    && h.cfg == l.cfg && Marks(l, h) && (h.version == l.version ==> h.ledger == l.ledger)
    && h.sentTerm == l.sentTerm && h.sentWorkers == l.sentWorkers && l.sent <= h.sent
  }

  lemma FlushDelivers(l: LeaderState, h: LeaderState)
    requires h.dirty || (IsFlushed(l) && LeadsTo(l, h))
    ensures IsFlushed(Flushed(h))
  {
    hide Payload, IdList;
    var l' := Flushed(h);
    var roster := IdList(h.attached);
    if OutOfDate(Rostered(h)) {
      SamePayload(MarkedSent(Rostered(h)), l', roster);
    } else {
      assert l' == h;
      SamePayload(l, h, roster);
    }
  }

  lemma HandledLeadsTo(l: LeaderState, e: LeadEvent)
    requires LedgerInv(l)
    ensures LeadsTo(l, Handled(l, e))
  {
    hide Handled, LedgerInv, Payload, IdList;
    HandledMarks(l, e);
    HandledHandles(l, e);
    HandledKeepsTerm(l, e);
  }

  lemma HandledKeepsTerm(l: LeaderState, e: LeadEvent)
    requires LedgerInv(l)
    ensures Handled(l, e).sentTerm == l.sentTerm
  {
    hide Completed, AssignAll, Edits, PendingTasks, Appended, IdList, Payload, AssignFrom;
    match e
    case Submit(task) =>
      var r := TaskRecord(task.taskID, Pending, task.kind, task.body, [], NO_NODE);
      if IndexOf(l.ledger, task.taskID) < 0 {
        var l1 := Appended(l, r);
        AppendIsBounded(l, r);
        AppendedFacts(l, r);
        NewIsPending(l, l1, r);
        AssignFromEdits(l1, task, IdList(l1.attached), 0);
        EditsKeepTerm(l1, Handled(l, e), {task.taskID});
      }
    case ResultIn(res) =>
      CompletedEdits(l, res);
      EditsKeepTerm(l, Handled(l, e), {res.taskID});
    case OwnResult(res) =>
      var l1 := l.(inflight := if l.inflight > 0 then l.inflight - 1 else 0);
      CompletedEdits(l1, res);
      EditsKeepTerm(l1, Handled(l, e), {res.taskID});
    case WorkerGone(worker) =>
      var l1, ts := l.(attached := l.attached - {worker}), PendingTasks(l.ledger, AssignedTo(worker));
      PendingTasksPend(l, l1, AssignedTo(worker));
      AssignAllEdits(l1, ts);
      EditsKeepTerm(l1, Handled(l, e), TaskIDs(ts));
    case Tick =>
      var l1, ts := l.(reissueDue := false), PendingTasks(l.ledger, Anyone());
      PendingTasksPend(l, l1, Anyone());
      AssignAllEdits(l1, ts);
      EditsKeepTerm(l1, AssignAll(l1, ts), TaskIDs(ts));
    case _ =>
  }

  lemma EditsKeepTerm(l: LeaderState, l': LeaderState, ids: set<TaskID>)
    requires Edits(l, l', ids)
    ensures l'.sentTerm == l.sentTerm
  {
  }

  lemma {:induction false} TenureDelivers(promoted: LeaderState, states: seq<LeaderState>, events: seq<LeadEvent>,
                                          k: nat)
    requires IsTenure(promoted, states, events) && k < |states|
    ensures IsFlushed(states[k])
  {
    hide Handled, Flushed, LedgerInv, IsFlushed, LeadsTo;
    if k == 0 {
      FlushDelivers(promoted, promoted);
    } else {
      TenureDelivers(promoted, states, events, k - 1);
      TenureKeepsLedger(promoted, states, events, k - 1);
      assert TenureStep(states[k - 1], events[k - 1], states[k]);
      HandledLeadsTo(states[k - 1], events[k - 1]);
      FlushDelivers(states[k - 1], Handled(states[k - 1], events[k - 1]));
    }
  }

  /**
   * Replication keeps up: in every state of every tenure that has workers, unless not even trimming makes the snapshot
   * fit, one has been sent with the present term, version and roster, and the present ledger: all of it if it fits, and
   * otherwise less what trimming sheds.
   */
  lemma PresentIsSent(promoted: LeaderState, states: seq<LeaderState>, events: seq<LeadEvent>, k: nat)
      returns (s: Snapshot)
    requires IsTenure(promoted, states, events) && k < |states| && states[k].attached != {}
    requires var l := states[k];
             exists rounds: nat :: FitsAfter(l.cfg, Snapshot(l.term, IdList(l.attached), l.ledger, l.version), rounds)
    ensures var l := states[k];
            && s in l.sent && s.term == l.term && s.version == l.version
            && (forall w :: w in s.workers <==> w in l.attached)
            && l.cfg.bytes(s) <= l.cfg.budget && ShedsInOrder(s.ledger, l.ledger)
            && (l.cfg.bytes(s.(ledger := l.ledger)) <= l.cfg.budget ==> s.ledger == l.ledger)
  {
    hide IsTenure, ShedsInOrder, FitsAfter;
    var l := states[k];
    var whole := Snapshot(l.term, IdList(l.attached), l.ledger, l.version);
    TenureDelivers(promoted, states, events, k);
    TrimmingEndsExactlyWhen(l.cfg, whole);
    TrimmingSheds(l.cfg, whole);
    var w :| w in l.attached;
    assert w in IdList(l.attached);
    s := Payload(l, IdList(l.attached)).value;
  }

  /** So a worker newly attached that is reached by everything sent, in any order, holds the ledger of that snapshot. */
  lemma WorkersHoldThePresent(promoted: LeaderState, states: seq<LeaderState>, events: seq<LeadEvent>, k: nat,
                              c: CopyState, ss: seq<Snapshot>, s: Snapshot)
    requires IsTenure(promoted, states, events) && k < |states| && !c.held
    requires s in states[k].sent && s.term == states[k].term && s.version == states[k].version
    requires forall x :: x in ss <==> x in states[k].sent
    ensures var c' := ReceivedAll(c, ss);
            && c'.term == states[k].term && c'.version == states[k].version
            && c'.ledger == Newest(s.ledger, c.size)
  {
    hide IsTenure, ReceivedAll, Newest, SaysCurrent;
    var l := states[k];
    assert s in ss;
    TenureKeepsSync(promoted, states, events, k);
    WorkerHoldsWhatWasSent(l, c, ss);
    var c' := ReceivedAll(c, ss);
    var t :| t in ss && HoldsKeyOf(c', t);
    NothingNewer(l, t);
    assert HoldsKeyOf(c', s);
  }

  lemma NothingNewer(l: LeaderState, t: Snapshot)
    requires SyncInv(l) && t in l.sent
    ensures t.term <= l.term && t.version <= l.version
  {
    assert SaysCurrent(l, t);
  }

  /** Nothing new, nothing sent. */
  lemma NothingNewNothingSent(l: LeaderState, h: LeaderState)
    requires IsFlushed(l) && h == l.(inflight := h.inflight, next := h.next, taskSends := h.taskSends)
    ensures Flushed(h) == h
  {
    hide Payload, IdList;
  }
}
