// Where tasks go and what comes of them: the worker each is dealt to, the tasks dealt again, and the result recorded.

module Assignments {
  import opened Membership
  import opened Options
  import opened Ledgers
  import opened Replication

  // ---------------------------------------------------------------------------
  // Dealing a task out
  // ---------------------------------------------------------------------------

  /** The first TASK send from number `from` on that succeeds, if it is before number `to`. */
  ghost predicate IsTaken(cfg: LeaderConfig, from: nat, to: nat, s: nat) {
    from <= s < to && cfg.delivers(s) && IsRefused(cfg, from, s)
  }

  ghost predicate IsRefused(cfg: LeaderConfig, from: nat, to: nat) {
    forall e: nat :: from <= e < to ==> !cfg.delivers(e)
  }

  /** The task's record is assigned to `w`, and nothing else in the ledger moves. */
  ghost predicate Gives(ledger: seq<TaskRecord>, ledger': seq<TaskRecord>, id: TaskID, w: NodeID) {
    && |ledger'| == |ledger|
    && forall i :: 0 <= i < |ledger| ==> ledger'[i] == GivenTo(ledger[i], id, w)
  }

  function GivenTo(r: TaskRecord, id: TaskID, w: NodeID): TaskRecord {
    if r.taskID == id then r.(assignedTo := w) else r
  }

  /** The task's record is closed as failed, with the text of a refusal; nothing else in the ledger moves. */
  ghost predicate Refuses(ledger: seq<TaskRecord>, ledger': seq<TaskRecord>, id: TaskID, self: NodeID) {
    && |ledger'| == |ledger|
    && forall i :: 0 <= i < |ledger| ==> ledger'[i] == RefusedBy(ledger[i], id, self)
  }

  function RefusedBy(r: TaskRecord, id: TaskID, self: NodeID): TaskRecord {
    if r.taskID == id then TaskRecord(id, Failed, r.kind, [], BytesOf("busy: too many running tasks"), self) else r
  }

  predicate IsRefusal(cfg: LeaderConfig, res: TaskResult) {
    res.worker == cfg.self && !res.ok && res.output == BytesOf("busy: too many running tasks")
  }

  /** The leader runs the task itself, or refuses it at once if it already runs 256. */
  ghost predicate RunsHere(l: LeaderState, l': LeaderState, id: TaskID) {
    if l.inflight < 256 then
      l'.inflight == l.inflight + 1 && l'.reported == l.reported && Gives(l.ledger, l'.ledger, id, l.cfg.self)
    else
      && l'.inflight == l.inflight && Refuses(l.ledger, l'.ledger, id, l.cfg.self)
      && l'.reported == l.reported + if exists r <- l.ledger :: r.taskID == id
                                     then [TaskResult(id, l.cfg.self, false, BytesOf("busy: too many running tasks"))]
                                     else []
  }

  lemma WithAssigneeGives(l: LeaderState, id: TaskID, w: NodeID)
    requires UniqueTasks(l.ledger)
    ensures var l' := WithAssignee(l, id, w);
            && l' == l.(ledger := l'.ledger, version := l'.version, dirty := l'.dirty)
            && Gives(l.ledger, l'.ledger, id, w)
  {
  }

  lemma LaunchedRunsHere(l: LeaderState, t: Task)
    requires UniqueTasks(l.ledger) && IsPending(l, t.taskID)
    ensures var l' := Launched(WithAssignee(l, t.taskID, l.cfg.self), t);
            l'.taskSends == l.taskSends && l'.next == l.next && RunsHere(l, l', t.taskID)
  {
    hide WithAssignee, BytesOf, RuneStart;
    WithAssigneeGives(l, t.taskID, l.cfg.self);
    var l1 := WithAssignee(l, t.taskID, l.cfg.self);
    var l' := Launched(l1, t);
    if l.inflight >= 256 {
      var i, res := IndexOf(l1.ledger, t.taskID), TaskResult(t.taskID, l.cfg.self, false, BUSY);
      RefusalFits();
      if i >= 0 {
        assert l.ledger[i] in l.ledger && l1.ledger[i] == GivenTo(l.ledger[i], t.taskID, l.cfg.self);
        assert l'.ledger == l1.ledger[i := Closed(l1.ledger[i], res)];
      } else {
        forall j | 0 <= j < |l.ledger| ensures l.ledger[j].taskID != t.taskID { assert l1.ledger[j] in l1.ledger; }
        assert l' == l1;
      }
    }
  }

  lemma RefusalFits()
    ensures BUSY == BytesOf("busy: too many running tasks") && Truncated(BUSY, 512) == BUSY
  {
    assert |BUSY| == 28;
  }

  /** The task is given to the worker whose send, in turn from the cursor, is the first to succeed. */
  ghost predicate IsDealt(l: LeaderState, l': LeaderState, id: TaskID, workers: seq<NodeID>, tries: nat, s: nat)
    requires workers != [] && l.taskSends <= s
  {
    var turn := l.next + tries + s - l.taskSends;
    && l'.taskSends == s + 1 && l'.next == (turn + 1) % |workers|
    && Gives(l.ledger, l'.ledger, id, workers[turn % |workers|])
    && l'.inflight == l.inflight && l'.reported == l.reported
  }

  lemma {:induction false} AssignFromDeals(l: LeaderState, t: Task, workers: seq<NodeID>, k: nat, s: nat)
    requires k <= |workers| && UniqueTasks(l.ledger) && IsTaken(l.cfg, l.taskSends, l.taskSends + |workers| - k, s)
    ensures IsDealt(l, AssignFrom(l, t, workers, k), t.taskID, workers, k, s)
    decreases |workers| - k
  {
    hide WithAssignee, Launched, Gives;
    var sent := l.(taskSends := l.taskSends + 1);
    if l.taskSends == s {
      WithAssigneeGives(sent.(next := (l.next + k + 1) % |workers|), t.taskID, workers[(l.next + k) % |workers|]);
    } else {
      AssignFromDeals(sent, t, workers, k + 1, s);
    }
  }

  lemma {:induction false} AssignFromRuns(l: LeaderState, t: Task, workers: seq<NodeID>, k: nat)
    requires k <= |workers| && UniqueTasks(l.ledger) && IsPending(l, t.taskID)
    requires IsRefused(l.cfg, l.taskSends, l.taskSends + |workers| - k)
    ensures var l' := AssignFrom(l, t, workers, k);
            l'.taskSends == l.taskSends + |workers| - k && l'.next == l.next && RunsHere(l, l', t.taskID)
    decreases |workers| - k
  {
    hide WithAssignee, Launched, Gives, Refuses;
    if k == |workers| {
      LaunchedRunsHere(l, t);
    } else {
      AssignFromRuns(l.(taskSends := l.taskSends + 1), t, workers, k + 1);
    }
  }

  // ---------------------------------------------------------------------------
  // A task handed in
  // ---------------------------------------------------------------------------

  /** The record a new task gets, before anybody has it: a body over 1024 bytes is not kept. */
  function NewRecord(t: Task): TaskRecord {
    TaskRecord(t.taskID, Pending, t.kind, if |t.body| > 1024 then [] else t.body, [], NO_NODE)
  }

  lemma SubmissionIsAppended(l: LeaderState, t: Task)
    requires LedgerInv(l) && IndexOf(l.ledger, t.taskID) < 0
    ensures var l1 := Appended(l, TaskRecord(t.taskID, Pending, t.kind, t.body, [], NO_NODE));
            && l1 == l.(ledger := l1.ledger, version := l1.version, dirty := true)
            && UniqueTasks(l1.ledger) && IsPending(l1, t.taskID) && l1.ledger != []
            && l1.ledger[|l1.ledger| - 1] == NewRecord(t)
            && ShedsInOrder(l1.ledger[..|l1.ledger| - 1], l.ledger)
  {
    hide ShedsInOrder, MakeRoom;
    var r := TaskRecord(t.taskID, Pending, t.kind, t.body, [], NO_NODE);
    AppendIsBounded(l, r);
    AppendedFacts(l, r);
  }

  /** `r` is now the newest record, behind the older ones that are left. */
  ghost predicate IsNewest(l: LeaderState, l': LeaderState, r: TaskRecord) {
    && l'.ledger != [] && l'.ledger[|l'.ledger| - 1] == r
    && ShedsInOrder(l'.ledger[..|l'.ledger| - 1], l.ledger)
  }

  /**
   * A task handed in: one the ledger knows changes nothing. A new one becomes the newest record, and goes to the first
   * worker, in turn from the cursor, whose send succeeds; the cursor moves past that worker. If every send fails, the
   * leader runs it, or at 256 running tasks refuses it, and reports the refusal.
   */
  lemma TasksAreDealtInTurn(l: LeaderState, t: Task, s: nat)
    requires LedgerInv(l)
    ensures var l', roster := Handled(l, Submit(t)), IdList(l.attached);
            var from, to := l.taskSends, l.taskSends + |roster|;
            if exists r <- l.ledger :: r.taskID == t.taskID then l' == l
            else
              && (IsTaken(l.cfg, from, to, s) ==>
                    && IsNewest(l, l', NewRecord(t).(assignedTo := roster[(l.next + s - from) % |roster|]))
                    && l'.taskSends == s + 1 && l'.next == (l.next + s - from + 1) % |roster|
                    && l'.inflight == l.inflight && l'.reported == l.reported)
              && (IsRefused(l.cfg, from, to) ==>
                    && l'.taskSends == to && l'.next == l.next
                    && if l.inflight < 256 then
                         && IsNewest(l, l', NewRecord(t).(assignedTo := l.cfg.self))
                         && l'.inflight == l.inflight + 1 && l'.reported == l.reported
                       else
                         && IsNewest(l, l', RefusedBy(NewRecord(t), t.taskID, l.cfg.self))
                         && l'.inflight == l.inflight && |l'.reported| == |l.reported| + 1
                         && l.reported <= l'.reported && IsRefusal(l.cfg, l'.reported[|l.reported|])
                         && l'.reported[|l.reported|].taskID == t.taskID)
  {
    hide Appended, AssignFrom, IdList, ShedsInOrder, IsTaken, IsRefused, BytesOf;
    var l', roster := Handled(l, Submit(t)), IdList(l.attached);
    if IndexOf(l.ledger, t.taskID) >= 0 {
      assert l.ledger[IndexOf(l.ledger, t.taskID)] in l.ledger;
    } else {
      SubmissionIsAppended(l, t);
      var l1 := Appended(l, TaskRecord(t.taskID, Pending, t.kind, t.body, [], NO_NODE));
      assert l1.ledger[|l1.ledger| - 1] in l1.ledger;
      if IsTaken(l.cfg, l.taskSends, l.taskSends + |roster|, s) {
        TakenIsBetween(l.cfg, l.taskSends, l.taskSends + |roster|, s);
        AssignFromDeals(l1, t, roster, 0, s);
        OnlyTheNewest(l1.ledger, l'.ledger, t.taskID);
      }
      if IsRefused(l.cfg, l.taskSends, l.taskSends + |roster|) {
        AssignFromRuns(l1, t, roster, 0);
        OnlyTheNewest(l1.ledger, l'.ledger, t.taskID);
      }
    }
  }

  lemma TakenIsBetween(cfg: LeaderConfig, from: nat, to: nat, s: nat)
    requires IsTaken(cfg, from, to, s)
    ensures from <= s < to
  {
  }

  lemma OnlyTheNewest(ledger: seq<TaskRecord>, ledger': seq<TaskRecord>, id: TaskID)
    requires UniqueTasks(ledger) && ledger != [] && ledger[|ledger| - 1].taskID == id && |ledger'| == |ledger|
    requires forall i :: 0 <= i < |ledger| && ledger[i].taskID != id ==> ledger'[i] == ledger[i]
    ensures ledger'[..|ledger| - 1] == ledger[..|ledger| - 1]
  {
  }

  // ---------------------------------------------------------------------------
  // Tasks dealt again
  // ---------------------------------------------------------------------------

  /** In the state now, the record is assigned to one of the nodes there are, or closed with a refusal, reported. */
  ghost predicate IsDealtAgain(now: LeaderState, r: TaskRecord, r': TaskRecord) {
    || (r' == r.(assignedTo := r'.assignedTo) && (r'.assignedTo in now.attached || r'.assignedTo == now.cfg.self))
    || (r' == RefusedBy(r, r.taskID, now.cfg.self) &&
        exists res <- now.reported :: res.taskID == r.taskID && IsRefusal(now.cfg, res))
  }

  ghost predicate DealsAgain(l: LeaderState, l': LeaderState, ids: set<TaskID>) {
    && l'.attached == l.attached && l'.cfg == l.cfg && ReportsRefusals(l, l') && |l'.ledger| == |l.ledger|
    && forall i :: 0 <= i < |l.ledger| ==>
         if l.ledger[i].taskID in ids then IsDealtAgain(l', l.ledger[i], l'.ledger[i]) else l'.ledger[i] == l.ledger[i]
  }

  ghost predicate ReportsRefusals(l: LeaderState, l': LeaderState) {
    (forall x <- l.reported :: x in l'.reported) && forall x <- l'.reported :: x in l.reported || IsRefusal(l.cfg, x)
  }

  lemma {:induction false} TakenOrRefused(cfg: LeaderConfig, from: nat, n: nat) returns (s: nat)
    ensures IsTaken(cfg, from, from + n, s) || IsRefused(cfg, from, from + n)
    decreases n
  {
    s := from;
    if n > 0 && !cfg.delivers(from) { s := TakenOrRefused(cfg, from + 1, n - 1); }
  }

  lemma OneDealtAgain(l: LeaderState, t: Task)
    requires UniqueTasks(l.ledger) && IsPending(l, t.taskID)
    ensures DealsAgain(l, Assigned(l, t), {t.taskID})
  {
    hide AssignFrom, IdList, IsTaken, IsRefused, BytesOf, Edits;
    var roster := IdList(l.attached);
    var s := TakenOrRefused(l.cfg, l.taskSends, |roster|);
    AssignFromEdits(l, t, roster, 0);
    SamePlace(l, Assigned(l, t), {t.taskID});
    if IsTaken(l.cfg, l.taskSends, l.taskSends + |roster|, s) {
      TakenIsBetween(l.cfg, l.taskSends, l.taskSends + |roster|, s);
      AssignFromDeals(l, t, roster, 0, s);
      assert roster[(l.next + s - l.taskSends) % |roster|] in roster;
    } else {
      AssignFromRuns(l, t, roster, 0);
      RunHereIsDealt(l, Assigned(l, t), t.taskID);
    }
  }

  lemma RunHereIsDealt(l: LeaderState, l': LeaderState, id: TaskID)
    requires RunsHere(l, l', id) && l'.attached == l.attached && l'.cfg == l.cfg
    ensures DealsAgain(l, l', {id})
  {
    hide BytesOf;
    if l.inflight >= 256 {
      forall i | 0 <= i < |l.ledger| && l.ledger[i].taskID == id
        ensures IsDealtAgain(l', l.ledger[i], l'.ledger[i]) {
        assert l.ledger[i] in l.ledger;
        assert l'.reported[|l.reported|] in l'.reported;
      }
    }
  }

  lemma {:induction false} AllDealtAgain(l: LeaderState, ts: seq<Task>)
    requires UniqueTasks(l.ledger) && AllPending(l, ts)
    ensures DealsAgain(l, AssignAll(l, ts), TaskIDs(ts))
  {
    hide AssignFrom, IdList, Edits, RefusedBy, Assigned, IsDealtAgain, IsRefusal;
    if ts != [] {
      var front, t := ts[..|ts| - 1], ts[|ts| - 1];
      var l1 := AssignAll(l, front);
      AllDealtAgain(l, front);
      AssignAllEdits(l, front);
      SameIDs(l, l1, TaskIDs(front));
      StillPending(l, l1, TaskIDs(front), t.taskID);
      OneDealtAgain(l1, t);
      assert ts == front + [t];
      OneMoreDealt(l, l1, AssignAll(l, ts), TaskIDs(front), t.taskID);
      assert TaskIDs(ts) == TaskIDs(front) + {t.taskID};
    }
  }

  lemma SamePlace(l: LeaderState, l': LeaderState, ids: set<TaskID>)
    requires Edits(l, l', ids)
    ensures l'.attached == l.attached && l'.cfg == l.cfg
  {
  }

  lemma OneMoreDealt(l: LeaderState, l1: LeaderState, l': LeaderState, ids: set<TaskID>, id: TaskID)
    requires DealsAgain(l, l1, ids) && DealsAgain(l1, l', {id}) && id !in ids
    ensures DealsAgain(l, l', ids + {id})
  {
    hide BytesOf, IsRefusal;
    forall i | 0 <= i < |l.ledger|
      ensures if l.ledger[i].taskID in ids + {id} then IsDealtAgain(l', l.ledger[i], l'.ledger[i])
              else l'.ledger[i] == l.ledger[i] {
      assert l1.ledger[i].taskID == l.ledger[i].taskID;
    }
  }

  /** Whether the event leaves a pending record, that holds its task, without a node to do it. */
  predicate Orphans(l: LeaderState, e: LeadEvent, r: TaskRecord) {
    && r.state == Pending && r.kind != 0
    && ((e.WorkerGone? && r.assignedTo == e.worker) || (e.Tick? && l.reissueDue))
  }

  /**
   * Nobody's task is left behind: when a worker goes, each of its pending tasks, and at the first tick after a
   * promotion each pending task of the ledger taken over, is assigned to a node still there (or refused, as any task
   * is); every other record stays what it was, and a promotion's tasks are dealt again once.
   */
  lemma OrphansAreDealtAgain(l: LeaderState, e: LeadEvent)
    requires LedgerInv(l) && (e.WorkerGone? || e.Tick?)
    ensures var l' := Handled(l, e);
            && l'.attached == (if e.WorkerGone? then l.attached - {e.worker} else l.attached)
            && l'.reissueDue == (l.reissueDue && !e.Tick?) && |l'.ledger| == |l.ledger| && ReportsRefusals(l, l')
            && forall i :: 0 <= i < |l.ledger| ==>
                 if Orphans(l, e, l.ledger[i]) then IsDealtAgain(l', l.ledger[i], l'.ledger[i])
                 else l'.ledger[i] == l.ledger[i]
  {
    hide AssignAll, PendingTasks, IsDealtAgain, IsRefusal;
    if e.WorkerGone? {
      var l1 := l.(attached := l.attached - {e.worker});
      Redeal(l, l1, e, AssignedTo(e.worker));
      DepartedIs(l, e.worker);
    } else if l.reissueDue {
      Redeal(l, l.(reissueDue := false), e, Anyone());
      ReissuedIs(l);
    }
  }

  lemma Redeal(l: LeaderState, l1: LeaderState, e: LeadEvent, keep: TaskRecord -> bool)
    requires LedgerInv(l) && l1.ledger == l.ledger && l1.reported == l.reported && l1.cfg == l.cfg
    requires forall r :: keep(r) && Reissuable(r) <==> Orphans(l, e, r)
    ensures var l' := AssignAll(l1, PendingTasks(l.ledger, keep));
            && l'.attached == l1.attached && l'.reissueDue == l1.reissueDue && |l'.ledger| == |l.ledger|
            && ReportsRefusals(l, l')
            && forall i :: 0 <= i < |l.ledger| ==>
                 if Orphans(l, e, l.ledger[i]) then IsDealtAgain(l', l.ledger[i], l'.ledger[i])
                 else l'.ledger[i] == l.ledger[i]
  {
    hide AssignAll, PendingTasks, Orphans, Reissuable, IsDealtAgain, IsRefusal;
    var ts := PendingTasks(l.ledger, keep);
    var l' := AssignAll(l1, ts);
    PendingTasksAre(l.ledger, keep);
    PendingTasksPend(l, l1, keep);
    AllDealtAgain(l1, ts);
    AssignAllKeepsDue(l1, ts);
    forall i | 0 <= i < |l.ledger|
      ensures if Orphans(l, e, l.ledger[i]) then IsDealtAgain(l', l.ledger[i], l'.ledger[i])
              else l'.ledger[i] == l.ledger[i] {
      ListedExactlyIf(l.ledger, keep, ts, i);
      assert l.ledger[i].taskID in TaskIDs(ts) <==> Orphans(l, e, l.ledger[i]);
    }
  }

  lemma ListedExactlyIf(ledger: seq<TaskRecord>, keep: TaskRecord -> bool, ts: seq<Task>, i: nat)
    requires UniqueTasks(ledger) && Lists(ts, ledger, keep) && i < |ledger|
    ensures ledger[i].taskID in TaskIDs(ts) <==> keep(ledger[i]) && Reissuable(ledger[i])
  {
    hide Reissuable;
    var r := ledger[i];
    if keep(r) && Reissuable(r) {
      assert Yields(r, keep, Task(r.taskID, r.kind, r.body)) && r in ledger;
      assert Wanted(ledger, keep, Task(r.taskID, r.kind, r.body));
      assert Task(r.taskID, r.kind, r.body) in ts;
    }
    if r.taskID in TaskIDs(ts) {
      var t :| t in ts && t.taskID == r.taskID;
      assert Wanted(ledger, keep, t);
      var x :| x in ledger && Yields(x, keep, t);
      var j :| 0 <= j < |ledger| && ledger[j] == x;
      assert j == i;
    }
  }

  lemma {:induction false} AssignFromKeepsDue(l: LeaderState, t: Task, workers: seq<NodeID>, k: nat)
    requires k <= |workers|
    ensures AssignFrom(l, t, workers, k).reissueDue == l.reissueDue
    decreases |workers| - k
  {
    hide Closed;
    if k < |workers| { AssignFromKeepsDue(l.(taskSends := l.taskSends + 1), t, workers, k + 1); }
  }

  lemma {:induction false} AssignAllKeepsDue(l: LeaderState, ts: seq<Task>)
    ensures AssignAll(l, ts).reissueDue == l.reissueDue
  {
    hide AssignFrom, IdList;
    if ts != [] {
      var l1 := AssignAll(l, ts[..|ts| - 1]);
      AssignAllKeepsDue(l, ts[..|ts| - 1]);
      AssignFromKeepsDue(l1, ts[|ts| - 1], IdList(l1.attached), 0);
    }
  }

  // ---------------------------------------------------------------------------
  // What comes of a task
  // ---------------------------------------------------------------------------

  /**
   * The record says what the result said: done or failed, the first 512 bytes of the output (less a character cut in
   * two), and the worker if it is named; the task itself is no longer kept.
   */
  predicate IsOutcome(r: TaskRecord, res: TaskResult) {
    && r.taskID == res.taskID && r.state == (if res.ok then Done else Failed) && r.body == []
    && r.result <= res.output && |r.result| <= 512
    && (r.result == res.output || (|res.output| > 512 && IsCut(res.output, |r.result|)))
    && (res.worker != NO_NODE ==> r.assignedTo == res.worker)
  }

  /** The longest cut at most 512 bytes in that does not stand inside a character. */
  predicate IsCut(s: seq<nat>, n: nat)
    requires |s| > 512 && n <= 512
  {
    (n == 0 || s[n] / 64 != 2) && forall i :: n < i <= 512 ==> s[i] / 64 == 2
  }

  lemma {:induction false} TruncationCuts(s: seq<nat>, n: nat)
    requires n <= 512 < |s| && forall i :: n < i <= 512 ==> s[i] / 64 == 2
    ensures var t := Truncated(s, n); |t| <= n && t <= s && IsCut(s, |t|)
  {
    if n > 0 && !RuneStart(s[n]) { TruncationCuts(s, n - 1); }
  }

  lemma ClosingSays(r: TaskRecord, res: TaskResult)
    requires r.taskID == res.taskID
    ensures var r' := Closed(r, res); IsOutcome(r', res) && r' == r.(state := r'.state, body := [], result := r'.result,
            assignedTo := if res.worker != NO_NODE then res.worker else r.assignedTo)
  {
    if |res.output| > 512 { TruncationCuts(res.output, 512); }
  }

  /**
   * A result: it closes the record of its task if that is still pending, and is then reported; any other is dropped.
   * The result of a task run here also frees its place.
   */
  lemma ResultsAreRecorded(l: LeaderState, e: LeadEvent)
    requires LedgerInv(l) && (e.ResultIn? || e.OwnResult?)
    ensures var l' := Handled(l, e);
            && l'.inflight == (if e.OwnResult? && l.inflight > 0 then l.inflight - 1 else l.inflight)
            && |l'.ledger| == |l.ledger|
            && l'.reported == l.reported + (if exists r <- l.ledger :: r.taskID == e.res.taskID && r.state == Pending
                                            then [e.res] else [])
            && forall i :: 0 <= i < |l.ledger| ==>
                 if l.ledger[i].taskID == e.res.taskID && l.ledger[i].state == Pending
                 then IsOutcome(l'.ledger[i], e.res) && l'.ledger[i].kind == l.ledger[i].kind
                 else l'.ledger[i] == l.ledger[i]
  {
    hide Closed, IsOutcome;
    var i := IndexOf(l.ledger, e.res.taskID);
    if i >= 0 {
      assert l.ledger[i] in l.ledger;
      ClosingSays(l.ledger[i], e.res);
    }
  }

  /** Every result reported by an event is its own, or a refusal; every record it finishes says what was reported. */
  ghost predicate Answers(l: LeaderState, e: LeadEvent, l': LeaderState) {
    && (forall x <- l.reported :: x in l'.reported)
    && (forall x <- l'.reported ::
          x in l.reported || IsRefusal(l.cfg, x) || ((e.ResultIn? || e.OwnResult?) && x == e.res))
    && (forall r <- l'.ledger ::
          IsFinished(r) ==> r in l.ledger || exists res <- l'.reported :: IsOutcome(r, res))
  }

  lemma RefusalIsOutcome(l: LeaderState, r: TaskRecord, res: TaskResult)
    requires IsRefusal(l.cfg, res) && res.taskID == r.taskID
    ensures IsOutcome(RefusedBy(r, r.taskID, l.cfg.self), res)
  {
    assert |res.output| == 28;
  }

  lemma SubmissionAnswers(l: LeaderState, t: Task)
    requires LedgerInv(l)
    ensures Answers(l, Submit(t), Handled(l, Submit(t)))
  {
    hide Handled, IsTaken, IsRefused, BytesOf, IsOutcome, ShedsInOrder;
    var roster := IdList(l.attached);
    var s := TakenOrRefused(l.cfg, l.taskSends, |roster|);
    var l' := Handled(l, Submit(t));
    TasksAreDealtInTurn(l, t, s);
    if !exists r <- l.ledger :: r.taskID == t.taskID {
      var kept, last := l'.ledger[..|l'.ledger| - 1], l'.ledger[|l'.ledger| - 1];
      ShedsFacts(kept, l.ledger);
      forall r <- l'.ledger ensures r in l.ledger || r == last {
        var i :| 0 <= i < |l'.ledger| && l'.ledger[i] == r;
        assert i < |kept| ==> r == kept[i] && kept[i] in kept;
      }
      if IsFinished(last) {
        var res := l'.reported[|l.reported|];
        assert res in l'.reported;
        RefusalIsOutcome(l, NewRecord(t), res);
      }
    }
  }

  lemma ResultAnswers(l: LeaderState, e: LeadEvent)
    requires LedgerInv(l) && (e.ResultIn? || e.OwnResult?)
    ensures Answers(l, e, Handled(l, e))
  {
    hide Handled, IsOutcome, IsRefusal;
    var l' := Handled(l, e);
    ResultsAreRecorded(l, e);
    forall r <- l'.ledger | IsFinished(r) ensures r in l.ledger || exists res <- l'.reported :: IsOutcome(r, res) {
      var i :| 0 <= i < |l'.ledger| && l'.ledger[i] == r;
      assert l.ledger[i] in l.ledger;
      if r != l.ledger[i] { assert e.res in l'.reported; }
    }
  }

  lemma RedealAnswers(l: LeaderState, e: LeadEvent)
    requires LedgerInv(l) && (e.WorkerGone? || e.Tick?)
    ensures Answers(l, e, Handled(l, e))
  {
    hide Handled, IsOutcome, IsRefusal, RefusedBy;
    var l' := Handled(l, e);
    OrphansAreDealtAgain(l, e);
    HandledKeepsPlace(l, e);
    forall r <- l'.ledger | IsFinished(r) ensures r in l.ledger || exists res <- l'.reported :: IsOutcome(r, res) {
      var i :| 0 <= i < |l'.ledger| && l'.ledger[i] == r;
      assert l.ledger[i] in l.ledger;
      if r != l.ledger[i] {
        var res :| res in l'.reported && res.taskID == l.ledger[i].taskID && IsRefusal(l'.cfg, res);
        RefusalIsOutcome(l', l.ledger[i], res);
      }
    }
  }

  lemma HandledKeepsPlace(l: LeaderState, e: LeadEvent)
    requires LedgerInv(l)
    ensures Handled(l, e).cfg == l.cfg
  {
    hide Handled, LedgerInv, KeepsRecord;
    HandledIsTenure(l, e);
  }

  lemma HandledAnswers(l: LeaderState, e: LeadEvent)
    requires LedgerInv(l)
    ensures Answers(l, e, Handled(l, e))
  {
    hide Answers, LedgerInv;
    HasRoom(l);
    match e
    case Submit(t) => SubmissionAnswers(l, t);
    case ResultIn(_) => ResultAnswers(l, e);
    case OwnResult(_) => ResultAnswers(l, e);
    case WorkerGone(_) => RedealAnswers(l, e);
    case Tick => RedealAnswers(l, e);
    case Resync => NothingAnswered(l, e, Synced(l, IdList(l.attached)));
    case _ => NothingAnswered(l, e, Handled(l, e));
  }

  lemma NothingAnswered(l: LeaderState, e: LeadEvent, l': LeaderState)
    requires l'.ledger == l.ledger && l'.reported == l.reported
    ensures Answers(l, e, l')
  {
  }

  /** Where a reported result comes from: the tenure before, an event, or a refusal. */
  ghost predicate IsGiven(p: LeaderState, events: seq<LeadEvent>, k: nat, x: TaskResult) {
    || x in p.reported || IsRefusal(p.cfg, x)
    || exists i :: 0 <= i < k && i < |events| && (events[i].ResultIn? || events[i].OwnResult?) && events[i].res == x
  }

  /**
   * In every state of every tenure: what has been reported are results that came in (or refusals), and every finished
   * record that was not there from the start says what a reported result said.
   */
  lemma {:induction false} OutcomesAreReported(p: LeaderState, states: seq<LeaderState>, events: seq<LeadEvent>, k: nat)
    requires IsTenure(p, states, events) && k < |states|
    ensures states[k].cfg == p.cfg
    ensures forall x <- states[k].reported :: IsGiven(p, events, k, x)
    ensures forall r <- states[k].ledger ::
              IsFinished(r) ==> r in p.ledger || exists res <- states[k].reported :: IsOutcome(r, res)
  {
    hide Handled, Flushed, IsOutcome, IsRefusal, LedgerInv, KeepsRecord;
    if k == 0 {
      FlushKeepsRecords(p);
    } else {
      var l, e := states[k - 1], events[k - 1];
      OutcomesAreReported(p, states, events, k - 1);
      TenureKeepsLedger(p, states, events, k - 1);
      assert TenureStep(l, e, states[k]);
      HandledAnswers(l, e);
      HandledKeepsPlace(l, e);
      FlushKeepsRecords(Handled(l, e));
      StepIsGiven(p, events, k, l, Handled(l, e));
    }
  }

  lemma FlushKeepsRecords(h: LeaderState)
    ensures var l' := Flushed(h); l'.ledger == h.ledger && l'.reported == h.reported && l'.cfg == h.cfg
  {
    hide IdList, Payload;
  }

  lemma StepIsGiven(p: LeaderState, events: seq<LeadEvent>, k: nat, l: LeaderState, h: LeaderState)
    requires 0 < k <= |events| && l.cfg == p.cfg && Answers(l, events[k - 1], h)
    requires forall x <- l.reported :: IsGiven(p, events, k - 1, x)
    requires forall r <- l.ledger ::
               IsFinished(r) ==> r in p.ledger || exists res <- l.reported :: IsOutcome(r, res)
    ensures forall x <- h.reported :: IsGiven(p, events, k, x)
    ensures forall r <- h.ledger ::
              IsFinished(r) ==> r in p.ledger || exists res <- h.reported :: IsOutcome(r, res)
  {
    hide IsOutcome, IsRefusal;
    forall x <- h.reported ensures IsGiven(p, events, k, x) {
      if x in l.reported { assert IsGiven(p, events, k - 1, x); }
    }
  }

  /** The periodic resend: every worker is sent the present ledger again, and nothing else changes. */
  lemma PresentIsSentAgain(l: LeaderState)
    requires LedgerInv(l)
    ensures var l', roster := Handled(l, Resync), IdList(l.attached);
            var whole := Snapshot(l.term, roster, l.ledger, l.version);
            && l' == l.(sent := l'.sent)
            && if roster == [] || !exists rounds: nat :: FitsAfter(l.cfg, whole, rounds) then l' == l
               else
                 && |l'.sent| == |l.sent| + 1 && l.sent <= l'.sent
                 && var s := l'.sent[|l.sent|];
                    && s == whole.(ledger := s.ledger) && l.cfg.bytes(s) <= l.cfg.budget
                    && ShedsInOrder(s.ledger, l.ledger) && (l.cfg.bytes(whole) <= l.cfg.budget ==> s == whole)
  {
    hide IdList, ShedsInOrder, FitsAfter;
    var whole := Snapshot(l.term, IdList(l.attached), l.ledger, l.version);
    TrimmingEndsExactlyWhen(l.cfg, whole);
    TrimmingSheds(l.cfg, whole);
  }

  // ---------------------------------------------------------------------------
  // Who is on the roster, and in which term
  // ---------------------------------------------------------------------------

  /** Whether the last event about the worker attached it; without one, whether it was attached from the start. */
  predicate IsOnRoster(attached: set<NodeID>, events: seq<LeadEvent>, w: NodeID) {
    if events == [] then w in attached
    else
      match events[|events| - 1]
      case Attach(worker) => worker == w || IsOnRoster(attached, events[..|events| - 1], w)
      case Detach(worker) => worker != w && IsOnRoster(attached, events[..|events| - 1], w)
      case WorkerGone(worker) => worker != w && IsOnRoster(attached, events[..|events| - 1], w)
      case _ => IsOnRoster(attached, events[..|events| - 1], w)
  }

  /** The greatest term heard of. */
  function TermAfter(term: nat, events: seq<LeadEvent>): nat {
    if events == [] then term
    else
      var before, e := TermAfter(term, events[..|events| - 1]), events[|events| - 1];
      if e.TermTo? && e.term > before then e.term else before
  }

  lemma HandledMovesRoster(l: LeaderState, e: LeadEvent)
    requires LedgerInv(l)
    ensures var l' := Handled(l, e);
            && l'.attached == (match e
                               case Attach(worker) => l.attached + {worker}
                               case Detach(worker) => l.attached - {worker}
                               case WorkerGone(worker) => l.attached - {worker}
                               case _ => l.attached)
            && l'.term == if e.TermTo? && e.term > l.term then e.term else l.term
  {
    hide Completed, AssignAll, Edits, PendingTasks, Appended, IdList, Payload, AssignFrom;
    match e
    case Submit(t) =>
      if IndexOf(l.ledger, t.taskID) < 0 {
        SubmissionIsAppended(l, t);
        var l1 := Appended(l, TaskRecord(t.taskID, Pending, t.kind, t.body, [], NO_NODE));
        AssignFromEdits(l1, t, IdList(l1.attached), 0);
        EditsKeepPlace(l1, Handled(l, e), {t.taskID});
      }
    case ResultIn(res) =>
      CompletedEdits(l, res);
      EditsKeepPlace(l, Handled(l, e), {res.taskID});
    case OwnResult(res) =>
      var l1 := l.(inflight := if l.inflight > 0 then l.inflight - 1 else 0);
      CompletedEdits(l1, res);
      EditsKeepPlace(l1, Handled(l, e), {res.taskID});
    case WorkerGone(worker) =>
      var l1, ts := l.(attached := l.attached - {worker}), PendingTasks(l.ledger, AssignedTo(worker));
      PendingTasksPend(l, l1, AssignedTo(worker));
      AssignAllEdits(l1, ts);
      EditsKeepPlace(l1, Handled(l, e), TaskIDs(ts));
    case Tick =>
      var l1, ts := l.(reissueDue := false), PendingTasks(l.ledger, Anyone());
      PendingTasksPend(l, l1, Anyone());
      AssignAllEdits(l1, ts);
      EditsKeepPlace(l1, AssignAll(l1, ts), TaskIDs(ts));
    case _ =>
  }

  lemma EditsKeepPlace(l: LeaderState, l': LeaderState, ids: set<TaskID>)
    requires Edits(l, l', ids)
    ensures l'.attached == l.attached && l'.term == l.term
  {
  }

  /** In every state of every tenure the roster is who attached and has not left since, and the term the greatest. */
  lemma {:induction false} RosterIsWhoAttached(p: LeaderState, states: seq<LeaderState>, events: seq<LeadEvent>, k: nat,
                                               w: NodeID)
    requires IsTenure(p, states, events) && k < |states|
    ensures k <= |events| && states[k].term == TermAfter(p.term, events[..k])
    ensures w in states[k].attached <==> IsOnRoster(p.attached, events[..k], w)
  {
    hide Handled, Flushed, LedgerInv, KeepsRecord;
    if k == 0 {
      FlushKeepsPlace(p);
    } else {
      var l, e := states[k - 1], events[k - 1];
      RosterIsWhoAttached(p, states, events, k - 1, w);
      TenureKeepsLedger(p, states, events, k - 1);
      assert TenureStep(l, e, states[k]);
      HandledMovesRoster(l, e);
      FlushKeepsPlace(Handled(l, e));
      assert events[..k][..k - 1] == events[..k - 1];
    }
  }

  lemma FlushKeepsPlace(h: LeaderState)
    ensures var l' := Flushed(h); l'.attached == h.attached && l'.term == h.term
  {
    hide IdList, Payload;
  }

  // ---------------------------------------------------------------------------
  // After a promotion
  // ---------------------------------------------------------------------------

  lemma HandledKeepsDue(l: LeaderState, e: LeadEvent)
    requires LedgerInv(l)
    ensures Handled(l, e).reissueDue == (l.reissueDue && !e.Tick?)
  {
    hide AssignAll, PendingTasks, AssignFrom, Appended, IdList, Payload, Closed;
    match e
    case Submit(t) =>
      if IndexOf(l.ledger, t.taskID) < 0 {
        SubmissionIsAppended(l, t);
        var l1 := Appended(l, TaskRecord(t.taskID, Pending, t.kind, t.body, [], NO_NODE));
        AssignFromKeepsDue(l1, t, IdList(l1.attached), 0);
      }
    case WorkerGone(worker) =>
      AssignAllKeepsDue(l.(attached := l.attached - {worker}), PendingTasks(l.ledger, AssignedTo(worker)));
    case Tick => AssignAllKeepsDue(l.(reissueDue := false), PendingTasks(l.ledger, Anyone()));
    case _ =>
  }

  lemma FlushKeepsDue(h: LeaderState)
    ensures Flushed(h).reissueDue == h.reissueDue
  {
    hide IdList, Payload;
  }

  lemma {:induction false} DueUntilTheFirstTick(p: LeaderState, states: seq<LeaderState>, events: seq<LeadEvent>,
                                                k: nat)
    requires IsTenure(p, states, events) && k < |states| && p.reissueDue
    ensures k <= |events| && (states[k].reissueDue <==> forall i :: 0 <= i < k ==> !events[i].Tick?)
  {
    hide Handled, Flushed, LedgerInv, KeepsRecord;
    if k == 0 {
      FlushKeepsDue(p);
    } else {
      DueUntilTheFirstTick(p, states, events, k - 1);
      TenureKeepsLedger(p, states, events, k - 1);
      assert TenureStep(states[k - 1], events[k - 1], states[k]);
      HandledKeepsDue(states[k - 1], events[k - 1]);
      FlushKeepsDue(Handled(states[k - 1], events[k - 1]));
    }
  }

  /**
   * Nothing is lost in a failover: a node promoted with a copy goes on from its version, and at the first tick of its
   * tenure, and at no later one, each record pending then that holds its task is dealt to a node there.
   */
  lemma PromotionDealsAgain(cfg: LeaderConfig, term: nat, c: CopyState, states: seq<LeaderState>,
                            events: seq<LeadEvent>, k: nat, i: nat)
    requires IsTenure(AtPromotion(cfg, term, c.ledger, c.version), states, events)
    requires k < |events| && events[k].Tick? && i < |states[k].ledger|
    ensures states[k].version >= c.version && |states[k + 1].ledger| == |states[k].ledger|
    ensures var r, r' := states[k].ledger[i], states[k + 1].ledger[i];
            if r.state == Pending && r.kind != 0 && forall j :: 0 <= j < k ==> !events[j].Tick?
            then IsDealtAgain(states[k + 1], r, r') else r' == r
  {
    hide IsTenure, Handled, Flushed, IsDealtAgain;
    var p := AtPromotion(cfg, term, c.ledger, c.version);
    StepOfTenure(p, states, events, k);
    DueUntilTheFirstTick(p, states, events, k);
    TenureKeepsLedger(p, states, events, k);
    VersionsGrow(p, states, events, k);
    OrphansAreDealtAgain(states[k], Tick);
    FlushKeepsRecords(Handled(states[k], Tick));
    FlushKeepsPlace(Handled(states[k], Tick));
    SameDeal(Handled(states[k], Tick), states[k + 1], states[k].ledger[i], states[k + 1].ledger[i]);
  }

  lemma SameDeal(a: LeaderState, b: LeaderState, r: TaskRecord, r': TaskRecord)
    requires b.attached == a.attached && b.cfg == a.cfg && b.reported == a.reported
    ensures IsDealtAgain(a, r, r') <==> IsDealtAgain(b, r, r')
  {
  }

  lemma StepOfTenure(p: LeaderState, states: seq<LeaderState>, events: seq<LeadEvent>, k: nat)
    requires IsTenure(p, states, events) && k < |events|
    ensures k + 1 < |states| && states[k].cfg.size > 0 && states[k + 1] == LeadStep(states[k], events[k])
  {
    assert TenureStep(states[k], events[k], states[k + 1]);
  }

  lemma {:induction false} VersionsGrow(p: LeaderState, states: seq<LeaderState>, events: seq<LeadEvent>, k: nat)
    requires IsTenure(p, states, events) && k < |states|
    ensures states[k].version >= p.version
  {
    hide LeadStep, LedgerInv, KeepsRecord, Flushed;
    if k == 0 {
      FlushedIs(p);
    } else {
      VersionsGrow(p, states, events, k - 1);
      TenureKeepsLedger(p, states, events, k);
    }
  }
}
