// The task ledger a leader keeps: appending with bounded eviction, assignment, completion, and the snapshots it sends.

module Ledgers {
  import opened Membership
  import opened Options

  const MAX_INFLIGHT: nat := 256
  const MAX_RECORD_BODY: nat := 1024
  const MAX_RECORD_RESULT: nat := 512

  type TaskID = nat

  datatype TaskState = Pending | Done | Failed

  /** `kind` 0 marks a record from a build that did not replicate the task itself; an empty body stands for none. */
  datatype TaskRecord = TaskRecord(taskID: TaskID, state: TaskState, kind: nat, body: seq<nat>, result: seq<nat>,
                                   assignedTo: NodeID)

  datatype Task = Task(taskID: TaskID, kind: nat, body: seq<nat>)

  datatype TaskResult = TaskResult(taskID: TaskID, worker: NodeID, ok: bool, output: seq<nat>)

  datatype Snapshot = Snapshot(term: nat, workers: seq<NodeID>, ledger: seq<TaskRecord>, version: nat)

  /** `bytes` is the encoded size of a snapshot; `delivers(k)` is whether the k-th TASK send succeeds. */
  datatype LeaderConfig = LeaderConfig(self: NodeID, size: nat, budget: nat, bytes: Snapshot -> nat,
                                       delivers: nat -> bool)

  datatype LeaderState = LeaderState(cfg: LeaderConfig, term: nat, attached: set<NodeID>, ledger: seq<TaskRecord>,
                                     version: nat, dirty: bool, sentWorkers: seq<NodeID>, sentTerm: nat, next: nat,
                                     inflight: nat, reissueDue: bool, taskSends: nat, reported: seq<TaskResult>,
                                     sent: seq<Snapshot>)
  {
    function Edited(ledger': seq<TaskRecord>): LeaderState {
      this.(ledger := ledger', version := version + 1, dirty := true)
    }
  }

  predicate IsFinished(r: TaskRecord) {
    r.state != Pending
  }

  // ---------------------------------------------------------------------------
  // Records
  // ---------------------------------------------------------------------------

  /** Position of a task, or -1. */
  function IndexOf(ledger: seq<TaskRecord>, id: TaskID): (i: int)
    ensures -1 <= i < |ledger|
    ensures i >= 0 ==> ledger[i].taskID == id
    ensures i < 0 ==> forall r <- ledger :: r.taskID != id
  {
    if ledger == [] then -1
    else if ledger[0].taskID == id then 0
    else if IndexOf(ledger[1..], id) < 0 then -1 else IndexOf(ledger[1..], id) + 1
  }

  /** Position of the oldest finished record, or -1. */
  function OldestFinished(ledger: seq<TaskRecord>): (i: int)
    ensures -1 <= i < |ledger|
    ensures i >= 0 ==> IsFinished(ledger[i])
    ensures i < 0 ==> forall r <- ledger :: !IsFinished(r)
  {
    if ledger == [] then -1
    else if IsFinished(ledger[0]) then 0
    else if OldestFinished(ledger[1..]) < 0 then -1 else OldestFinished(ledger[1..]) + 1
  }

  function Evicted(ledger: seq<TaskRecord>): (rest: seq<TaskRecord>)
    requires ledger != []
    ensures |rest| == |ledger| - 1
  {
    var v := if OldestFinished(ledger) < 0 then 0 else OldestFinished(ledger);
    ledger[..v] + ledger[v + 1..]
  }

  function MakeRoom(ledger: seq<TaskRecord>, size: nat): (rest: seq<TaskRecord>)
    requires size > 0
    ensures |rest| < size
    decreases |ledger|
  {
    if |ledger| < size then ledger else MakeRoom(Evicted(ledger), size)
  }

  function Capped(r: TaskRecord): TaskRecord {
    if |r.body| > MAX_RECORD_BODY then r.(body := []) else r
  }

  function Appended(l: LeaderState, r: TaskRecord): LeaderState
    requires l.cfg.size > 0
  {
    l.Edited(MakeRoom(l.ledger, l.cfg.size) + [Capped(r)])
  }

  /** In UTF-8, whether a byte can start a character. */
  predicate RuneStart(b: nat) {
    b / 64 != 2
  }

  /** At most `n` bytes, cut between characters. */
  function Truncated(s: seq<nat>, n: nat): (t: seq<nat>)
    ensures t <= s && |t| <= n
    ensures t == s || t == [] || RuneStart(s[|t|])
    ensures |s| <= n ==> t == s
  {
    if |s| <= n then s else if n > 0 && !RuneStart(s[n]) then Truncated(s, n - 1) else s[..n]
  }

  // ---------------------------------------------------------------------------
  // Tasks
  // ---------------------------------------------------------------------------

  function WithAssignee(l: LeaderState, id: TaskID, w: NodeID): LeaderState {
    var i := IndexOf(l.ledger, id);
    if i >= 0 && l.ledger[i].assignedTo != w then l.Edited(l.ledger[i := l.ledger[i].(assignedTo := w)]) else l
  }

  function Closed(r: TaskRecord, res: TaskResult): TaskRecord {
    r.(state := if res.ok then Done else Failed, result := Truncated(res.output, MAX_RECORD_RESULT), body := [],
       assignedTo := if res.worker != NO_NODE then res.worker else r.assignedTo)
  }

  /** The first result wins and is reported upward; every later one is dropped. */
  function Completed(l: LeaderState, res: TaskResult): LeaderState {
    var i := IndexOf(l.ledger, res.taskID);
    if i < 0 || IsFinished(l.ledger[i]) then l
    else l.Edited(l.ledger[i := Closed(l.ledger[i], res)]).(reported := l.reported + [res])
  }

  function BytesOf(text: string): seq<nat> {
    seq(|text|, i requires 0 <= i < |text| => text[i] as nat)
  }

  /** The output of a task refused at once. */
  const BUSY: seq<nat> := BytesOf("busy: too many running tasks")

  function Launched(l: LeaderState, t: Task): LeaderState {
    if l.inflight >= MAX_INFLIGHT then Completed(l, TaskResult(t.taskID, l.cfg.self, false, BUSY))
    else l.(inflight := l.inflight + 1)
  }

  /** Offers the task to the workers in turn from the cursor, and runs it here if none takes it. */
  function AssignFrom(l: LeaderState, t: Task, workers: seq<NodeID>, k: nat): (l': LeaderState)
    requires k <= |workers|
    ensures l'.cfg == l.cfg
    decreases |workers| - k
  {
    if k == |workers| then Launched(WithAssignee(l, t.taskID, l.cfg.self), t)
    else
      var sent := l.(taskSends := l.taskSends + 1);
      if l.cfg.delivers(l.taskSends)
      then WithAssignee(sent.(next := (l.next + k + 1) % |workers|), t.taskID, workers[(l.next + k) % |workers|])
      else AssignFrom(sent, t, workers, k + 1)
  }

  ghost function Assigned(l: LeaderState, t: Task): LeaderState {
    AssignFrom(l, t, IdList(l.attached), 0)
  }

  /** A task already in the ledger is a duplicate: the ledger keeps the first. */
  ghost function Led(l: LeaderState, t: Task): LeaderState
    requires l.cfg.size > 0
  {
    if IndexOf(l.ledger, t.taskID) >= 0 then l
    else Assigned(Appended(l, TaskRecord(t.taskID, Pending, t.kind, t.body, [], NO_NODE)), t)
  }

  predicate Reissuable(r: TaskRecord) {
    r.state == Pending && r.kind != 0
  }

  function PendingTasks(ledger: seq<TaskRecord>, keep: TaskRecord -> bool): seq<Task> {
    if ledger == [] then []
    else
      var r := ledger[|ledger| - 1];
      PendingTasks(ledger[..|ledger| - 1], keep) +
      if keep(r) && Reissuable(r) then [Task(r.taskID, r.kind, r.body)] else []
  }

  ghost function AssignAll(l: LeaderState, ts: seq<Task>): (l': LeaderState)
    ensures l'.cfg == l.cfg
  {
    if ts == [] then l else Assigned(AssignAll(l, ts[..|ts| - 1]), ts[|ts| - 1])
  }

  function AssignedTo(w: NodeID): TaskRecord -> bool {
    (r: TaskRecord) => r.assignedTo == w
  }

  function Anyone(): TaskRecord -> bool {
    (r: TaskRecord) => true
  }

  ghost function Departed(l: LeaderState, w: NodeID): LeaderState {
    AssignAll(l.(attached := l.attached - {w}), PendingTasks(l.ledger, AssignedTo(w)))
  }

  ghost function Reissued(l: LeaderState): LeaderState {
    if l.reissueDue then AssignAll(l.(reissueDue := false), PendingTasks(l.ledger, Anyone())) else l
  }

  // ---------------------------------------------------------------------------
  // Snapshots
  // ---------------------------------------------------------------------------

  function CountFinished(ledger: seq<TaskRecord>): (n: nat)
    ensures n <= |ledger|
    ensures n == 0 <==> forall r <- ledger :: !IsFinished(r)
  {
    if ledger == [] then 0
    else CountFinished(ledger[..|ledger| - 1]) + if IsFinished(ledger[|ledger| - 1]) then 1 else 0
  }

  /** Without its first `drop` finished records (or, when `any`, its first `drop` records). */
  function WithoutFirst(ledger: seq<TaskRecord>, drop: nat, any: bool): (kept: seq<TaskRecord>)
    ensures |kept| <= |ledger|
    ensures drop == 0 ==> kept == ledger
  {
    if ledger == [] || drop == 0 then ledger
    else if any || IsFinished(ledger[0]) then WithoutFirst(ledger[1..], drop - 1, any)
    else [ledger[0]] + WithoutFirst(ledger[1..], drop, any)
  }

  function HalfOf(n: nat): nat {
    if n / 2 > 1 then n / 2 else 1
  }

  /** One trimming round: the older half of the finished records or, if there are none, of everything. */
  function Halved(ledger: seq<TaskRecord>): seq<TaskRecord> {
    var done := CountFinished(ledger);
    WithoutFirst(ledger, if done == 0 then HalfOf(|ledger|) else HalfOf(done), done == 0)
  }

  lemma {:induction false} HalvingShrinks(ledger: seq<TaskRecord>, drop: nat, any: bool)
    requires drop > 0 && exists r <- ledger :: any || IsFinished(r)
    ensures |WithoutFirst(ledger, drop, any)| < |ledger|
  {
    if !any && !IsFinished(ledger[0]) { HalvingShrinks(ledger[1..], drop, any); }
  }

  lemma NextKept(ledger: seq<TaskRecord>, i: nat, drop: nat, any: bool)
    requires i < |ledger|
    ensures WithoutFirst(ledger[i..], drop, any) ==
            if drop > 0 && (any || IsFinished(ledger[i])) then WithoutFirst(ledger[i + 1..], drop - 1, any)
            else [ledger[i]] + WithoutFirst(ledger[i + 1..], drop, any)
  {
    assert ledger[i..][1..] == ledger[i + 1..];
  }

  lemma NothingKept(drop: nat, any: bool)
    ensures WithoutFirst([], drop, any) == []
  {
  }

  lemma HalvedShrinks(ledger: seq<TaskRecord>)
    ensures ledger != [] ==> |Halved(ledger)| < |ledger|
    ensures Halved([]) == []
  {
    if ledger != [] {
      var done := CountFinished(ledger);
      assert ledger[0] in ledger;
      HalvingShrinks(ledger, if done == 0 then HalfOf(|ledger|) else HalfOf(done), done == 0);
    }
  }

  predicate Fits(cfg: LeaderConfig, p: Snapshot) {
    cfg.bytes(p) <= cfg.budget
  }

  /**
   * The snapshot sent in place of `p`, trimmed round by round until it fits. There is none if the rounds reach the
   * empty ledger and even that does not fit: every further round leaves it as it is, so the loop never ends.
   */
  ghost function Trimmed(cfg: LeaderConfig, p: Snapshot): Option<Snapshot>
    decreases |p.ledger|
  {
    if Fits(cfg, p) then Some(p)
    else if p.ledger == [] then None
    else
      HalvedShrinks(p.ledger);
      Trimmed(cfg, p.(ledger := Halved(p.ledger)))
  }

  ghost function Payload(l: LeaderState, workers: seq<NodeID>): Option<Snapshot> {
    Trimmed(l.cfg, Snapshot(l.term, workers, l.ledger, l.version))
  }

  /** Whether sending to the workers returns: with nobody to send to, nothing is trimmed. */
  ghost predicate SyncEnds(l: LeaderState, workers: seq<NodeID>) {
    workers == [] || Payload(l, workers).Some?
  }

  /** A leader whose trimming does not end sends nothing, ever. */
  ghost function Synced(l: LeaderState, workers: seq<NodeID>): LeaderState {
    if workers == [] || Payload(l, workers).None? then l else l.(sent := l.sent + [Payload(l, workers).value])
  }

  /** The state a flush sends from. The roster is part of a snapshot, so a roster change is a version too. */
  ghost function Rostered(l: LeaderState): LeaderState {
    if IdList(l.attached) != l.sentWorkers then l.Edited(l.ledger) else l
  }

  predicate OutOfDate(l: LeaderState) {
    l.dirty || l.term != l.sentTerm
  }

  ghost function MarkedSent(l: LeaderState): LeaderState {
    l.(dirty := false, sentWorkers := IdList(l.attached), sentTerm := l.term)
  }

  /** A snapshot to every worker, if anything they hold is out of date. */
  ghost function Flushed(l: LeaderState): LeaderState {
    if OutOfDate(Rostered(l)) then Synced(MarkedSent(Rostered(l)), IdList(l.attached)) else Rostered(l)
  }

  ghost predicate FlushEnds(l: LeaderState) {
    OutOfDate(Rostered(l)) ==> SyncEnds(MarkedSent(Rostered(l)), IdList(l.attached))
  }

  /**
   * A promotion: the node leads from the replica it holds, owes everyone a snapshot, and re-issues on its next tick.
   */
  function AtPromotion(cfg: LeaderConfig, term: nat, replica: seq<TaskRecord>, version: nat): LeaderState {
    LeaderState(cfg, term, {}, replica, version, true, [], 0, 0, 0, true, 0, [], [])
  }

  // ---------------------------------------------------------------------------
  // A leader's tenure, one event at a time
  // ---------------------------------------------------------------------------

  datatype LeadEvent =
    | Submit(task: Task)
    | ResultIn(res: TaskResult)
    | OwnResult(res: TaskResult)
    | Attach(worker: NodeID)
    | Detach(worker: NodeID)
    | WorkerGone(worker: NodeID)
    | TermTo(term: nat)
    | Tick
    | Resync

  ghost function Handled(l: LeaderState, e: LeadEvent): LeaderState
    requires l.cfg.size > 0
  {
    match e
    case Submit(task) => Led(l, task)
    case ResultIn(res) => Completed(l, res)
    case OwnResult(res) => Completed(l.(inflight := if l.inflight > 0 then l.inflight - 1 else 0), res)
    case Attach(worker) => l.(attached := l.attached + {worker})
    case Detach(worker) => l.(attached := l.attached - {worker})
    case WorkerGone(worker) => Departed(l, worker)
    case TermTo(term) => l.(term := if term > l.term then term else l.term)
    case Tick => Reissued(l)
    case Resync => Synced(l, IdList(l.attached))
  }

  ghost function LeadStep(l: LeaderState, e: LeadEvent): LeaderState
    requires l.cfg.size > 0
  {
    Flushed(Handled(l, e))
  }

  /** Whether handling the event returns: every snapshot it has to send can be trimmed to the budget. */
  ghost predicate StepEnds(l: LeaderState, e: LeadEvent)
    requires l.cfg.size > 0
  {
    (e.Resync? ==> SyncEnds(l, IdList(l.attached))) && FlushEnds(Handled(l, e))
  }

  // ---------------------------------------------------------------------------
  // The leader's loop
  // ---------------------------------------------------------------------------

  class TaskLeader {
    const cfg: LeaderConfig
    var term: nat
    var attached: set<NodeID>
    var ledger: seq<TaskRecord>
    var version: nat
    var dirty: bool
    var sentWorkers: seq<NodeID>
    var sentTerm: nat
    var next: nat
    var inflight: nat
    var reissueDue: bool
    var taskSends: nat
    var reported: seq<TaskResult>
    var sent: seq<Snapshot>

    ghost function State(): LeaderState reads this {
      LeaderState(cfg, term, attached, ledger, version, dirty, sentWorkers, sentTerm, next, inflight, reissueDue,
                  taskSends, reported, sent)
    }

    ghost predicate Valid() reads this {
      cfg.size > 0
    }

    constructor (cfg: LeaderConfig, term: nat, replica: seq<TaskRecord>, version: nat)
      requires cfg.size > 0
      ensures Valid() && State() == AtPromotion(cfg, term, replica, version)
    {
      this.cfg, this.term, this.version := cfg, term, version;
      attached, ledger, dirty, sentWorkers, sentTerm, next, inflight := {}, replica, true, [], 0, 0, 0;
      reissueDue, taskSends, reported, sent := true, 0, [], [];
    }

    method Changed()
      modifies this`version, this`dirty
      ensures State() == old(State()).Edited(ledger)
    {
      version := version + 1;
      dirty := true;
    }

    method FindTask(id: TaskID) returns (i: int)
      ensures i == IndexOf(ledger, id)
    {
      for k := 0 to |ledger|
        invariant IndexOf(ledger, id) == if IndexOf(ledger[k..], id) < 0 then -1 else IndexOf(ledger[k..], id) + k
      {
        assert ledger[k..][1..] == ledger[k + 1..];
        if ledger[k].taskID == id {
          return k;
        }
      }
      return -1;
    }

    method FindFinished() returns (i: int)
      ensures i == OldestFinished(ledger)
    {
      for k := 0 to |ledger|
        invariant OldestFinished(ledger) ==
                  if OldestFinished(ledger[k..]) < 0 then -1 else OldestFinished(ledger[k..]) + k
      {
        assert ledger[k..][1..] == ledger[k + 1..];
        if ledger[k].state != Pending {
          return k;
        }
      }
      return -1;
    }

    method LedgerAppend(r: TaskRecord)
      requires Valid()
      modifies this`ledger, this`version, this`dirty
      ensures State() == Appended(old(State()), r)
    {
      while |ledger| >= cfg.size
        invariant MakeRoom(old(ledger), cfg.size) == MakeRoom(ledger, cfg.size)
        invariant State() == old(State()).(ledger := ledger)
        decreases |ledger|
      {
        var victim := FindFinished();
        if victim < 0 {
          victim := 0;
        }
        ledger := ledger[..victim] + ledger[victim + 1..];
      }
      var rec := r;
      if |rec.body| > MAX_RECORD_BODY {
        rec := rec.(body := []);
      }
      ledger := ledger + [rec];
      Changed();
    }

    method SetAssignee(id: TaskID, w: NodeID)
      modifies this`ledger, this`version, this`dirty
      ensures State() == WithAssignee(old(State()), id, w)
    {
      var i := FindTask(id);
      if i >= 0 && ledger[i].assignedTo != w {
        ledger := ledger[i := ledger[i].(assignedTo := w)];
        Changed();
      }
    }

    method CompleteTask(res: TaskResult)
      modifies this`ledger, this`version, this`dirty, this`reported
      ensures State() == Completed(old(State()), res)
    {
      var i := FindTask(res.taskID);
      if i < 0 {
        return;
      }
      var r := ledger[i];
      if r.state != Pending {
        return;
      }
      r := r.(state := if res.ok then Done else Failed, result := Truncated(res.output, MAX_RECORD_RESULT), body := []);
      if res.worker != NO_NODE {
        r := r.(assignedTo := res.worker);
      }
      ledger := ledger[i := r];
      Changed();
      reported := reported + [res];
    }

    method Launch(t: Task)
      modifies this`ledger, this`version, this`dirty, this`reported, this`inflight
      ensures State() == Launched(old(State()), t)
    {
      if inflight >= MAX_INFLIGHT {
        CompleteTask(TaskResult(t.taskID, cfg.self, false, BUSY));
        return;
      }
      inflight := inflight + 1;
    }

    method Assign(t: Task)
      modifies this`ledger, this`version, this`dirty, this`reported, this`inflight, this`next, this`taskSends
      ensures State() == Assigned(old(State()), t)
    {
      hide IdList, WithAssignee, Launched;
      var workers := SortedIds(attached);
      for k := 0 to |workers|
        invariant next == old(next) && AssignFrom(old(State()), t, workers, 0) == AssignFrom(State(), t, workers, k)
      {
        var taken := Offer(t, workers, k);
        if taken {
          return;
        }
      }
      SetAssignee(t.taskID, cfg.self);
      Launch(t);
    }

    /** One TASK send; a send that fails leaves the cursor where it was. */
    method Offer(t: Task, workers: seq<NodeID>, k: nat) returns (taken: bool)
      requires k < |workers|
      modifies this`ledger, this`version, this`dirty, this`next, this`taskSends
      ensures taken == cfg.delivers(old(taskSends))
      ensures var l := old(State()).(taskSends := old(taskSends) + 1);
              State() == if taken then WithAssignee(l.(next := (old(next) + k + 1) % |workers|), t.taskID,
                                                    workers[(old(next) + k) % |workers|])
                         else l
    {
      hide WithAssignee;
      taken := cfg.delivers(taskSends);
      taskSends := taskSends + 1;
      if taken {
        var w := workers[(next + k) % |workers|];
        next := (next + k + 1) % |workers|;
        SetAssignee(t.taskID, w);
      }
    }

    method LeadTask(t: Task)
      requires Valid()
      modifies this`ledger, this`version, this`dirty, this`reported, this`inflight, this`next, this`taskSends
      ensures State() == Led(old(State()), t)
    {
      hide Appended, Assigned;
      var i := FindTask(t.taskID);
      if i >= 0 {
        return;
      }
      LedgerAppend(TaskRecord(t.taskID, Pending, t.kind, t.body, [], NO_NODE));
      Assign(t);
    }

    method CollectPending(keep: TaskRecord -> bool) returns (ts: seq<Task>)
      ensures ts == PendingTasks(ledger, keep)
    {
      ts := [];
      for i := 0 to |ledger|
        invariant ts == PendingTasks(ledger[..i], keep)
      {
        assert ledger[..i + 1][..i] == ledger[..i];
        var r := ledger[i];
        if r.state != Pending || !keep(r) {
          continue;
        }
        if r.kind == 0 {
          continue;
        }
        ts := ts + [Task(r.taskID, r.kind, r.body)];
      }
      assert ledger[..|ledger|] == ledger;
    }

    method AssignEach(ts: seq<Task>)
      modifies this`ledger, this`version, this`dirty, this`reported, this`inflight, this`next, this`taskSends
      ensures State() == AssignAll(old(State()), ts)
    {
      hide Assigned;
      for i := 0 to |ts|
        invariant State() == AssignAll(old(State()), ts[..i])
      {
        assert ts[..i + 1][..i] == ts[..i];
        Assign(ts[i]);
      }
      assert ts[..|ts|] == ts;
    }

    method ReassignFrom(w: NodeID)
      modifies this
      ensures State() == Departed(old(State()), w)
    {
      hide AssignAll, PendingTasks;
      attached := attached - {w};
      var ts := CollectPending(AssignedTo(w));
      AssignEach(ts);
    }

    method ReissueIfDue()
      modifies this
      ensures State() == Reissued(old(State()))
    {
      hide AssignAll, PendingTasks;
      if !reissueDue {
        return;
      }
      reissueDue := false;
      var ts := CollectPending(Anyone());
      AssignEach(ts);
    }

    /** Trims a copy until it fits; the ledger itself is untouched. */
    method SyncPayload(workers: seq<NodeID>) returns (p: Snapshot)
      requires Payload(State(), workers).Some?
      ensures Payload(State(), workers) == Some(p)
    {
      hide Halved;
      p := Snapshot(term, workers, ledger, version);
      while cfg.bytes(p) > cfg.budget
        invariant Payload(State(), workers) == Trimmed(cfg, p)
        decreases |p.ledger|
      {
        var kept := TrimRound(p.ledger);
        p := p.(ledger := kept);
      }
    }

    method CountDone(records: seq<TaskRecord>) returns (done: nat)
      ensures done == CountFinished(records)
    {
      done := 0;
      for i := 0 to |records|
        invariant done == CountFinished(records[..i])
      {
        assert records[..i + 1][..i] == records[..i];
        if records[i].state != Pending {
          done := done + 1;
        }
      }
      assert records[..|records|] == records;
    }

    method TrimRound(records: seq<TaskRecord>) returns (kept: seq<TaskRecord>)
      ensures kept == Halved(records) && (records != [] ==> |kept| < |records|)
    {
      var done := CountDone(records);
      var drop: nat := if done / 2 > 1 then done / 2 else 1;
      if done == 0 {
        drop := if |records| / 2 > 1 then |records| / 2 else 1;
      }
      if records != [] {
        assert records[0] in records;
        HalvingShrinks(records, drop, done == 0);
      }
      kept := DropFirst(records, drop, done == 0);
    }

    method DropFirst(records: seq<TaskRecord>, count: nat, any: bool) returns (kept: seq<TaskRecord>)
      ensures kept == WithoutFirst(records, count, any)
    {
      hide WithoutFirst;
      var drop := count;
      kept := [];
      ghost var all := WithoutFirst(records, drop, any);
      assert records[0..] == records && [] + all == all;
      for i := 0 to |records|
        invariant kept + WithoutFirst(records[i..], drop, any) == all
      {
        NextKept(records, i, drop, any);
        var r := records[i];
        if drop > 0 && (r.state != Pending || any) {
          drop := drop - 1;
          continue;
        }
        ghost var rest := WithoutFirst(records[i + 1..], drop, any);
        assert kept + ([r] + rest) == (kept + [r]) + rest;
        kept := kept + [r];
      }
      NothingKept(drop, any);
      assert records[|records|..] == [];
    }

    method SendSync(workers: seq<NodeID>)
      requires SyncEnds(State(), workers)
      modifies this`sent
      ensures State() == Synced(old(State()), workers)
    {
      hide Trimmed;
      if |workers| == 0 {
        return;
      }
      var p := SyncPayload(workers);
      sent := sent + [p];
    }

    method FlushSync()
      requires FlushEnds(State())
      modifies this`version, this`dirty, this`sentWorkers, this`sentTerm, this`sent
      ensures State() == Flushed(old(State()))
    {
      hide Synced, IdList;
      var workers := SortedIds(attached);
      if workers != sentWorkers {
        Changed();
      }
      if term != sentTerm {
        dirty := true;
      }
      if !dirty {
        return;
      }
      dirty := false;
      sentWorkers := workers;
      sentTerm := term;
      SendSync(workers);
    }

    /** One turn of the loop while this node leads. */
    method Handle(e: LeadEvent)
      requires Valid() && StepEnds(State(), e)
      modifies this
      ensures State() == LeadStep(old(State()), e)
    {
      hide Led, Completed, Departed, Reissued, Synced, Flushed, IdList;
      match e {
        case Submit(task) => LeadTask(task);
        case ResultIn(res) => CompleteTask(res);
        case OwnResult(res) =>
          inflight := if inflight > 0 then inflight - 1 else 0;
          CompleteTask(res);
        case Attach(worker) => attached := attached + {worker};
        case Detach(worker) => attached := attached - {worker};
        case WorkerGone(worker) => ReassignFrom(worker);
        case TermTo(theirs) =>
          if theirs > term {
            term := theirs;
          }
        case Tick => ReissueIfDue();
        case Resync =>
          var workers := SortedIds(attached);
          SendSync(workers);
      }
      FlushSync();
    }
  }
}
