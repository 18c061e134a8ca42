// Timeout deaths are sound: a doubt that becomes a death was raised first-hand, long enough ago, and has stood
// without a break ever since. A relayed suspicion never becomes a death here.

module Suspicions {
  import opened Health
  import opened Membership
  import opened Sorting
  import opened Election
  import opened NodeModel
  import opened NodeInvariant
  import opened NodeRuns
  import opened Attachment
  import opened Misses
  import opened Options

  /** The doubt about `id` after the step is the one before it, and if it stands now it stood then. */
  predicate Continues(n: NodeState, n': NodeState, id: NodeID) {
    id in n'.suspects ==>
      && id in n.suspects
      && n'.suspects[id].since == n.suspects[id].since && n'.suspects[id].incarnation == n.suspects[id].incarnation
      && (n.suspects[id].silent ==> n'.suspects[id].silent)
      && (Stands(n'.suspects[id], id, n'.tab.members) ==> Stands(n.suspects[id], id, n.tab.members))
  }

  ghost predicate AllContinue(n: NodeState, n': NodeState) {
    forall id :: Continues(n, n', id)
  }

  /** An event, the leader that a tick handling it finds silent, and the misses counted before it. */
  datatype Evidence = Evidence(now: Time, event: Event, gone: NodeID, missed: map<NodeID, nat>, suspectAfter: nat)

  ghost function EvidenceIn(n: NodeState, now: Time, e: Event): Evidence
    requires n.Keyed()
  {
    Evidence(now, e, SilentLeader(n, now), n.missed, n.cfg.suspectAfter)
  }

  /**
   * Evidence of the node's own for a doubt about `id`: a lost link, one failed probe too many, or its leader's silence.
   */
  predicate FirstHand(ev: Evidence, id: NodeID, silent: bool) {
    match ev.event
    case PeerDown(peer, disposition) => peer == id && disposition.LinkLost?
    case ProbeRound(_, _, _) => FailsProbe(ev.event, id) && MissesOf(ev.missed, id) + 1 >= ev.suspectAfter
    case ControlTick => silent && id == ev.gone && id != NO_NODE
    case _ => false
  }

  predicate Accounted(n: NodeState, n': NodeState, ev: Evidence, id: NodeID) {
    || Continues(n, n', id)
    || (id in n'.suspects && n'.suspects[id].since == ev.now && FirstHand(ev, id, n'.suspects[id].silent))
  }

  ghost predicate AllAccounted(n: NodeState, n': NodeState, ev: Evidence) {
    forall id :: Accounted(n, n', ev, id)
  }

  // ---------------------------------------------------------------------------
  // Sub-steps
  // ---------------------------------------------------------------------------

  lemma SameSuspectsContinue(n: NodeState, n': NodeState)
    requires n'.suspects == n.suspects && forall id <- n.suspects :: SameRecord(n.tab.members, n'.tab.members, id)
    ensures AllContinue(n, n')
  {
  }

  lemma EvaluateContinues(n: NodeState)
    requires OwnsItself(n)
    ensures AllContinue(n, Evaluate(n))
  {
    hide Evaluate, ElectionOf;
    EvaluateFacts(n);
    SameSuspectsContinue(n, Evaluate(n));
  }

  lemma MembershipChangedContinues(n: NodeState)
    requires OwnsItself(n)
    ensures AllContinue(n, MembershipChanged(n))
  {
    hide Evaluate;
    EvaluateContinues(Pruned(n));
    ContinueTwice(n, Pruned(n), MembershipChanged(n));
  }

  lemma ContinueTwice(a: NodeState, b: NodeState, c: NodeState)
    requires AllContinue(a, b) && AllContinue(b, c)
    ensures AllContinue(a, c)
  {
    forall id ensures Continues(a, c, id) {
      assert Continues(a, b, id) && Continues(b, c, id);
    }
  }

  lemma AccountThenContinue(a: NodeState, b: NodeState, c: NodeState, ev: Evidence)
    requires AllAccounted(a, b, ev) && AllContinue(b, c)
    ensures AllAccounted(a, c, ev)
  {
    forall id ensures Accounted(a, c, ev, id) {
      assert Accounted(a, b, ev, id) && Continues(b, c, id);
    }
  }

  lemma ContinueThenAccount(a: NodeState, b: NodeState, c: NodeState, ev: Evidence)
    requires AllContinue(a, b) && AllAccounted(b, c, ev)
    ensures AllAccounted(a, c, ev)
  {
    forall id ensures Accounted(a, c, ev, id) {
      assert Continues(a, b, id) && Accounted(b, c, ev, id);
    }
  }

  lemma AccountTwice(a: NodeState, b: NodeState, c: NodeState, ev: Evidence)
    requires AllAccounted(a, b, ev) && AllAccounted(b, c, ev)
    ensures AllAccounted(a, c, ev)
  {
    forall id ensures Accounted(a, c, ev, id) {
      assert Accounted(a, b, ev, id) && Accounted(b, c, ev, id);
    }
  }

  lemma TouchContinues(n: NodeState, n': NodeState, x: NodeID)
    requires OnlyTouches(n, n', x) && Continues(n, n', x)
    ensures AllContinue(n, n')
  {
    forall id ensures Continues(n, n', id) {
      if id != x { assert SameRecord(n.tab.members, n'.tab.members, id) && SameDoubt(n.suspects, n'.suspects, id); }
    }
  }

  lemma TouchAccounts(n: NodeState, n': NodeState, x: NodeID, ev: Evidence)
    requires OnlyTouches(n, n', x) && Accounted(n, n', ev, x)
    ensures AllAccounted(n, n', ev)
  {
    forall id ensures Accounted(n, n', ev, id) {
      if id != x { assert SameRecord(n.tab.members, n'.tab.members, id) && SameDoubt(n.suspects, n'.suspects, id); }
    }
  }

  lemma IfChangedContinues(before: NodeState, n: NodeState)
    requires OwnsItself(n)
    ensures AllContinue(n, IfChanged(before, n))
  {
    hide MembershipChanged;
    MembershipChangedContinues(n);
    SameSuspectsContinue(n, n);
  }

  lemma MarkDeadContinues(n: NodeState, id: NodeID)
    requires n.Keyed()
    ensures AllContinue(n, MarkDead(n, id))
  {
    hide MarkDead;
    MarkDeadTouches(n, id);
    MarkDeadSettles(n, id);
    TouchContinues(n, MarkDead(n, id), id);
  }

  lemma MarkDeadSettles(n: NodeState, id: NodeID)
    ensures id !in MarkDead(n, id).suspects
  {
  }

  lemma DoubtAccounts(n: NodeState, id: NodeID, silent: bool, ev: Evidence)
    requires n.Keyed() && DoubtIsCurrent(n, id) && FirstHand(ev, id, silent)
    ensures AllAccounted(n, Doubt(n, ev.now, id, silent), ev)
  {
    hide Doubt;
    DoubtFacts(n, ev.now, id, silent);
    DoubtTouches(n, ev.now, id, silent);
    TouchAccounts(n, Doubt(n, ev.now, id, silent), id, ev);
  }

  lemma TakeRecordContinues(n: NodeState, before: Members, from: NodeID, rec: Member)
    requires Inv(n)
    ensures AllContinue(n, TakeRecord(n, before, from, rec))
  {
    hide TakeRecord, Received;
    if rec.id == n.cfg.self {
      RefutationContinues(n, before, from, rec);
    } else {
      assert DoubtIsCurrent(n, rec.id);
      TakeRecordTouches(n, before, from, rec);
      RecordContinues(n, before, from, rec);
      TouchContinues(n, TakeRecord(n, before, from, rec), rec.id);
    }
  }

  lemma RefutationContinues(n: NodeState, before: Members, from: NodeID, rec: Member)
    requires OwnsItself(n) && rec.id == n.cfg.self
    ensures AllContinue(n, TakeRecord(n, before, from, rec))
  {
    SameSuspectsContinue(n, TakeRecord(n, before, from, rec));
  }

  /** A rumour may end a doubt but cannot revive one: liveness only worsens at one incarnation. */
  lemma RecordContinues(n: NodeState, before: Members, from: NodeID, rec: Member)
    requires n.Keyed() && DoubtIsCurrent(n, rec.id) && rec.id != n.cfg.self
    ensures Continues(n, TakeRecord(n, before, from, rec), rec.id)
  {
    hide Received;
    ReceivedId(rec, from, before);
  }

  lemma {:induction false} TakeRecordsContinue(n: NodeState, before: Members, from: NodeID, records: seq<Member>)
    requires Inv(n)
    ensures AllContinue(n, TakeRecords(n, before, from, records).0)
  {
    hide TakeRecord;
    if records == [] {
      SameSuspectsContinue(n, n);
    } else {
      var front, rec := records[..|records| - 1], records[|records| - 1];
      TakeRecordsContinue(n, before, from, front);
      TakeRecordsKeeps(n, before, from, front);
      var n1 := TakeRecords(n, before, from, front).0;
      TakeRecordContinues(n1, before, from, rec);
      ContinueTwice(n, n1, TakeRecord(n1, before, from, rec));
    }
  }

  // ---------------------------------------------------------------------------
  // Events
  // ---------------------------------------------------------------------------

  lemma ContinuingIsAccounted(n: NodeState, n': NodeState, ev: Evidence)
    requires AllContinue(n, n')
    ensures AllAccounted(n, n', ev)
  {
    forall id ensures Accounted(n, n', ev, id) { assert Continues(n, n', id); }
  }

  lemma OnPeerUpContinues(n: NodeState, id: NodeID, advertise: NodeAddress, incarnation: int64)
    requires Inv(n)
    ensures AllContinue(n, OnPeerUp(n, id, advertise, incarnation))
  {
    hide IfChanged, Greeted, ViewOf;
    if id == NO_NODE || id == n.cfg.self {
      SameSuspectsContinue(n, n);
    } else {
      var n1 := Greeted(n, id, advertise, incarnation);
      GreetedTouches(n, id, advertise, incarnation);
      GreetedSettles(n, id, advertise, incarnation);
      TouchContinues(n, n1, id);
      TouchKeepsInv(n, n1, id);
      var n2 := n1.Send(DeltaMsg(id, ViewOf(n1.tab.members)));
      SameSuspectsContinue(n1, n2);
      ContinueTwice(n, n1, n2);
      IfChangedContinues(n, n2);
      ContinueTwice(n, n2, IfChanged(n, n2));
    }
  }

  lemma GreetedSettles(n: NodeState, id: NodeID, advertise: NodeAddress, incarnation: int64)
    ensures id !in Greeted(n, id, advertise, incarnation).suspects
  {
  }

  lemma OnPeerDownAccounts(n: NodeState, now: Time, id: NodeID, disposition: Disposition, ev: Evidence)
    requires Inv(n) && ev.now == now && ev.event == PeerDown(id, disposition)
    ensures AllAccounted(n, OnPeerDown(n, now, id, disposition), ev)
  {
    hide IfChanged, MarkDead, Doubt;
    if id == NO_NODE || id == n.cfg.self {
      SameSuspectsContinue(n, n);
      ContinuingIsAccounted(n, n, ev);
    } else {
      var n1 := n.(attached := n.attached - {id});
      SameSuspectsContinue(n, n1);
      DoubtsCarryOver(n, n1);
      assert DoubtIsCurrent(n1, id);
      var n2 := if disposition.LinkLost? then Doubt(n1, now, id, false) else MarkDead(n1, id);
      if disposition.LinkLost? {
        DoubtAccounts(n1, id, false, ev);
        DoubtKeeps(n1, now, id, false);
      } else {
        MarkDeadContinues(n1, id);
        MarkDeadKeeps(n1, id);
        ContinuingIsAccounted(n1, n2, ev);
      }
      ContinueThenAccount(n, n1, n2, ev);
      IfChangedContinues(n, n2);
      AccountThenContinue(n, n2, IfChanged(n, n2), ev);
    }
  }

  lemma OnDeathContinues(n: NodeState, id: NodeID)
    requires Inv(n) && id != n.cfg.self && id != NO_NODE
    ensures AllContinue(n, OnDeath(n, id))
  {
    hide IfChanged, MarkDead;
    MarkDeadContinues(n, id);
    MarkDeadKeeps(n, id);
    IfChangedContinues(n, MarkDead(n, id));
    ContinueTwice(n, MarkDead(n, id), OnDeath(n, id));
  }

  lemma OnDeltaContinues(n: NodeState, from: NodeID, records: seq<Member>)
    requires Inv(n)
    ensures AllContinue(n, OnDelta(n, from, records))
  {
    hide TakeRecords, MembershipChanged;
    var before := n.tab.members;
    TakeRecordsContinue(n, before, from, records);
    TakeRecordsKeeps(n, before, from, records);
    var n1 := TakeRecords(n, before, from, records).0;
    var n2 := VoidAttachment(n1, before);
    SameSuspectsContinue(n1, n2);
    VoidAttachmentKeeps(n1, before);
    MembershipChangedContinues(n2);
    ContinueTwice(n, n1, n2);
    ContinueTwice(n, n2, MembershipChanged(n2));
  }

  lemma OnJoinAckContinues(n: NodeState, from: NodeID, number: nat, accepted: bool, named: NodeID)
    requires Inv(n)
    ensures AllContinue(n, OnJoinAck(n, from, number, accepted, named))
  {
    hide Evaluate;
    var n' := OnJoinAck(n, from, number, accepted, named);
    var detached := n.(joinID := 0, leader := NO_NODE);
    var rejected := detached.(hint := named, rejections := n.rejections + 1);
    if n'.tab == n.tab && n'.suspects == n.suspects {
      SameSuspectsContinue(n, n');
    } else {
      SameSuspectsContinue(n, detached);
      SameSuspectsContinue(n, rejected);
      EvaluateContinues(detached);
      EvaluateContinues(rejected);
      ContinueTwice(n, detached, Evaluate(detached));
      ContinueTwice(n, rejected, Evaluate(rejected));
    }
  }

  lemma OnHeartbeatContinues(n: NodeState, from: NodeID, term: nat)
    requires Inv(n)
    ensures AllContinue(n, OnHeartbeat(n, from, term))
  {
    hide BeatResumed;
    var n' := OnHeartbeat(n, from, term);
    if term < n.term {
      SameSuspectsContinue(n, n');
    } else {
      var n1 := n.(term := term, sinceBeat := if from == n.leader && !n.Leads() then 0 else n.sinceBeat);
      SameSuspectsContinue(n, n1);
      DoubtsCarryOver(n, n1);
      BeatResumedContinues(n1, from);
      SameSuspectsContinue(BeatResumed(n1, from), n');
      ContinueTwice(n, n1, BeatResumed(n1, from));
      ContinueTwice(n, BeatResumed(n1, from), n');
    }
  }

  lemma BeatResumedContinues(n: NodeState, from: NodeID)
    requires Inv(n)
    ensures AllContinue(n, BeatResumed(n, from))
  {
    hide IfChanged;
    if from in n.suspects && n.suspects[from].silent {
      var n1 := n.(suspects := n.suspects - {from}).Apply(Revived(n.tab.members, from, n.suspects[from].incarnation));
      assert DoubtIsCurrent(n, from) && OnlyTouches(n, n1, from);
      TouchContinues(n, n1, from);
      TouchKeepsInv(n, n1, from);
      IfChangedContinues(n, n1);
      ContinueTwice(n, n1, IfChanged(n, n1));
    } else {
      SameSuspectsContinue(n, n);
    }
  }

  lemma TakeResultAccounts(n: NodeState, now: Time, round: nat, view: Members, id: NodeID, result: ProbeResult,
                           ev: Evidence)
    requires ev.now == now && n.Keyed() && DoubtIsCurrent(n, id)
    requires result.Failed? && MissesOf(n.missed, id) + 1 >= n.cfg.suspectAfter ==> FirstHand(ev, id, false)
    ensures AllAccounted(n, TakeResult(n, now, round, view, id, result), ev)
  {
    hide MarkDead, Doubt;
    var n' := TakeResult(n, now, round, view, id, result);
    TakeResultTouches(n, now, round, view, id, result);
    if result.Failed? {
      var misses := (if id in n.missed then n.missed[id] else 0) + 1;
      var n1 := n.(local := n.local[id := Unavailable], missed := n.missed[id := misses]);
      MarkDeadSettles(n1, id);
      if misses >= n.cfg.suspectAfter {
        DoubtAccounts(n1, id, false, ev);
        assert Accounted(n1, Doubt(n1, now, id, false), ev, id);
      }
    }
    TouchAccounts(n, n', id, ev);
  }

  lemma {:induction false} TakeResultsAccount(n: NodeState, now: Time, round: nat, view: Members, ids: seq<NodeID>,
                                              results: map<NodeID, ProbeResult>, ev: Evidence)
    requires ev.now == now && ev.missed == n.missed && ev.suspectAfter == n.cfg.suspectAfter
    requires ev.event.ProbeRound? && ev.event.results == results
    requires Inv(n) && NO_NODE !in view && n.cfg.self !in ids
    requires Ascending(NodeLess, ids) && forall id <- ids :: id in results
    ensures AllAccounted(n, TakeResults(n, now, round, view, ids, results), ev)
  {
    hide TakeResult;
    if ids == [] {
      SameSuspectsContinue(n, n);
      ContinuingIsAccounted(n, n, ev);
    } else {
      var front, id := ids[..|ids| - 1], ids[|ids| - 1];
      TakeResultsAccount(n, now, round, view, front, results, ev);
      TakeResultsKeeps(n, now, round, view, front, results);
      var n1 := TakeResults(n, now, round, view, front, results);
      assert DoubtIsCurrent(n1, id);
      assert ids == front + [id];
      TakeResultsCount(n, now, round, view, front, results, id);
      TakeResultAccounts(n1, now, round, view, id, results[id], ev);
      AccountTwice(n, n1, TakeResult(n1, now, round, view, id, results[id]), ev);
    }
  }

  lemma SelfScoreContinues(n: NodeState, next: Score)
    requires OwnsItself(n)
    ensures AllContinue(n, TakeSelfScore(n, next))
  {
    SameSuspectsContinue(n, TakeSelfScore(n, next));
  }

  lemma OnProbeRoundAccounts(n: NodeState, now: Time, round: nat, results: map<NodeID, ProbeResult>, selfScore: Score,
                             ev: Evidence)
    requires ev.now == now && ev.event == ProbeRound(round, results, selfScore)
    requires ev.missed == n.missed && ev.suspectAfter == n.cfg.suspectAfter && Inv(n) && n.cfg.self !in results
    ensures AllAccounted(n, OnProbeRound(n, now, round, results, selfScore), ev)
  {
    hide TakeResults, TakeSelfScore, Evaluate, Pruned;
    var n1 := n.(probing := false, rejections := 0);
    SameSuspectsContinue(n, n1);
    DoubtsCarryOver(n, n1);
    var ids := IdList(results.Keys);
    TakeResultsAccount(n1, now, round, n.tab.members, ids, results, ev);
    TakeResultsKeeps(n1, now, round, n.tab.members, ids, results);
    var n2 := TakeResults(n1, now, round, n.tab.members, ids, results);
    ContinueThenAccount(n, n1, n2, ev);
    PrunedKeeps(n2);
    PrunedContinues(n2);
    SameSuspectsContinue(n2, n2);
    var n3 := ProbeResultsTaken(n, now, round, results);
    AccountThenContinue(n, n2, n3, ev);
    SelfScoreContinues(n3, selfScore);
    TakeSelfScoreKeeps(n3, selfScore);
    var n4 := TakeSelfScore(n3, selfScore);
    EvaluateContinues(n4);
    AccountThenContinue(n, n3, n4, ev);
    AccountThenContinue(n, n4, Evaluate(n4), ev);
  }

  lemma PrunedContinues(n: NodeState)
    ensures AllContinue(n, Pruned(n))
  {
    SameSuspectsContinue(n, Pruned(n));
  }

  lemma ExpireSuspicionsContinues(n: NodeState, now: Time)
    requires Inv(n)
    ensures AllContinue(n, ExpireSuspicions(n, now))
  {
    hide ExpireAll;
    ExpireAllStands(n, now, IdList(n.suspects.Keys));
  }

  lemma SweepContinues(n: NodeState, now: Time)
    ensures AllContinue(n, SweepTombstones(n, now))
  {
    hide Reconciled;
  }

  lemma CheckLeaderSilenceAccounts(n: NodeState, ev: Evidence)
    requires Inv(n) && !n.Leads() && n.leader != NO_NODE && ev.event.ControlTick?
    requires n.sinceBeat + 1 >= n.cfg.heartbeatMisses ==> ev.gone == n.leader
    ensures AllAccounted(n, CheckLeaderSilence(n, ev.now), ev)
  {
    hide Doubt, MembershipChanged;
    if n.sinceBeat + 1 < n.cfg.heartbeatMisses {
      SameSuspectsContinue(n, n.(sinceBeat := n.sinceBeat + 1));
      ContinuingIsAccounted(n, n.(sinceBeat := n.sinceBeat + 1), ev);
    } else {
      var n1 := n.(sinceBeat := 0);
      SameSuspectsContinue(n, n1);
      DoubtsCarryOver(n, n1);
      assert DoubtIsCurrent(n1, n.leader);
      DoubtAccounts(n1, n.leader, true, ev);
      DoubtKeeps(n1, ev.now, n.leader, true);
      var n2 := Doubt(n1, ev.now, n.leader, true);
      var n3 := n2.(leader := NO_NODE);
      ContinueThenAccount(n, n1, n2, ev);
      SameSuspectsContinue(n2, n3);
      MembershipChangedContinues(n3);
      ContinueTwice(n2, n3, MembershipChanged(n3));
      AccountThenContinue(n, n2, MembershipChanged(n3), ev);
    }
  }

  lemma OnControlTickAccounts(n: NodeState, now: Time)
    requires Inv(n) && n.Keyed()
    ensures AllAccounted(n, OnControlTick(n, now), EvidenceIn(n, now, ControlTick))
  {
    hide ExpireSuspicions, IfChanged, SweepTombstones, CheckLeaderSilence, IdList;
    var ev := EvidenceIn(n, now, ControlTick);
    ExpireSuspicionsKeeps(n, now);
    ExpireSuspicionsContinues(n, now);
    var n1 := ExpireSuspicions(n, now);
    IfChangedKeeps(n, n1);
    IfChangedKeepsStanding(n, n1);
    IfChangedContinues(n, n1);
    var n2 := IfChanged(n, n1);
    ContinueTwice(n, n1, n2);
    SweepKeeps(n2, now);
    SweepContinues(n2, now);
    var n3 := SweepTombstones(n2, now);
    ContinueTwice(n, n2, n3);
    if n3.Leads() || n3.leader == NO_NODE {
      SameSuspectsContinue(n3, OnControlTick(n, now));
      ContinueTwice(n, n3, OnControlTick(n, now));
      ContinuingIsAccounted(n, OnControlTick(n, now), ev);
    } else {
      CheckLeaderSilenceAccounts(n3, ev);
      ContinueThenAccount(n, n3, CheckLeaderSilence(n3, now), ev);
    }
  }

  lemma OnTuneContinues(n: NodeState, threshold: Option<real>, hysteresis: Option<real>)
    requires Inv(n)
    ensures AllContinue(n, OnTune(n, threshold, hysteresis))
  {
    hide Evaluate;
    var n1 := Tuned(n, threshold, hysteresis);
    SameSuspectsContinue(n, n1);
    EvaluateContinues(n1);
    ContinueTwice(n, n1, Evaluate(n1));
  }

  lemma OtherStepsContinue(n: NodeState, now: Time, e: Event)
    requires Inv(n) && n.Keyed() && Plausible(n, e) && !e.PeerDown? && !e.ProbeRound? && !e.ControlTick?
    ensures AllContinue(n, Step(n, now, e))
  {
    hide OnPeerUp, OnDelta, OnJoinAck, OnDeath, OnHeartbeat, OnTune, Evaluate, ViewOf, AllContinue, OnHeartbeatAck,
         OnStateSync;
    match e
    case PeerUp(id, advertise, incarnation) => OnPeerUpContinues(n, id, advertise, incarnation);
    case Delta(from, records) => OnDeltaContinues(n, from, records);
    case JoinAck(from, number, accepted, named) => OnJoinAckContinues(n, from, number, accepted, named);
    case Leave(from) => OnDeathContinues(n, from);
    case Malformed(from) => OnDeathContinues(n, from);
    case Heartbeat(from, term) => OnHeartbeatContinues(n, from, term);
    case HeartbeatAck(from, term, observed) =>
      OnHeartbeatAckFacts(n, from, term, observed);
      SameSuspectsContinue(n, Step(n, now, e));
    case StateSync(from, named, term) =>
      OnStateSyncFacts(n, from, named, term);
      SameSuspectsContinue(n, Step(n, now, e));
    case FloorTick => EvaluateContinues(n);
    case Tune(threshold, hysteresis) => OnTuneContinues(n, threshold, hysteresis);
    case JoinCluster(_, _, _) => SameSuspectsContinue(n, Step(n, now, e));
    case ProbeTick => SameSuspectsContinue(n, Step(n, now, e));
    case GossipTick(_) => SameSuspectsContinue(n, Step(n, now, e));
    case _ =>
  }

  /** Every doubt held after an event is one held before it, or was raised by first-hand evidence in it. */
  lemma StepAccounts(n: NodeState, now: Time, e: Event)
    requires Inv(n) && n.Keyed() && Plausible(n, e)
    ensures AllAccounted(n, Step(n, now, e), EvidenceIn(n, now, e))
  {
    hide OnPeerDown, OnProbeRound, OnControlTick, Inv, AllAccounted, AllContinue;
    var ev := EvidenceIn(n, now, e);
    match e
    case PeerDown(id, disposition) => OnPeerDownAccounts(n, now, id, disposition, ev);
    case ProbeRound(round, results, selfScore) => OnProbeRoundAccounts(n, now, round, results, selfScore, ev);
    case ControlTick => OnControlTickAccounts(n, now);
    case _ =>
      hide Step;
      OtherStepsContinue(n, now, e);
      ContinuingIsAccounted(n, Step(n, now, e), ev);
  }

  // ---------------------------------------------------------------------------
  // Runs
  // ---------------------------------------------------------------------------

  /** The doubts a tick at `now` confirms. */
  predicate TimesOut(n: NodeState, now: Time, id: NodeID) {
    id in n.suspects && Stands(n.suspects[id], id, n.tab.members) &&
    now - n.suspects[id].since >= n.cfg.suspicionTimeout
  }

  lemma {:induction false} DoubtsHaveAnOrigin(states: seq<NodeState>, inputs: seq<Input>, k: nat, id: NodeID)
      returns (j: nat)
    requires IsRun(states, inputs) && k < |states| && id in states[k].suspects
    ensures 0 < j <= k && inputs[j - 1].now == states[k].suspects[id].since && id in states[j].suspects
    ensures states[j - 1].Keyed()
    ensures FirstHand(EvidenceIn(states[j - 1], inputs[j - 1].now, inputs[j - 1].event), id,
                      states[j].suspects[id].silent)
    ensures forall i :: j <= i <= k ==>
              id in states[i].suspects && states[i].suspects[id].incarnation == states[k].suspects[id].incarnation
    ensures Stands(states[k].suspects[id], id, states[k].tab.members) ==>
              forall i :: j <= i <= k ==> Stands(states[i].suspects[id], id, states[i].tab.members)
  {
    hide Step, SilentLeader, Inv;
    RunKeepsInv(states, inputs, 0, k - 1);
    var n, input, n' := states[k - 1], inputs[k - 1], states[k];
    assert Follows(n, input, n');
    StepAccounts(n, input.now, input.event);
    assert Accounted(n, n', EvidenceIn(n, input.now, input.event), id);
    if Continues(n, n', id) {
      j := DoubtsHaveAnOrigin(states, inputs, k - 1, id);
    } else {
      j := k;
    }
  }

  /** In steps [i, j) the configured number of ticks passed, under this one leader and with no beat of its heard. */
  ghost predicate MissedItsBeats(states: seq<NodeState>, inputs: seq<Input>, i: nat, j: nat, leader: NodeID)
    requires |states| == |inputs| + 1 && i < j <= |inputs|
  {
    OneSilence(states, inputs, i, j - 1, leader) && Ticks(inputs, i, j) >= states[j].cfg.heartbeatMisses
  }

  /** In steps [i, j) the configured number of probes of the peer failed, and none succeeded. */
  ghost predicate MissedItsProbes(states: seq<NodeState>, inputs: seq<Input>, i: nat, j: nat, peer: NodeID)
    requires |states| == |inputs| + 1 && i < j <= |inputs|
  {
    NeverAnswers(states, inputs, i, j, peer) && FailedProbes(inputs, i, j, peer) >= states[j].cfg.suspectAfter
  }

  lemma RunLength(states: seq<NodeState>, inputs: seq<Input>)
    requires IsRun(states, inputs)
    ensures |states| == |inputs| + 1
  {
  }

  lemma BeatsWereMissed(states: seq<NodeState>, inputs: seq<Input>, j: nat, id: NodeID, silent: bool) returns (i: nat)
    requires IsRun(states, inputs) && 0 < j < |states| && inputs[j - 1].event.ControlTick? && states[j - 1].Keyed()
    requires FirstHand(EvidenceIn(states[j - 1], inputs[j - 1].now, ControlTick), id, silent)
    ensures i < j && MissedItsBeats(states, inputs, i, j, id)
  {
    hide SilentLeader, IsRun, OneSilence;
    RunLength(states, inputs);
    SameConfig(states, inputs, j);
    i := SilenceIsEarned(states, inputs, j - 1);
  }

  lemma ProbesWereMissed(states: seq<NodeState>, inputs: seq<Input>, j: nat, id: NodeID, silent: bool) returns (i: nat)
    requires IsRun(states, inputs) && 0 < j < |states| && inputs[j - 1].event.ProbeRound? && states[j - 1].Keyed()
    requires FirstHand(EvidenceIn(states[j - 1], inputs[j - 1].now, inputs[j - 1].event), id, silent)
    ensures i < j && MissedItsProbes(states, inputs, i, j, id)
  {
    hide SilentLeader, IsRun, AnswersProbe, FailsProbe, MissesOf;
    RunLength(states, inputs);
    SameConfig(states, inputs, j);
    FailureIsNoAnswer(states[j - 1], inputs[j - 1].event, id);
    i := MissesAreCounted(states, inputs, j - 1, id);
  }

  lemma FailureIsNoAnswer(n: NodeState, e: Event, id: NodeID)
    requires FailsProbe(e, id)
    ensures !AnswersProbe(n, e, id)
  {
  }

  lemma SameConfig(states: seq<NodeState>, inputs: seq<Input>, j: nat)
    requires IsRun(states, inputs) && 0 < j < |states|
    ensures states[j - 1].cfg == states[j].cfg
  {
    hide IsRun, Inv;
    RunKeepsInv(states, inputs, j - 1, j - 1);
    RunKeepsInv(states, inputs, j, j);
  }

  /**
   * Whenever the tick at step k times a member out, this node itself raised the doubt at least the suspicion timeout
   * earlier, and in every state since then the member's record has been suspect at the one incarnation. A doubt raised
   * by a tick or a probe round was raised only once the configured number of beats or probes had been missed.
   */
  lemma TimeoutDeathsAreSound(states: seq<NodeState>, inputs: seq<Input>, k: nat, id: NodeID) returns (j: nat)
    requires IsRun(states, inputs) && k < |inputs| && inputs[k].event.ControlTick? &&
             TimesOut(states[k], inputs[k].now, id)
    ensures 0 < j <= k && id in states[j].suspects && states[j - 1].Keyed()
    ensures FirstHand(EvidenceIn(states[j - 1], inputs[j - 1].now, inputs[j - 1].event), id,
                      states[j].suspects[id].silent)
    ensures inputs[j - 1].event.ControlTick? ==> exists i: nat :: i < j && MissedItsBeats(states, inputs, i, j, id)
    ensures inputs[j - 1].event.ProbeRound? ==> exists i: nat :: i < j && MissedItsProbes(states, inputs, i, j, id)
    ensures inputs[k].now - inputs[j - 1].now >= states[k].cfg.suspicionTimeout
    ensures forall i :: j <= i <= k ==>
              && id in states[i].tab.members && states[i].tab.members[id].state.Suspect?
              && states[i].tab.members[id].incarnation == states[k].tab.members[id].incarnation
  {
    hide IsRun, FirstHand, EvidenceIn, MissedItsBeats, MissedItsProbes;
    assert |states| == |inputs| + 1 by { RunLength(states, inputs); }
    j := DoubtsHaveAnOrigin(states, inputs, k, id);
    var silent := states[j].suspects[id].silent;
    if inputs[j - 1].event.ControlTick? { var i := BeatsWereMissed(states, inputs, j, id, silent); }
    if inputs[j - 1].event.ProbeRound? { var i := ProbesWereMissed(states, inputs, j, id, silent); }
  }

  /** Expiry kills exactly the members that time out, and touches no other record. */
  lemma ExpiryKillsExactlyTheTimedOut(n: NodeState, now: Time, id: NodeID)
    requires Inv(n)
    ensures var t, t' := n.tab.members, ExpireSuspicions(n, now).tab.members;
            if TimesOut(n, now, id) then
              id in t' && t'[id] == t[id].(state := Dead, incarnation := NextIncarnation(t[id].incarnation))
            else SameRecord(t, t', id)
  {
    hide ExpireAll;
    ExpireAllKills(n, now, IdList(n.suspects.Keys), id);
  }

  lemma {:induction false} ExpireAllKills(n: NodeState, now: Time, ids: seq<NodeID>, id: NodeID)
    requires Inv(n)
    ensures var t, n' := n.tab.members, ExpireAll(n, now, n.tab.members, ids);
            if id in ids && TimesOut(n, now, id) then
              && id in n'.tab.members && id !in n'.suspects
              && n'.tab.members[id] == t[id].(state := Dead, incarnation := NextIncarnation(t[id].incarnation))
            else
              && SameRecord(t, n'.tab.members, id)
              && (id in n'.suspects ==> id in n.suspects && n'.suspects[id] == n.suspects[id])
              && (id !in ids ==> SameDoubt(n.suspects, n'.suspects, id))
              && n'.cfg == n.cfg
  {
    hide Expire;
    if ids != [] {
      var front, x := ids[..|ids| - 1], ids[|ids| - 1];
      assert ids == front + [x];
      ExpireAllKills(n, now, front, id);
      ExpireAllKeeps(n, now, n.tab.members, front);
      var n1 := ExpireAll(n, now, n.tab.members, front);
      assert DoubtIsCurrent(n1, x);
      ExpireTouches(n1, now, n.tab.members, x);
      if x != id {
        var n' := Expire(n1, now, n.tab.members, x);
        assert SameRecord(n1.tab.members, n'.tab.members, id) && SameDoubt(n1.suspects, n'.suspects, id);
      } else {
        ExpireKills(n, n1, now, id);
      }
    }
  }

  lemma ExpireKills(n: NodeState, n1: NodeState, now: Time, id: NodeID)
    requires n1.cfg == n.cfg
    ensures var n' := Expire(n1, now, n.tab.members, id);
            && n'.cfg == n.cfg
            && (id !in n1.suspects ==> n' == n1)
            && (id in n1.suspects && id in n.suspects && n1.suspects[id] == n.suspects[id]
                && SameRecord(n.tab.members, n1.tab.members, id) ==>
                  if TimesOut(n, now, id) then
                    && id in n'.tab.members && id !in n'.suspects
                    && n'.tab.members[id] ==
                       n.tab.members[id].(state := Dead, incarnation := NextIncarnation(n.tab.members[id].incarnation))
                  else SameRecord(n.tab.members, n'.tab.members, id) &&
                       (id in n'.suspects ==> n'.suspects[id] == n.suspects[id]))
  {
    hide MarkDead;
    MarkDeadFacts(n1, id);
  }
}
