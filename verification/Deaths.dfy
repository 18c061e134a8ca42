// First-hand deaths: what a node records when it declares a member dead by its own evidence, and how long that holds.

module Deaths {
  import opened Health
  import opened Membership
  import opened Sorting
  import opened Election
  import opened NodeModel
  import opened NodeInvariant
  import opened Suspicions
  import opened Ceilings
  import opened Swarm
  import opened Options

  /** If the member was alive or suspect before and is dead now, then by one incarnation, and no doubt is left of it. */
  predicate Kills(n: NodeState, n': NodeState, id: NodeID) {
    id in n.tab.members && !n.tab.members[id].state.Dead? && id in n'.tab.members && n'.tab.members[id].state.Dead? ==>
      n'.tab.members[id].incarnation == NextIncarnation(n.tab.members[id].incarnation) && id !in n'.suspects
  }

  /** Nobody alive or suspect is killed, nobody dead is touched (but perhaps forgotten), nobody is added. */
  predicate Spares(n: NodeState, n': NodeState, id: NodeID) {
    id in n'.tab.members ==>
      && id in n.tab.members
      && (n'.tab.members[id].state.Dead? ==>
            n'.tab.members[id] == n.tab.members[id] && (id in n'.suspects ==> id in n.suspects))
  }

  // ---------------------------------------------------------------------------
  // Sub-steps
  // ---------------------------------------------------------------------------

  lemma KillThenSpare(a: NodeState, b: NodeState, c: NodeState, id: NodeID)
    requires Kills(a, b, id) && Spares(b, c, id)
    ensures Kills(a, c, id)
  {
  }

  lemma SpareTwice(a: NodeState, b: NodeState, c: NodeState, id: NodeID)
    requires Spares(a, b, id) && Spares(b, c, id)
    ensures Spares(a, c, id)
  {
  }

  lemma SparingKillsNobody(n: NodeState, n': NodeState, id: NodeID)
    requires Spares(n, n', id)
    ensures Kills(n, n', id)
  {
  }

  lemma OthersAreSpared(n: NodeState, n': NodeState, x: NodeID, id: NodeID)
    requires OnlyTouches(n, n', x) && id != x
    ensures Spares(n, n', id)
  {
    assert SameRecord(n.tab.members, n'.tab.members, id) && SameDoubt(n.suspects, n'.suspects, id);
  }

  lemma EvaluateSpares(n: NodeState, id: NodeID)
    requires OwnsItself(n) && id != n.cfg.self
    ensures Spares(n, Evaluate(n), id)
  {
    hide Evaluate, ElectionOf;
    EvaluateFacts(n);
  }

  lemma MembershipChangedSpares(n: NodeState, id: NodeID)
    requires Inv(n) && id != n.cfg.self
    ensures Spares(n, MembershipChanged(n), id)
  {
    hide MembershipChanged;
    MembershipChangedKeepsOthers(n, id);
  }

  lemma IfChangedSpares(before: NodeState, n: NodeState, id: NodeID)
    requires Inv(n) && id != n.cfg.self
    ensures Spares(n, IfChanged(before, n), id)
  {
    hide MembershipChanged;
    MembershipChangedSpares(n, id);
  }

  lemma MarkDeadKills(n: NodeState, x: NodeID, id: NodeID)
    requires n.Keyed()
    ensures Kills(n, MarkDead(n, x), id)
  {
    hide MarkDead;
    MarkDeadFacts(n, x);
  }

  lemma DoubtSpares(n: NodeState, now: Time, x: NodeID, silent: bool, id: NodeID)
    requires n.Keyed()
    ensures Spares(n, Doubt(n, now, x, silent), id)
  {
    hide Doubt;
    DoubtFacts(n, now, x, silent);
  }

  lemma GreetedKillsNobody(n: NodeState, x: NodeID, advertise: NodeAddress, incarnation: int64, id: NodeID)
    requires n.Keyed()
    ensures Kills(n, Greeted(n, x, advertise, incarnation), id)
  {
  }

  lemma TakeResultKills(n: NodeState, now: Time, round: nat, view: Members, id: NodeID, result: ProbeResult)
    requires n.Keyed()
    ensures Kills(n, TakeResult(n, now, round, view, id, result), id)
  {
    hide MarkDead, Doubt, ProbeClears;
    if result.Failed? {
      var misses := (if id in n.missed then n.missed[id] else 0) + 1;
      var n1 := n.(local := n.local[id := Unavailable], missed := n.missed[id := misses]);
      MarkDeadKills(n1, id, id);
      DoubtSpares(n1, now, id, false, id);
    } else if result.Scored? && id in view {
      var n1 := n.(local := n.local[id := result.score], missed := n.missed[id := 0]);
      ProbeClearsKillsNobody(n1, id, round, view[id].incarnation);
    }
  }

  lemma ProbeClearsKillsNobody(n: NodeState, id: NodeID, round: nat, incarnation: int64)
    ensures Kills(n, ProbeClears(n, id, round, incarnation), id)
  {
  }

  lemma {:induction false} TakeResultsKill(n: NodeState, now: Time, round: nat, view: Members, ids: seq<NodeID>,
                                           results: map<NodeID, ProbeResult>, id: NodeID)
    requires Inv(n) && NO_NODE !in view && n.cfg.self !in ids && Ascending(NodeLess, ids)
    requires forall x <- ids :: x in results
    ensures Kills(n, TakeResults(n, now, round, view, ids, results), id)
  {
    hide TakeResult;
    if ids != [] {
      var front, x := ids[..|ids| - 1], ids[|ids| - 1];
      var n1 := TakeResults(n, now, round, view, front, results);
      assert ids == front + [x];
      TakeResultsKeeps(n, now, round, view, front, results);
      assert DoubtIsCurrent(n1, x);
      var n' := TakeResult(n1, now, round, view, x, results[x]);
      if x == id {
        TakeResultsTouch(n, now, round, view, front, results, id);
        TakeResultKills(n1, now, round, view, id, results[id]);
      } else {
        TakeResultsKill(n, now, round, view, front, results, id);
        TakeResultTouches(n1, now, round, view, x, results[x]);
        OthersAreSpared(n1, n', x, id);
        KillThenSpare(n, n1, n', id);
      }
    }
  }

  // ---------------------------------------------------------------------------
  // Events
  // ---------------------------------------------------------------------------

  lemma OnPeerUpKillsNobody(n: NodeState, x: NodeID, advertise: NodeAddress, incarnation: int64, id: NodeID)
    requires Inv(n) && n.Keyed() && id != n.cfg.self
    ensures Kills(n, OnPeerUp(n, x, advertise, incarnation), id)
  {
    hide IfChanged, Greeted, ViewOf;
    if x != NO_NODE && x != n.cfg.self {
      var n1 := Greeted(n, x, advertise, incarnation);
      GreetedKillsNobody(n, x, advertise, incarnation, id);
      GreetedTouches(n, x, advertise, incarnation);
      TouchKeepsInv(n, n1, x);
      var n2 := n1.Send(DeltaMsg(x, ViewOf(n1.tab.members)));
      DoubtsCarryOver(n1, n2);
      IfChangedSpares(n, n2, id);
      KillThenSpare(n, n2, IfChanged(n, n2), id);
    }
  }

  lemma OnPeerDownKills(n: NodeState, now: Time, x: NodeID, disposition: Disposition, id: NodeID)
    requires Inv(n) && n.Keyed() && id != n.cfg.self
    ensures Kills(n, OnPeerDown(n, now, x, disposition), id)
  {
    hide IfChanged, MarkDead, Doubt;
    if x != NO_NODE && x != n.cfg.self {
      var n1 := n.(attached := n.attached - {x});
      DoubtsCarryOver(n, n1);
      MarkDeadKills(n1, x, id);
      DoubtSpares(n1, now, x, false, id);
      MarkDeadKeeps(n1, x);
      DoubtKeeps(n1, now, x, false);
      var n2 := if disposition.LinkLost? then Doubt(n1, now, x, false) else MarkDead(n1, x);
      IfChangedSpares(n, n2, id);
      KillThenSpare(n, n2, IfChanged(n, n2), id);
    }
  }

  lemma OnDeathKills(n: NodeState, x: NodeID, id: NodeID)
    requires Inv(n) && n.Keyed() && id != n.cfg.self && x != n.cfg.self && x != NO_NODE
    ensures Kills(n, OnDeath(n, x), id)
  {
    hide IfChanged, MarkDead;
    MarkDeadKills(n, x, id);
    MarkDeadKeeps(n, x);
    IfChangedSpares(n, MarkDead(n, x), id);
    KillThenSpare(n, MarkDead(n, x), OnDeath(n, x), id);
  }

  lemma OnJoinAckSpares(n: NodeState, from: NodeID, number: nat, accepted: bool, named: NodeID, id: NodeID)
    requires Inv(n) && n.Keyed() && id != n.cfg.self
    ensures Spares(n, OnJoinAck(n, from, number, accepted, named), id)
  {
    hide Evaluate;
    var detached := n.(joinID := 0, leader := NO_NODE);
    EvaluateSpares(detached, id);
    EvaluateSpares(detached.(hint := named, rejections := n.rejections + 1), id);
  }

  lemma OnHeartbeatKillsNobody(n: NodeState, from: NodeID, term: nat, id: NodeID)
    requires Inv(n) && n.Keyed() && id != n.cfg.self
    ensures Kills(n, OnHeartbeat(n, from, term), id)
  {
    hide BeatResumed;
    var n1 := n.(term := term, sinceBeat := if from == n.leader && !n.Leads() then 0 else n.sinceBeat);
    DoubtsCarryOver(n, n1);
    BeatResumedKillsNobody(n1, from, id);
  }

  lemma BeatResumedKillsNobody(n: NodeState, from: NodeID, id: NodeID)
    requires Inv(n) && n.Keyed() && id != n.cfg.self
    ensures Kills(n, BeatResumed(n, from), id)
  {
    hide IfChanged;
    if from in n.suspects && n.suspects[from].silent {
      var n1 := n.(suspects := n.suspects - {from}).Apply(Revived(n.tab.members, from, n.suspects[from].incarnation));
      assert DoubtIsCurrent(n, from) && OnlyTouches(n, n1, from);
      TouchKeepsInv(n, n1, from);
      IfChangedSpares(n, n1, id);
      KillThenSpare(n, n1, IfChanged(n, n1), id);
    }
  }

  lemma OnProbeRoundKills(n: NodeState, now: Time, round: nat, results: map<NodeID, ProbeResult>, selfScore: Score,
                          id: NodeID)
    requires Inv(n) && n.Keyed() && n.cfg.self !in results && id != n.cfg.self
    ensures Kills(n, OnProbeRound(n, now, round, results, selfScore), id)
  {
    hide TakeResults, TakeSelfScore, Evaluate, IdList;
    var n1, ids := n.(probing := false, rejections := 0), IdList(results.Keys);
    DoubtsCarryOver(n, n1);
    TakeResultsKeeps(n1, now, round, n.tab.members, ids, results);
    TakeResultsKill(n1, now, round, n.tab.members, ids, results, id);
    var n2, n3 := TakeResults(n1, now, round, n.tab.members, ids, results), ProbeResultsTaken(n, now, round, results);
    PrunedKeeps(n2);
    var n4 := TakeSelfScore(n3, selfScore);
    TakeSelfScoreKeeps(n3, selfScore);
    TakeSelfScoreFacts(n3, selfScore);
    KillThenSpare(n, n2, n3, id);
    KillThenSpare(n, n3, n4, id);
    EvaluateSpares(n4, id);
    KillThenSpare(n, n4, Evaluate(n4), id);
  }

  lemma OnControlTickKills(n: NodeState, now: Time, id: NodeID)
    requires Inv(n) && n.Keyed() && id != n.cfg.self
    ensures Kills(n, OnControlTick(n, now), id)
  {
    hide ExpireSuspicions, IfChanged, SweepTombstones, CheckLeaderSilence, IdList;
    ExpireSuspicionsKeeps(n, now);
    ExpireSuspicionsKills(n, now, id);
    var n1 := ExpireSuspicions(n, now);
    IfChangedKeeps(n, n1);
    IfChangedKeepsStanding(n, n1);
    IfChangedSpares(n, n1, id);
    var n2 := IfChanged(n, n1);
    KillThenSpare(n, n1, n2, id);
    SweepKeeps(n2, now);
    SweepSpares(n2, now, id);
    var n3 := SweepTombstones(n2, now);
    KillThenSpare(n, n2, n3, id);
    if !n3.Leads() && n3.leader != NO_NODE {
      CheckLeaderSilenceSpares(n3, now, id);
      KillThenSpare(n, n3, CheckLeaderSilence(n3, now), id);
    }
  }

  lemma ExpireSuspicionsKills(n: NodeState, now: Time, id: NodeID)
    requires Inv(n) && n.Keyed()
    ensures Kills(n, ExpireSuspicions(n, now), id)
  {
    hide ExpireAll, IdList;
    ExpireAllKills(n, now, IdList(n.suspects.Keys), id);
  }

  lemma SweepSpares(n: NodeState, now: Time, id: NodeID)
    ensures Spares(n, SweepTombstones(n, now), id)
  {
    hide Reconciled;
  }

  lemma CheckLeaderSilenceSpares(n: NodeState, now: Time, id: NodeID)
    requires Inv(n) && n.Keyed() && !n.Leads() && n.leader != NO_NODE && id != n.cfg.self
    ensures Spares(n, CheckLeaderSilence(n, now), id)
  {
    hide Doubt, MembershipChanged;
    if n.sinceBeat + 1 >= n.cfg.heartbeatMisses {
      var n1 := n.(sinceBeat := 0);
      DoubtsCarryOver(n, n1);
      DoubtSpares(n1, now, n.leader, true, id);
      DoubtKeeps(n1, now, n.leader, true);
      var n2 := Doubt(n1, now, n.leader, true);
      DoubtsCarryOver(n2, n2.(leader := NO_NODE));
      MembershipChangedSpares(n2.(leader := NO_NODE), id);
      SpareTwice(n, n2.(leader := NO_NODE), CheckLeaderSilence(n, now), id);
    }
  }

  lemma OnTuneSpares(n: NodeState, threshold: Option<real>, hysteresis: Option<real>, id: NodeID)
    requires Inv(n) && n.Keyed() && id != n.cfg.self
    ensures Spares(n, OnTune(n, threshold, hysteresis), id)
  {
    hide Evaluate;
    EvaluateSpares(Tuned(n, threshold, hysteresis), id);
  }

  lemma QuietStepsSpare(n: NodeState, now: Time, e: Event, id: NodeID)
    requires n.Keyed() && (e.JoinCluster? || e.HeartbeatAck? || e.StateSync? || e.ProbeTick?)
    ensures Spares(n, Step(n, now, e), id)
  {
    hide Step;
    QuietStepFacts(n, now, e);
  }

  /** Rumours aside, an event that makes another member dead does it by one incarnation and leaves no doubt of it. */
  lemma StepKills(n: NodeState, now: Time, e: Event, id: NodeID)
    requires Inv(n) && n.Keyed() && Plausible(n, e) && !e.Delta? && id != n.cfg.self
    ensures Kills(n, Step(n, now, e), id)
  {
    hide OnPeerUp, OnPeerDown, OnJoinAck, OnDeath, OnHeartbeat, OnProbeRound, OnControlTick, OnTune, Evaluate, ViewOf,
         Inv, Kills, Spares;
    match e
    case PeerUp(x, advertise, incarnation) => OnPeerUpKillsNobody(n, x, advertise, incarnation, id);
    case PeerDown(x, disposition) => OnPeerDownKills(n, now, x, disposition, id);
    case JoinAck(from, number, accepted, named) =>
      OnJoinAckSpares(n, from, number, accepted, named, id);
      SparingKillsNobody(n, Step(n, now, e), id);
    case Leave(from) => OnDeathKills(n, from, id);
    case Malformed(from) => OnDeathKills(n, from, id);
    case Heartbeat(from, term) => OnHeartbeatKillsNobody(n, from, term, id);
    case ProbeRound(round, results, selfScore) => OnProbeRoundKills(n, now, round, results, selfScore, id);
    case FloorTick =>
      InvOwns(n);
      EvaluateSpares(n, id);
      SparingKillsNobody(n, Step(n, now, e), id);
    case GossipTick(to) => SentKillsNobody(n, DeltaMsg(to, ViewOf(n.tab.members)), id);
    case ControlTick => OnControlTickKills(n, now, id);
    case Tune(threshold, hysteresis) =>
      OnTuneSpares(n, threshold, hysteresis, id);
      SparingKillsNobody(n, Step(n, now, e), id);
    case _ =>
      QuietStepsSpare(n, now, e, id);
      SparingKillsNobody(n, Step(n, now, e), id);
  }

  lemma SentKillsNobody(n: NodeState, m: Message, id: NodeID)
    ensures Kills(n, n.Send(m), id)
  {
  }

  // ---------------------------------------------------------------------------
  // Over runs of the whole system
  // ---------------------------------------------------------------------------

  /** In step i the node `p`, by its own evidence and not by a rumour, turned its record of `m` into a death. */
  ghost predicate DiesFirstHand(states: seq<System>, actions: seq<Action>, i: nat, p: NodeID, m: NodeID)
    requires i < |actions| && |states| == |actions| + 1
  {
    && actions[i].at == p && !actions[i].event.Delta? && p != m
    && p in states[i] && m in states[i] && m in states[i][p].tab.members && !states[i][p].tab.members[m].state.Dead?
    && p in states[i + 1] && m in states[i + 1] && m in states[i + 1][p].tab.members
    && states[i + 1][p].tab.members[m].state.Dead?
  }

  /** `p` has not collected its record of `m` in any state from i to j. */
  ghost predicate Uncollected(states: seq<System>, i: nat, j: nat, p: NodeID, m: NodeID)
    requires j < |states|
  {
    forall k :: i <= k <= j ==> p in states[k] && m in states[k] && m in states[k][p].tab.members
  }

  lemma FirstHandDeath(states: seq<System>, actions: seq<Action>, i: nat, p: NodeID, m: NodeID)
    requires IsSystemRun(states, actions) && i < |actions| && DiesFirstHand(states, actions, i, p, m)
    ensures states[i + 1][p].tab.members[m].incarnation == NextIncarnation(states[i][p].tab.members[m].incarnation)
    ensures m !in states[i + 1][p].suspects
  {
    hide IsSystemRun, Step;
    RunLengths(states, actions);
    RunMoves(states, actions, i + 1);
    assert NodeHolds(states[i], p);
    StepKills(states[i][p], actions[i].now, actions[i].event, m);
  }

  /**
   * A first-hand death stays until it is collected as long as the member is at most one incarnation past the record it
   * was made from, and its handshakes are below the int64 ceiling.
   */
  lemma FirstHandDeathStays(states: seq<System>, actions: seq<Action>, i: nat, j: nat, p: NodeID, m: NodeID)
    requires IsSystemRun(states, actions) && i < j < |states| && p in states[0] && m in states[0]
    requires DiesFirstHand(states, actions, i, p, m) && Uncollected(states, i + 1, j, p, m)
    requires states[j][m].incarnation <= states[i][p].tab.members[m].incarnation + 1
    requires states[0][m].cfg.handshake < MAX_INT64
    ensures states[j][p].tab.members[m].state.Dead?
  {
    hide IsSystemRun, Moves;
    RunLengths(states, actions);
    FirstHandDeath(states, actions, i, p, m);
    RecordIsBounded(states, actions, i, p, m);
    SameHandshake(states, actions, 0, i, m);
    SameHandshake(states, actions, 0, i + 1, m);
    OwnGrows(states, actions, i, j, m);
    assert HoldsOut(states[i + 1], p, m, states[j][m].incarnation);
    DeathIsPermanent(states, actions, i + 1, j, p, m);
  }

  /**
   * So a first-hand death of a member that never refutes stays, at every node and in every run, until it is collected:
   * if the member read its own incarnation at most one after that of its handshakes, and that is below the int64
   * ceiling.
   */
  lemma DeathOfTheSilentStays(states: seq<System>, actions: seq<Action>, i: nat, j: nat, p: NodeID, m: NodeID)
    requires IsSystemRun(states, actions) && i < j < |states| && p in states[0] && m in states[0]
    requires DiesFirstHand(states, actions, i, p, m) && Uncollected(states, i + 1, j, p, m)
    requires states[j][m].incarnation == states[0][m].incarnation
    requires states[0][m].incarnation <= states[0][m].cfg.handshake + 1 && states[0][m].cfg.handshake < MAX_INT64
    ensures states[j][p].tab.members[m].state.Dead?
  {
    hide IsSystemRun, DiesFirstHand;
    RunLengths(states, actions);
    DiesSomewhere(states, actions, i, p, m);
    RecordIsBounded(states, actions, i, p, m);
    SameHandshake(states, actions, 0, i, m);
    FirstHandDeathStays(states, actions, i, j, p, m);
  }

  lemma DiesSomewhere(states: seq<System>, actions: seq<Action>, i: nat, p: NodeID, m: NodeID)
    requires i < |actions| && |states| == |actions| + 1 && DiesFirstHand(states, actions, i, p, m)
    ensures p in states[i] && m in states[i] && m in states[i][p].tab.members
  {
  }
}
