// A node's place always reflects its table: the leaders it goes by are those it would elect now, and it keeps
// measurements of the living alone.

module Current {
  import opened Health
  import opened Membership
  import opened Sorting
  import opened Election
  import opened ElectionProperties
  import opened ElectionFixedPoint
  import opened Electors
  import opened Affinity
  import opened NodeModel
  import opened NodeInvariant
  import opened NodeRuns
  import opened Tombstones
  import opened Effects
  import opened Options

  // ---------------------------------------------------------------------------
  // What an election does not depend on
  // ---------------------------------------------------------------------------

  predicate SameScores(ms: seq<Member>, a: Scores, b: Scores) {
    forall m <- ms :: ScoreOf(a, m.id) == ScoreOf(b, m.id)
  }

  lemma {:induction false} SameInsertion(a: Scores, b: Scores, x: Member, s: seq<Member>)
    requires SameScores([x] + s, a, b)
    ensures Insert(Rank(a), x, s) == Insert(Rank(b), x, s)
  {
    assert x in [x] + s && forall m <- s :: m in [x] + s;
    if s != [] {
      assert s[0] in s;
      assert forall m <- [x] + s[1..] :: m in [x] + s;
      SameInsertion(a, b, x, s[1..]);
    }
  }

  lemma {:induction false} SameRanking(a: Scores, b: Scores, s: seq<Member>)
    requires SameScores(s, a, b)
    ensures SortBy(Rank(a), s) == SortBy(Rank(b), s)
  {
    if s != [] {
      assert forall m <- s[1..] :: m in s;
      SameRanking(a, b, s[1..]);
      SortKeeps(Rank(a), s[1..]);
      assert forall m <- [s[0]] + SortBy(Rank(a), s[1..]) :: m in s;
      SameInsertion(a, b, s[0], SortBy(Rank(a), s[1..]));
    }
  }

  lemma {:induction false} SameKept(p: Member -> bool, q: Member -> bool, s: seq<Member>)
    requires forall m <- s :: p(m) == q(m)
    ensures Keep(p, s) == Keep(q, s)
  {
    if s != [] {
      var front, last := s[..|s| - 1], s[|s| - 1];
      assert s == front + [last];
      assert forall m <- front :: m in s;
      SameKept(p, q, front);
      KeepSnoc(p, front, last);
      KeepSnoc(q, front, last);
    }
  }

  lemma {:induction false} SameWeakest(a: Scores, b: Scores, seats: seq<Member>)
    requires SameScores(seats, a, b)
    ensures Weakest(a, seats) == Weakest(b, seats)
  {
    if seats != [] {
      assert forall m <- seats[..|seats| - 1] :: m in seats;
      SameWeakest(a, b, seats[..|seats| - 1]);
    }
  }

  lemma {:induction false} SameHold(a: Scores, b: Scores, margin: real, seats: seq<Member>, displaced: seq<Member>)
    requires SameScores(seats, a, b) && SameScores(displaced, a, b)
    ensures Hold(a, margin, seats, displaced) == Hold(b, margin, seats, displaced)
    decreases |displaced|
  {
    if displaced != [] {
      SameWeakest(a, b, seats);
      var w := Weakest(a, seats);
      assert displaced[0] in displaced && forall m <- displaced[1..] :: m in displaced;
      if w != -1 {
        assert seats[w] in seats;
        var seats' := seats[w := displaced[0]];
        forall m <- seats' ensures ScoreOf(a, m.id) == ScoreOf(b, m.id) {
          assert m in seats || m == displaced[0];
        }
        SameHold(a, b, margin, seats, displaced[1..]);
        SameHold(a, b, margin, seats', displaced[1..]);
      }
    }
  }

  /** Nor on scores of anybody not in the view. */
  lemma SameScoresSameLeaders(view: seq<Member>, a: Scores, b: Scores, cfg: Config)
    requires SameScores(view, a, b)
    ensures Elected(view, a, cfg) == Elected(view, b, cfg)
  {
    hide Hold, SortBy, Keep, RankLess;
    var electorate := Keep(InElectorate, view);
    KeepMembers(InElectorate, view);
    SameRanking(a, b, electorate);
    var ranked := Ranked(view, a);
    SortKeeps(Rank(a), electorate);
    SameKept(Measurable(a), Measurable(b), ranked);
    var eligible := Eligible(view, a);
    KeepMembers(Measurable(a), ranked);
    var top := TopRanked(view, a, cfg);
    assert forall m <- top :: m in eligible;
    SameKept(LostSeat(a, top), LostSeat(b, top), eligible);
    KeepMembers(LostSeat(a, top), eligible);
    var displaced := Displaced(a, top, eligible);
    SortKeeps(IdLess, Keep(LostSeat(a, top), eligible));
    SameHold(a, b, cfg.WithDefaults().hysteresis, top, displaced);
  }

  /** Collecting records of the dead changes no election. */
  lemma DeadDoNotMatter(t: Members, gone: set<NodeID>, cfg: Config)
    requires WellKeyed(t) && forall id <- gone :: id in t && t[id].state == Dead
    ensures WellKeyed(t - gone)
    ensures Elected(ViewOf(t - gone), ReportedScores(t - gone), cfg) == Elected(ViewOf(t), ReportedScores(t), cfg)
  {
    hide Elected, Keep;
    var left, stays := t - gone, (m: Member) => m.id !in gone;
    var view := ViewOf(t);
    OutsidersDoNotMatter(view, ReportedScores(t), cfg, stays);
    KeepMembers(stays, view);
    KeepAscends(IdLess, stays, view);
    ViewIsUnique(Keep(stays, view), left);
    SameScoresSameLeaders(ViewOf(left), ReportedScores(left), ReportedScores(t), cfg);
  }

  // ---------------------------------------------------------------------------
  // The leaders a node goes by
  // ---------------------------------------------------------------------------

  /** The node goes by the leaders it would elect from its table as it is. */
  ghost predicate IsCurrent(n: NodeState) {
    n.Keyed() && n.leaders == ElectionOf(n).leaders
  }

  /** Not evaluated yet: leaders and settings are those of before, and an unmoved version is an unmoved table. */
  predicate Unevaluated(n: NodeState, n': NodeState) {
    && n'.leaders == n.leaders && n'.election == n.election
    && (n'.tab.version == n.tab.version ==> n'.tab == n.tab)
  }

  lemma SameTableSameLeaders(n: NodeState, n': NodeState)
    requires IsCurrent(n) && n'.leaders == n.leaders && n'.election == n.election && n'.tab.members == n.tab.members
    requires n'.Keyed()
    ensures IsCurrent(n')
  {
    hide Elected, ViewOf, ReportedScores;
  }

  lemma EvaluatedIsCurrent(n: NodeState)
    requires OwnsItself(n)
    ensures IsCurrent(Evaluate(n))
  {
    hide Evaluate, ElectionOf;
    EvaluateFacts(n);
    SecondElection(n, Evaluate(n));
  }

  lemma ChangedIsCurrent(n: NodeState)
    requires OwnsItself(n)
    ensures IsCurrent(MembershipChanged(n))
  {
    hide Evaluate, ElectionOf;
    EvaluatedIsCurrent(Pruned(n));
  }

  lemma IfChangedIsCurrent(before: NodeState, n: NodeState)
    requires IsCurrent(before) && OwnsItself(n) && Unevaluated(before, n)
    ensures IsCurrent(IfChanged(before, n))
  {
    hide MembershipChanged, ElectionOf;
    if n.tab.version != before.tab.version {
      ChangedIsCurrent(n);
    } else {
      SameTableSameLeaders(before, n);
    }
  }

  lemma MarkDeadIsUnevaluated(n: NodeState, id: NodeID)
    ensures Unevaluated(n, MarkDead(n, id))
  {
  }

  lemma DoubtIsUnevaluated(n: NodeState, now: Time, id: NodeID, silent: bool)
    ensures Unevaluated(n, Doubt(n, now, id, silent))
  {
  }

  lemma GreetedIsUnevaluated(n: NodeState, id: NodeID, advertise: NodeAddress, incarnation: int64)
    requires n.Keyed()
    ensures Unevaluated(n, Greeted(n, id, advertise, incarnation))
  {
    hide Greeted;
    GreetedIsSteady(n, id, advertise, incarnation);
    GreetedIsQuiet(n, id, advertise, incarnation);
  }

  lemma GreetedIsQuiet(n: NodeState, id: NodeID, advertise: NodeAddress, incarnation: int64)
    ensures var n' := Greeted(n, id, advertise, incarnation); n'.leaders == n.leaders && n'.election == n.election
  {
  }

  lemma OnPeerUpIsCurrent(n: NodeState, id: NodeID, advertise: NodeAddress, incarnation: int64)
    requires Inv(n) && IsCurrent(n)
    ensures IsCurrent(OnPeerUp(n, id, advertise, incarnation))
  {
    hide IfChanged, Greeted, ViewOf, IsCurrent;
    if id != NO_NODE && id != n.cfg.self {
      var n1 := Greeted(n, id, advertise, incarnation);
      GreetedTouches(n, id, advertise, incarnation);
      TouchKeepsInv(n, n1, id);
      GreetedIsUnevaluated(n, id, advertise, incarnation);
      IfChangedIsCurrent(n, n1.Send(DeltaMsg(id, ViewOf(n1.tab.members))));
    }
  }

  lemma OnPeerDownIsCurrent(n: NodeState, now: Time, id: NodeID, disposition: Disposition)
    requires Inv(n) && IsCurrent(n)
    ensures IsCurrent(OnPeerDown(n, now, id, disposition))
  {
    hide IfChanged, MarkDead, Doubt, IsCurrent;
    if id != NO_NODE && id != n.cfg.self {
      var n1 := n.(attached := n.attached - {id});
      DoubtsCarryOver(n, n1);
      DoubtKeeps(n1, now, id, false);
      DoubtIsUnevaluated(n1, now, id, false);
      MarkDeadKeeps(n1, id);
      MarkDeadIsUnevaluated(n1, id);
      IfChangedIsCurrent(n, if disposition.LinkLost? then Doubt(n1, now, id, false) else MarkDead(n1, id));
    }
  }

  lemma OnDeathIsCurrent(n: NodeState, id: NodeID)
    requires Inv(n) && IsCurrent(n) && id != n.cfg.self && id != NO_NODE
    ensures IsCurrent(OnDeath(n, id))
  {
    hide IfChanged, MarkDead, IsCurrent;
    MarkDeadKeeps(n, id);
    MarkDeadIsUnevaluated(n, id);
    IfChangedIsCurrent(n, MarkDead(n, id));
  }

  /** What the node claims of itself, no rumour changes. */
  lemma {:induction false} TakeRecordsKeepClaim(n: NodeState, before: Members, from: NodeID, records: seq<Member>)
    requires Inv(n)
    ensures var n', self := TakeRecords(n, before, from, records).0, n.cfg.self;
            && n'.leaders == n.leaders && n'.election == n.election && n'.local == n.local && n'.missed == n.missed
            && self in n'.tab.members && n'.tab.members[self].id == n.tab.members[self].id
            && n'.tab.members[self].role == n.tab.members[self].role
            && n'.tab.members[self].state == n.tab.members[self].state
            && n'.tab.members[self].score == n.tab.members[self].score
  {
    hide TakeRecord, Refute;
    if records != [] {
      var front, rec := records[..|records| - 1], records[|records| - 1];
      TakeRecordsKeepClaim(n, before, from, front);
      TakeRecordsKeeps(n, before, from, front);
      var n1 := TakeRecords(n, before, from, front).0;
      if rec.id == n.cfg.self {
        TakeOwnRecord(n1, before, from, rec);
        RefuteFacts(n1, rec);
      } else {
        TakeRecordTouches(n1, before, from, rec);
        TakeRecordIsQuiet(n1, before, from, rec);
        assert SameRecord(n1.tab.members, TakeRecord(n1, before, from, rec).tab.members, n.cfg.self);
      }
    }
  }

  lemma TakeRecordIsQuiet(n: NodeState, before: Members, from: NodeID, rec: Member)
    ensures var n' := TakeRecord(n, before, from, rec);
            n'.leaders == n.leaders && n'.election == n.election && n'.local == n.local && n'.missed == n.missed
  {
    hide Received, Upserted, Refute;
    RefuteIsQuiet(n, rec);
  }

  lemma RefuteIsQuiet(n: NodeState, rumour: Member)
    ensures var n' := Refute(n, rumour);
            n'.leaders == n.leaders && n'.election == n.election && n'.local == n.local && n'.missed == n.missed
  {
    hide Upserted;
  }

  lemma OnDeltaIsCurrent(n: NodeState, from: NodeID, records: seq<Member>)
    requires Inv(n) && IsCurrent(n)
    ensures IsCurrent(OnDelta(n, from, records))
  {
    hide TakeRecords, MembershipChanged, Elected, ViewOf, ReportedScores;
    TakeRecordsKeyed(n, n.tab.members, from, records);
    TakeRecordsKeeps(n, n.tab.members, from, records);
    var (n', changed) := TakeRecords(n, n.tab.members, from, records);
    if changed {
      ChangedIsCurrent(VoidAttachment(n', n.tab.members));
    } else {
      UnchangedByRumours(n, from, records);
      SameBallotsSameLeaders(n.tab.members, n'.tab.members, ReportedScores(n.tab.members), n.election);
    }
  }

  lemma UnchangedByRumours(n: NodeState, from: NodeID, records: seq<Member>)
    requires Inv(n) && !TakeRecords(n, n.tab.members, from, records).1
    ensures var n' := TakeRecords(n, n.tab.members, from, records).0;
            && n'.leaders == n.leaders && n'.election == n.election
            && SameBallots(n.tab.members, n'.tab.members)
            && ReportedScores(n'.tab.members) == ReportedScores(n.tab.members)
  {
    hide TakeRecords;
    var t, t' := n.tab.members, TakeRecords(n, n.tab.members, from, records).0.tab.members;
    TakeRecordsKeepClaim(n, t, from, records);
    forall id ensures id in t <==> id in t'
      ensures id in t ==> Ballot(t[id]) == Ballot(t'[id]) && t[id].score == t'[id].score {
      if id != n.cfg.self { TakeRecordsChange(n, t, from, records, id); }
    }
  }

  lemma OnJoinAckIsCurrent(n: NodeState, from: NodeID, number: nat, accepted: bool, named: NodeID)
    requires Inv(n) && IsCurrent(n)
    ensures IsCurrent(OnJoinAck(n, from, number, accepted, named))
  {
    hide Evaluate, ElectionOf;
    var n1 := n.(joinID := 0, leader := NO_NODE);
    if number != 0 && number == n.joinID && n.leader == from {
      EvaluatedIsCurrent(n1);
      EvaluatedIsCurrent(n1.(hint := named, rejections := n.rejections + 1));
      SameTableSameLeaders(n, n.(joinID := 0, hint := NO_NODE));
    }
  }

  lemma BeatResumedIsCurrent(n: NodeState, from: NodeID)
    requires Inv(n) && IsCurrent(n)
    ensures IsCurrent(BeatResumed(n, from))
  {
    hide IfChanged, ElectionOf;
    if from in n.suspects && n.suspects[from].silent {
      assert DoubtIsCurrent(n, from);
      IfChangedIsCurrent(n, n.(suspects := n.suspects - {from})
                             .Apply(Revived(n.tab.members, from, n.suspects[from].incarnation)));
    }
  }

  lemma OnHeartbeatIsCurrent(n: NodeState, from: NodeID, term: nat)
    requires Inv(n) && IsCurrent(n)
    ensures IsCurrent(OnHeartbeat(n, from, term))
  {
    hide BeatResumed, ElectionOf;
    var n1 := n.(term := term, sinceBeat := if from == n.leader && !n.Leads() then 0 else n.sinceBeat);
    if term < n.term {
      SameTableSameLeaders(n, OnHeartbeat(n, from, term));
    } else {
      SameTableSameLeaders(n, n1);
      DoubtsCarryOver(n, n1);
      BeatResumedIsCurrent(n1, from);
      BeatResumedKeeps(n1, from);
      SameTableSameLeaders(BeatResumed(n1, from), OnHeartbeat(n, from, term));
    }
  }

  lemma OnProbeRoundIsCurrent(n: NodeState, now: Time, round: nat, results: map<NodeID, ProbeResult>, selfScore: Score)
    requires Inv(n) && n.cfg.self !in results
    ensures IsCurrent(OnProbeRound(n, now, round, results, selfScore))
  {
    hide TakeResults, TakeSelfScore, Evaluate, Pruned, ElectionOf;
    var n1 := n.(probing := false, rejections := 0);
    DoubtsCarryOver(n, n1);
    TakeResultsKeeps(n1, now, round, n.tab.members, IdList(results.Keys), results);
    PrunedKeeps(TakeResults(n1, now, round, n.tab.members, IdList(results.Keys), results));
    TakeSelfScoreKeeps(ProbeResultsTaken(n, now, round, results), selfScore);
    EvaluatedIsCurrent(TakeSelfScore(ProbeResultsTaken(n, now, round, results), selfScore));
  }

  lemma {:induction false} ExpireAllIsUnevaluated(n: NodeState, now: Time, view: Members, ids: seq<NodeID>)
    ensures var n' := ExpireAll(n, now, view, ids); Unevaluated(n, n') && n.tab.version <= n'.tab.version
  {
    hide MarkDead;
    if ids != [] {
      var n1 := ExpireAll(n, now, view, ids[..|ids| - 1]);
      ExpireAllIsUnevaluated(n, now, view, ids[..|ids| - 1]);
      MarkDeadIsUnevaluated(n1, ids[|ids| - 1]);
      MarkDeadIsSteady(n1, ids[|ids| - 1]);
    }
  }

  lemma SweptIsCurrent(n: NodeState, now: Time)
    requires Inv(n) && IsCurrent(n)
    ensures IsCurrent(SweepTombstones(n, now))
  {
    hide Elected, ViewOf, ReportedScores, Reconciled;
    DeadDoNotMatter(n.tab.members, Collected(n, now), n.election);
  }

  lemma CheckLeaderSilenceIsCurrent(n: NodeState, now: Time)
    requires Inv(n) && IsCurrent(n) && !n.Leads() && n.leader != NO_NODE
    ensures IsCurrent(CheckLeaderSilence(n, now))
  {
    hide Doubt, MembershipChanged, ElectionOf;
    if n.sinceBeat + 1 < n.cfg.heartbeatMisses {
      SameTableSameLeaders(n, n.(sinceBeat := n.sinceBeat + 1));
    } else {
      DoubtsCarryOver(n, n.(sinceBeat := 0));
      DoubtKeeps(n.(sinceBeat := 0), now, n.leader, true);
      ChangedIsCurrent(Doubt(n.(sinceBeat := 0), now, n.leader, true).(leader := NO_NODE));
    }
  }

  lemma OnControlTickIsCurrent(n: NodeState, now: Time)
    requires Inv(n) && IsCurrent(n)
    ensures IsCurrent(OnControlTick(n, now))
  {
    hide ExpireAll, IfChanged, SweepTombstones, CheckLeaderSilence, IdList, IsCurrent;
    ExpireSuspicionsKeeps(n, now);
    ExpireAllIsUnevaluated(n, now, n.tab.members, IdList(n.suspects.Keys));
    var n1 := ExpireSuspicions(n, now);
    IfChangedIsCurrent(n, n1);
    IfChangedKeeps(n, n1);
    IfChangedKeepsStanding(n, n1);
    var n2 := IfChanged(n, n1);
    SweptIsCurrent(n2, now);
    SweepKeeps(n2, now);
    var n3 := SweepTombstones(n2, now);
    if n3.Leads() {
      SameTableSameLeaders(n3, n3.(sent := n3.sent + Map(Beat(n3), IdList(n3.attached))));
    } else if n3.leader != NO_NODE {
      CheckLeaderSilenceIsCurrent(n3, now);
    }
  }

  lemma OnTuneIsCurrent(n: NodeState, threshold: Option<real>, hysteresis: Option<real>)
    requires Inv(n) && IsCurrent(n)
    ensures IsCurrent(OnTune(n, threshold, hysteresis))
  {
    hide Evaluate, ElectionOf;
    EvaluatedIsCurrent(Tuned(n, threshold, hysteresis));
  }

  /** Whatever happens, a node that goes by the leaders of its table goes on doing so. */
  lemma StepIsCurrent(n: NodeState, now: Time, e: Event)
    requires Inv(n) && Plausible(n, e) && (IsCurrent(n) || e.FloorTick?)
    ensures IsCurrent(Step(n, now, e))
  {
    hide OnPeerUp, OnPeerDown, OnDelta, OnJoinAck, OnDeath, OnHeartbeat, OnHeartbeatAck, OnProbeRound, OnControlTick,
         OnTune, OnStateSync, Evaluate, ViewOf, IsCurrent;
    match e
    case PeerUp(id, advertise, incarnation) => OnPeerUpIsCurrent(n, id, advertise, incarnation);
    case PeerDown(id, disposition) => OnPeerDownIsCurrent(n, now, id, disposition);
    case Delta(from, records) => OnDeltaIsCurrent(n, from, records);
    case JoinAck(from, number, accepted, named) => OnJoinAckIsCurrent(n, from, number, accepted, named);
    case Leave(from) => OnDeathIsCurrent(n, from);
    case Malformed(from) => OnDeathIsCurrent(n, from);
    case Heartbeat(from, term) => OnHeartbeatIsCurrent(n, from, term);
    case ProbeRound(round, results, selfScore) => OnProbeRoundIsCurrent(n, now, round, results, selfScore);
    case FloorTick => EvaluatedIsCurrent(n);
    case ControlTick => OnControlTickIsCurrent(n, now);
    case Tune(threshold, hysteresis) => OnTuneIsCurrent(n, threshold, hysteresis);
    case _ =>
      hide Step;
      QuietEventsAreQuiet(n, now, e);
      SameTableSameLeaders(n, Step(n, now, e));
  }

  /** The events that move neither the table, nor the leaders, nor a measurement. */
  lemma QuietEventsAreQuiet(n: NodeState, now: Time, e: Event)
    requires n.Keyed()
    requires e.JoinCluster? || e.HeartbeatAck? || e.StateSync? || e.ProbeTick? || e.GossipTick?
    ensures var n' := Step(n, now, e);
            n' == n.(term := n'.term, attached := n'.attached, probing := n'.probing, probeSeq := n'.probeSeq,
                     sent := n'.sent)
  {
    hide OnHeartbeatAck, OnStateSync, ViewOf;
    match e
    case HeartbeatAck(from, term, observed) => OnHeartbeatAckFacts(n, from, term, observed);
    case StateSync(from, named, term) => OnStateSyncFacts(n, from, named, term);
    case _ =>
  }

  /**
   * In every run that begins, as the loop does, with an evaluation: after each event the node goes by exactly the
   * leaders its table elects, leads exactly if it is among them, and says so in its own record.
   */
  lemma {:induction false} LeadersAreCurrent(states: seq<NodeState>, inputs: seq<Input>, k: nat)
    requires IsRun(states, inputs) && 0 < k < |states| && inputs[0].event == FloorTick
    ensures states[k].Keyed() && states[k].leaders == ElectionOf(states[k]).leaders
    ensures var n, self := states[k], states[k].cfg.self;
            && (self in n.leaders <==> n.leader == self)
            && self in n.tab.members && (n.tab.members[self].role == Leader <==> self in n.leaders)
  {
    hide Step, ElectionOf;
    RunKeepsInv(states, inputs, 0, k);
    RunKeepsInv(states, inputs, 0, k - 1);
    assert Follows(states[k - 1], inputs[k - 1], states[k]);
    if k > 1 { LeadersAreCurrent(states, inputs, k - 1); }
    StepIsCurrent(states[k - 1], inputs[k - 1].now, inputs[k - 1].event);
  }

  // ---------------------------------------------------------------------------
  // What a node keeps measurements of
  // ---------------------------------------------------------------------------

  predicate IsLiving(t: Members, id: NodeID) {
    id in t && t[id].state != Dead
  }

  /** Measurements are kept of the node itself and of members not dead, and counts of misses of the latter. */
  ghost predicate MeasuresTheLiving(n: NodeState) {
    && (forall id <- n.local :: id == n.cfg.self || IsLiving(n.tab.members, id))
    && (forall id <- n.missed :: IsLiving(n.tab.members, id))
  }

  /** Nothing measured since, and an unmoved version is an unmoved table. */
  ghost predicate Unmeasured(n: NodeState, n': NodeState) {
    && n'.cfg == n.cfg && n'.local == n.local && n'.missed == n.missed
    && (n'.tab.version == n.tab.version ==> n'.tab == n.tab)
  }

  lemma EvaluatedMeasures(n: NodeState)
    requires OwnsItself(n) && MeasuresTheLiving(n)
    ensures MeasuresTheLiving(Evaluate(n))
  {
    hide Evaluate, ElectionOf;
    EvaluateFacts(n);
  }

  lemma ChangedMeasures(n: NodeState)
    requires OwnsItself(n)
    ensures MeasuresTheLiving(MembershipChanged(n))
  {
    hide Evaluate;
    EvaluatedMeasures(Pruned(n));
  }

  lemma IfChangedMeasures(before: NodeState, n: NodeState)
    requires MeasuresTheLiving(before) && OwnsItself(n) && Unmeasured(before, n)
    ensures MeasuresTheLiving(IfChanged(before, n))
  {
    hide MembershipChanged;
    if n.tab.version != before.tab.version { ChangedMeasures(n); }
  }

  lemma MarkDeadIsUnmeasured(n: NodeState, id: NodeID)
    ensures Unmeasured(n, MarkDead(n, id))
  {
  }

  lemma DoubtIsUnmeasured(n: NodeState, now: Time, id: NodeID, silent: bool)
    ensures Unmeasured(n, Doubt(n, now, id, silent))
  {
  }

  lemma GreetedIsUnmeasured(n: NodeState, id: NodeID, advertise: NodeAddress, incarnation: int64)
    requires n.Keyed()
    ensures Unmeasured(n, Greeted(n, id, advertise, incarnation))
  {
    hide Greeted;
    GreetedIsSteady(n, id, advertise, incarnation);
    GreetedMeasuresNothing(n, id, advertise, incarnation);
  }

  lemma GreetedMeasuresNothing(n: NodeState, id: NodeID, advertise: NodeAddress, incarnation: int64)
    ensures var n' := Greeted(n, id, advertise, incarnation); n'.local == n.local && n'.missed == n.missed
  {
  }

  lemma OnPeerUpMeasures(n: NodeState, id: NodeID, advertise: NodeAddress, incarnation: int64)
    requires Inv(n) && MeasuresTheLiving(n)
    ensures MeasuresTheLiving(OnPeerUp(n, id, advertise, incarnation))
  {
    hide IfChanged, Greeted, ViewOf, MeasuresTheLiving;
    if id != NO_NODE && id != n.cfg.self {
      var n1 := Greeted(n, id, advertise, incarnation);
      GreetedTouches(n, id, advertise, incarnation);
      TouchKeepsInv(n, n1, id);
      GreetedIsUnmeasured(n, id, advertise, incarnation);
      IfChangedMeasures(n, n1.Send(DeltaMsg(id, ViewOf(n1.tab.members))));
    }
  }

  lemma OnPeerDownMeasures(n: NodeState, now: Time, id: NodeID, disposition: Disposition)
    requires Inv(n) && MeasuresTheLiving(n)
    ensures MeasuresTheLiving(OnPeerDown(n, now, id, disposition))
  {
    hide IfChanged, MarkDead, Doubt, MeasuresTheLiving;
    if id != NO_NODE && id != n.cfg.self {
      var n1 := n.(attached := n.attached - {id});
      DoubtsCarryOver(n, n1);
      DoubtKeeps(n1, now, id, false);
      DoubtIsUnmeasured(n1, now, id, false);
      MarkDeadKeeps(n1, id);
      MarkDeadIsUnmeasured(n1, id);
      IfChangedMeasures(n, if disposition.LinkLost? then Doubt(n1, now, id, false) else MarkDead(n1, id));
    }
  }

  lemma OnDeathMeasures(n: NodeState, id: NodeID)
    requires Inv(n) && MeasuresTheLiving(n) && id != n.cfg.self && id != NO_NODE
    ensures MeasuresTheLiving(OnDeath(n, id))
  {
    hide IfChanged, MarkDead, MeasuresTheLiving;
    MarkDeadKeeps(n, id);
    MarkDeadIsUnmeasured(n, id);
    IfChangedMeasures(n, MarkDead(n, id));
  }

  lemma OnDeltaMeasures(n: NodeState, from: NodeID, records: seq<Member>)
    requires Inv(n) && MeasuresTheLiving(n)
    ensures MeasuresTheLiving(OnDelta(n, from, records))
  {
    hide TakeRecords, MembershipChanged;
    TakeRecordsKeyed(n, n.tab.members, from, records);
    TakeRecordsKeeps(n, n.tab.members, from, records);
    TakeRecordsKeepClaim(n, n.tab.members, from, records);
    var (n', changed) := TakeRecords(n, n.tab.members, from, records);
    if changed {
      ChangedMeasures(VoidAttachment(n', n.tab.members));
    } else {
      forall id | IsLiving(n.tab.members, id) ensures IsLiving(n'.tab.members, id) {
        if id != n.cfg.self { TakeRecordsChange(n, n.tab.members, from, records, id); }
      }
    }
  }

  lemma OnJoinAckMeasures(n: NodeState, from: NodeID, number: nat, accepted: bool, named: NodeID)
    requires Inv(n) && MeasuresTheLiving(n)
    ensures MeasuresTheLiving(OnJoinAck(n, from, number, accepted, named))
  {
    hide Evaluate;
    var n1 := n.(joinID := 0, leader := NO_NODE);
    EvaluatedMeasures(n1);
    EvaluatedMeasures(n1.(hint := named, rejections := n.rejections + 1));
  }

  lemma OnHeartbeatMeasures(n: NodeState, from: NodeID, term: nat)
    requires Inv(n) && MeasuresTheLiving(n)
    ensures MeasuresTheLiving(OnHeartbeat(n, from, term))
  {
    hide IfChanged;
    var n1 := n.(term := term, sinceBeat := if from == n.leader && !n.Leads() then 0 else n.sinceBeat);
    if from in n.suspects {
      assert DoubtIsCurrent(n, from);
      IfChangedMeasures(n1, n1.(suspects := n.suspects - {from})
                              .Apply(Revived(n.tab.members, from, n.suspects[from].incarnation)));
    }
  }

  lemma TakeResultMeasures(n: NodeState, now: Time, round: nat, view: Members, id: NodeID, result: ProbeResult)
    ensures var n' := TakeResult(n, now, round, view, id, result);
            && (forall x <- n'.local :: x in n.local || IsLiving(view, x))
            && (forall x <- n'.missed :: x in n.missed || IsLiving(view, x))
  {
    hide ProbeMissed, ProbeClears;
    ProbeMissedMeasures(n, now, id);
    if result.Scored? {
      var next := n.(local := n.local[id := result.score], missed := n.missed[id := 0]);
      ProbeClearsMeasuresNothing(next, id, round, if id in view then view[id].incarnation else 0);
    }
  }

  lemma ProbeMissedMeasures(n: NodeState, now: Time, id: NodeID)
    ensures var n' := ProbeMissed(n, now, id);
            (forall x <- n'.local :: x in n.local || x == id) && forall x <- n'.missed :: x in n.missed || x == id
  {
    hide MarkDead, Doubt;
    var misses := (if id in n.missed then n.missed[id] else 0) + 1;
    var next := n.(local := n.local[id := Unavailable], missed := n.missed[id := misses]);
    MarkDeadIsUnmeasured(next, id);
    DoubtIsUnmeasured(next, now, id, false);
  }

  lemma ProbeClearsMeasuresNothing(n: NodeState, id: NodeID, round: nat, incarnation: int64)
    ensures var n' := ProbeClears(n, id, round, incarnation); n'.local == n.local && n'.missed == n.missed
  {
  }

  lemma {:induction false} TakeResultsMeasure(n: NodeState, now: Time, round: nat, view: Members, ids: seq<NodeID>,
                                              results: map<NodeID, ProbeResult>)
    requires forall id <- ids :: id in results
    ensures var n' := TakeResults(n, now, round, view, ids, results);
            && (forall x <- n'.local :: x in n.local || IsLiving(view, x))
            && (forall x <- n'.missed :: x in n.missed || IsLiving(view, x))
  {
    hide TakeResult, IsLiving;
    if ids != [] {
      var front, id := ids[..|ids| - 1], ids[|ids| - 1];
      TakeResultsMeasure(n, now, round, view, front, results);
      TakeResultMeasures(TakeResults(n, now, round, view, front, results), now, round, view, id, results[id]);
    }
  }

  lemma ResultsTakenMeasure(n: NodeState, now: Time, round: nat, results: map<NodeID, ProbeResult>)
    requires Inv(n) && MeasuresTheLiving(n) && n.cfg.self !in results
    ensures var n' := ProbeResultsTaken(n, now, round, results);
            MeasuresTheLiving(n') && Inv(n') && n'.cfg == n.cfg
  {
    hide TakeResults;
    var n1, ids := n.(probing := false, rejections := 0), IdList(results.Keys);
    DoubtsCarryOver(n, n1);
    TakeResultsKeeps(n1, now, round, n.tab.members, ids, results);
    TakeResultsMeasure(n1, now, round, n.tab.members, ids, results);
    TakeResultsAreSteady(n1, now, round, n.tab.members, ids, results);
    PrunedKeeps(TakeResults(n1, now, round, n.tab.members, ids, results));
  }

  lemma SelfScoreMeasures(n: NodeState, next: Score)
    requires OwnsItself(n) && MeasuresTheLiving(n)
    ensures MeasuresTheLiving(TakeSelfScore(n, next))
  {
    hide TakeSelfScore;
    TakeSelfScoreFacts(n, next);
    OnlyTheOwnMeasure(n, next);
    forall id | IsLiving(n.tab.members, id) ensures IsLiving(TakeSelfScore(n, next).tab.members, id) {
      assert id in TakeSelfScore(n, next).tab.members.Keys;
    }
  }

  lemma OnlyTheOwnMeasure(n: NodeState, next: Score)
    ensures forall id <- TakeSelfScore(n, next).local :: id == n.cfg.self || id in n.local
  {
  }

  lemma OnProbeRoundMeasures(n: NodeState, now: Time, round: nat, results: map<NodeID, ProbeResult>, selfScore: Score)
    requires Inv(n) && MeasuresTheLiving(n) && n.cfg.self !in results
    ensures MeasuresTheLiving(OnProbeRound(n, now, round, results, selfScore))
  {
    hide ProbeResultsTaken, TakeSelfScore, Evaluate, MeasuresTheLiving;
    ResultsTakenMeasure(n, now, round, results);
    var n1 := ProbeResultsTaken(n, now, round, results);
    SelfScoreMeasures(n1, selfScore);
    TakeSelfScoreKeeps(n1, selfScore);
    EvaluatedMeasures(TakeSelfScore(n1, selfScore));
  }

  lemma {:induction false} ExpireAllIsUnmeasured(n: NodeState, now: Time, view: Members, ids: seq<NodeID>)
    ensures var n' := ExpireAll(n, now, view, ids); Unmeasured(n, n') && n.tab.version <= n'.tab.version
  {
    hide MarkDead;
    if ids != [] {
      var n1 := ExpireAll(n, now, view, ids[..|ids| - 1]);
      ExpireAllIsUnmeasured(n, now, view, ids[..|ids| - 1]);
      MarkDeadIsUnmeasured(n1, ids[|ids| - 1]);
      MarkDeadIsSteady(n1, ids[|ids| - 1]);
    }
  }

  lemma SweptMeasures(n: NodeState, now: Time)
    requires MeasuresTheLiving(n)
    ensures MeasuresTheLiving(SweepTombstones(n, now))
  {
    hide Reconciled;
  }

  lemma OnControlTickMeasures(n: NodeState, now: Time)
    requires Inv(n) && MeasuresTheLiving(n)
    ensures MeasuresTheLiving(OnControlTick(n, now))
  {
    hide ExpireAll, IfChanged, SweepTombstones, MembershipChanged, Doubt, IdList;
    ExpireSuspicionsKeeps(n, now);
    ExpireAllIsUnmeasured(n, now, n.tab.members, IdList(n.suspects.Keys));
    var n1 := ExpireSuspicions(n, now);
    IfChangedMeasures(n, n1);
    IfChangedKeeps(n, n1);
    IfChangedKeepsStanding(n, n1);
    var n2 := IfChanged(n, n1);
    SweptMeasures(n2, now);
    SweepKeeps(n2, now);
    var n3 := SweepTombstones(n2, now);
    if !n3.Leads() && n3.leader != NO_NODE && n3.sinceBeat + 1 >= n3.cfg.heartbeatMisses {
      DoubtsCarryOver(n3, n3.(sinceBeat := 0));
      DoubtKeeps(n3.(sinceBeat := 0), now, n3.leader, true);
      ChangedMeasures(Doubt(n3.(sinceBeat := 0), now, n3.leader, true).(leader := NO_NODE));
    }
  }

  lemma StepMeasures(n: NodeState, now: Time, e: Event)
    requires Inv(n) && Plausible(n, e) && MeasuresTheLiving(n)
    ensures MeasuresTheLiving(Step(n, now, e))
  {
    hide OnPeerUp, OnPeerDown, OnDelta, OnJoinAck, OnDeath, OnHeartbeat, OnHeartbeatAck, OnProbeRound, OnControlTick,
         OnTune, OnStateSync, Evaluate, ViewOf, MeasuresTheLiving;
    match e
    case PeerUp(id, advertise, incarnation) => OnPeerUpMeasures(n, id, advertise, incarnation);
    case PeerDown(id, disposition) => OnPeerDownMeasures(n, now, id, disposition);
    case Delta(from, records) => OnDeltaMeasures(n, from, records);
    case JoinAck(from, number, accepted, named) => OnJoinAckMeasures(n, from, number, accepted, named);
    case Leave(from) => OnDeathMeasures(n, from);
    case Malformed(from) => OnDeathMeasures(n, from);
    case Heartbeat(from, term) => OnHeartbeatMeasures(n, from, term);
    case ProbeRound(round, results, selfScore) => OnProbeRoundMeasures(n, now, round, results, selfScore);
    case FloorTick => EvaluatedMeasures(n);
    case ControlTick => OnControlTickMeasures(n, now);
    case Tune(threshold, hysteresis) => OnTuneMeasures(n, threshold, hysteresis);
    case _ =>
      hide Step;
      QuietEventsAreQuiet(n, now, e);
      SameMeasures(n, Step(n, now, e));
  }

  lemma SameMeasures(n: NodeState, n': NodeState)
    requires MeasuresTheLiving(n) && n'.cfg == n.cfg && n'.tab == n.tab && n'.local == n.local && n'.missed == n.missed
    ensures MeasuresTheLiving(n')
  {
  }

  lemma OnTuneMeasures(n: NodeState, threshold: Option<real>, hysteresis: Option<real>)
    requires Inv(n) && MeasuresTheLiving(n)
    ensures MeasuresTheLiving(OnTune(n, threshold, hysteresis))
  {
    hide Evaluate;
    EvaluatedMeasures(Tuned(n, threshold, hysteresis));
  }

  /** In every run a node keeps no measurement, and no count of misses, of a peer that is dead or gone. */
  lemma {:induction false} OnlyTheLivingAreMeasured(states: seq<NodeState>, inputs: seq<Input>, k: nat)
    requires IsRun(states, inputs) && k < |states|
    ensures MeasuresTheLiving(states[k])
  {
    hide Step;
    if k > 0 {
      OnlyTheLivingAreMeasured(states, inputs, k - 1);
      RunKeepsInv(states, inputs, 0, k - 1);
      assert Follows(states[k - 1], inputs[k - 1], states[k]);
      StepMeasures(states[k - 1], inputs[k - 1].now, inputs[k - 1].event);
    }
  }
}
