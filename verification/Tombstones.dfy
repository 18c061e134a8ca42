// Death records: each is kept from the tick that first sees it until one the configured time later, and no longer.

module Tombstones {
  import opened Health
  import opened Membership
  import opened Sorting
  import opened Election
  import opened Affinity
  import opened NodeModel
  import opened NodeInvariant
  import opened NodeRuns
  import opened Attachment
  import opened Ceilings
  import opened Options

  /** The record of another member's death. */
  predicate IsDeadRecord(n: NodeState, id: NodeID) {
    id in n.tab.members && id != n.cfg.self && n.tab.members[id].state == Dead
  }

  predicate IsThisDeath(n: NodeState, id: NodeID, incarnation: int64) {
    IsDeadRecord(n, id) && n.tab.members[id].incarnation == incarnation
  }

  predicate IsTimed(n: NodeState, id: NodeID) {
    id in n.tab.members && id in n.tombstones && n.tombstones[id].incarnation == n.tab.members[id].incarnation
  }

  /** Unless the table has moved since the last tick, exactly the death records are timed. */
  ghost predicate TombsCurrent(n: NodeState) {
    && n.tombVersion <= n.tab.version
    && (n.tombVersion == n.tab.version ==>
          && (forall id | IsDeadRecord(n, id) :: IsTimed(n, id))
          && (forall id <- n.tombstones :: IsDeadRecord(n, id) && IsTimed(n, id)))
  }

  /** The bookkeeping is left alone, and the version tells whether the table has moved. */
  ghost predicate Steady(n: NodeState, n': NodeState) {
    && n'.cfg == n.cfg && n'.tombstones == n.tombstones && n'.tombVersion == n.tombVersion
    && n.tab.version <= n'.tab.version && (n'.tab.version == n.tab.version ==> n'.tab == n.tab)
  }

  // ---------------------------------------------------------------------------
  // Between ticks
  // ---------------------------------------------------------------------------

  lemma TakeRoleIsSteady(n: NodeState, elected: seq<NodeID>)
    ensures Steady(n, TakeRole(n, elected))
  {
  }

  lemma FollowIsSteady(n: NodeState, elected: seq<NodeID>)
    ensures Follow(n, elected).tab == n.tab && Steady(n, Follow(n, elected))
  {
    hide Closest, Keep, ShouldRehome;
  }

  lemma EvaluateIsSteady(n: NodeState)
    requires n.Keyed()
    ensures Steady(n, Evaluate(n))
  {
    hide ElectionOf, TakeRole, TakeLeaders, Follow;
    var elected := ElectionOf(n).leaders;
    TakeRoleIsSteady(n, elected);
    TakeLeadersFacts(TakeRole(n, elected), elected);
    FollowIsSteady(TakeLeaders(TakeRole(n, elected), elected), elected);
  }

  lemma MembershipChangedIsSteady(n: NodeState)
    requires n.Keyed()
    ensures Steady(n, MembershipChanged(n))
  {
    hide Evaluate;
    EvaluateIsSteady(Pruned(n));
  }

  lemma IfChangedIsSteady(before: NodeState, n: NodeState)
    requires n.Keyed()
    ensures Steady(n, IfChanged(before, n))
  {
    hide MembershipChanged;
    MembershipChangedIsSteady(n);
  }

  lemma MarkDeadIsSteady(n: NodeState, id: NodeID)
    ensures Steady(n, MarkDead(n, id))
  {
  }

  lemma DoubtIsSteady(n: NodeState, now: Time, id: NodeID, silent: bool)
    ensures Steady(n, Doubt(n, now, id, silent))
  {
  }

  lemma TakeRecordIsSteady(n: NodeState, before: Members, from: NodeID, rec: Member)
    ensures Steady(n, TakeRecord(n, before, from, rec))
  {
    hide Received, Refute;
    RefuteIsSteady(n, rec);
  }

  lemma RefuteIsSteady(n: NodeState, rumour: Member)
    ensures Steady(n, Refute(n, rumour))
  {
  }

  lemma {:induction false} TakeRecordsAreSteady(n: NodeState, before: Members, from: NodeID, records: seq<Member>)
    ensures Steady(n, TakeRecords(n, before, from, records).0)
  {
    hide TakeRecord;
    if records != [] {
      var front, rec := records[..|records| - 1], records[|records| - 1];
      TakeRecordsAreSteady(n, before, from, front);
      TakeRecordIsSteady(TakeRecords(n, before, from, front).0, before, from, rec);
    }
  }

  lemma TakeResultIsSteady(n: NodeState, now: Time, round: nat, view: Members, id: NodeID, result: ProbeResult)
    ensures Steady(n, TakeResult(n, now, round, view, id, result))
  {
    hide MarkDead, Doubt;
    var misses := (if id in n.missed then n.missed[id] else 0) + 1;
    var n1 := n.(local := n.local[id := Unavailable], missed := n.missed[id := misses]);
    MarkDeadIsSteady(n1, id);
    DoubtIsSteady(n1, now, id, false);
  }

  lemma {:induction false} TakeResultsAreSteady(n: NodeState, now: Time, round: nat, view: Members, ids: seq<NodeID>,
                                                results: map<NodeID, ProbeResult>)
    requires forall id <- ids :: id in results
    ensures Steady(n, TakeResults(n, now, round, view, ids, results))
  {
    hide TakeResult;
    if ids != [] {
      var front, id := ids[..|ids| - 1], ids[|ids| - 1];
      TakeResultsAreSteady(n, now, round, view, front, results);
      TakeResultIsSteady(TakeResults(n, now, round, view, front, results), now, round, view, id, results[id]);
    }
  }

  lemma {:induction false} ExpireAllIsSteady(n: NodeState, now: Time, view: Members, ids: seq<NodeID>)
    ensures Steady(n, ExpireAll(n, now, view, ids))
  {
    hide Expire;
    if ids != [] {
      var n1, id := ExpireAll(n, now, view, ids[..|ids| - 1]), ids[|ids| - 1];
      ExpireAllIsSteady(n, now, view, ids[..|ids| - 1]);
      ExpireIsSteady(n1, now, view, id);
    }
  }

  lemma ExpireIsSteady(n: NodeState, now: Time, view: Members, id: NodeID)
    ensures Steady(n, Expire(n, now, view, id))
  {
    hide MarkDead;
    MarkDeadIsSteady(n, id);
  }

  lemma OnPeerUpIsSteady(n: NodeState, id: NodeID, advertise: NodeAddress, incarnation: int64)
    requires n.Keyed()
    ensures Steady(n, OnPeerUp(n, id, advertise, incarnation))
  {
    hide IfChanged, Greeted, ViewOf;
    var n1 := Greeted(n, id, advertise, incarnation);
    GreetedIsSteady(n, id, advertise, incarnation);
    IfChangedIsSteady(n, n1.Send(DeltaMsg(id, ViewOf(n1.tab.members))));
  }

  lemma GreetedIsSteady(n: NodeState, id: NodeID, advertise: NodeAddress, incarnation: int64)
    requires n.Keyed()
    ensures Steady(n, Greeted(n, id, advertise, incarnation)) && Greeted(n, id, advertise, incarnation).Keyed()
  {
    var t := n.tab.members;
    var (role, score) := if id in t then (t[id].role, t[id].score) else (Worker, Unavailable);
    var n1 := n.Apply(Upserted(t, Member(id, advertise, role, Alive, incarnation, score, 0)));
    assert Steady(n, n1);
    assert Steady(n1, n1.Apply(Revived(n1.tab.members, id, incarnation)));
  }

  lemma OnPeerDownIsSteady(n: NodeState, now: Time, id: NodeID, disposition: Disposition)
    requires n.Keyed()
    ensures Steady(n, OnPeerDown(n, now, id, disposition))
  {
    hide IfChanged, MarkDead, Doubt;
    var n1 := n.(attached := n.attached - {id});
    MarkDeadIsSteady(n1, id);
    DoubtIsSteady(n1, now, id, false);
    IfChangedIsSteady(n, if disposition.LinkLost? then Doubt(n1, now, id, false) else MarkDead(n1, id));
  }

  lemma OnDeathIsSteady(n: NodeState, id: NodeID)
    requires n.Keyed()
    ensures Steady(n, OnDeath(n, id))
  {
    hide IfChanged, MarkDead;
    MarkDeadIsSteady(n, id);
    IfChangedIsSteady(n, MarkDead(n, id));
  }

  lemma OnDeltaIsSteady(n: NodeState, from: NodeID, records: seq<Member>)
    requires n.Keyed()
    ensures Steady(n, OnDelta(n, from, records))
  {
    hide TakeRecords, MembershipChanged;
    TakeRecordsKeyed(n, n.tab.members, from, records);
    TakeRecordsAreSteady(n, n.tab.members, from, records);
    MembershipChangedIsSteady(VoidAttachment(TakeRecords(n, n.tab.members, from, records).0, n.tab.members));
  }

  lemma OnJoinAckIsSteady(n: NodeState, from: NodeID, number: nat, accepted: bool, named: NodeID)
    requires n.Keyed()
    ensures Steady(n, OnJoinAck(n, from, number, accepted, named))
  {
    hide Evaluate;
    var n1 := n.(joinID := 0, leader := NO_NODE);
    EvaluateIsSteady(n1);
    EvaluateIsSteady(n1.(hint := named, rejections := n.rejections + 1));
  }

  lemma OnHeartbeatIsSteady(n: NodeState, from: NodeID, term: nat)
    requires n.Keyed()
    ensures Steady(n, OnHeartbeat(n, from, term))
  {
    hide BeatResumed;
    BeatResumedIsSteady(n.(term := term, sinceBeat := if from == n.leader && !n.Leads() then 0 else n.sinceBeat), from);
  }

  lemma BeatResumedIsSteady(n: NodeState, from: NodeID)
    requires n.Keyed()
    ensures Steady(n, BeatResumed(n, from))
  {
    hide IfChanged;
    if from in n.suspects && n.suspects[from].silent {
      var doubted := n.suspects[from].incarnation;
      IfChangedIsSteady(n, n.(suspects := n.suspects - {from}).Apply(Revived(n.tab.members, from, doubted)));
    }
  }

  lemma OnProbeRoundIsSteady(n: NodeState, now: Time, round: nat, results: map<NodeID, ProbeResult>, selfScore: Score)
    requires n.Keyed()
    ensures Steady(n, OnProbeRound(n, now, round, results, selfScore))
  {
    hide TakeResults, TakeSelfScore, Evaluate, IdList;
    var n1, ids := n.(probing := false, rejections := 0), IdList(results.Keys);
    TakeResultsKeyed(n1, now, round, n.tab.members, ids, results);
    TakeResultsAreSteady(n1, now, round, n.tab.members, ids, results);
    var n3 := ProbeResultsTaken(n, now, round, results);
    TakeSelfScoreIsSteady(n3, selfScore);
    EvaluateIsSteady(TakeSelfScore(n3, selfScore));
  }

  lemma TakeSelfScoreIsSteady(n: NodeState, next: Score)
    requires n.Keyed()
    ensures Steady(n, TakeSelfScore(n, next)) && TakeSelfScore(n, next).Keyed()
  {
  }

  lemma CheckLeaderSilenceIsSteady(n: NodeState, now: Time)
    requires n.Keyed()
    ensures Steady(n, CheckLeaderSilence(n, now))
  {
    hide Doubt, MembershipChanged;
    DoubtIsSteady(n.(sinceBeat := 0), now, n.leader, true);
    MembershipChangedIsSteady(Doubt(n.(sinceBeat := 0), now, n.leader, true).(leader := NO_NODE));
  }

  lemma OnTuneIsSteady(n: NodeState, threshold: Option<real>, hysteresis: Option<real>)
    requires n.Keyed()
    ensures Steady(n, OnTune(n, threshold, hysteresis))
  {
    hide Evaluate;
    EvaluateIsSteady(Tuned(n, threshold, hysteresis));
  }

  lemma OtherStepsAreSteady(n: NodeState, now: Time, e: Event)
    requires n.Keyed()
    requires e.JoinCluster? || e.HeartbeatAck? || e.StateSync? || e.ProbeTick? || e.GossipTick?
    ensures Steady(n, Step(n, now, e))
  {
    hide OnHeartbeatAck, ViewOf;
    match e
    case HeartbeatAck(from, term, observed) => OnHeartbeatAckFacts(n, from, term, observed);
    case _ =>
  }

  lemma StepIsSteady(n: NodeState, now: Time, e: Event)
    requires n.Keyed() && !e.ControlTick?
    ensures Steady(n, Step(n, now, e))
  {
    hide OnPeerUp, OnPeerDown, OnDelta, OnJoinAck, OnDeath, OnHeartbeat, OnProbeRound, OnTune, Evaluate;
    match e
    case PeerUp(id, advertise, incarnation) => OnPeerUpIsSteady(n, id, advertise, incarnation);
    case PeerDown(id, disposition) => OnPeerDownIsSteady(n, now, id, disposition);
    case Delta(from, records) => OnDeltaIsSteady(n, from, records);
    case JoinAck(from, number, accepted, named) => OnJoinAckIsSteady(n, from, number, accepted, named);
    case Leave(from) => OnDeathIsSteady(n, from);
    case Malformed(from) => OnDeathIsSteady(n, from);
    case Heartbeat(from, term) => OnHeartbeatIsSteady(n, from, term);
    case ProbeRound(round, results, selfScore) => OnProbeRoundIsSteady(n, now, round, results, selfScore);
    case FloorTick => EvaluateIsSteady(n);
    case Tune(threshold, hysteresis) => OnTuneIsSteady(n, threshold, hysteresis);
    case _ =>
      hide Step;
      OtherStepsAreSteady(n, now, e);
  }

  lemma SteadyKeepsTombs(n: NodeState, n': NodeState)
    requires Steady(n, n') && TombsCurrent(n)
    ensures TombsCurrent(n')
  {
    if n'.tombVersion == n'.tab.version {
      forall id | IsDeadRecord(n', id) ensures IsTimed(n', id) { assert IsDeadRecord(n, id) && IsTimed(n, id); }
      forall id <- n'.tombstones ensures IsDeadRecord(n', id) && IsTimed(n', id) {
        assert IsDeadRecord(n, id) && IsTimed(n, id);
      }
    }
  }

  // ---------------------------------------------------------------------------
  // A tick
  // ---------------------------------------------------------------------------

  /** When the death record is timed from, at a tick now. */
  function TimedFrom(n: NodeState, now: Time, id: NodeID): Time {
    if IsTimed(n, id) then n.tombstones[id].since else now
  }

  lemma ReconciledIs(n: NodeState, now: Time)
    requires TombsCurrent(n)
    ensures forall id :: id in Reconciled(n, now) <==> IsDeadRecord(n, id)
    ensures forall id | IsDeadRecord(n, id) ::
              Reconciled(n, now)[id] == Tombstone(TimedFrom(n, now, id), n.tab.members[id].incarnation)
  {
    if n.tombVersion == n.tab.version {
      forall id ensures id in n.tombstones <==> IsDeadRecord(n, id) {
        if IsDeadRecord(n, id) { assert IsTimed(n, id); }
      }
      forall id | IsDeadRecord(n, id)
        ensures n.tombstones[id] == Tombstone(TimedFrom(n, now, id), n.tab.members[id].incarnation) {
        assert IsTimed(n, id);
      }
    }
  }

  /** A sweep collects the death records timed long enough ago, times the others, and touches nothing else. */
  lemma SweepCollects(n: NodeState, now: Time, id: NodeID)
    requires TombsCurrent(n)
    ensures var n' := SweepTombstones(n, now);
            if IsDeadRecord(n, id) then
              var since := TimedFrom(n, now, id);
              if now - since >= n.cfg.tombstoneTTL then id !in n'.tab.members
              else
                && id in n'.tab.members && n'.tab.members[id] == n.tab.members[id]
                && id in n'.tombstones && n'.tombstones[id] == Tombstone(since, n.tab.members[id].incarnation)
            else SameRecord(n.tab.members, n'.tab.members, id) && id !in n'.tombstones
  {
    hide Reconciled, TombsCurrent;
    ReconciledIs(n, now);
  }

  lemma SweepKeepsTombs(n: NodeState, now: Time)
    requires TombsCurrent(n)
    ensures TombsCurrent(SweepTombstones(n, now))
  {
    hide TombsCurrent, Collected, Reconciled;
    var n' := SweepTombstones(n, now);
    SweepVersions(n, now);
    if n'.tombVersion == n'.tab.version {
      forall id | IsDeadRecord(n', id) ensures IsTimed(n', id) {
        SweepCollects(n, now, id);
      }
      forall id <- n'.tombstones ensures IsDeadRecord(n', id) && IsTimed(n', id) {
        SweepCollects(n, now, id);
      }
    }
    TombsAreCurrent(n');
  }

  lemma SweepVersions(n: NodeState, now: Time)
    ensures var n' := SweepTombstones(n, now);
            n'.cfg == n.cfg && n'.tombVersion == n.tab.version <= n'.tab.version
  {
  }

  lemma TombsAreCurrent(n: NodeState)
    requires n.tombVersion <= n.tab.version
    requires n.tombVersion == n.tab.version ==>
               && (forall id | IsDeadRecord(n, id) :: IsTimed(n, id))
               && (forall id <- n.tombstones :: IsDeadRecord(n, id) && IsTimed(n, id))
    ensures TombsCurrent(n)
  {
  }

  /** Up to the sweep a tick leaves the death records, and their bookkeeping, as they are. */
  lemma BeforeTheSweep(n: NodeState, now: Time)
    requires Inv(n) && n.Keyed()
    ensures var c := IfChanged(n, ExpireSuspicions(n, now));
            && Steady(n, c) && c.Keyed() && Inv(c)
            && forall id | IsDeadRecord(n, id) :: IsDeadRecord(c, id) && c.tab.members[id] == n.tab.members[id]
  {
    hide ExpireAll, IfChanged;
    var ids := IdList(n.suspects.Keys);
    var n1 := ExpireSuspicions(n, now);
    ExpireAllIsSteady(n, now, n.tab.members, ids);
    ExpireSuspicionsKeeps(n, now);
    IfChangedKeeps(n, n1);
    IfChangedIsSteady(n, n1);
    IfChangedTouchesSelf(n, n1);
    forall id | IsDeadRecord(n, id)
      ensures IsDeadRecord(IfChanged(n, n1), id) && IfChanged(n, n1).tab.members[id] == n.tab.members[id] {
      DeadDoNotExpire(n, now, n.tab.members, ids, id);
      assert SameRecord(n1.tab.members, IfChanged(n, n1).tab.members, id);
    }
  }

  lemma {:induction false} DeadDoNotExpire(n: NodeState, now: Time, view: Members, ids: seq<NodeID>, id: NodeID)
    requires Inv(n) && n.Keyed() && IsDeadRecord(n, id)
    ensures var n' := ExpireAll(n, now, view, ids);
            id in n'.tab.members && n'.tab.members[id] == n.tab.members[id]
  {
    hide Expire;
    if ids != [] {
      var front, x := ids[..|ids| - 1], ids[|ids| - 1];
      DeadDoNotExpire(n, now, view, front, id);
      ExpireLeavesTheDead(ExpireAll(n, now, view, front), now, view, x, id);
    }
  }

  lemma ExpireLeavesTheDead(n: NodeState, now: Time, view: Members, x: NodeID, id: NodeID)
    requires id in n.tab.members && n.tab.members[id].state == Dead
    ensures var n' := Expire(n, now, view, x);
            id in n'.tab.members && n'.tab.members[id] == n.tab.members[id]
  {
    hide MarkDead;
    MarkDeadFacts(n, x);
  }

  lemma AfterTheSweep(n: NodeState, now: Time, id: NodeID)
    requires Inv(n) && n.Keyed() && !n.Leads() && n.leader != NO_NODE && id != n.cfg.self
    ensures var n' := CheckLeaderSilence(n, now);
            && (id in n'.tab.members <==> id in n.tab.members)
            && (id in n.tab.members && n.tab.members[id].state == Dead ==> n'.tab.members[id] == n.tab.members[id])
  {
    hide Doubt, MembershipChanged;
    if n.sinceBeat + 1 >= n.cfg.heartbeatMisses {
      var n1 := n.(sinceBeat := 0);
      DoubtsCarryOver(n, n1);
      DoubtKeeps(n1, now, n.leader, true);
      DoubtFacts(n1, now, n.leader, true);
      var n3 := Doubt(n1, now, n.leader, true).(leader := NO_NODE);
      DoubtsCarryOver(Doubt(n1, now, n.leader, true), n3);
      MembershipChangedKeepsOthers(n3, id);
    }
  }

  /** A tick is its sweep, and then a step that touches no death record and no bookkeeping. */
  lemma TickIsASweep(n: NodeState, now: Time, id: NodeID)
    requires Inv(n) && n.Keyed()
    ensures AtSilenceCheck(n, now).Keyed() && Steady(AtSilenceCheck(n, now), Step(n, now, ControlTick))
    ensures var c, n' := AtSilenceCheck(n, now), Step(n, now, ControlTick);
            id != n.cfg.self ==>
              && (id in n'.tab.members <==> id in c.tab.members)
              && (id in c.tab.members && c.tab.members[id].state == Dead ==> n'.tab.members[id] == c.tab.members[id])
  {
    hide SweepTombstones, IfChanged, ExpireSuspicions, CheckLeaderSilence, IdList;
    var c := AtSilenceCheck(n, now);
    UntilSilenceCheck(n, now);
    SilenceCheckInv(n, now);
    if !c.Leads() && c.leader != NO_NODE {
      CheckLeaderSilenceIsSteady(c, now);
      if id != n.cfg.self { AfterTheSweep(c, now, id); }
    }
  }

  /**
   * A tick and a death record: if it has been timed for the configured time it is collected, and otherwise it stays as
   * it is, and timed from when it was first seen at a tick, which may be this one.
   */
  lemma TicksTimeDeaths(n: NodeState, now: Time, id: NodeID)
    requires Inv(n) && n.Keyed() && TombsCurrent(n) && IsDeadRecord(n, id)
    ensures var n', since := Step(n, now, ControlTick), TimedFrom(n, now, id);
            if now - since >= n.cfg.tombstoneTTL then id !in n'.tab.members
            else
              && IsDeadRecord(n', id) && n'.tab.members[id] == n.tab.members[id]
              && IsTimed(n', id) && n'.tombstones[id].since == since
  {
    hide Step, SweepTombstones, IfChanged, ExpireSuspicions, TombsCurrent;
    BeforeTheSweep(n, now);
    var c := IfChanged(n, ExpireSuspicions(n, now));
    SteadyKeepsTombs(n, c);
    SweepCollects(c, now, id);
    SweepVersions(c, now);
    TickIsASweep(n, now, id);
  }

  lemma StepKeepsTombs(n: NodeState, now: Time, e: Event)
    requires Inv(n) && n.Keyed() && TombsCurrent(n)
    ensures TombsCurrent(Step(n, now, e))
  {
    hide Step, SweepTombstones, IfChanged, ExpireSuspicions, TombsCurrent, Steady;
    if e.ControlTick? {
      var c := IfChanged(n, ExpireSuspicions(n, now));
      BeforeTheSweep(n, now);
      SteadyKeepsTombs(n, c);
      SweepKeepsTombs(c, now);
      TickIsASweep(n, now, n.cfg.self);
      SteadyKeepsTombs(SweepTombstones(c, now), Step(n, now, e));
    } else {
      StepIsSteady(n, now, e);
      SteadyKeepsTombs(n, Step(n, now, e));
    }
  }

  // ---------------------------------------------------------------------------
  // Runs
  // ---------------------------------------------------------------------------

  lemma {:induction false} RunKeepsTombs(states: seq<NodeState>, inputs: seq<Input>, k: nat)
    requires IsRun(states, inputs) && k < |states|
    ensures TombsCurrent(states[k])
  {
    hide Step;
    if k > 0 {
      RunKeepsTombs(states, inputs, k - 1);
      RunKeepsInv(states, inputs, 0, k - 1);
      assert Follows(states[k - 1], inputs[k - 1], states[k]);
      StepKeepsTombs(states[k - 1], inputs[k - 1].now, inputs[k - 1].event);
    }
  }

  /**
   * In every run, from the first tick that sees a death record (at step i), and as long as no later record takes its
   * place, the tick at step j collects it exactly if the configured time has passed between the two.
   */
  lemma {:induction false} CollectedExactlyWhenOld(states: seq<NodeState>, inputs: seq<Input>, i: nat, j: nat,
                                                   id: NodeID, incarnation: int64)
    requires IsRun(states, inputs) && i < j < |inputs| && id != states[0].cfg.self
    requires inputs[i].event.ControlTick? && inputs[j].event.ControlTick?
    requires forall k :: i <= k <= j ==> IsThisDeath(states[k], id, incarnation)
    requires !IsTimed(states[i], id)
    ensures id in states[j + 1].tab.members <==> inputs[j].now - inputs[i].now < states[0].cfg.tombstoneTTL
  {
    hide Step, TombsCurrent;
    TimedSince(states, inputs, i, j, id, incarnation);
    RunKeepsInv(states, inputs, 0, j);
    RunKeepsTombs(states, inputs, j);
    assert Follows(states[j], inputs[j], states[j + 1]);
    TicksTimeDeaths(states[j], inputs[j].now, id);
  }

  lemma {:induction false} TimedSince(states: seq<NodeState>, inputs: seq<Input>, i: nat, j: nat, id: NodeID,
                                      incarnation: int64)
    requires IsRun(states, inputs) && i < j < |states| && id != states[0].cfg.self && inputs[i].event.ControlTick?
    requires forall k :: i <= k <= j ==> IsThisDeath(states[k], id, incarnation)
    requires !IsTimed(states[i], id)
    ensures IsTimed(states[j], id) && states[j].tombstones[id].since == inputs[i].now
  {
    hide Step, TombsCurrent;
    RunKeepsInv(states, inputs, 0, j - 1);
    RunKeepsTombs(states, inputs, j - 1);
    var n, input := states[j - 1], inputs[j - 1];
    assert Follows(n, input, states[j]);
    if j > i + 1 { TimedSince(states, inputs, i, j - 1, id, incarnation); }
    if input.event.ControlTick? {
      TicksTimeDeaths(n, input.now, id);
    } else {
      StepIsSteady(n, input.now, input.event);
    }
  }
}
