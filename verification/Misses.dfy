// What a node's count of missed probes means, over whole runs.

module Misses {
  import opened Health
  import opened Membership
  import opened Sorting
  import opened Election
  import opened NodeModel
  import opened NodeInvariant
  import opened NodeRuns
  import opened Attachment
  import opened Options

  function MissesOf(missed: map<NodeID, nat>, id: NodeID): nat {
    if id in missed then missed[id] else 0
  }

  /** Whether the round had a failed probe of the peer. */
  predicate FailsProbe(e: Event, id: NodeID) {
    e.ProbeRound? && id in e.results && e.results[id].Failed?
  }

  /** Whether the round measured the peer, and the peer still counts. */
  predicate AnswersProbe(n: NodeState, e: Event, id: NodeID) {
    e.ProbeRound? && id in e.results && e.results[id].Scored? && id in n.tab.members && !n.tab.members[id].state.Dead?
  }

  /** No count is raised. */
  ghost predicate Forgets(n: NodeState, n': NodeState) {
    forall id :: MissesOf(n'.missed, id) <= MissesOf(n.missed, id)
  }

  // ---------------------------------------------------------------------------
  // Events other than a probe round
  // ---------------------------------------------------------------------------

  lemma FollowKeepsMissed(n: NodeState, elected: seq<NodeID>)
    ensures Follow(n, elected).missed == n.missed
  {
  }

  lemma EvaluateKeepsMissed(n: NodeState)
    requires n.Keyed()
    ensures Evaluate(n).missed == n.missed
  {
    hide ElectionOf, TakeRole, TakeLeaders, Follow;
    var elected := ElectionOf(n).leaders;
    TakeRoleKeepsMissed(n, elected);
    TakeLeadersFacts(TakeRole(n, elected), elected);
    FollowKeepsMissed(TakeLeaders(TakeRole(n, elected), elected), elected);
  }

  lemma TakeRoleKeepsMissed(n: NodeState, elected: seq<NodeID>)
    ensures TakeRole(n, elected).missed == n.missed
  {
  }

  lemma MembershipChangedForgets(n: NodeState)
    requires n.Keyed()
    ensures Forgets(n, MembershipChanged(n))
  {
    hide Evaluate;
    EvaluateKeepsMissed(Pruned(n));
  }

  lemma IfChangedForgets(before: NodeState, n: NodeState)
    requires n.Keyed()
    ensures Forgets(n, IfChanged(before, n))
  {
    hide MembershipChanged;
    MembershipChangedForgets(n);
  }

  lemma {:induction false} TakeRecordsKeepMissed(n: NodeState, before: Members, from: NodeID, records: seq<Member>)
    ensures TakeRecords(n, before, from, records).0.missed == n.missed
  {
    hide TakeRecord;
    if records != [] {
      var front, rec := records[..|records| - 1], records[|records| - 1];
      TakeRecordsKeepMissed(n, before, from, front);
      TakeRecordKeepsMissed(TakeRecords(n, before, from, front).0, before, from, rec);
    }
  }

  lemma TakeRecordKeepsMissed(n: NodeState, before: Members, from: NodeID, rec: Member)
    ensures TakeRecord(n, before, from, rec).missed == n.missed
  {
    hide Received;
  }

  lemma {:induction false} ExpireAllKeepsMissed(n: NodeState, now: Time, view: Members, ids: seq<NodeID>)
    ensures ExpireAll(n, now, view, ids).missed == n.missed
  {
    hide Expire;
    if ids != [] {
      var n1, id := ExpireAll(n, now, view, ids[..|ids| - 1]), ids[|ids| - 1];
      ExpireAllKeepsMissed(n, now, view, ids[..|ids| - 1]);
      ExpireKeepsMissed(n1, now, view, id);
    }
  }

  lemma ExpireKeepsMissed(n: NodeState, now: Time, view: Members, id: NodeID)
    ensures Expire(n, now, view, id).missed == n.missed
  {
    hide MarkDead;
    MarkDeadFacts(n, id);
  }

  lemma OnPeerUpForgets(n: NodeState, id: NodeID, advertise: NodeAddress, incarnation: int64)
    requires n.Keyed()
    ensures Forgets(n, OnPeerUp(n, id, advertise, incarnation))
  {
    hide IfChanged, Greeted, ViewOf;
    var n1 := Greeted(n, id, advertise, incarnation);
    GreetedStays(n, id, advertise, incarnation);
    IfChangedForgets(n, n1.Send(DeltaMsg(id, ViewOf(n1.tab.members))));
  }

  lemma OnPeerDownForgets(n: NodeState, now: Time, id: NodeID, disposition: Disposition)
    requires n.Keyed()
    ensures Forgets(n, OnPeerDown(n, now, id, disposition))
  {
    hide IfChanged, MarkDead, Doubt;
    var n1 := n.(attached := n.attached - {id});
    MarkDeadFacts(n1, id);
    DoubtFacts(n1, now, id, false);
    IfChangedForgets(n, if disposition.LinkLost? then Doubt(n1, now, id, false) else MarkDead(n1, id));
  }

  lemma OnDeathForgets(n: NodeState, id: NodeID)
    requires n.Keyed()
    ensures Forgets(n, OnDeath(n, id))
  {
    hide IfChanged, MarkDead;
    MarkDeadFacts(n, id);
    IfChangedForgets(n, MarkDead(n, id));
  }

  lemma OnDeltaForgets(n: NodeState, from: NodeID, records: seq<Member>)
    requires n.Keyed()
    ensures Forgets(n, OnDelta(n, from, records))
  {
    hide TakeRecords, MembershipChanged;
    TakeRecordsKeyed(n, n.tab.members, from, records);
    TakeRecordsKeepMissed(n, n.tab.members, from, records);
    MembershipChangedForgets(VoidAttachment(TakeRecords(n, n.tab.members, from, records).0, n.tab.members));
  }

  lemma OnJoinAckForgets(n: NodeState, from: NodeID, number: nat, accepted: bool, named: NodeID)
    requires n.Keyed()
    ensures Forgets(n, OnJoinAck(n, from, number, accepted, named))
  {
    hide Evaluate;
    var n1 := n.(joinID := 0, leader := NO_NODE);
    EvaluateKeepsMissed(n1);
    EvaluateKeepsMissed(n1.(hint := named, rejections := n.rejections + 1));
  }

  lemma OnHeartbeatForgets(n: NodeState, from: NodeID, term: nat)
    requires n.Keyed()
    ensures Forgets(n, OnHeartbeat(n, from, term))
  {
    hide BeatResumed;
    BeatResumedForgets(n.(term := term, sinceBeat := if from == n.leader && !n.Leads() then 0 else n.sinceBeat), from);
  }

  lemma BeatResumedForgets(n: NodeState, from: NodeID)
    requires n.Keyed()
    ensures Forgets(n, BeatResumed(n, from))
  {
    hide IfChanged;
    if from in n.suspects && n.suspects[from].silent {
      var doubted := n.suspects[from].incarnation;
      IfChangedForgets(n, n.(suspects := n.suspects - {from}).Apply(Revived(n.tab.members, from, doubted)));
    }
  }

  lemma OnControlTickForgets(n: NodeState, now: Time)
    requires n.Keyed()
    ensures Forgets(n, OnControlTick(n, now))
  {
    hide ExpireAll, IfChanged, CheckLeaderSilence, Reconciled, Collected, IdList;
    var n1 := ExpireSuspicions(n, now);
    ExpireAllKeepsMissed(n, now, n.tab.members, IdList(n.suspects.Keys));
    IfChangedForgets(n, n1);
    var n2 := SweepTombstones(IfChanged(n, n1), now);
    CheckLeaderSilenceForgets(n2, now);
  }

  lemma CheckLeaderSilenceForgets(n: NodeState, now: Time)
    requires n.Keyed()
    ensures Forgets(n, CheckLeaderSilence(n, now))
  {
    hide Doubt, MembershipChanged;
    DoubtFacts(n.(sinceBeat := 0), now, n.leader, true);
    MembershipChangedForgets(Doubt(n.(sinceBeat := 0), now, n.leader, true).(leader := NO_NODE));
  }

  lemma OnTuneForgets(n: NodeState, threshold: Option<real>, hysteresis: Option<real>)
    requires n.Keyed()
    ensures Forgets(n, OnTune(n, threshold, hysteresis))
  {
    hide Evaluate;
    EvaluateKeepsMissed(Tuned(n, threshold, hysteresis));
  }

  lemma OtherStepsKeepMissed(n: NodeState, now: Time, e: Event)
    requires n.Keyed()
    requires e.JoinCluster? || e.HeartbeatAck? || e.StateSync? || e.ProbeTick? || e.GossipTick?
    ensures Step(n, now, e).missed == n.missed
  {
    hide OnHeartbeatAck, ViewOf;
    match e
    case HeartbeatAck(from, term, observed) => OnHeartbeatAckFacts(n, from, term, observed);
    case _ =>
  }

  lemma StepForgets(n: NodeState, now: Time, e: Event)
    requires n.Keyed() && !e.ProbeRound?
    ensures Forgets(n, Step(n, now, e))
  {
    hide OnPeerUp, OnPeerDown, OnDelta, OnJoinAck, OnDeath, OnHeartbeat, OnControlTick, OnTune, Evaluate, MissesOf;
    match e
    case PeerUp(id, advertise, incarnation) => OnPeerUpForgets(n, id, advertise, incarnation);
    case PeerDown(id, disposition) => OnPeerDownForgets(n, now, id, disposition);
    case Delta(from, records) => OnDeltaForgets(n, from, records);
    case JoinAck(from, number, accepted, named) => OnJoinAckForgets(n, from, number, accepted, named);
    case Leave(from) => OnDeathForgets(n, from);
    case Malformed(from) => OnDeathForgets(n, from);
    case Heartbeat(from, term) => OnHeartbeatForgets(n, from, term);
    case FloorTick => EvaluateKeepsMissed(n);
    case ControlTick => OnControlTickForgets(n, now);
    case Tune(threshold, hysteresis) => OnTuneForgets(n, threshold, hysteresis);
    case _ =>
      hide Step;
      OtherStepsKeepMissed(n, now, e);
  }

  // ---------------------------------------------------------------------------
  // A probe round
  // ---------------------------------------------------------------------------

  /** The count a result leaves behind. */
  function Counted(missed: nat, result: ProbeResult): nat {
    match result
    case Canceled => missed
    case Failed => missed + 1
    case Scored(_) => 0
  }

  lemma ProbeMissedCounts(n: NodeState, now: Time, id: NodeID)
    ensures var n' := ProbeMissed(n, now, id);
            n'.cfg == n.cfg && n'.missed == n.missed[id := MissesOf(n.missed, id) + 1]
  {
    hide MarkDead, Doubt;
    var n1 := n.(local := n.local[id := Unavailable], missed := n.missed[id := MissesOf(n.missed, id) + 1]);
    MarkDeadFacts(n1, id);
    DoubtFacts(n1, now, id, false);
  }

  lemma TakeResultCounts(n: NodeState, now: Time, round: nat, view: Members, id: NodeID, result: ProbeResult)
    ensures var n' := TakeResult(n, now, round, view, id, result);
            && n'.cfg == n.cfg
            && MissesOf(n'.missed, id) == (if id !in view || view[id].state.Dead? then MissesOf(n.missed, id)
                                           else Counted(MissesOf(n.missed, id), result))
            && forall x | x != id :: MissesOf(n'.missed, x) == MissesOf(n.missed, x)
  {
    hide ProbeMissed, ProbeClears;
    ProbeMissedCounts(n, now, id);
    if result.Scored? && id in view {
      var n2 := n.(local := n.local[id := result.score], missed := n.missed[id := 0]);
      ProbeClearsKeepsMissed(n2, id, round, view[id].incarnation);
    }
  }

  lemma ProbeClearsKeepsMissed(n: NodeState, id: NodeID, round: nat, incarnation: int64)
    ensures ProbeClears(n, id, round, incarnation).missed == n.missed
  {
  }

  /** Each peer's count moves by its own result and by nothing else. */
  lemma {:induction false} TakeResultsCount(n: NodeState, now: Time, round: nat, view: Members, ids: seq<NodeID>,
                                            results: map<NodeID, ProbeResult>, id: NodeID)
    requires Ascending(NodeLess, ids) && forall x <- ids :: x in results
    ensures var n' := TakeResults(n, now, round, view, ids, results);
            && n'.cfg == n.cfg
            && MissesOf(n'.missed, id) ==
               if id !in ids || id !in view || view[id].state.Dead? then MissesOf(n.missed, id)
               else Counted(MissesOf(n.missed, id), results[id])
  {
    hide TakeResult, Counted, MissesOf;
    if ids != [] {
      var front, last := ids[..|ids| - 1], ids[|ids| - 1];
      assert ids == front + [last];
      TakeResultsCount(n, now, round, view, front, results, id);
      TakeResultCounts(TakeResults(n, now, round, view, front, results), now, round, view, last, results[last]);
    }
  }

  lemma ProbeRoundCounts(n: NodeState, now: Time, round: nat, results: map<NodeID, ProbeResult>, selfScore: Score,
                         id: NodeID)
    requires n.Keyed()
    ensures var e, n' := ProbeRound(round, results, selfScore), OnProbeRound(n, now, round, results, selfScore);
            && MissesOf(n'.missed, id) <= MissesOf(n.missed, id) + (if FailsProbe(e, id) then 1 else 0)
            && (AnswersProbe(n, e, id) ==> MissesOf(n'.missed, id) == 0)
  {
    hide TakeResults, TakeSelfScore, Evaluate, IdList;
    var n1, ids := n.(probing := false, rejections := 0), IdList(results.Keys);
    TakeResultsKeyed(n1, now, round, n.tab.members, ids, results);
    TakeResultsCount(n1, now, round, n.tab.members, ids, results, id);
    var n3 := ProbeResultsTaken(n, now, round, results);
    TakeSelfScoreKeepsMissed(n3, selfScore);
    EvaluateKeepsMissed(TakeSelfScore(n3, selfScore));
  }

  lemma TakeSelfScoreKeepsMissed(n: NodeState, next: Score)
    requires n.Keyed()
    ensures TakeSelfScore(n, next).Keyed() && TakeSelfScore(n, next).missed == n.missed
  {
  }

  // ---------------------------------------------------------------------------
  // Runs
  // ---------------------------------------------------------------------------

  /** How many rounds in steps [i, j) had a failed probe of the peer. */
  function FailedProbes(inputs: seq<Input>, i: nat, j: nat, id: NodeID): nat
    requires i <= j <= |inputs|
  {
    if i == j then 0 else FailedProbes(inputs, i, j - 1, id) + if FailsProbe(inputs[j - 1].event, id) then 1 else 0
  }

  ghost predicate NeverAnswers(states: seq<NodeState>, inputs: seq<Input>, i: nat, j: nat, id: NodeID)
    requires |states| == |inputs| + 1 && i <= j <= |inputs|
  {
    forall k :: i <= k < j ==> !AnswersProbe(states[k], inputs[k].event, id)
  }

  /** A count of misses is one of failed probes in a row: none of the peer has succeeded since the first of them. */
  lemma {:induction false} MissesAreCounted(states: seq<NodeState>, inputs: seq<Input>, j: nat, id: NodeID)
      returns (i: nat)
    requires IsRun(states, inputs) && j < |states|
    ensures i <= j && NeverAnswers(states, inputs, i, j, id)
    ensures MissesOf(states[j].missed, id) <= FailedProbes(inputs, i, j, id)
  {
    hide Step, MissesOf;
    if j == 0 || MissesOf(states[j].missed, id) == 0 {
      i := j;
      if j == 0 { BootHasMissedNothing(states[0], id); }
    } else {
      var n, input := states[j - 1], inputs[j - 1];
      assert Follows(n, input, states[j]);
      StepCounts(n, input.now, input.event, id);
      i := MissesAreCounted(states, inputs, j - 1, id);
    }
  }

  lemma BootHasMissedNothing(n: NodeState, id: NodeID)
    requires n.missed == map[]
    ensures MissesOf(n.missed, id) == 0
  {
  }

  /** A count goes up only by a failed probe of that peer, and a measurement of the peer clears it. */
  lemma StepCounts(n: NodeState, now: Time, e: Event, id: NodeID)
    requires n.Keyed()
    ensures var n' := Step(n, now, e);
            && MissesOf(n'.missed, id) <= MissesOf(n.missed, id) + (if FailsProbe(e, id) then 1 else 0)
            && (AnswersProbe(n, e, id) ==> MissesOf(n'.missed, id) == 0)
  {
    hide OnProbeRound, MissesOf;
    match e
    case ProbeRound(round, results, selfScore) => ProbeRoundCounts(n, now, round, results, selfScore, id);
    case _ =>
      hide Step;
      StepForgets(n, now, e);
  }
}
