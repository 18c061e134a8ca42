// A worker's place under its leader, over whole runs: which JOIN is outstanding, and for how long the leader has been
// silent.

module Attachment {
  import opened Health
  import opened Membership
  import opened Sorting
  import opened Election
  import opened Affinity
  import opened NodeModel
  import opened NodeInvariant
  import opened NodeRuns
  import opened Options

  /** The JOINs among the messages sent, in order. */
  function JoinsIn(sent: seq<Message>): (joins: seq<Message>)
    ensures forall m <- joins :: m.JoinMsg?
  {
    if sent == [] then []
    else JoinsIn(sent[..|sent| - 1]) + if sent[|sent| - 1].JoinMsg? then [sent[|sent| - 1]] else []
  }

  /**
   * JOINs are numbered upwards, and one outstanding is the last one sent, to the leader the node has unless it has left
   * it.
   */
  predicate JoinInv(n: NodeState) {
    var js := JoinsIn(n.sent);
    && (forall i, j :: 0 <= i < j < |js| ==> js[i].number < js[j].number)
    && (forall m <- js :: 0 < m.number <= n.joins)
    && (n.joinID != 0 ==> js != [] && IsOutstanding(n, js[|js| - 1]))
  }

  predicate IsOutstanding(n: NodeState, m: Message) {
    m.JoinMsg? && n.joinID == n.joins == m.number && n.leader in {m.to, NO_NODE, n.cfg.self}
  }

  /** The silence counted after a step was counted in it, or continues one about the same leader. */
  predicate CountsSilence(n: NodeState, n': NodeState, ticks: nat) {
    n'.sinceBeat <= ticks || (n'.leader in {n.leader, NO_NODE, n.cfg.self} && n'.sinceBeat <= n.sinceBeat + ticks)
  }

  /** Nothing but a new JOIN ends the count. */
  predicate RunsOn(n: NodeState, n': NodeState) {
    n'.sinceBeat == n.sinceBeat || n'.joins > n.joins
  }

  /** A new leader, but for the node itself, comes only with a JOIN. */
  predicate OnlyJoined(n: NodeState, n': NodeState) {
    n'.leader in {n.leader, NO_NODE, n.cfg.self} || n'.joins > n.joins
  }

  ghost predicate KeepsPlace(n: NodeState, n': NodeState, ticks: nat) {
    && n'.cfg == n.cfg && n.joins <= n'.joins && OnlyJoined(n, n')
    && (JoinInv(n) ==> JoinInv(n')) && CountsSilence(n, n', ticks) && (ticks == 0 ==> RunsOn(n, n'))
  }

  // ---------------------------------------------------------------------------
  // Sub-steps
  // ---------------------------------------------------------------------------

  lemma PlaceTwice(a: NodeState, b: NodeState, c: NodeState, t: nat, u: nat)
    requires KeepsPlace(a, b, t) && KeepsPlace(b, c, u)
    ensures KeepsPlace(a, c, t + u)
  {
    hide JoinInv;
  }

  /** At most one message more, and no JOIN. */
  predicate SaysNoJoin(sent: seq<Message>, sent': seq<Message>) {
    sent' == sent || (|sent'| == |sent| + 1 && sent'[..|sent|] == sent && !sent'[|sent|].JoinMsg?)
  }

  lemma NoJoinSaid(sent: seq<Message>, sent': seq<Message>)
    requires SaysNoJoin(sent, sent')
    ensures JoinsIn(sent') == JoinsIn(sent)
  {
  }

  lemma BeatsAreNoJoins(sent: seq<Message>, beats: seq<Message>)
    requires forall m <- beats :: !m.JoinMsg?
    ensures JoinsIn(sent + beats) == JoinsIn(sent)
  {
    if beats == [] {
      assert sent + beats == sent;
    } else {
      BeatsAreNoJoins(sent, beats[..|beats| - 1]);
      assert (sent + beats)[..|sent + beats| - 1] == sent + beats[..|beats| - 1];
    }
  }

  /** Nothing is joined; a leader can only be left, the outstanding JOIN only given up, and the silence goes on. */
  ghost predicate Stays(n: NodeState, n': NodeState) {
    && n'.cfg == n.cfg && n'.joins == n.joins && n'.joinID in {n.joinID, 0}
    && n'.leader in {n.leader, NO_NODE, n.cfg.self} && n'.sinceBeat == n.sinceBeat
    && SaysNoJoin(n.sent, n'.sent)
  }

  lemma StayingKeepsPlace(n: NodeState, n': NodeState)
    requires Stays(n, n')
    ensures KeepsPlace(n, n', 0)
  {
    NoJoinSaid(n.sent, n'.sent);
  }

  /** The same, but for a silence that starts afresh. */
  lemma ResettingKeepsPlace(n: NodeState, n': NodeState)
    requires Stays(n.(sinceBeat := 0), n')
    ensures KeepsPlace(n, n', 1)
  {
    NoJoinSaid(n.sent, n'.sent);
  }

  lemma SendJoinKeepsPlace(n: NodeState, to: NodeID)
    ensures KeepsPlace(n, SendJoin(n, to), 0)
  {
    var n' := SendJoin(n, to);
    if n.cfg.delivers(n.joins) {
      assert n'.sent[..|n'.sent| - 1] == n.sent;
    }
  }

  lemma FollowKeepsPlace(n: NodeState, elected: seq<NodeID>)
    ensures KeepsPlace(n, Follow(n, elected), 0)
  {
    hide Follow, Closest, Keep, SendJoin, KeepsPlace;
    var usable := Keep(Undoubted(n.suspects), elected);
    var leader := if n.leader != NO_NODE && n.leader !in usable then NO_NODE else n.leader;
    var best := if n.hint != NO_NODE && n.hint in usable then n.hint else Closest(n.local, usable);
    var next := n.(attached := {}, leader := leader, hint := NO_NODE);
    StayingKeepsPlace(n, next);
    SendJoinKeepsPlace(next, best);
    PlaceTwice(n, next, SendJoin(next, best), 0, 0);
    FollowIs(n, elected, next, best);
  }

  lemma TakeRoleStays(n: NodeState, elected: seq<NodeID>)
    ensures Stays(n, TakeRole(n, elected))
  {
  }

  lemma TakeLeadersStays(n: NodeState, elected: seq<NodeID>)
    ensures Stays(n, TakeLeaders(n, elected))
  {
  }

  lemma EvaluateKeepsPlace(n: NodeState)
    requires n.Keyed()
    ensures KeepsPlace(n, Evaluate(n), 0)
  {
    hide ElectionOf, TakeRole, TakeLeaders, Follow, KeepsPlace;
    var elected := ElectionOf(n).leaders;
    var n1 := TakeRole(n, elected);
    var n2 := TakeLeaders(n1, elected);
    TakeRoleStays(n, elected);
    StayingKeepsPlace(n, n1);
    TakeLeadersStays(n1, elected);
    StayingKeepsPlace(n1, n2);
    PlaceTwice(n, n1, n2, 0, 0);
    if n.cfg.self in elected {
      StayingKeepsPlace(n2, Evaluate(n));
    } else {
      FollowKeepsPlace(n2, elected);
    }
    PlaceTwice(n, n2, Evaluate(n), 0, 0);
  }

  lemma MembershipChangedKeepsPlace(n: NodeState)
    requires n.Keyed()
    ensures KeepsPlace(n, MembershipChanged(n), 0)
  {
    hide Evaluate, KeepsPlace;
    StayingKeepsPlace(n, Pruned(n));
    EvaluateKeepsPlace(Pruned(n));
    PlaceTwice(n, Pruned(n), MembershipChanged(n), 0, 0);
  }

  /** A step that stays, and then a re-evaluation if the table moved. */
  lemma IfChangedKeepsPlace(n: NodeState, n1: NodeState)
    requires n1.Keyed() && KeepsPlace(n, n1, 0)
    ensures KeepsPlace(n, IfChanged(n, n1), 0)
  {
    hide MembershipChanged, KeepsPlace;
    MembershipChangedKeepsPlace(n1);
    PlaceTwice(n, n1, MembershipChanged(n1), 0, 0);
  }

  lemma MarkDeadStays(n: NodeState, id: NodeID)
    ensures Stays(n, MarkDead(n, id))
  {
  }

  lemma DoubtStays(n: NodeState, now: Time, id: NodeID, silent: bool)
    ensures Stays(n, Doubt(n, now, id, silent))
  {
    hide Doubt;
    DoubtFacts(n, now, id, silent);
    DoubtSaysNoJoin(n, now, id, silent);
  }

  lemma DoubtSaysNoJoin(n: NodeState, now: Time, id: NodeID, silent: bool)
    ensures SaysNoJoin(n.sent, Doubt(n, now, id, silent).sent)
  {
  }

  lemma RefuteStays(n: NodeState, rumour: Member)
    ensures Stays(n, Refute(n, rumour))
  {
  }

  lemma TakeRecordStays(n: NodeState, before: Members, from: NodeID, rec: Member)
    ensures Stays(n, TakeRecord(n, before, from, rec))
  {
    hide Refute, Received;
    RefuteStays(n, rec);
  }

  lemma {:induction false} TakeRecordsKeepsPlace(n: NodeState, before: Members, from: NodeID, records: seq<Member>)
    ensures KeepsPlace(n, TakeRecords(n, before, from, records).0, 0)
  {
    hide TakeRecord, KeepsPlace;
    if records == [] {
      StayingKeepsPlace(n, n);
    } else {
      var front, rec := records[..|records| - 1], records[|records| - 1];
      var n1 := TakeRecords(n, before, from, front).0;
      TakeRecordsKeepsPlace(n, before, from, front);
      TakeRecordStays(n1, before, from, rec);
      StayingKeepsPlace(n1, TakeRecord(n1, before, from, rec));
      PlaceTwice(n, n1, TakeRecord(n1, before, from, rec), 0, 0);
    }
  }

  lemma TakeResultKeepsPlace(n: NodeState, now: Time, round: nat, view: Members, id: NodeID, result: ProbeResult)
    ensures KeepsPlace(n, TakeResult(n, now, round, view, id, result), 0)
  {
    hide KeepsPlace, MarkDead, Doubt, ProbeClears;
    var n' := TakeResult(n, now, round, view, id, result);
    if id !in view || view[id].state.Dead? || result.Canceled? {
      StayingKeepsPlace(n, n');
    } else if result.Failed? {
      var misses := (if id in n.missed then n.missed[id] else 0) + 1;
      var n1 := n.(local := n.local[id := Unavailable], missed := n.missed[id := misses]);
      MarkDeadStays(n1, id);
      DoubtStays(n1, now, id, false);
      StayingKeepsPlace(n, n');
    } else {
      var n1 := n.(local := n.local[id := result.score], missed := n.missed[id := 0]);
      ProbeClearsStays(n1, id, round, view[id].incarnation);
      StayingKeepsPlace(n, n');
    }
  }

  lemma ProbeClearsStays(n: NodeState, id: NodeID, round: nat, incarnation: int64)
    ensures Stays(n, ProbeClears(n, id, round, incarnation))
  {
  }

  lemma {:induction false} TakeResultsKeepPlace(n: NodeState, now: Time, round: nat, view: Members, ids: seq<NodeID>,
                                                results: map<NodeID, ProbeResult>)
    requires forall id <- ids :: id in results
    ensures KeepsPlace(n, TakeResults(n, now, round, view, ids, results), 0)
  {
    hide TakeResult, KeepsPlace;
    if ids == [] {
      StayingKeepsPlace(n, n);
    } else {
      var front, id := ids[..|ids| - 1], ids[|ids| - 1];
      var n1 := TakeResults(n, now, round, view, front, results);
      TakeResultsKeepPlace(n, now, round, view, front, results);
      TakeResultKeepsPlace(n1, now, round, view, id, results[id]);
      PlaceTwice(n, n1, TakeResult(n1, now, round, view, id, results[id]), 0, 0);
    }
  }

  lemma TakeSelfScoreStays(n: NodeState, next: Score)
    requires n.Keyed()
    ensures Stays(n, TakeSelfScore(n, next)) && TakeSelfScore(n, next).Keyed()
  {
  }

  lemma {:induction false} ExpireAllKeepsPlace(n: NodeState, now: Time, view: Members, ids: seq<NodeID>)
    ensures KeepsPlace(n, ExpireAll(n, now, view, ids), 0)
  {
    hide Expire, KeepsPlace;
    if ids == [] {
      StayingKeepsPlace(n, n);
    } else {
      var front, id := ids[..|ids| - 1], ids[|ids| - 1];
      var n1 := ExpireAll(n, now, view, front);
      ExpireAllKeepsPlace(n, now, view, front);
      ExpireStays(n1, now, view, id);
      StayingKeepsPlace(n1, Expire(n1, now, view, id));
      PlaceTwice(n, n1, Expire(n1, now, view, id), 0, 0);
    }
  }

  lemma ExpireStays(n: NodeState, now: Time, view: Members, id: NodeID)
    ensures Stays(n, Expire(n, now, view, id))
  {
    hide MarkDead;
    MarkDeadStays(n, id);
  }

  // ---------------------------------------------------------------------------
  // Events
  // ---------------------------------------------------------------------------

  lemma OnPeerUpKeepsPlace(n: NodeState, id: NodeID, advertise: NodeAddress, incarnation: int64)
    requires n.Keyed()
    ensures KeepsPlace(n, OnPeerUp(n, id, advertise, incarnation), 0)
  {
    hide IfChanged, Greeted, ViewOf, KeepsPlace;
    if id == NO_NODE || id == n.cfg.self {
      StayingKeepsPlace(n, n);
    } else {
      var n1 := Greeted(n, id, advertise, incarnation);
      GreetedStays(n, id, advertise, incarnation);
      StayingKeepsPlace(n, n1.Send(DeltaMsg(id, ViewOf(n1.tab.members))));
      IfChangedKeepsPlace(n, n1.Send(DeltaMsg(id, ViewOf(n1.tab.members))));
    }
  }

  lemma GreetedStays(n: NodeState, id: NodeID, advertise: NodeAddress, incarnation: int64)
    requires n.Keyed()
    ensures var n' := Greeted(n, id, advertise, incarnation);
            n'.Keyed() && n' == n.(tab := n'.tab, suspects := n'.suspects)
  {
  }

  lemma OnPeerDownKeepsPlace(n: NodeState, now: Time, id: NodeID, disposition: Disposition)
    requires n.Keyed()
    ensures KeepsPlace(n, OnPeerDown(n, now, id, disposition), 0)
  {
    hide IfChanged, MarkDead, Doubt, KeepsPlace;
    if id == NO_NODE || id == n.cfg.self {
      StayingKeepsPlace(n, n);
    } else {
      var n1 := n.(attached := n.attached - {id});
      var n2 := if disposition.LinkLost? then Doubt(n1, now, id, false) else MarkDead(n1, id);
      MarkDeadStays(n1, id);
      DoubtStays(n1, now, id, false);
      StayingKeepsPlace(n, n2);
      IfChangedKeepsPlace(n, n2);
    }
  }

  lemma OnDeathKeepsPlace(n: NodeState, id: NodeID)
    requires n.Keyed()
    ensures KeepsPlace(n, OnDeath(n, id), 0)
  {
    hide IfChanged, MarkDead, KeepsPlace;
    MarkDeadStays(n, id);
    StayingKeepsPlace(n, MarkDead(n, id));
    IfChangedKeepsPlace(n, MarkDead(n, id));
  }

  lemma OnDeltaKeepsPlace(n: NodeState, from: NodeID, records: seq<Member>)
    requires n.Keyed()
    ensures KeepsPlace(n, OnDelta(n, from, records), 0)
  {
    hide TakeRecords, MembershipChanged, KeepsPlace;
    var before := n.tab.members;
    TakeRecordsKeyed(n, before, from, records);
    TakeRecordsKeepsPlace(n, before, from, records);
    var n1 := TakeRecords(n, before, from, records).0;
    var n2 := VoidAttachment(n1, before);
    StayingKeepsPlace(n1, n2);
    PlaceTwice(n, n1, n2, 0, 0);
    MembershipChangedKeepsPlace(n2);
    PlaceTwice(n, n2, MembershipChanged(n2), 0, 0);
  }

  lemma OnJoinAckKeepsPlace(n: NodeState, from: NodeID, number: nat, accepted: bool, named: NodeID)
    requires n.Keyed()
    ensures KeepsPlace(n, OnJoinAck(n, from, number, accepted, named), 0)
  {
    hide Evaluate, KeepsPlace;
    var n' := OnJoinAck(n, from, number, accepted, named);
    if number == 0 || number != n.joinID || n.leader != from || (accepted && (named == NO_NODE || named == from)) {
      StayingKeepsPlace(n, n');
    } else {
      var n1 := n.(joinID := 0, leader := NO_NODE);
      var n2 := if accepted then n1 else n1.(hint := named, rejections := n.rejections + 1);
      StayingKeepsPlace(n, n2);
      EvaluateKeepsPlace(n2);
      PlaceTwice(n, n2, Evaluate(n2), 0, 0);
    }
  }

  /** A beat from the node's leader, of its term or a newer one. */
  predicate Hears(n: NodeState, e: Event) {
    e.Heartbeat? && e.term >= n.term && e.from == n.leader && !n.Leads()
  }

  lemma OnHeartbeatKeepsPlace(n: NodeState, from: NodeID, term: nat)
    requires n.Keyed()
    ensures var heard := Hears(n, Heartbeat(from, term));
            && KeepsPlace(n, OnHeartbeat(n, from, term), if heard then 1 else 0)
            && (heard ==> OnHeartbeat(n, from, term).sinceBeat == 0)
  {
    hide BeatResumed, JoinInv;
    var n' := OnHeartbeat(n, from, term);
    if term < n.term {
      StayingKeepsPlace(n, n');
    } else {
      var heard := from == n.leader && !n.Leads();
      var n1 := n.(term := term, sinceBeat := if heard then 0 else n.sinceBeat);
      var n2 := BeatResumed(n1, from);
      if heard { ResettingKeepsPlace(n, n1); } else { StayingKeepsPlace(n, n1); }
      BeatResumedKeepsPlace(n1, from);
      PlaceTwice(n, n1, n2, if heard then 1 else 0, 0);
      StayingKeepsPlace(n2, n');
      PlaceTwice(n, n2, n', if heard then 1 else 0, 0);
    }
  }

  lemma BeatResumedKeepsPlace(n: NodeState, from: NodeID)
    requires n.Keyed()
    ensures KeepsPlace(n, BeatResumed(n, from), 0)
    ensures n.sinceBeat == 0 ==> BeatResumed(n, from).sinceBeat == 0
  {
    hide IfChanged, JoinInv;
    if from in n.suspects && n.suspects[from].silent {
      var n1 := n.(suspects := n.suspects - {from}).Apply(Revived(n.tab.members, from, n.suspects[from].incarnation));
      StayingKeepsPlace(n, n1);
      IfChangedKeepsPlace(n, n1);
    } else {
      StayingKeepsPlace(n, n);
    }
  }

  lemma OnProbeRoundKeepsPlace(n: NodeState, now: Time, round: nat, results: map<NodeID, ProbeResult>, selfScore: Score)
    requires n.Keyed()
    ensures KeepsPlace(n, OnProbeRound(n, now, round, results, selfScore), 0)
  {
    hide TakeResults, TakeSelfScore, Evaluate, KeepsPlace;
    var n1, ids := n.(probing := false, rejections := 0), IdList(results.Keys);
    var n2 := TakeResults(n1, now, round, n.tab.members, ids, results);
    TakeResultsKeyed(n1, now, round, n.tab.members, ids, results);
    StayingKeepsPlace(n, n1);
    TakeResultsKeepPlace(n1, now, round, n.tab.members, ids, results);
    PlaceTwice(n, n1, n2, 0, 0);
    var n3 := ProbeResultsTaken(n, now, round, results);
    StayingKeepsPlace(n2, n3);
    PlaceTwice(n, n2, n3, 0, 0);
    var n4 := TakeSelfScore(n3, selfScore);
    TakeSelfScoreStays(n3, selfScore);
    StayingKeepsPlace(n3, n4);
    PlaceTwice(n, n3, n4, 0, 0);
    EvaluateKeepsPlace(n4);
    PlaceTwice(n, n4, Evaluate(n4), 0, 0);
  }

  /**
   * The state in which a tick looks at its leader's silence: after the doubts and the death records have been seen to.
   */
  ghost function AtSilenceCheck(n: NodeState, now: Time): NodeState
    requires n.Keyed()
  {
    SweepTombstones(IfChanged(n, ExpireSuspicions(n, now)), now)
  }

  lemma UntilSilenceCheck(n: NodeState, now: Time)
    requires n.Keyed()
    ensures AtSilenceCheck(n, now).Keyed() && KeepsPlace(n, AtSilenceCheck(n, now), 0)
  {
    hide ExpireAll, IfChanged, KeepsPlace, Reconciled, Collected;
    var n1 := ExpireSuspicions(n, now);
    ExpireAllKeepsPlace(n, now, n.tab.members, IdList(n.suspects.Keys));
    IfChangedKeepsPlace(n, n1);
    var n2 := IfChanged(n, n1);
    StayingKeepsPlace(n2, SweepTombstones(n2, now));
    PlaceTwice(n, n2, SweepTombstones(n2, now), 0, 0);
  }

  lemma CheckLeaderSilenceKeepsPlace(n: NodeState, now: Time)
    requires n.Keyed()
    ensures KeepsPlace(n, CheckLeaderSilence(n, now), 1)
  {
    hide Doubt, MembershipChanged, JoinInv;
    if n.sinceBeat + 1 < n.cfg.heartbeatMisses {
      SamePlaceInv(n, CheckLeaderSilence(n, now));
    } else {
      var n1 := Doubt(n.(sinceBeat := 0), now, n.leader, true).(leader := NO_NODE);
      DoubtStays(n.(sinceBeat := 0), now, n.leader, true);
      ResettingKeepsPlace(n, n1);
      MembershipChangedKeepsPlace(n1);
      PlaceTwice(n, n1, MembershipChanged(n1), 1, 0);
    }
  }

  lemma SamePlaceInv(n: NodeState, n': NodeState)
    requires n' == n.(sinceBeat := n'.sinceBeat)
    ensures JoinInv(n) ==> JoinInv(n')
  {
  }

  lemma OnControlTickKeepsPlace(n: NodeState, now: Time)
    requires n.Keyed()
    ensures KeepsPlace(n, OnControlTick(n, now), 1)
  {
    hide SweepTombstones, IfChanged, ExpireSuspicions, CheckLeaderSilence, KeepsPlace;
    var c := AtSilenceCheck(n, now);
    UntilSilenceCheck(n, now);
    if c.Leads() {
      BeatsKeepPlace(c);
      PlaceTwice(n, c, OnControlTick(n, now), 0, 1);
    } else if c.leader != NO_NODE {
      CheckLeaderSilenceKeepsPlace(c, now);
      PlaceTwice(n, c, OnControlTick(n, now), 0, 1);
    } else {
      StayingKeepsPlace(c, c);
      PlaceTwice(n, c, c, 0, 1) by { OneTickMore(c); }
    }
  }

  lemma OneTickMore(n: NodeState)
    ensures KeepsPlace(n, n, 1)
  {
  }

  lemma BeatsKeepPlace(n: NodeState)
    ensures KeepsPlace(n, n.(sent := n.sent + Map(Beat(n), IdList(n.attached))), 1)
  {
    BeatsAreNoJoins(n.sent, Map(Beat(n), IdList(n.attached)));
  }

  lemma OnTuneKeepsPlace(n: NodeState, threshold: Option<real>, hysteresis: Option<real>)
    requires n.Keyed()
    ensures KeepsPlace(n, OnTune(n, threshold, hysteresis), 0)
  {
    hide Evaluate, KeepsPlace;
    var n1 := Tuned(n, threshold, hysteresis);
    StayingKeepsPlace(n, n1);
    EvaluateKeepsPlace(n1);
    PlaceTwice(n, n1, Evaluate(n1), 0, 0);
  }

  lemma OtherStepsStay(n: NodeState, now: Time, e: Event)
    requires n.Keyed()
    requires e.JoinCluster? || e.HeartbeatAck? || e.StateSync? || e.ProbeTick? || e.GossipTick?
    ensures Stays(n, Step(n, now, e))
  {
    hide OnHeartbeatAck, ViewOf;
    match e
    case HeartbeatAck(from, term, observed) => OnHeartbeatAckFacts(n, from, term, observed);
    case _ =>
  }

  lemma StepKeepsPlace(n: NodeState, now: Time, e: Event)
    requires n.Keyed()
    ensures var n' := Step(n, now, e);
            && n'.cfg == n.cfg && n.joins <= n'.joins && (JoinInv(n) ==> JoinInv(n'))
            && CountsSilence(n, n', if e.ControlTick? then 1 else 0) && (Hears(n, e) ==> n'.sinceBeat == 0)
            && (e.ControlTick? || Hears(n, e) || RunsOn(n, n'))
  {
    hide OnPeerUp, OnPeerDown, OnDelta, OnJoinCluster, OnJoinAck, OnDeath, OnHeartbeat, OnHeartbeatAck, OnProbeRound,
         OnControlTick, OnTune, OnStateSync, OnProbeTick, Evaluate, ViewOf, JoinInv;
    match e
    case PeerUp(id, advertise, incarnation) => OnPeerUpKeepsPlace(n, id, advertise, incarnation);
    case PeerDown(id, disposition) => OnPeerDownKeepsPlace(n, now, id, disposition);
    case Delta(from, records) => OnDeltaKeepsPlace(n, from, records);
    case JoinAck(from, number, accepted, named) => OnJoinAckKeepsPlace(n, from, number, accepted, named);
    case Leave(from) => OnDeathKeepsPlace(n, from);
    case Malformed(from) => OnDeathKeepsPlace(n, from);
    case Heartbeat(from, term) => OnHeartbeatKeepsPlace(n, from, term);
    case ProbeRound(round, results, selfScore) => OnProbeRoundKeepsPlace(n, now, round, results, selfScore);
    case FloorTick => EvaluateKeepsPlace(n);
    case ControlTick => OnControlTickKeepsPlace(n, now);
    case Tune(threshold, hysteresis) => OnTuneKeepsPlace(n, threshold, hysteresis);
    case _ =>
      hide Step;
      OtherStepsStay(n, now, e);
      StayingKeepsPlace(n, Step(n, now, e));
  }

  // ---------------------------------------------------------------------------
  // Runs
  // ---------------------------------------------------------------------------

  lemma {:induction false} JoinsAreNumbered(states: seq<NodeState>, inputs: seq<Input>, k: nat)
    requires IsRun(states, inputs) && k < |states|
    ensures JoinInv(states[k])
  {
    hide Step, JoinInv;
    if k == 0 {
      BootHasNotJoined(states[0]);
    } else {
      JoinsAreNumbered(states, inputs, k - 1);
      assert Follows(states[k - 1], inputs[k - 1], states[k]);
      StepKeepsPlace(states[k - 1], inputs[k - 1].now, inputs[k - 1].event);
    }
  }

  lemma BootHasNotJoined(n: NodeState)
    requires n.sent == [] && n.joinID == 0
    ensures JoinInv(n)
  {
  }

  /**
   * In every state of every run an answer is acted on exactly if it carries the number of the JOIN outstanding and
   * comes from the node's leader; that JOIN is the last one sent, and it was sent to the one answering. So no answer to
   * an earlier JOIN, and none from anyone the last JOIN was not sent to, changes anything, however late it arrives.
   */
  lemma OnlyTheLastJoinIsAnswered(states: seq<NodeState>, inputs: seq<Input>, k: nat, answer: Event)
    requires IsRun(states, inputs) && k < |states| && answer.JoinAck? && Plausible(states[k], answer) &&
             states[k].Keyed()
    ensures var n, js := states[k], JoinsIn(states[k].sent);
            var ignored := OnJoinAck(n, answer.from, answer.number, answer.accepted, answer.named) == n;
            && (!ignored <==> answer.number == n.joinID != 0 && answer.from == n.leader)
            && (!ignored ==> js != [] && js[|js| - 1] == JoinMsg(answer.from, answer.number))
            && (forall i :: 0 <= i < |js| - 1 && js[i].number == answer.number ==> ignored)
  {
    hide Evaluate, JoinsIn, OnJoinAck;
    var n := states[k];
    JoinsAreNumbered(states, inputs, k);
    RunKeepsInv(states, inputs, k, k);
    AnswersUseUpTheirJoin(n, answer.from, answer.number, answer.accepted, answer.named);
  }

  lemma AnswersUseUpTheirJoin(n: NodeState, from: NodeID, number: nat, accepted: bool, named: NodeID)
    requires Inv(n) && n.Keyed() && n.joinID <= n.joins
    ensures OnJoinAck(n, from, number, accepted, named) == n <==> number != n.joinID || number == 0 || from != n.leader
  {
    hide Evaluate, Inv;
    if number == n.joinID != 0 && from == n.leader {
      var n1 := n.(joinID := 0, leader := NO_NODE);
      EvaluateJoins(n1);
      EvaluateJoins(n1.(hint := named, rejections := n.rejections + 1));
      assert OnJoinAck(n, from, number, accepted, named).joinID != number;
    }
  }

  /** An evaluation leaves the outstanding JOIN as it is, or replaces it by a new one. */
  lemma EvaluateJoins(n: NodeState)
    requires n.Keyed()
    ensures Evaluate(n).joinID in {n.joinID, 0, n.joins + 1}
  {
    hide ElectionOf, TakeRole, TakeLeaders, Follow;
    var elected := ElectionOf(n).leaders;
    TakeRoleStays(n, elected);
    TakeLeadersStays(TakeRole(n, elected), elected);
    FollowJoins(TakeLeaders(TakeRole(n, elected), elected), elected);
  }

  lemma FollowJoins(n: NodeState, elected: seq<NodeID>)
    ensures Follow(n, elected).joinID in {n.joinID, 0, n.joins + 1}
  {
    hide Closest, Keep, ShouldRehome;
  }

  /** How many ticks were handled in steps [i, j). */
  function Ticks(inputs: seq<Input>, i: nat, j: nat): nat
    requires i <= j <= |inputs|
  {
    if i == j then 0 else Ticks(inputs, i, j - 1) + if inputs[j - 1].event.ControlTick? then 1 else 0
  }

  /** From the tick at step i to state j (or that tick itself), one leader, and no beat of its heard. */
  ghost predicate OneSilence(states: seq<NodeState>, inputs: seq<Input>, i: nat, j: nat, leader: NodeID)
    requires |states| == |inputs| + 1 && i <= j < |states| && i < |inputs|
  {
    && inputs[i].event.ControlTick?
    && (forall k :: i < k <= j ==> states[k].leader == leader)
    && (forall k :: i < k < j ==> !Hears(states[k], inputs[k].event))
  }

  /** What `sinceBeat` counts: ticks during which the node had this one leader and heard no beat from it. */
  lemma {:induction false} SilenceIsCounted(states: seq<NodeState>, inputs: seq<Input>, j: nat) returns (i: nat)
    requires IsRun(states, inputs) && j < |states| && states[j].sinceBeat > 0
    requires states[j].leader != NO_NODE && !states[j].Leads()
    ensures i < j && OneSilence(states, inputs, i, j, states[j].leader) && states[j].sinceBeat <= Ticks(inputs, i, j)
  {
    hide Step;
    RunKeepsInv(states, inputs, 0, j);
    var n, input, n' := states[j - 1], inputs[j - 1], states[j];
    RunKeepsInv(states, inputs, 0, j - 1);
    assert Follows(n, input, n');
    StepKeepsPlace(n, input.now, input.event);
    if n'.sinceBeat <= (if input.event.ControlTick? then 1 else 0) {
      i := j - 1;
      assert Ticks(inputs, i, i) == 0;
    } else {
      i := SilenceIsCounted(states, inputs, j - 1);
      assert OneSilence(states, inputs, i, j - 1, n.leader);
    }
  }

  /** The leader a tick finds silent for long enough, or NO_NODE. */
  ghost function SilentLeader(n: NodeState, now: Time): NodeID
    requires n.Keyed()
  {
    var c := AtSilenceCheck(n, now);
    if !c.Leads() && c.leader != NO_NODE && c.sinceBeat + 1 >= c.cfg.heartbeatMisses then c.leader else NO_NODE
  }

  lemma SilenceCheckInv(n: NodeState, now: Time)
    requires Inv(n)
    ensures Inv(AtSilenceCheck(n, now)) && AtSilenceCheck(n, now).cfg == n.cfg
  {
    hide ExpireSuspicions, IfChanged, SweepTombstones;
    var n1 := ExpireSuspicions(n, now);
    ExpireSuspicionsKeeps(n, now);
    IfChangedKeeps(n, n1);
    IfChangedKeepsStanding(n, n1);
    SweepKeeps(IfChanged(n, n1), now);
  }

  /**
   * The tick that finds a leader silent is the last of at least the configured number in one silence of that leader. (A
   * threshold of one or none is met by the tick alone.)
   */
  lemma SilenceIsEarned(states: seq<NodeState>, inputs: seq<Input>, j: nat) returns (i: nat)
    requires IsRun(states, inputs) && j < |inputs| && inputs[j].event.ControlTick? && states[j].Keyed()
    requires SilentLeader(states[j], inputs[j].now) != NO_NODE
    ensures i <= j && OneSilence(states, inputs, i, j, SilentLeader(states[j], inputs[j].now))
    ensures Ticks(inputs, i, j + 1) >= states[j].cfg.heartbeatMisses
    ensures states[j].cfg.heartbeatMisses > 1 ==> i < j
  {
    hide AtSilenceCheck, JoinInv;
    RunKeepsInv(states, inputs, 0, j);
    UntilSilenceCheck(states[j], inputs[j].now);
    SilenceCheckInv(states[j], inputs[j].now);
    if states[j].cfg.heartbeatMisses > 1 {
      i := SilenceIsCounted(states, inputs, j);
    } else {
      i := j;
      assert Ticks(inputs, j, j) == 0;
    }
  }
}
