// The node itself: one event loop that owns these fields and updates them in place. Every handler is proved against
// its transition function, so what is proved of the transitions holds of the loop.

module NodeLoop {
  import opened Health
  import opened Membership
  import opened Sorting
  import opened Election
  import opened Affinity
  import opened NodeModel
  import opened NodeInvariant
  import opened Options

  class Node {
    const cfg: NodeConfig
    const table: Table
    var election: Config
    var rehome: real
    var incarnation: int64
    var term: nat
    var leaders: seq<NodeID>
    var leader: NodeID
    var hint: NodeID
    var joinID: nat
    var joins: nat
    var rejections: nat
    var attached: set<NodeID>
    var local: Scores
    var missed: map<NodeID, nat>
    var suspects: map<NodeID, Suspicion>
    var probing: bool
    var probeSeq: nat
    var tombstones: map<NodeID, Tombstone>
    var tombVersion: nat
    var sinceBeat: nat
    var sent: seq<Message>

    ghost function State(): NodeState reads this, table {
      NodeState(cfg, election, rehome, table.Contents(), incarnation, term, leaders, leader, hint, joinID, joins,
                rejections, attached, local, missed, suspects, probing, probeSeq, tombstones, tombVersion, sinceBeat,
                sent)
    }

    ghost predicate Valid() reads this, table {
      table.Valid() && Inv(State())
    }

    constructor (cfg: NodeConfig, election: Config, rehome: real, incarnation: int64)
      requires cfg.self != NO_NODE
      ensures fresh(table) && Valid() && State() == Boot(cfg, election, rehome, incarnation)
    {
      this.cfg, this.election, this.rehome, this.incarnation := cfg, election, rehome, incarnation;
      table := new Table();
      term, leaders, leader, hint, joinID, joins, rejections := 0, [], NO_NODE, NO_NODE, 0, 0, 0;
      attached, local, missed, suspects := {}, map[], map[], map[];
      probing, probeSeq, tombstones, tombVersion, sinceBeat, sent := false, 0, map[], 0, 0, [];
      new;
      var _ := table.Upsert(Member(cfg.self, cfg.advertise, Worker, Alive, incarnation, Unavailable, 1));
      BootInv(cfg, election, rehome, incarnation);
    }

    // -------------------------------------------------------------------------
    // Sending
    // -------------------------------------------------------------------------

    method Send(m: Message)
      modifies this`sent
      ensures State() == old(State()).Send(m)
    {
      sent := sent + [m];
    }

    /** Pushes the node's record of `id` to every peer. */
    method PushRecord(id: NodeID)
      modifies this`sent
      ensures State() == old(State()).Announce(id)
    {
      if id in table.members {
        Send(DeltaMsg(NO_NODE, [table.members[id]]));
      }
    }

    method SendView(to: NodeID)
      requires table.Valid()
      modifies this`sent
      ensures State() == old(State()).Send(DeltaMsg(to, ViewOf(table.members)))
    {
      var view := table.Snapshot();
      Send(DeltaMsg(to, view));
    }

    // -------------------------------------------------------------------------
    // Election and affinity
    // -------------------------------------------------------------------------

    method UsableLeaders(elected: seq<NodeID>) returns (usable: seq<NodeID>)
      ensures usable == Keep(Undoubted(suspects), elected)
    {
      if |suspects| == 0 {
        KeepAll(Undoubted(suspects), elected);
        return elected;
      }
      usable := [];
      for i := 0 to |elected|
        invariant usable == Keep(Undoubted(suspects), elected[..i])
      {
        KeepStep(Undoubted(suspects), elected, i);
        if elected[i] !in suspects {
          usable := usable + [elected[i]];
        }
      }
      assert elected[..|elected|] == elected;
    }

    method Join(to: NodeID)
      modifies this`leader, this`joins, this`joinID, this`sinceBeat, this`sent
      ensures State() == SendJoin(old(State()), to)
    {
      hide WellKeyed, TableState.Commit, NodeState.Keyed;
      var delivered := cfg.delivers(joins);
      joins := joins + 1;
      if delivered {
        leader, joinID, sinceBeat := to, joins, 0;
        sent := sent + [JoinMsg(to, joins)];
      } else {
        leader, joinID := NO_NODE, 0;
      }
    }

    method FollowLeader(elected: seq<NodeID>)
      requires NO_NODE !in elected
      modifies this`attached, this`leader, this`hint, this`joins, this`joinID, this`sinceBeat, this`sent
      ensures State() == Follow(old(State()), elected)
    {
      hide Closest, Keep, ShouldRehome, SendJoin;
      var usable := UsableLeaders(elected);
      KeepMembers(Undoubted(suspects), elected);
      Detach(usable);
      var best := Preferred(usable);
      hint := NO_NODE;
      if rejections <= MAX_REJECTIONS_PER_ROUND && best != NO_NODE &&
         ShouldRehome(leader, best, local, usable, rehome) {
        Join(best);
      }
    }

    /** A demoted leader has no cluster, and a leader that is not usable is left at once. */
    method Detach(usable: seq<NodeID>)
      modifies this`attached, this`leader
      ensures State() == old(State()).(attached := {}, leader := if old(leader) in usable then old(leader) else NO_NODE)
    {
      attached := {};
      if leader != NO_NODE && leader !in usable {
        leader := NO_NODE;
      }
    }

    /** The hinted leader if usable, else the closest one; NO_NODE if there is neither. */
    method Preferred(usable: seq<NodeID>) returns (best: NodeID)
      requires NO_NODE !in usable
      ensures best == if hint != NO_NODE && hint in usable then hint else Closest(local, usable)
    {
      var ok;
      best, ok := ChooseLeader(local, usable);
      if hint != NO_NODE && hint in usable {
        best := hint;
      }
    }

    method DropWorkers(view: Members)
      modifies this`attached
      ensures State() == old(State()).(attached := StillOurs(old(attached), view))
    {
      var rest := attached;
      while rest != {}
        invariant rest <= old(attached)
        invariant attached == StillOurs(old(attached) - rest, view) + rest
        decreases rest
      {
        var id :| id in rest;
        rest := rest - {id};
        if id !in view || view[id].state == Dead || view[id].role == Leader {
          attached := attached - {id};
        }
      }
      assert old(attached) - {} == old(attached);
    }

    method ViewScores(view: seq<Member>) returns (scores: Scores)
      requires table.Valid() && IsView(view, table.members)
      ensures scores == ReportedScores(table.members)
    {
      scores := map[];
      for i := 0 to |view|
        invariant forall id :: id in scores <==> exists m <- view[..i] :: m.id == id
        invariant forall id <- scores :: id in table.members && scores[id] == table.members[id].score
      {
        assert view[..i + 1] == view[..i] + [view[i]];
        assert view[i] in view;
        scores := scores[view[i].id := view[i].score];
      }
      assert view[..|view|] == view;
      assert forall id <- table.members :: table.members[id] in view;
    }

    method TakeOwnRole(elected: seq<NodeID>)
      requires table.Valid()
      modifies this`sent, table
      ensures table.Valid() && State() == TakeRole(old(State()), elected)
    {
      var role := if cfg.self in elected then Leader else Worker;
      var changed := table.SetRole(cfg.self, role);
      if changed {
        PushRecord(cfg.self);
      }
    }

    method AdoptLeaders(elected: seq<NodeID>)
      modifies this`leaders, this`term, this`sent
      ensures State() == TakeLeaders(old(State()), elected)
    {
      if elected != leaders {
        leaders := elected;
        term := term + 1;
        Send(ElectionMsg(term, leaders));
      }
    }

    method Reevaluate()
      requires Valid()
      modifies this, table
      ensures Valid() && State() == Evaluate(old(State()))
    {
      hide ElectionOf, TakeRole, TakeLeaders, Follow, Elected, Inv, ViewOf, Evaluate, StillOurs;
      ghost var n := State();
      InvOwns(n);
      var before := table.members;
      var view := table.Snapshot();
      var scores := ViewScores(view);
      var result := Elect(view, scores, election);
      ElectionIs(n);
      ElectedAreMembers(n);
      TakeRoleFacts(n, result.leaders);
      TakeLeadersFacts(TakeRole(n, result.leaders), result.leaders);
      TakeOwnRole(result.leaders);
      AdoptLeaders(result.leaders);
      if cfg.self in result.leaders {
        leader, hint := cfg.self, NO_NODE;
        DropWorkers(before);
      } else {
        FollowLeader(result.leaders);
      }
      EvaluateIs(n, State());
      EvaluateInv(n);
      InvOwns(State());
    }

    /** Drops the measurements of peers that are dead or gone. */
    method PruneLocal()
      modifies this`local, this`missed
      ensures State() == Pruned(old(State()))
    {
      var view := table.members;
      var rest := local.Keys;
      while rest != {}
        invariant rest <= old(local).Keys && local.Keys <= old(local).Keys && missed == old(missed)
        invariant forall id <- old(local) ::
          id in local <==> id in rest || id == cfg.self || (id in view && !view[id].state.Dead?)
        invariant forall id <- local :: local[id] == old(local)[id]
        decreases rest
      {
        var id :| id in rest;
        rest := rest - {id};
        if (id !in view || view[id].state == Dead) && id != cfg.self {
          local := local - {id};
        }
      }
      assert local == Pruned(old(State())).local;
      rest := missed.Keys;
      while rest != {}
        invariant local == Pruned(old(State())).local
        invariant rest <= old(missed).Keys && missed.Keys <= old(missed).Keys
        invariant forall id <- old(missed) :: id in missed <==> id in rest || (id in view && !view[id].state.Dead?)
        invariant forall id <- missed :: missed[id] == old(missed)[id]
        decreases rest
      {
        var id :| id in rest;
        rest := rest - {id};
        if id !in view || view[id].state == Dead {
          missed := missed - {id};
        }
      }
      assert missed == Pruned(old(State())).missed;
    }

    method AfterChange()
      requires Valid()
      modifies this, table
      ensures Valid() && State() == MembershipChanged(old(State()))
    {
      hide Pruned, Evaluate;
      PrunedKeeps(State());
      PruneLocal();
      InvOwns(State());
      Reevaluate();
    }

    // -------------------------------------------------------------------------
    // First-hand evidence
    // -------------------------------------------------------------------------

    method MarkDead(id: NodeID) returns (changed: bool)
      requires table.Valid()
      modifies this`attached, this`suspects, this`sent, table
      ensures table.Valid() && State() == NodeModel.MarkDead(old(State()), id)
      ensures changed <==> table.version != old(table.version)
    {
      attached := attached - {id};
      suspects := suspects - {id};
      changed := table.SetState(id, Dead);
      if changed {
        PushRecord(id);
      }
    }

    method RaiseDoubt(now: Time, id: NodeID, silent: bool) returns (changed: bool)
      requires table.Valid()
      modifies this`suspects, this`sent, table
      ensures table.Valid() && State() == Doubt(old(State()), now, id, silent)
      ensures changed <==> table.version != old(table.version)
    {
      if id == cfg.self {
        return false;
      }
      if id !in table.members || table.members[id].state == Dead {
        return false;
      }
      if id !in suspects {
        suspects := suspects[id := Suspicion(now, table.members[id].incarnation, probeSeq, silent)];
      } else if silent && !suspects[id].silent {
        suspects := suspects[id := suspects[id].(silent := true)];
      }
      assert suspects == old(suspects)[id := suspects[id]];
      changed := table.SetState(id, Suspect);
      if changed {
        PushRecord(id);
      }
    }

    method Greet(id: NodeID, advertise: NodeAddress, incarnation: int64) returns (changed: bool)
      requires table.Valid()
      modifies this`suspects, table
      ensures table.Valid() && State() == Greeted(old(State()), id, advertise, incarnation)
      ensures changed <==> table.version != old(table.version)
    {
      var role, score := Worker, Unavailable;
      if id in table.members {
        role, score := table.members[id].role, table.members[id].score;
      }
      changed := table.Upsert(Member(id, advertise, role, Alive, incarnation, score, 0));
      var revived := table.Revive(id, incarnation);
      if revived {
        changed := true;
      }
      suspects := suspects - {id};
    }

    method HandlePeerUp(id: NodeID, advertise: NodeAddress, incarnation: int64)
      requires Valid()
      modifies this, table
      ensures Valid() && State() == OnPeerUp(old(State()), id, advertise, incarnation)
    {
      hide Greeted, MembershipChanged, ViewOf, Inv;
      InvOwns(State());
      if id == NO_NODE || id == cfg.self {
        return;
      }
      ghost var n := State();
      PeerUpMidway(n, id, advertise, incarnation);
      var changed := Greet(id, advertise, incarnation);
      SendView(id);
      if changed {
        AfterChange();
      }
      InvOwns(State());
    }

    method HandlePeerDown(now: Time, id: NodeID, disposition: Disposition)
      requires Valid()
      modifies this, table
      ensures Valid() && State() == OnPeerDown(old(State()), now, id, disposition)
    {
      hide NodeModel.MarkDead, Doubt, MembershipChanged, Inv;
      InvOwns(State());
      if id == NO_NODE || id == cfg.self {
        return;
      }
      PeerDownMidway(State(), now, id);
      attached := attached - {id};
      var changed;
      if disposition == LinkLost {
        changed := RaiseDoubt(now, id, false);
      } else {
        changed := MarkDead(id);
      }
      if changed {
        AfterChange();
      }
      InvOwns(State());
    }

    method HandleDeath(id: NodeID)
      requires Valid() && id != cfg.self && id != NO_NODE
      modifies this, table
      ensures Valid() && State() == OnDeath(old(State()), id)
    {
      hide NodeModel.MarkDead, MembershipChanged, Inv;
      InvOwns(State());
      MarkDeadKeeps(State(), id);
      var changed := MarkDead(id);
      if changed {
        AfterChange();
      }
      InvOwns(State());
    }

    // -------------------------------------------------------------------------
    // Rumours
    // -------------------------------------------------------------------------

    method RefuteIfNeeded(rumour: Member)
      requires table.Valid()
      modifies this`incarnation, this`sent, table
      ensures table.Valid() && State() == Refute(old(State()), rumour)
    {
      if rumour.state == Alive || rumour.incarnation < incarnation {
        return;
      }
      incarnation := NextIncarnation(rumour.incarnation);
      var role, score, stamp := Worker, Measured(0.0), 0;
      if cfg.self in table.members {
        var own := table.members[cfg.self];
        role, score, stamp := own.role, own.score, own.claimSeq;
      }
      var _ := table.Upsert(Member(cfg.self, cfg.advertise, role, Alive, incarnation, score, stamp));
      PushRecord(cfg.self);
    }

    method ApplyRecord(before: Members, from: NodeID, rec: Member) returns (changed: bool)
      requires table.Valid()
      modifies this`incarnation, this`sent, table
      ensures table.Valid() && State() == TakeRecord(old(State()), before, from, rec)
      ensures changed <==> rec.id != cfg.self && table.Contents() != old(table.Contents())
    {
      hide Refute;
      if rec.id == NO_NODE {
        return false;
      }
      if rec.id == cfg.self {
        RefuteIfNeeded(rec);
        return false;
      }
      var score := Unavailable;
      if rec.score.Measured? && rec.score.value >= 0.0 {
        score := rec.score;
      }
      if rec.id !in before && rec.state == Dead {
        return false;
      }
      var role := rec.role;
      if rec.claimSeq == 0 && rec.id != from {
        role := Worker;
        if rec.id in before {
          role := before[rec.id].role;
        }
      }
      changed := table.Upsert(rec.(score := score, role := role));
    }

    method VoidIfLeaderStepped(before: Members)
      modifies this`leader
      ensures State() == VoidAttachment(old(State()), before)
    {
      if leader == NO_NODE || leader == cfg.self {
        return;
      }
      if leader !in before || before[leader].role != Leader {
        return;
      }
      if leader in table.members && table.members[leader].role != Leader {
        leader := NO_NODE;
      }
    }

    method HandleDelta(from: NodeID, records: seq<Member>)
      requires Valid()
      modifies this, table
      ensures Valid() && State() == OnDelta(old(State()), from, records)
    {
      hide TakeRecord, VoidAttachment, MembershipChanged, Inv;
      InvOwns(State());
      ghost var n := State();
      var changed := false;
      var before := table.members;
      for i := 0 to |records|
        invariant table.Valid()
        invariant (State(), changed) == TakeRecords(n, before, from, records[..i])
      {
        assert records[..i + 1][..i] == records[..i];
        var news := ApplyRecord(before, from, records[i]);
        if news {
          changed := true;
        }
      }
      assert records[..|records|] == records;
      TakeRecordsKeeps(n, before, from, records);
      if changed {
        VoidAttachmentKeeps(State(), before);
        VoidIfLeaderStepped(before);
        InvOwns(State());
        AfterChange();
      }
      InvOwns(State());
    }

    // -------------------------------------------------------------------------
    // The JOIN exchange and heartbeats
    // -------------------------------------------------------------------------

    method HandleJoinCluster(from: NodeID, claimed: NodeID, number: nat)
      modifies this`attached, this`sent
      ensures State() == OnJoinCluster(old(State()), from, claimed, number)
    {
      var worker := claimed;
      if worker == NO_NODE {
        worker := from;
      }
      if cfg.self in leaders {
        attached := attached + {worker};
        Send(JoinAckMsg(from, number, true, cfg.self));
      } else {
        Send(JoinAckMsg(from, number, false, leader));
      }
    }

    method HandleJoinAck(from: NodeID, number: nat, accepted: bool, named: NodeID)
      requires Valid() && from != cfg.self && from != NO_NODE
      modifies this, table
      ensures Valid() && State() == OnJoinAck(old(State()), from, number, accepted, named)
    {
      hide Evaluate, Inv;
      InvOwns(State());
      if number == 0 || number != joinID || leader != from {
        return;
      }
      JoinAckMidway(State(), from, named);
      if accepted && (named == NO_NODE || named == from) {
        Accepted();
      } else {
        Detached(!accepted, named);
        InvOwns(State());
        Reevaluate();
      }
      InvOwns(State());
    }

    method Accepted()
      modifies this`joinID, this`hint
      ensures State() == old(State()).(joinID := 0, hint := NO_NODE)
    {
      joinID, hint := 0, NO_NODE;
    }

    /** The outstanding JOIN has failed; a rejection also names where to look next, and is counted. */
    method Detached(rejected: bool, named: NodeID)
      modifies this`joinID, this`leader, this`hint, this`rejections
      ensures State() == if rejected
                         then old(State()).(joinID := 0, leader := NO_NODE, hint := named,
                                            rejections := old(rejections) + 1)
                         else old(State()).(joinID := 0, leader := NO_NODE)
    {
      joinID, leader := 0, NO_NODE;
      if rejected {
        hint := named;
        rejections := rejections + 1;
      }
    }

    method ResumeBeat(from: NodeID)
      requires Valid()
      modifies this, table
      ensures Valid() && State() == BeatResumed(old(State()), from)
    {
      hide MembershipChanged, Inv;
      InvOwns(State());
      if from !in suspects || !suspects[from].silent {
        return;
      }
      BeatMidway(State(), from);
      var s := suspects[from];
      suspects := suspects - {from};
      var changed := table.Revive(from, s.incarnation);
      if changed {
        AfterChange();
      }
      InvOwns(State());
    }

    method AdoptTerm(from: NodeID, theirs: nat)
      modifies this`term, this`sinceBeat
      ensures State() == old(State()).(term := theirs,
                                       sinceBeat := if from == leader && !old(State()).Leads() then 0
                                                     else old(sinceBeat))
    {
      term := theirs;
      if from == leader && cfg.self !in leaders {
        sinceBeat := 0;
      }
    }

    method HandleHeartbeat(from: NodeID, theirs: nat)
      requires Valid()
      modifies this, table
      ensures Valid() && State() == OnHeartbeat(old(State()), from, theirs)
    {
      hide BeatResumed, Inv;
      InvOwns(State());
      OnHeartbeatKeeps(State(), from, theirs);
      if theirs >= term {
        HeartbeatMidway(State(), from, theirs);
        AdoptTerm(from, theirs);
        InvOwns(State());
        ResumeBeat(from);
      }
      Send(BeatAckMsg(from, term, leader));
      InvOwns(State());
    }

    method HandleHeartbeatAck(from: NodeID, theirs: nat, observed: NodeID)
      modifies this`term, this`attached
      ensures State() == OnHeartbeatAck(old(State()), from, theirs, observed)
    {
      if theirs > term {
        term := theirs;
      }
      if observed != cfg.self && from in attached {
        attached := attached - {from};
      } else if observed == cfg.self && from !in attached && cfg.self in leaders {
        if from in table.members && table.members[from].state != Dead && table.members[from].role != Leader {
          attached := attached + {from};
        }
      }
    }

    method HandleStateSync(from: NodeID, named: NodeID, theirs: nat)
      modifies this`term
      ensures State() == OnStateSync(old(State()), from, named, theirs)
    {
      if cfg.self in leaders || from != leader || (named != NO_NODE && named != from) {
        return;
      }
      if theirs > term {
        term := theirs;
      }
    }

    method WatchLeader(now: Time)
      requires Valid() && cfg.self !in leaders && leader != NO_NODE
      modifies this, table
      ensures Valid() && State() == CheckLeaderSilence(old(State()), now)
    {
      hide Doubt, MembershipChanged, Inv;
      InvOwns(State());
      SilenceMidway(State(), now);
      sinceBeat := sinceBeat + 1;
      if sinceBeat < cfg.heartbeatMisses {
        InvOwns(State());
        return;
      }
      FailOver(now);
      InvOwns(State());
      AfterChange();
      InvOwns(State());
    }

    /** Detaches whether or not the table changed: the leader may already be suspect by rumour. */
    method FailOver(now: Time)
      requires table.Valid()
      modifies this`sinceBeat, this`suspects, this`sent, this`leader, table
      ensures table.Valid()
      ensures State() == Doubt(old(State()).(sinceBeat := 0), now, old(leader), true).(leader := NO_NODE)
    {
      hide Doubt;
      sinceBeat := 0;
      var _ := RaiseDoubt(now, leader, true);
      leader := NO_NODE;
    }

    // -------------------------------------------------------------------------
    // Probing
    // -------------------------------------------------------------------------

    method StartProbeRound()
      modifies this`probing, this`probeSeq
      ensures State() == OnProbeTick(old(State()))
    {
      if probing {
        return;
      }
      probing := true;
      probeSeq := probeSeq + 1;
    }

    method ApplyMiss(now: Time, id: NodeID) returns (changed: bool)
      requires table.Valid()
      modifies this`local, this`missed, this`attached, this`suspects, this`sent, table
      ensures table.Valid() && State() == ProbeMissed(old(State()), now, id)
      ensures changed <==> table.version != old(table.version)
    {
      hide NodeModel.MarkDead, Doubt;
      local := local[id := Unavailable];
      missed := missed[id := (if id in missed then missed[id] else 0) + 1];
      changed := false;
      if missed[id] >= cfg.deadAfter {
        changed := MarkDead(id);
      } else if missed[id] >= cfg.suspectAfter {
        changed := RaiseDoubt(now, id, false);
      }
    }

    method ClearByProbe(id: NodeID, round: nat, incarnation: int64) returns (changed: bool)
      requires table.Valid()
      modifies this`suspects, table
      ensures table.Valid() && State() == ProbeClears(old(State()), id, round, incarnation)
      ensures changed <==> table.version != old(table.version)
    {
      if id in suspects && (round <= suspects[id].round || suspects[id].silent) {
        return false;
      }
      suspects := suspects - {id};
      changed := table.Revive(id, incarnation);
    }

    method ApplyResult(now: Time, round: nat, view: Members, id: NodeID, result: ProbeResult) returns (changed: bool)
      requires table.Valid()
      modifies this`local, this`missed, this`attached, this`suspects, this`sent, table
      ensures table.Valid() && State() == TakeResult(old(State()), now, round, view, id, result)
      ensures changed <==> table.version != old(table.version)
    {
      hide ProbeMissed, ProbeClears;
      changed := false;
      if id !in view || view[id].state == Dead {
        return;
      }
      match result {
        case Canceled =>
        case Failed => changed := ApplyMiss(now, id);
        case Scored(score) =>
          local := local[id := score];
          missed := missed[id := 0];
          if view[id].state == Suspect {
            changed := ClearByProbe(id, round, view[id].incarnation);
          }
      }
    }

    method UpdateSelfScore(next: Score)
      requires table.Valid()
      modifies this`local, this`sent, table
      ensures table.Valid() && State() == TakeSelfScore(old(State()), next)
    {
      local := local[cfg.self := next];
      var prev := Unavailable;
      if cfg.self in table.members {
        prev := table.members[cfg.self].score;
      }
      var margin := election.WithDefaults().hysteresis;
      if prev.Measured? && next.Measured? && Abs(next.value - prev.value) < margin {
        return;
      }
      var changed := table.SetScore(cfg.self, next);
      if changed {
        PushRecord(cfg.self);
      }
    }

    method ApplyResults(now: Time, round: nat, results: map<NodeID, ProbeResult>) returns (changed: bool)
      requires table.Valid()
      modifies this`local, this`missed, this`attached, this`suspects, this`sent, table
      ensures table.Valid()
      ensures State() == TakeResults(old(State()), now, round, old(table.members), IdList(results.Keys), results)
      ensures changed <==> table.version != old(table.version)
    {
      hide TakeResult, TakeResults, IdList;
      ghost var n := State();
      var view := table.members;
      NoResults(n, now, round, view, results);
      var peers := SortedIds(results.Keys);
      changed := false;
      for i := 0 to |peers|
        invariant table.Valid() && table.version >= n.tab.version
        invariant State() == TakeResults(n, now, round, view, peers[..i], results)
        invariant changed <==> table.version != n.tab.version
      {
        NextResult(n, now, round, view, peers, i, results);
        TakeResultGrows(State(), now, round, view, peers[i], results[peers[i]]);
        var news := ApplyResult(now, round, view, peers[i], results[peers[i]]);
        if news {
          changed := true;
        }
      }
      assert peers[..|peers|] == peers;
    }

    method ApplyProbeRound(now: Time, round: nat, results: map<NodeID, ProbeResult>, selfScore: Score)
      requires Valid() && cfg.self !in results
      modifies this, table
      ensures Valid() && State() == OnProbeRound(old(State()), now, round, results, selfScore)
    {
      hide TakeResults, TakeSelfScore, Evaluate, Pruned, Inv;
      InvOwns(State());
      ProbeRoundMidway(State(), now, round, results, selfScore);
      probing := false;
      rejections := 0;
      var changed := ApplyResults(now, round, results);
      if changed {
        PruneLocal();
      }
      UpdateSelfScore(selfScore);
      Reevaluate();
      InvOwns(State());
    }

    // -------------------------------------------------------------------------
    // The failure-detector tick
    // -------------------------------------------------------------------------

    method ExpireOneSuspicion(now: Time, view: Members, id: NodeID) returns (changed: bool)
      requires table.Valid() && id in suspects
      modifies this`attached, this`suspects, this`sent, table
      ensures table.Valid() && State() == Expire(old(State()), now, view, id)
      ensures changed <==> table.version != old(table.version)
    {
      hide NodeModel.MarkDead;
      changed := false;
      var s := suspects[id];
      if id !in view || view[id].state != Suspect || view[id].incarnation != s.incarnation {
        suspects := suspects - {id};
        return;
      }
      if now - s.since < cfg.suspicionTimeout {
        return;
      }
      changed := MarkDead(id);
    }

    method ExpireDoubts(now: Time) returns (changed: bool)
      requires table.Valid()
      modifies this`attached, this`suspects, this`sent, table
      ensures table.Valid() && State() == ExpireSuspicions(old(State()), now)
      ensures changed <==> table.version != old(table.version)
    {
      hide Expire, ExpireAll, IdList;
      ghost var n := State();
      var view := table.members;
      var ids := SortedIds(suspects.Keys);
      changed := false;
      NothingExpires(n, now, view);
      for i := 0 to |ids|
        invariant table.Valid() && table.version >= n.tab.version
        invariant State() == ExpireAll(n, now, view, ids[..i])
        invariant forall k :: i <= k < |ids| ==> ids[k] in suspects
        invariant changed <==> table.version != n.tab.version
      {
        NextExpires(n, now, view, ids, i);
        ExpireIsLocal(State(), now, view, ids[i]);
        var news := ExpireOneSuspicion(now, view, ids[i]);
        if news {
          changed := true;
        }
      }
      assert ids[..|ids|] == ids;
    }

    method ReconcileTombstones(now: Time)
      modifies this`tombstones, this`tombVersion
      ensures State() == old(State()).(tombVersion := table.version, tombstones := Reconciled(old(State()), now))
    {
      if table.version == tombVersion {
        assert Reconciled(State(), now) == tombstones;
        return;
      }
      TimeTheDead(now);
    }

    method TimeTheDead(now: Time)
      requires table.version != tombVersion
      modifies this`tombstones, this`tombVersion
      ensures tombVersion == table.version && tombstones == Reconciled(old(State()), now)
    {
      tombVersion := table.version;
      var dead := map id <- table.members | Buried(table.members, cfg.self, id) :: table.members[id].incarnation;
      var rest := dead.Keys;
      while rest != {}
        invariant rest <= dead.Keys && tombVersion == table.version
        invariant forall id :: id in tombstones <==> id in old(tombstones) || id in dead.Keys - rest
        invariant forall id <- tombstones ::
          tombstones[id] == if id in dead.Keys - rest then Timed(old(tombstones), id, dead[id], now)
                            else old(tombstones)[id]
        decreases rest
      {
        var id :| id in rest;
        rest := rest - {id};
        if id !in tombstones || tombstones[id].incarnation != dead[id] {
          tombstones := tombstones[id := Tombstone(now, dead[id])];
        }
      }
      rest := tombstones.Keys;
      while rest != {}
        invariant rest <= tombstones.Keys && tombVersion == table.version
        invariant dead.Keys <= tombstones.Keys && forall id <- tombstones :: id in rest || id in dead
        invariant forall id <- dead :: tombstones[id] == Timed(old(tombstones), id, dead[id], now)
        decreases rest
      {
        var id :| id in rest;
        rest := rest - {id};
        if id !in dead {
          tombstones := tombstones - {id};
        }
      }
      ReconciledIs(old(State()), now, dead, tombstones);
    }

    /** Forgets one tombstone, and collects its record if it is still the one that was timed. */
    method CollectTombstone(id: NodeID)
      requires table.Valid() && id in tombstones
      modifies this`tombstones, table
      ensures table.Valid() && tombstones == old(tombstones) - {id}
      ensures table.Contents() == old(table.Contents()).Commit(
                if IsTimed(old(table.members), id, old(tombstones)[id]) then old(table.members) - {id}
                else old(table.members))
    {
      var ts := tombstones[id];
      tombstones := tombstones - {id};
      if id in table.members && table.members[id].state == Dead && table.members[id].incarnation == ts.incarnation {
        var _ := table.Remove(id);
      }
    }

    method Sweep(now: Time)
      requires table.Valid()
      modifies this`tombstones, this`tombVersion, table
      ensures table.Valid() && State() == SweepTombstones(old(State()), now)
    {
      hide Reconciled;
      ghost var n := State();
      ReconcileTombstones(now);
      CollectOld(now);
      SweepIs(n, now, tombstones, table.Contents());
    }

    /** Forgets every tombstone past its time. */
    method CollectOld(now: Time)
      requires table.Valid()
      modifies this`tombstones, table
      ensures table.Valid()
      ensures tombstones == Young(old(tombstones), now, cfg.tombstoneTTL)
      ensures var gone := Old(old(tombstones), now, cfg.tombstoneTTL, old(table.members));
              table.Contents() == TableState(old(table.members) - gone, old(table.version) + |gone|)
    {
      hide Young, Old;
      ghost var t, tombs, ttl, gone := table.members, tombstones, cfg.tombstoneTTL, {};
      var rest := tombstones.Keys;
      NothingOld(tombs, now, ttl, t);
      while rest != {}
        invariant table.Valid() && rest <= tombs.Keys
        invariant Swept(tombs, now, ttl, t, rest, tombstones, gone)
        invariant table.members == t - gone && table.version == old(table.version) + |gone|
        decreases rest
      {
        var id :| id in rest;
        SweepOne(tombs, now, ttl, t, rest, tombstones, gone, id);
        rest := rest - {id};
        if now - tombstones[id].since >= cfg.tombstoneTTL {
          CollectTombstone(id);
          if IsTimed(t, id, tombs[id]) {
            assert t - (gone + {id}) == (t - gone) - {id};
            gone := gone + {id};
          }
        }
      }
      SweptAll(tombs, now, ttl, t, tombstones, gone);
    }

    method SendBeats()
      modifies this`sent
      ensures State() == old(State()).(sent := old(sent) + Map(Beat(old(State())), IdList(attached)))
    {
      hide IdList;
      ghost var beat := Beat(State());
      var ids := SortedIds(attached);
      for i := 0 to |ids|
        invariant sent == old(sent) + Map(beat, ids[..i])
      {
        assert ids[..i + 1] == ids[..i] + [ids[i]];
        Send(BeatMsg(ids[i], term));
      }
      assert ids[..|ids|] == ids;
    }

    method HandleControlTick(now: Time)
      requires Valid()
      modifies this, table
      ensures Valid() && State() == OnControlTick(old(State()), now)
    {
      hide ExpireSuspicions, MembershipChanged, SweepTombstones, CheckLeaderSilence, IdList, Inv;
      InvOwns(State());
      OnControlTickKeeps(State(), now);
      ControlMidway(State(), now);
      var changed := ExpireDoubts(now);
      InvOwns(State());
      if changed {
        AfterChange();
      }
      Sweep(now);
      InvOwns(State());
      if cfg.self in leaders {
        SendBeats();
      } else if leader != NO_NODE {
        WatchLeader(now);
      }
      InvOwns(State());
    }

    // -------------------------------------------------------------------------
    // The loop
    // -------------------------------------------------------------------------

    method ApplyTuning(threshold: Option<real>, hysteresis: Option<real>)
      requires Valid()
      modifies this, table
      ensures Valid() && State() == OnTune(old(State()), threshold, hysteresis)
    {
      hide Evaluate, Inv;
      InvOwns(State());
      TuneMidway(State(), threshold, hysteresis);
      var changed := TakeSettings(threshold, hysteresis);
      if changed {
        InvOwns(State());
        Reevaluate();
      }
      InvOwns(State());
    }

    method TakeSettings(threshold: Option<real>, hysteresis: Option<real>) returns (changed: bool)
      modifies this`election, this`rehome
      ensures State() == Tuned(old(State()), threshold, hysteresis)
      ensures changed <==> State() != old(State())
    {
      changed := false;
      if threshold.Some? && 0.0 < threshold.value <= 1.0 && threshold.value != election.threshold {
        election := election.(threshold := threshold.value);
        changed := true;
      }
      if hysteresis.Some? && hysteresis.value >= 0.0 &&
         (hysteresis.value != election.hysteresis || hysteresis.value != rehome) {
        election := election.(hysteresis := hysteresis.value);
        rehome := hysteresis.value;
        changed := true;
      }
    }

    method HandleFrame(now: Time, e: Event)
      requires Valid() && Plausible(State(), e)
      requires e.Delta? || e.JoinCluster? || e.JoinAck? || e.Leave? || e.Malformed? || e.Heartbeat? ||
               e.HeartbeatAck? || e.StateSync?
      modifies this, table
      ensures Valid() && State() == Step(old(State()), now, e)
    {
      hide OnDelta, OnJoinCluster, OnJoinAck, OnDeath, OnHeartbeat, OnHeartbeatAck, OnStateSync, Evaluate, Inv;
      InvOwns(State());
      StepKeepsInv(State(), now, e);
      match e {
        case Delta(from, records) => HandleDelta(from, records);
        case JoinCluster(from, worker, number) => HandleJoinCluster(from, worker, number);
        case JoinAck(from, number, accepted, named) => HandleJoinAck(from, number, accepted, named);
        case Leave(from) => HandleDeath(from);
        case Malformed(from) => HandleDeath(from);
        case Heartbeat(from, theirs) => HandleHeartbeat(from, theirs);
        case HeartbeatAck(from, theirs, observed) => HandleHeartbeatAck(from, theirs, observed);
        case StateSync(from, named, theirs) => HandleStateSync(from, named, theirs);
      }
      InvOwns(State());
    }

    /** One turn of the loop. */
    method Handle(now: Time, e: Event)
      requires Valid() && Plausible(State(), e)
      modifies this, table
      ensures Valid() && State() == Step(old(State()), now, e)
    {
      hide OnPeerUp, OnPeerDown, OnProbeRound, OnControlTick, OnTune, OnProbeTick, Evaluate, ViewOf, Inv;
      match e {
        case PeerUp(id, advertise, incarnation) => HandlePeerUp(id, advertise, incarnation);
        case PeerDown(id, disposition) => HandlePeerDown(now, id, disposition);
        case ProbeTick => Tick(now, e);
        case GossipTick(_) => Tick(now, e);
        case ProbeRound(round, results, selfScore) => ApplyProbeRound(now, round, results, selfScore);
        case FloorTick => Reevaluate();
        case ControlTick => HandleControlTick(now);
        case Tune(threshold, hysteresis) => ApplyTuning(threshold, hysteresis);
        case _ => HandleFrame(now, e);
      }
    }

    /** The ticks that only start something. */
    method Tick(now: Time, e: Event)
      requires Valid() && (e.ProbeTick? || e.GossipTick?)
      modifies this
      ensures Valid() && State() == Step(old(State()), now, e)
    {
      hide OnProbeTick, ViewOf, Inv;
      InvOwns(State());
      StepKeepsInv(State(), now, e);
      match e {
        case ProbeTick => StartProbeRound();
        case GossipTick(to) => SendView(to);
      }
      InvOwns(State());
    }
  }

  // ---------------------------------------------------------------------------
  // The invariant half-way through a handler
  // ---------------------------------------------------------------------------

  lemma JoinAckMidway(n: NodeState, from: NodeID, named: NodeID)
    requires Inv(n) && from != n.cfg.self && from != NO_NODE && n.leader == from
    ensures Inv(n.(joinID := 0, hint := NO_NODE)) && Inv(n.(joinID := 0, leader := NO_NODE))
    ensures Inv(n.(joinID := 0, leader := NO_NODE, hint := named, rejections := n.rejections + 1))
  {
    DoubtsCarryOver(n, n.(joinID := 0, hint := NO_NODE));
    DoubtsCarryOver(n, n.(joinID := 0, leader := NO_NODE));
    DoubtsCarryOver(n, n.(joinID := 0, leader := NO_NODE, hint := named, rejections := n.rejections + 1));
  }

  lemma BeatMidway(n: NodeState, from: NodeID)
    requires Inv(n) && from in n.suspects
    ensures Inv(n.(suspects := n.suspects - {from}).Apply(Revived(n.tab.members, from, n.suspects[from].incarnation)))
  {
    var n1 := n.(suspects := n.suspects - {from}).Apply(Revived(n.tab.members, from, n.suspects[from].incarnation));
    assert DoubtIsCurrent(n, from) && OnlyTouches(n, n1, from);
    TouchKeepsInv(n, n1, from);
  }

  lemma HeartbeatMidway(n: NodeState, from: NodeID, term: nat)
    requires Inv(n)
    ensures Inv(n.(term := term, sinceBeat := if from == n.leader && !n.Leads() then 0 else n.sinceBeat))
  {
    DoubtsCarryOver(n, n.(term := term, sinceBeat := if from == n.leader && !n.Leads() then 0 else n.sinceBeat));
  }

  lemma SilenceMidway(n: NodeState, now: Time)
    requires Inv(n) && !n.Leads() && n.leader != NO_NODE
    ensures Inv(n.(sinceBeat := n.sinceBeat + 1))
    ensures Inv(Doubt(n.(sinceBeat := 0), now, n.leader, true).(leader := NO_NODE))
  {
    hide Doubt;
    var n1 := n.(sinceBeat := 0);
    DoubtsCarryOver(n, n.(sinceBeat := n.sinceBeat + 1));
    DoubtsCarryOver(n, n1);
    DoubtKeeps(n1, now, n.leader, true);
    DoubtsCarryOver(Doubt(n1, now, n.leader, true), Doubt(n1, now, n.leader, true).(leader := NO_NODE));
  }

  lemma NoResults(n: NodeState, now: Time, round: nat, view: Members, results: map<NodeID, ProbeResult>)
    ensures TakeResults(n, now, round, view, [], results) == n
  {
  }

  lemma NextResult(n: NodeState, now: Time, round: nat, view: Members, ids: seq<NodeID>, i: nat,
                   results: map<NodeID, ProbeResult>)
    requires i < |ids| && forall id <- ids :: id in results
    ensures forall id <- ids[..i] + [ids[i]] + ids[..i + 1] :: id in results
    ensures TakeResults(n, now, round, view, ids[..i + 1], results) ==
            TakeResult(TakeResults(n, now, round, view, ids[..i], results), now, round, view, ids[i], results[ids[i]])
  {
    hide TakeResult;
    assert ids[..i + 1][..i] == ids[..i];
  }

  lemma TakeResultGrows(n: NodeState, now: Time, round: nat, view: Members, id: NodeID, result: ProbeResult)
    ensures TakeResult(n, now, round, view, id, result).tab.version >= n.tab.version
  {
    hide ProbeMissed, ProbeClears;
    ProbeMissedGrows(n, now, id);
    if result.Scored? && id in view {
      ProbeClearsGrows(n.(local := n.local[id := result.score], missed := n.missed[id := 0]), id, round,
                       view[id].incarnation);
    }
  }

  lemma ProbeMissedGrows(n: NodeState, now: Time, id: NodeID)
    ensures ProbeMissed(n, now, id).tab.version >= n.tab.version
  {
    hide Doubt;
    var misses := (if id in n.missed then n.missed[id] else 0) + 1;
    DoubtGrows(n.(local := n.local[id := Unavailable], missed := n.missed[id := misses]), now, id, false);
  }

  lemma DoubtGrows(n: NodeState, now: Time, id: NodeID, silent: bool)
    ensures Doubt(n, now, id, silent).tab.version >= n.tab.version
  {
  }

  lemma ProbeClearsGrows(n: NodeState, id: NodeID, round: nat, incarnation: int64)
    ensures ProbeClears(n, id, round, incarnation).tab.version >= n.tab.version
  {
  }

  lemma ProbeRoundMidway(n: NodeState, now: Time, round: nat, results: map<NodeID, ProbeResult>, selfScore: Score)
    requires Inv(n) && n.Keyed() && n.cfg.self !in results
    ensures Inv(TakeSelfScore(ProbeResultsTaken(n, now, round, results), selfScore))
  {
    hide TakeResults, TakeSelfScore, Pruned;
    var n1 := n.(probing := false, rejections := 0);
    DoubtsCarryOver(n, n1);
    TakeResultsKeeps(n1, now, round, n.tab.members, IdList(results.Keys), results);
    PrunedKeeps(TakeResults(n1, now, round, n.tab.members, IdList(results.Keys), results));
    TakeSelfScoreKeeps(ProbeResultsTaken(n, now, round, results), selfScore);
  }

  lemma NothingExpires(n: NodeState, now: Time, view: Members)
    ensures ExpireAll(n, now, view, []) == n
  {
  }

  lemma NextExpires(n: NodeState, now: Time, view: Members, ids: seq<NodeID>, i: nat)
    requires i < |ids|
    ensures ExpireAll(n, now, view, ids[..i + 1]) == Expire(ExpireAll(n, now, view, ids[..i]), now, view, ids[i])
  {
    hide Expire;
    assert ids[..i + 1][..i] == ids[..i];
  }

  lemma ExpireIsLocal(n: NodeState, now: Time, view: Members, id: NodeID)
    ensures var n' := Expire(n, now, view, id);
            n'.tab.version >= n.tab.version && n'.suspects.Keys >= n.suspects.Keys - {id}
  {
  }

  function Timed(tombs: map<NodeID, Tombstone>, id: NodeID, incarnation: int64, now: Time): Tombstone {
    if id in tombs && tombs[id].incarnation == incarnation then tombs[id] else Tombstone(now, incarnation)
  }

  predicate IsTimed(t: Members, id: NodeID, ts: Tombstone) {
    id in t && t[id].state.Dead? && t[id].incarnation == ts.incarnation
  }

  lemma ReconciledIs(n: NodeState, now: Time, dead: map<NodeID, int64>, tombs: map<NodeID, Tombstone>)
    requires n.tab.version != n.tombVersion
    requires dead == map id <- n.tab.members | Buried(n.tab.members, n.cfg.self, id) :: n.tab.members[id].incarnation
    requires tombs.Keys == dead.Keys && forall id <- dead :: tombs[id] == Timed(n.tombstones, id, dead[id], now)
    ensures tombs == Reconciled(n, now)
  {
  }

  function Young(tombs: map<NodeID, Tombstone>, now: Time, ttl: Time): map<NodeID, Tombstone> {
    map id <- tombs | now - tombs[id].since < ttl :: tombs[id]
  }

  function Old(tombs: map<NodeID, Tombstone>, now: Time, ttl: Time, t: Members): set<NodeID> {
    set id <- tombs | now - tombs[id].since >= ttl && IsTimed(t, id, tombs[id])
  }

  /** Half-way through a sweep: `rest` is still to visit, and `gone` the members collected so far. */
  predicate Swept(tombs: map<NodeID, Tombstone>, now: Time, ttl: Time, t: Members, rest: set<NodeID>,
                  left: map<NodeID, Tombstone>, gone: set<NodeID>) {
    && (forall id <- tombs :: id in left <==> id in rest || id in Young(tombs, now, ttl))
    && left.Keys <= tombs.Keys && (forall id <- left :: left[id] == tombs[id])
    && gone == Old(tombs, now, ttl, t) - rest
  }

  lemma NothingOld(tombs: map<NodeID, Tombstone>, now: Time, ttl: Time, t: Members)
    ensures Swept(tombs, now, ttl, t, tombs.Keys, tombs, {})
  {
  }

  lemma SweepOne(tombs: map<NodeID, Tombstone>, now: Time, ttl: Time, t: Members, rest: set<NodeID>,
                 left: map<NodeID, Tombstone>, gone: set<NodeID>, id: NodeID)
    requires Swept(tombs, now, ttl, t, rest, left, gone) && id in rest && rest <= tombs.Keys
    ensures id in left && left[id] == tombs[id] && id !in gone &&
            IsTimed(t, id, tombs[id]) == IsTimed(t - gone, id, tombs[id])
    ensures var aged := now - tombs[id].since >= ttl;
            Swept(tombs, now, ttl, t, rest - {id}, if aged then left - {id} else left,
                  if aged && IsTimed(t, id, tombs[id]) then gone + {id} else gone)
  {
    assert (id in Old(tombs, now, ttl, t)) <==> now - tombs[id].since >= ttl && IsTimed(t, id, tombs[id]);
  }

  lemma SweptAll(tombs: map<NodeID, Tombstone>, now: Time, ttl: Time, t: Members, left: map<NodeID, Tombstone>,
                 gone: set<NodeID>)
    requires Swept(tombs, now, ttl, t, {}, left, gone)
    ensures left == Young(tombs, now, ttl) && gone == Old(tombs, now, ttl, t)
  {
  }

  lemma SweepIs(n: NodeState, now: Time, tombs: map<NodeID, Tombstone>, tab: TableState)
    requires tombs == Young(Reconciled(n, now), now, n.cfg.tombstoneTTL)
    requires var gone := Old(Reconciled(n, now), now, n.cfg.tombstoneTTL, n.tab.members);
             tab == TableState(n.tab.members - gone, n.tab.version + |gone|)
    ensures SweepTombstones(n, now) == n.(tombVersion := n.tab.version, tombstones := tombs, tab := tab)
  {
    hide Reconciled;
    assert Old(Reconciled(n, now), now, n.cfg.tombstoneTTL, n.tab.members) == Collected(n, now);
  }

  lemma ControlMidway(n: NodeState, now: Time)
    requires Inv(n) && n.Keyed()
    ensures var n1 := ExpireSuspicions(n, now);
            && Inv(n1) && Inv(IfChanged(n, n1)) && Inv(SweepTombstones(IfChanged(n, n1), now))
  {
    hide ExpireSuspicions, IfChanged, SweepTombstones;
    ExpireSuspicionsKeeps(n, now);
    IfChangedKeeps(n, ExpireSuspicions(n, now));
    IfChangedKeepsStanding(n, ExpireSuspicions(n, now));
    SweepKeeps(IfChanged(n, ExpireSuspicions(n, now)), now);
  }

  lemma TuneMidway(n: NodeState, threshold: Option<real>, hysteresis: Option<real>)
    requires Inv(n)
    ensures Inv(Tuned(n, threshold, hysteresis))
  {
    DoubtsCarryOver(n, Tuned(n, threshold, hysteresis));
  }

  lemma PeerUpMidway(n: NodeState, id: NodeID, advertise: NodeAddress, incarnation: int64)
    requires Inv(n) && id != NO_NODE && id != n.cfg.self
    ensures var n1 := Greeted(n, id, advertise, incarnation);
            n1.Keyed() && Inv(n1) && Inv(n1.Send(DeltaMsg(id, ViewOf(n1.tab.members))))
  {
    hide Greeted, ViewOf;
    var n1 := Greeted(n, id, advertise, incarnation);
    GreetedTouches(n, id, advertise, incarnation);
    TouchKeepsInv(n, n1, id);
    DoubtsCarryOver(n1, n1.Send(DeltaMsg(id, ViewOf(n1.tab.members))));
  }

  lemma PeerDownMidway(n: NodeState, now: Time, id: NodeID)
    requires Inv(n) && id != NO_NODE && id != n.cfg.self
    ensures var n1 := n.(attached := n.attached - {id});
            Inv(Doubt(n1, now, id, false)) && Inv(NodeModel.MarkDead(n1, id))
  {
    hide NodeModel.MarkDead, Doubt;
    var n1 := n.(attached := n.attached - {id});
    DoubtsCarryOver(n, n1);
    DoubtKeeps(n1, now, id, false);
    MarkDeadKeeps(n1, id);
  }

  lemma EvaluateIs(n: NodeState, n': NodeState)
    requires n.Keyed()
    requires var elected := ElectionOf(n).leaders;
             var n2 := TakeLeaders(TakeRole(n, elected), elected);
             n' == if n.cfg.self in elected
                   then n2.(leader := n.cfg.self, hint := NO_NODE, attached := StillOurs(n.attached, n.tab.members))
                   else Follow(n2, elected)
    ensures n' == Evaluate(n)
  {
  }

  lemma ElectionIs(n: NodeState)
    requires n.Keyed()
    ensures ElectionOf(n) == Elected(ViewOf(n.tab.members), ReportedScores(n.tab.members), n.election)
  {
  }

  lemma {:induction false} KeepAll<T(!new)>(p: T -> bool, s: seq<T>)
    requires forall x <- s :: p(x)
    ensures Keep(p, s) == s
  {
    if s != [] { KeepAll(p, s[..|s| - 1]); }
  }
}
