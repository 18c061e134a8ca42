// What every event of one node's loop keeps.

module NodeInvariant {
  import opened Health
  import opened Membership
  import opened Sorting
  import opened Election
  import opened ElectionProperties
  import opened Affinity
  import opened NodeModel
  import opened Options

  /**
   * The node is the authority on itself: alive, at exactly its own incarnation, never doubted, never its own worker.
   */
  predicate OwnsItself(n: NodeState) {
    var t, self := n.tab.members, n.cfg.self;
    && n.Keyed()
    && self != NO_NODE && NO_NODE !in t
    && self in t && t[self].state.Alive? && t[self].incarnation == n.incarnation
    && self !in n.suspects && self !in n.attached
  }

  /** Three ways of saying "I lead" agree, and only a leader has workers. */
  predicate RolesAgree(n: NodeState) {
    && OwnsItself(n)
    && (n.Leads() <==> n.tab.members[n.cfg.self].role == Leader)
    && (n.Leads() <==> n.leader == n.cfg.self)
    && (n.attached != {} ==> n.Leads())
    && NO_NODE !in n.leaders
  }

  /** The rejection budget; once it is spent the node is detached (or leads itself). */
  predicate WithinBudget(n: NodeState) {
    && n.rejections <= MAX_REJECTIONS_PER_ROUND + 1
    && (n.rejections == MAX_REJECTIONS_PER_ROUND + 1 ==> n.leader == NO_NODE || n.leader == n.cfg.self)
  }

  /**
   * A doubt outlives nothing: its member's record is not older than the doubt, and not alive at the doubted
   * incarnation.
   */
  predicate DoubtIsCurrent(n: NodeState, id: NodeID) {
    id in n.suspects ==>
      && id in n.tab.members
      && n.tab.members[id].incarnation >= n.suspects[id].incarnation
      && (n.tab.members[id].incarnation == n.suspects[id].incarnation ==> !n.tab.members[id].state.Alive?)
  }

  ghost predicate DoubtsAreCurrent(n: NodeState) {
    forall id <- n.suspects :: DoubtIsCurrent(n, id)
  }

  ghost predicate Inv(n: NodeState) {
    RolesAgree(n) && WithinBudget(n) && DoubtsAreCurrent(n)
  }

  lemma InvOwns(n: NodeState)
    requires Inv(n)
    ensures OwnsItself(n)
  {
  }

  /** A worker that has just evaluated is detached, or attached to an elected leader it does not doubt. */
  predicate WellAttached(n: NodeState) {
    n.Leads() || n.leader == NO_NODE || (n.leader in n.leaders && n.leader !in n.suspects)
  }

  lemma BootInv(cfg: NodeConfig, election: Config, rehome: real, incarnation: int64)
    requires cfg.self != NO_NODE
    ensures Inv(Boot(cfg, election, rehome, incarnation))
  {
  }

  // ---------------------------------------------------------------------------
  // Evaluate
  // ---------------------------------------------------------------------------

  /** What an evaluation leaves alone: everything but the node's own role, and its place in the hierarchy. */
  ghost predicate SameButRole(n: NodeState, n': NodeState) {
    && n'.cfg == n.cfg && n'.election == n.election && n'.rehome == n.rehome
    && n'.incarnation == n.incarnation && n'.rejections == n.rejections
    && n'.suspects == n.suspects && n'.probing == n.probing && n'.probeSeq == n.probeSeq
    && n'.tombstones == n.tombstones && n'.tombVersion == n.tombVersion
    && n.term <= n'.term
  }

  function RoleIn(id: NodeID, elected: seq<NodeID>): Role {
    if id in elected then Leader else Worker
  }

  lemma ElectedAreMembers(n: NodeState)
    requires n.Keyed()
    ensures forall id <- ElectionOf(n).leaders :: id in n.tab.members && !n.tab.members[id].state.Dead?
  {
    SeatsAreConserved(ViewOf(n.tab.members), ReportedScores(n.tab.members), n.election);
  }

  lemma SendJoinFacts(n: NodeState, to: NodeID)
    ensures var n' := SendJoin(n, to);
            && n' == n.(leader := n'.leader, joins := n.joins + 1, joinID := n'.joinID, sinceBeat := n'.sinceBeat,
                        sent := n'.sent)
            && n'.leader == if n.cfg.delivers(n.joins) then to else NO_NODE
  {
  }

  lemma FollowFacts(n: NodeState, elected: seq<NodeID>)
    requires NO_NODE !in elected
    ensures var n' := Follow(n, elected);
            && SameButRole(n, n') && n'.tab == n.tab && n'.leaders == n.leaders
            && n'.attached == {} && n'.hint == NO_NODE
            && n'.local == n.local && n'.missed == n.missed
            && (n'.leader == NO_NODE || (n'.leader in elected && n'.leader !in n.suspects))
            && (n.rejections > MAX_REJECTIONS_PER_ROUND ==> n'.joins == n.joins && n'.leader in {NO_NODE, n.leader})
            && n.joins <= n'.joins
  {
    hide Follow, Closest, Keep, SendJoin, WellKeyed;
    KeepMembers(Undoubted(n.suspects), elected);
    var usable := Keep(Undoubted(n.suspects), elected);
    ClosestIsLeader(n.local, usable);
    var leader := if n.leader != NO_NODE && n.leader !in usable then NO_NODE else n.leader;
    var best := if n.hint != NO_NODE && n.hint in usable then n.hint else Closest(n.local, usable);
    var next := n.(attached := {}, leader := leader, hint := NO_NODE);
    SendJoinFacts(next, best);
    FollowIs(n, elected, next, best);
  }

  lemma FollowIs(n: NodeState, elected: seq<NodeID>, next: NodeState, best: NodeID)
    requires var usable := Keep(Undoubted(n.suspects), elected);
             && best == (if n.hint != NO_NODE && n.hint in usable then n.hint else Closest(n.local, usable))
             && next == n.(attached := {},
                           leader := if n.leader != NO_NODE && n.leader !in usable then NO_NODE else n.leader,
                           hint := NO_NODE)
    ensures Follow(n, elected) == next || (n.rejections <= MAX_REJECTIONS_PER_ROUND && best != NO_NODE
                                           && Follow(n, elected) == SendJoin(next, best))
  {
    hide Closest, Keep, ShouldRehome, SendJoin, WellKeyed;
  }

  lemma TakeRoleFacts(n: NodeState, elected: seq<NodeID>)
    requires n.cfg.self in n.tab.members
    ensures var n' := TakeRole(n, elected);
            && n' == n.(tab := n'.tab, sent := n'.sent)
            && n'.tab == n.tab.Commit(WithRole(n.tab.members, n.cfg.self, RoleIn(n.cfg.self, elected)))
  {
  }

  lemma TakeLeadersFacts(n: NodeState, elected: seq<NodeID>)
    ensures var n' := TakeLeaders(n, elected);
            && n' == n.(leaders := elected, term := n'.term, sent := n'.sent) && n.term <= n'.term
  {
  }

  lemma EvaluateFacts(n: NodeState)
    requires OwnsItself(n)
    ensures var n' := Evaluate(n);
            && SameButRole(n, n') && n'.local == n.local && n'.missed == n.missed
            && n'.tab == n.tab.Commit(WithRole(n.tab.members, n.cfg.self, RoleIn(n.cfg.self, n'.leaders)))
            && n'.leaders == ElectionOf(n).leaders
            && RolesAgree(n') && WellAttached(n')
            && (n.rejections > MAX_REJECTIONS_PER_ROUND ==>
                  n'.joins == n.joins && n'.leader in {NO_NODE, n.cfg.self, n.leader})
            && n.joins <= n'.joins
  {
    hide ElectionOf, Follow, TakeRole, TakeLeaders;
    var elected := ElectionOf(n).leaders;
    ElectedAreMembers(n);
    TakeRoleFacts(n, elected);
    TakeLeadersFacts(TakeRole(n, elected), elected);
    FollowFacts(TakeLeaders(TakeRole(n, elected), elected), elected);
  }

  lemma DoubtsCarryOver(n: NodeState, n': NodeState)
    requires OwnsItself(n) && DoubtsAreCurrent(n) && n'.suspects == n.suspects
    requires forall id <- n.tab.members :: id != n.cfg.self ==>
               id in n'.tab.members && n'.tab.members[id] == n.tab.members[id]
    ensures DoubtsAreCurrent(n')
  {
    forall id <- n'.suspects ensures DoubtIsCurrent(n', id) {
      assert DoubtIsCurrent(n, id);
    }
  }

  lemma EvaluateInv(n: NodeState)
    requires Inv(n)
    ensures Inv(Evaluate(n))
  {
    hide Evaluate, ElectionOf;
    EvaluateFacts(n);
    DoubtsCarryOver(n, Evaluate(n));
  }

  // ---------------------------------------------------------------------------
  // Handlers touch one member at a time
  // ---------------------------------------------------------------------------

  /** Nothing about any member but `x` moves, and nobody gains a place in the hierarchy. */
  ghost predicate OnlyTouches(n: NodeState, n': NodeState, x: NodeID) {
    && n'.cfg == n.cfg && n'.incarnation == n.incarnation && n'.leaders == n.leaders && n'.leader == n.leader
    && n'.rejections == n.rejections && n'.term == n.term && n'.joins == n.joins && n'.attached <= n.attached
    && n'.Keyed() && n'.tab.members.Keys <= n.tab.members.Keys + {x}
    && (forall id | id != x :: SameRecord(n.tab.members, n'.tab.members, id) && SameDoubt(n.suspects, n'.suspects, id))
  }

  predicate SameRecord(t: Members, t': Members, id: NodeID) {
    (id in t' <==> id in t) && (id in t ==> t'[id] == t[id])
  }

  predicate SameDoubt(s: map<NodeID, Suspicion>, s': map<NodeID, Suspicion>, id: NodeID) {
    (id in s' <==> id in s) && (id in s ==> s'[id] == s[id])
  }

  /** Terms and the node's own incarnation never go back, and a spent rejection budget means no JOIN is sent. */
  ghost predicate Progress(n: NodeState, n': NodeState) {
    && n'.cfg == n.cfg && n.term <= n'.term && n.incarnation <= n'.incarnation && n'.rejections == n.rejections
    && n.joins <= n'.joins && (n.rejections > MAX_REJECTIONS_PER_ROUND ==> n'.joins == n.joins)
  }

  lemma TouchKeepsInv(n: NodeState, n': NodeState, x: NodeID)
    requires Inv(n) && OnlyTouches(n, n', x) && x != n.cfg.self && DoubtIsCurrent(n', x) && NO_NODE !in n'.tab.members
    ensures Inv(n') && Progress(n, n')
  {
    assert SameRecord(n.tab.members, n'.tab.members, n.cfg.self) && SameDoubt(n.suspects, n'.suspects, n.cfg.self);
    forall id <- n'.suspects ensures DoubtIsCurrent(n', id) {
      if id != x {
        assert SameRecord(n.tab.members, n'.tab.members, id) && SameDoubt(n.suspects, n'.suspects, id) &&
               DoubtIsCurrent(n, id);
      }
    }
  }

  lemma MarkDeadTouches(n: NodeState, id: NodeID)
    requires n.Keyed()
    ensures OnlyTouches(n, MarkDead(n, id), id) && DoubtIsCurrent(MarkDead(n, id), id)
  {
    hide MarkDead;
    MarkDeadFacts(n, id);
  }

  /** A death changes the member's record, ends the doubt about it and its attachment: nothing else. */
  lemma MarkDeadFacts(n: NodeState, id: NodeID)
    ensures var n' := MarkDead(n, id);
            && n' == n.(attached := n.attached - {id}, suspects := n.suspects - {id}, tab := n'.tab, sent := n'.sent)
            && n'.tab.members == WithState(n.tab.members, id, Dead)
  {
  }

  lemma DoubtTouches(n: NodeState, now: Time, id: NodeID, silent: bool)
    requires n.Keyed() && DoubtIsCurrent(n, id)
    ensures OnlyTouches(n, Doubt(n, now, id, silent), id) && DoubtIsCurrent(Doubt(n, now, id, silent), id)
  {
    hide Doubt;
    DoubtFacts(n, now, id, silent);
  }

  /** A doubt changes the member's state, the suspicion about it, and what has been sent: nothing else. */
  lemma DoubtFacts(n: NodeState, now: Time, id: NodeID, silent: bool)
    ensures var n' := Doubt(n, now, id, silent);
            && n' == n.(suspects := n'.suspects, tab := n'.tab, sent := n'.sent)
            && (if id == n.cfg.self || id !in n.tab.members || n.tab.members[id].state.Dead? then n' == n
                else
                  && n'.tab.members == n.tab.members[id := n.tab.members[id].(state := Suspect)]
                  && id in n'.suspects && n'.suspects == n.suspects[id := n'.suspects[id]]
                  && (if id in n.suspects
                      then n'.suspects[id] == n.suspects[id].(silent := n.suspects[id].silent || silent)
                      else n'.suspects[id] == Suspicion(now, n.tab.members[id].incarnation, n.probeSeq, silent)))
  {
    assert id in n.tab.members && n.tab.members[id].state.Suspect? ==>
        n.tab.members == n.tab.members[id := n.tab.members[id].(state := Suspect)];
  }

  lemma GreetedTouches(n: NodeState, id: NodeID, advertise: NodeAddress, incarnation: int64)
    requires n.Keyed()
    ensures OnlyTouches(n, Greeted(n, id, advertise, incarnation), id)
    ensures DoubtIsCurrent(Greeted(n, id, advertise, incarnation), id)
  {
  }

  lemma TakeRecordTouches(n: NodeState, before: Members, from: NodeID, rec: Member)
    requires n.Keyed() && rec.id != n.cfg.self && DoubtIsCurrent(n, rec.id)
    ensures var n' := TakeRecord(n, before, from, rec);
            OnlyTouches(n, n', rec.id) && DoubtIsCurrent(n', rec.id) && (rec.id == NO_NODE ==> n' == n)
  {
    hide Received;
    ReceivedId(rec, from, before);
  }

  lemma ReceivedId(rec: Member, from: NodeID, before: Members)
    ensures var m := Received(rec, from, before);
            m.id == rec.id && m.incarnation == rec.incarnation && m.state == rec.state && m.claimSeq == rec.claimSeq
  {
  }

  lemma ProbeMissedTouches(n: NodeState, now: Time, id: NodeID)
    requires n.Keyed() && DoubtIsCurrent(n, id)
    ensures OnlyTouches(n, ProbeMissed(n, now, id), id) && DoubtIsCurrent(ProbeMissed(n, now, id), id)
  {
    hide MarkDead, Doubt;
    var misses := (if id in n.missed then n.missed[id] else 0) + 1;
    var n1 := n.(local := n.local[id := Unavailable], missed := n.missed[id := misses]);
    MarkDeadTouches(n1, id);
    DoubtTouches(n1, now, id, false);
  }

  lemma ProbeClearsTouches(n: NodeState, id: NodeID, round: nat, incarnation: int64)
    requires n.Keyed() && DoubtIsCurrent(n, id)
    ensures OnlyTouches(n, ProbeClears(n, id, round, incarnation), id)
    ensures DoubtIsCurrent(ProbeClears(n, id, round, incarnation), id)
  {
  }

  lemma TakeResultTouches(n: NodeState, now: Time, round: nat, view: Members, id: NodeID, result: ProbeResult)
    requires n.Keyed() && DoubtIsCurrent(n, id)
    ensures var n' := TakeResult(n, now, round, view, id, result);
            OnlyTouches(n, n', id) && DoubtIsCurrent(n', id)
  {
    hide ProbeMissed, ProbeClears;
    match result
    case Canceled =>
    case Failed => ProbeMissedTouches(n, now, id);
    case Scored(score) =>
      if id in view {
        ProbeClearsTouches(n.(local := n.local[id := score], missed := n.missed[id := 0]), id, round,
                           view[id].incarnation);
      }
  }

  lemma ExpireTouches(n: NodeState, now: Time, view: Members, id: NodeID)
    requires n.Keyed() && DoubtIsCurrent(n, id)
    ensures OnlyTouches(n, Expire(n, now, view, id), id) && DoubtIsCurrent(Expire(n, now, view, id), id)
  {
    hide MarkDead;
    MarkDeadTouches(n, id);
  }

  /** A refutation: the node outbids the rumour about itself. */
  lemma RefuteKeepsInv(n: NodeState, rumour: Member)
    requires Inv(n)
    ensures Inv(Refute(n, rumour)) && Progress(n, Refute(n, rumour))
  {
    hide Refute;
    RefuteFacts(n, rumour);
    DoubtsCarryOver(n, Refute(n, rumour));
  }

  /** Nothing but the node's own incarnation and record moves, and what is sent is that record. */
  lemma RefuteFacts(n: NodeState, rumour: Member)
    requires OwnsItself(n)
    ensures var n', self := Refute(n, rumour), n.cfg.self;
            && n' == n.(incarnation := n'.incarnation, tab := n'.tab, sent := n'.sent)
            && n.incarnation <= n'.incarnation
            && self in n'.tab.members && n'.tab.members == n.tab.members[self := n'.tab.members[self]]
            && n'.tab.members[self] == n.tab.members[self].(addr := n'.tab.members[self].addr,
                                                            incarnation := n'.incarnation)
            && n'.sent == n.sent + if n' == n then [] else [DeltaMsg(NO_NODE, [n'.tab.members[self]])]
  {
    assert n.sent + [] == n.sent;
    assert n.tab.members == n.tab.members[n.cfg.self := n.tab.members[n.cfg.self]];
  }

  // ---------------------------------------------------------------------------
  // Every event keeps the invariant
  // ---------------------------------------------------------------------------

  lemma EvaluateKeeps(n: NodeState)
    requires Inv(n)
    ensures Inv(Evaluate(n)) && Progress(n, Evaluate(n)) && WellAttached(Evaluate(n))
  {
    hide Evaluate, ElectionOf;
    EvaluateFacts(n);
    EvaluateInv(n);
  }

  lemma MembershipChangedKeeps(n: NodeState)
    requires Inv(n)
    ensures Inv(MembershipChanged(n)) && Progress(n, MembershipChanged(n)) && WellAttached(MembershipChanged(n))
  {
    hide Evaluate;
    DoubtsCarryOver(n, Pruned(n));
    EvaluateKeeps(Pruned(n));
  }

  lemma IfChangedKeeps(before: NodeState, n: NodeState)
    requires Inv(n)
    ensures Inv(IfChanged(before, n)) && Progress(n, IfChanged(before, n))
  {
    hide MembershipChanged;
    MembershipChangedKeeps(n);
  }

  lemma {:induction false} ExpireAllKeeps(n: NodeState, now: Time, view: Members, ids: seq<NodeID>)
    requires Inv(n)
    ensures var n' := ExpireAll(n, now, view, ids);
            Inv(n') && Progress(n, n') && n'.leader == n.leader
  {
    hide Expire;
    if ids != [] {
      var front, id := ids[..|ids| - 1], ids[|ids| - 1];
      ExpireAllKeeps(n, now, view, front);
      var n1 := ExpireAll(n, now, view, front);
      if id in n1.suspects {
        assert DoubtIsCurrent(n1, id);
        ExpireTouches(n1, now, view, id);
        TouchKeepsInv(n1, Expire(n1, now, view, id), id);
      } else {
        assert Expire(n1, now, view, id) == n1 by { ExpireIdle(n1, now, view, id); }
      }
    }
  }

  lemma ExpireIdle(n: NodeState, now: Time, view: Members, id: NodeID)
    requires id !in n.suspects
    ensures Expire(n, now, view, id) == n
  {
  }

  lemma {:induction false} TakeResultsKeeps(n: NodeState, now: Time, round: nat, view: Members, ids: seq<NodeID>,
                                            results: map<NodeID, ProbeResult>)
    requires Inv(n) && NO_NODE !in view && n.cfg.self !in ids && forall id <- ids :: id in results
    ensures var n' := TakeResults(n, now, round, view, ids, results);
            Inv(n') && Progress(n, n') && n'.leader == n.leader
  {
    hide TakeResult;
    if ids != [] {
      var front, id := ids[..|ids| - 1], ids[|ids| - 1];
      TakeResultsKeeps(n, now, round, view, front, results);
      var n1 := TakeResults(n, now, round, view, front, results);
      assert DoubtIsCurrent(n1, id);
      TakeResultTouches(n1, now, round, view, id, results[id]);
      TakeResultOfNobody(n1, now, round, view, id, results[id]);
      TouchKeepsInv(n1, TakeResult(n1, now, round, view, id, results[id]), id);
    }
  }

  lemma TakeResultOfNobody(n: NodeState, now: Time, round: nat, view: Members, id: NodeID, result: ProbeResult)
    ensures id !in view ==> TakeResult(n, now, round, view, id, result) == n
  {
  }

  lemma {:induction false} TakeRecordsKeeps(n: NodeState, before: Members, from: NodeID, records: seq<Member>)
    requires Inv(n)
    ensures var n' := TakeRecords(n, before, from, records).0;
            Inv(n') && Progress(n, n') && n'.leader == n.leader
  {
    hide TakeRecord, Refute;
    if records != [] {
      var front, rec := records[..|records| - 1], records[|records| - 1];
      TakeRecordsKeeps(n, before, from, front);
      var n1 := TakeRecords(n, before, from, front).0;
      if rec.id == n.cfg.self {
        TakeOwnRecord(n1, before, from, rec);
        RefuteKeepsInv(n1, rec);
        RefuteKeepsLeader(n1, rec);
      } else {
        assert DoubtIsCurrent(n1, rec.id);
        TakeRecordTouches(n1, before, from, rec);
        TouchKeepsInv(n1, TakeRecord(n1, before, from, rec), rec.id);
      }
    }
  }

  lemma TakeOwnRecord(n: NodeState, before: Members, from: NodeID, rec: Member)
    requires rec.id == n.cfg.self && rec.id != NO_NODE
    ensures TakeRecord(n, before, from, rec) == Refute(n, rec)
  {
  }

  lemma RefuteKeepsLeader(n: NodeState, rumour: Member)
    ensures Refute(n, rumour).leader == n.leader && Refute(n, rumour).cfg == n.cfg
  {
  }

  lemma OnPeerUpKeeps(n: NodeState, id: NodeID, advertise: NodeAddress, incarnation: int64)
    requires Inv(n)
    ensures Inv(OnPeerUp(n, id, advertise, incarnation)) && Progress(n, OnPeerUp(n, id, advertise, incarnation))
  {
    hide IfChanged, Greeted, ViewOf;
    if id != NO_NODE && id != n.cfg.self {
      var n1 := Greeted(n, id, advertise, incarnation);
      GreetedTouches(n, id, advertise, incarnation);
      TouchKeepsInv(n, n1, id);
      var n2 := n1.Send(DeltaMsg(id, ViewOf(n1.tab.members)));
      DoubtsCarryOver(n1, n2);
      IfChangedKeeps(n, n2);
    }
  }

  lemma MarkDeadKeeps(n: NodeState, id: NodeID)
    requires Inv(n) && id != n.cfg.self && id != NO_NODE
    ensures Inv(MarkDead(n, id)) && Progress(n, MarkDead(n, id))
  {
    hide MarkDead;
    MarkDeadTouches(n, id);
    TouchKeepsInv(n, MarkDead(n, id), id);
  }

  lemma DoubtKeeps(n: NodeState, now: Time, id: NodeID, silent: bool)
    requires Inv(n) && id != n.cfg.self && id != NO_NODE
    ensures Inv(Doubt(n, now, id, silent)) && Progress(n, Doubt(n, now, id, silent)) &&
            Doubt(n, now, id, silent).leader == n.leader
  {
    hide Doubt;
    assert DoubtIsCurrent(n, id);
    DoubtTouches(n, now, id, silent);
    TouchKeepsInv(n, Doubt(n, now, id, silent), id);
  }

  lemma OnPeerDownKeeps(n: NodeState, now: Time, id: NodeID, disposition: Disposition)
    requires Inv(n)
    ensures Inv(OnPeerDown(n, now, id, disposition)) && Progress(n, OnPeerDown(n, now, id, disposition))
  {
    hide IfChanged, MarkDead, Doubt;
    if id != NO_NODE && id != n.cfg.self {
      var n1 := n.(attached := n.attached - {id});
      DoubtsCarryOver(n, n1);
      if disposition.LinkLost? {
        DoubtKeeps(n1, now, id, false);
        IfChangedKeeps(n, Doubt(n1, now, id, false));
      } else {
        MarkDeadKeeps(n1, id);
        IfChangedKeeps(n, MarkDead(n1, id));
      }
    }
  }

  lemma OnDeathKeeps(n: NodeState, id: NodeID)
    requires Inv(n) && id != n.cfg.self && id != NO_NODE
    ensures Inv(OnDeath(n, id)) && Progress(n, OnDeath(n, id))
  {
    hide IfChanged, MarkDead;
    MarkDeadKeeps(n, id);
    IfChangedKeeps(n, MarkDead(n, id));
  }

  lemma VoidAttachmentKeeps(n: NodeState, before: Members)
    requires Inv(n)
    ensures Inv(VoidAttachment(n, before)) && Progress(n, VoidAttachment(n, before))
  {
    DoubtsCarryOver(n, VoidAttachment(n, before));
  }

  lemma OnDeltaKeeps(n: NodeState, from: NodeID, records: seq<Member>)
    requires Inv(n)
    ensures Inv(OnDelta(n, from, records)) && Progress(n, OnDelta(n, from, records))
  {
    hide TakeRecords, VoidAttachment, MembershipChanged;
    var before := n.tab.members;
    TakeRecordsKeeps(n, before, from, records);
    var n1 := TakeRecords(n, before, from, records).0;
    VoidAttachmentKeeps(n1, before);
    MembershipChangedKeeps(VoidAttachment(n1, before));
  }

  lemma OnJoinClusterKeeps(n: NodeState, from: NodeID, claimed: NodeID, number: nat)
    requires Inv(n) && from != n.cfg.self && claimed != n.cfg.self
    ensures Inv(OnJoinCluster(n, from, claimed, number)) && Progress(n, OnJoinCluster(n, from, claimed, number))
  {
    DoubtsCarryOver(n, OnJoinCluster(n, from, claimed, number));
  }

  /** Whether an answer is the rejection of the JOIN outstanding. */
  predicate Rejects(n: NodeState, e: Event) {
    e.JoinAck? && e.number != 0 && e.number == n.joinID && e.from == n.leader && !e.accepted
  }

  lemma OnJoinAckKeeps(n: NodeState, from: NodeID, number: nat, accepted: bool, named: NodeID)
    requires Inv(n) && from != n.cfg.self && from != NO_NODE
    ensures var n' := OnJoinAck(n, from, number, accepted, named);
            && Inv(n') && n'.cfg == n.cfg && n.term <= n'.term && n.incarnation <= n'.incarnation && n.joins <= n'.joins
            && n'.rejections == n.rejections + (if Rejects(n, JoinAck(from, number, accepted, named)) then 1 else 0)
            && (n'.rejections > MAX_REJECTIONS_PER_ROUND ==> n'.joins == n.joins)
  {
    hide Evaluate;
    if number != 0 && number == n.joinID && n.leader == from {
      var detached := n.(joinID := 0, leader := NO_NODE);
      DoubtsCarryOver(n, detached);
      EvaluateKeeps(detached);
      var rejected := detached.(hint := named, rejections := n.rejections + 1);
      DoubtsCarryOver(n, rejected);
      EvaluateKeeps(rejected);
      DoubtsCarryOver(n, n.(joinID := 0, hint := NO_NODE));
    }
  }

  lemma BeatResumedKeeps(n: NodeState, from: NodeID)
    requires Inv(n)
    ensures Inv(BeatResumed(n, from)) && Progress(n, BeatResumed(n, from))
  {
    hide IfChanged;
    if from in n.suspects && n.suspects[from].silent {
      assert DoubtIsCurrent(n, from);
      var n1 := n.(suspects := n.suspects - {from}).Apply(Revived(n.tab.members, from, n.suspects[from].incarnation));
      assert OnlyTouches(n, n1, from);
      TouchKeepsInv(n, n1, from);
      IfChangedKeeps(n, n1);
    }
  }

  lemma OnHeartbeatKeeps(n: NodeState, from: NodeID, term: nat)
    requires Inv(n)
    ensures Inv(OnHeartbeat(n, from, term)) && Progress(n, OnHeartbeat(n, from, term))
  {
    hide BeatResumed;
    var n' := OnHeartbeat(n, from, term);
    if term < n.term {
      DoubtsCarryOver(n, n');
    } else {
      var n1 := n.(term := term, sinceBeat := if from == n.leader && !n.Leads() then 0 else n.sinceBeat);
      DoubtsCarryOver(n, n1);
      BeatResumedKeeps(n1, from);
      DoubtsCarryOver(BeatResumed(n1, from), n');
    }
  }

  lemma OnStateSyncFacts(n: NodeState, from: NodeID, named: NodeID, term: nat)
    ensures var n' := OnStateSync(n, from, named, term);
            n' == n.(term := n'.term) && n.term <= n'.term
  {
  }

  lemma OnHeartbeatAckFacts(n: NodeState, from: NodeID, term: nat, observed: NodeID)
    ensures var n' := OnHeartbeatAck(n, from, term, observed);
            && n' == n.(term := n'.term, attached := n'.attached) && n.term <= n'.term
            && n'.attached <= n.attached + (if n.Leads() then {from} else {})
  {
  }

  lemma OnHeartbeatAckKeeps(n: NodeState, from: NodeID, term: nat, observed: NodeID)
    requires Inv(n) && from != n.cfg.self
    ensures Inv(OnHeartbeatAck(n, from, term, observed)) && Progress(n, OnHeartbeatAck(n, from, term, observed))
  {
    hide OnHeartbeatAck;
    OnHeartbeatAckFacts(n, from, term, observed);
    DoubtsCarryOver(n, OnHeartbeatAck(n, from, term, observed));
  }

  lemma CheckLeaderSilenceKeeps(n: NodeState, now: Time)
    requires Inv(n) && !n.Leads() && n.leader != NO_NODE
    ensures Inv(CheckLeaderSilence(n, now)) && Progress(n, CheckLeaderSilence(n, now))
  {
    hide Doubt, MembershipChanged;
    if n.sinceBeat + 1 < n.cfg.heartbeatMisses {
      DoubtsCarryOver(n, n.(sinceBeat := n.sinceBeat + 1));
    } else {
      var n1 := n.(sinceBeat := 0);
      DoubtsCarryOver(n, n1);
      DoubtKeeps(n1, now, n.leader, true);
      var n2 := Doubt(n1, now, n.leader, true);
      DoubtsCarryOver(n2, n2.(leader := NO_NODE));
      MembershipChangedKeeps(n2.(leader := NO_NODE));
    }
  }

  lemma TakeSelfScoreKeeps(n: NodeState, next: Score)
    requires Inv(n)
    ensures Inv(TakeSelfScore(n, next)) && Progress(n, TakeSelfScore(n, next))
  {
    hide TakeSelfScore;
    TakeSelfScoreFacts(n, next);
    DoubtsCarryOver(n, TakeSelfScore(n, next));
  }

  lemma TakeSelfScoreFacts(n: NodeState, next: Score)
    requires OwnsItself(n)
    ensures var n', self := TakeSelfScore(n, next), n.cfg.self;
            && n' == n.(local := n'.local, tab := n'.tab, sent := n'.sent)
            && n'.tab.members.Keys == n.tab.members.Keys
            && (forall id <- n.tab.members | id != self :: n'.tab.members[id] == n.tab.members[id])
            && n'.tab.members[self] == n.tab.members[self].(score := n'.tab.members[self].score,
                                                            claimSeq := n'.tab.members[self].claimSeq)
  {
  }

  lemma OnProbeRoundKeeps(n: NodeState, now: Time, round: nat, results: map<NodeID, ProbeResult>, selfScore: Score)
    requires Inv(n) && n.cfg.self !in results
    ensures var n' := OnProbeRound(n, now, round, results, selfScore);
            && Inv(n') && n'.cfg == n.cfg && n.term <= n'.term && n.incarnation <= n'.incarnation
            && n.joins <= n'.joins && n'.rejections == 0
  {
    hide TakeResults, TakeSelfScore, Evaluate, Pruned;
    var n1 := n.(probing := false, rejections := 0);
    DoubtsCarryOver(n, n1);
    TakeResultsKeeps(n1, now, round, n.tab.members, IdList(results.Keys), results);
    var n2 := TakeResults(n1, now, round, n.tab.members, IdList(results.Keys), results);
    PrunedKeeps(n2);
    TakeSelfScoreKeeps(ProbeResultsTaken(n, now, round, results), selfScore);
    EvaluateKeeps(TakeSelfScore(ProbeResultsTaken(n, now, round, results), selfScore));
  }

  lemma PrunedKeeps(n: NodeState)
    requires Inv(n)
    ensures Inv(Pruned(n)) && Progress(n, Pruned(n))
  {
    DoubtsCarryOver(n, Pruned(n));
  }

  /** After a sweep of the doubts, those left are about records suspect at the doubted incarnation. */
  ghost predicate DoubtsStand(n: NodeState) {
    forall id <- n.suspects :: Stands(n.suspects[id], id, n.tab.members)
  }

  lemma {:induction false} ExpireAllStands(n: NodeState, now: Time, ids: seq<NodeID>)
    requires n.Keyed() && DoubtsAreCurrent(n)
    ensures var n' := ExpireAll(n, now, n.tab.members, ids);
            && n'.Keyed()
            && (forall id <- n'.suspects :: id in n.suspects && n'.suspects[id] == n.suspects[id]
                                            && SameRecord(n.tab.members, n'.tab.members, id)
                                            && (id in ids ==> Stands(n'.suspects[id], id, n.tab.members)))
  {
    hide Expire;
    if ids != [] {
      var front, x := ids[..|ids| - 1], ids[|ids| - 1];
      assert ids == front + [x];
      ExpireAllStands(n, now, front);
      var n1 := ExpireAll(n, now, n.tab.members, front);
      var n' := Expire(n1, now, n.tab.members, x);
      assert x in n1.suspects ==> DoubtIsCurrent(n, x);
      assert DoubtIsCurrent(n1, x);
      ExpireTouches(n1, now, n.tab.members, x);
      ExpireOne(n1, now, n.tab.members, x);
      forall id <- n'.suspects
        ensures id in n.suspects && n'.suspects[id] == n.suspects[id] && SameRecord(n.tab.members, n'.tab.members, id)
                && (id in ids ==> Stands(n'.suspects[id], id, n.tab.members)) {
        if id != x {
          assert SameRecord(n1.tab.members, n'.tab.members, id) && SameDoubt(n1.suspects, n'.suspects, id);
        }
      }
    }
  }

  lemma ExpireOne(n: NodeState, now: Time, view: Members, id: NodeID)
    ensures var n' := Expire(n, now, view, id);
            id in n'.suspects ==> n' == n && Stands(n.suspects[id], id, view)
  {
  }

  lemma ExpireSuspicionsKeeps(n: NodeState, now: Time)
    requires Inv(n)
    ensures var n' := ExpireSuspicions(n, now);
            Inv(n') && Progress(n, n') && DoubtsStand(n')
  {
    hide ExpireAll;
    ExpireAllKeeps(n, now, n.tab.members, IdList(n.suspects.Keys));
    ExpireAllStands(n, now, IdList(n.suspects.Keys));
  }

  lemma IfChangedKeepsStanding(before: NodeState, n: NodeState)
    requires Inv(n) && DoubtsStand(n)
    ensures DoubtsStand(IfChanged(before, n))
  {
    hide Evaluate, ElectionOf;
    DoubtsCarryOver(n, Pruned(n));
    EvaluateFacts(Pruned(n));
  }

  lemma SweepKeeps(n: NodeState, now: Time)
    requires Inv(n) && DoubtsStand(n)
    ensures Inv(SweepTombstones(n, now)) && Progress(n, SweepTombstones(n, now))
    ensures SweepTombstones(n, now).leaders == n.leaders && SweepTombstones(n, now).leader == n.leader
  {
    hide Reconciled;
    var n' := SweepTombstones(n, now);
    forall id <- n'.suspects ensures DoubtIsCurrent(n', id) {
      assert DoubtIsCurrent(n, id) && Stands(n.suspects[id], id, n.tab.members);
    }
  }

  lemma OnControlTickKeeps(n: NodeState, now: Time)
    requires Inv(n)
    ensures Inv(OnControlTick(n, now)) && Progress(n, OnControlTick(n, now))
  {
    hide ExpireSuspicions, IfChanged, SweepTombstones, CheckLeaderSilence, IdList;
    ExpireSuspicionsKeeps(n, now);
    var n1 := ExpireSuspicions(n, now);
    IfChangedKeeps(n, n1);
    IfChangedKeepsStanding(n, n1);
    var n2 := IfChanged(n, n1);
    SweepKeeps(n2, now);
    var n3 := SweepTombstones(n2, now);
    if n3.Leads() {
      DoubtsCarryOver(n3, n3.(sent := n3.sent + Map(Beat(n3), IdList(n3.attached))));
    } else if n3.leader != NO_NODE {
      CheckLeaderSilenceKeeps(n3, now);
    }
  }

  lemma OnTuneKeeps(n: NodeState, threshold: Option<real>, hysteresis: Option<real>)
    requires Inv(n)
    ensures Inv(OnTune(n, threshold, hysteresis)) && Progress(n, OnTune(n, threshold, hysteresis))
  {
    hide Evaluate;
    var n1 := Tuned(n, threshold, hysteresis);
    DoubtsCarryOver(n, n1);
    EvaluateKeeps(n1);
  }

  /**
   * Whatever happens to the node, it stays the authority on itself, its three notions of leading agree, only a leader
   * has workers, no doubt outlives its subject, and terms and its own incarnation never go back.
   */
  lemma StepKeepsInv(n: NodeState, now: Time, e: Event)
    requires Inv(n) && Plausible(n, e)
    ensures var n' := Step(n, now, e);
            Inv(n') && n'.cfg == n.cfg && n.term <= n'.term && n.incarnation <= n'.incarnation
  {
    hide OnPeerUp, OnPeerDown, OnDelta, OnJoinCluster, OnJoinAck, OnDeath, OnHeartbeat, OnHeartbeatAck, OnProbeRound,
         OnControlTick, OnTune, OnStateSync, OnProbeTick, Evaluate, ViewOf;
    match e
    case PeerUp(id, advertise, incarnation) => OnPeerUpKeeps(n, id, advertise, incarnation);
    case PeerDown(id, disposition) => OnPeerDownKeeps(n, now, id, disposition);
    case Delta(from, records) => OnDeltaKeeps(n, from, records);
    case JoinCluster(from, worker, number) => OnJoinClusterKeeps(n, from, worker, number);
    case JoinAck(from, number, accepted, named) => OnJoinAckKeeps(n, from, number, accepted, named);
    case Leave(from) => OnDeathKeeps(n, from);
    case Malformed(from) => OnDeathKeeps(n, from);
    case Heartbeat(from, term) => OnHeartbeatKeeps(n, from, term);
    case HeartbeatAck(from, term, observed) => OnHeartbeatAckKeeps(n, from, term, observed);
    case ProbeRound(round, results, selfScore) => OnProbeRoundKeeps(n, now, round, results, selfScore);
    case FloorTick => EvaluateKeeps(n);
    case ControlTick => OnControlTickKeeps(n, now);
    case Tune(threshold, hysteresis) => OnTuneKeeps(n, threshold, hysteresis);
    case StateSync(from, named, term) =>
      OnStateSyncFacts(n, from, named, term);
      QuietKeeps(n, OnStateSync(n, from, named, term));
    case ProbeTick =>
      OnProbeTickFacts(n);
      QuietKeeps(n, OnProbeTick(n));
    case GossipTick(to) => QuietKeeps(n, n.Send(DeltaMsg(to, ViewOf(n.tab.members))));
  }

  lemma OnProbeTickFacts(n: NodeState)
    ensures var n' := OnProbeTick(n);
            n' == n.(probing := n'.probing, probeSeq := n'.probeSeq)
  {
  }

  /** Steps that touch neither the table, the doubts, nor the node's place in the hierarchy. */
  lemma QuietKeeps(n: NodeState, n': NodeState)
    requires Inv(n) && n' == n.(term := n'.term, probing := n'.probing, probeSeq := n'.probeSeq, sent := n'.sent)
    ensures Inv(n')
  {
    DoubtsCarryOver(n, n');
  }
}
