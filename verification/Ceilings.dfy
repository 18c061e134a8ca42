// The incarnation ceiling, one node at a time: no handler says more about a member than the member's own incarnation
// allows, and a death recorded past that incarnation survives everything an honest network can deliver.

module Ceilings {
  import opened Health
  import opened Membership
  import opened Sorting
  import opened Election
  import opened Affinity
  import opened NodeModel
  import opened NodeInvariant
  import opened Options

  /** The incarnations of a member in a run: `first` is what its handshakes carry, `last` what it is at now. */
  datatype Range = Range(first: int64, last: int64)

  type Ranges = map<NodeID, Range>

  /**
   * No record is older than the member's handshakes. Alive and suspect ones never pass the member's own incarnation; a
   * death may be recorded one past it.
   */
  predicate Bounded(m: Member, own: Ranges) {
    && m.id in own
    && own[m.id].first <= m.incarnation
    && m.incarnation <= if m.state.Dead? then NextIncarnation(own[m.id].last) else own[m.id].last
  }

  ghost predicate MessageBounded(m: Message, own: Ranges) {
    m.DeltaMsg? ==> forall r <- m.records :: Bounded(r, own)
  }

  predicate DoubtBounded(n: NodeState, id: NodeID, own: Ranges) {
    id in n.suspects ==> id in own && n.suspects[id].incarnation <= own[id].last
  }

  ghost predicate NodeBounded(n: NodeState, own: Ranges) {
    && n.Keyed()
    && (forall id <- n.tab.members :: Bounded(n.tab.members[id], own))
    && (forall id <- n.suspects :: DoubtBounded(n, id, own))
    && (forall m <- n.sent :: MessageBounded(m, own))
  }

  predicate IsItsOwn(n: NodeState, own: Ranges) {
    n.cfg.self in own && own[n.cfg.self] == Range(n.cfg.handshake, n.incarnation)
  }

  /** A beat of the member would clear a doubt as new as its record. */
  predicate BeatWouldClear(n: NodeState, id: NodeID)
    requires id in n.tab.members
  {
    id in n.suspects && n.suspects[id].silent && n.suspects[id].incarnation >= n.tab.members[id].incarnation
  }

  /**
   * A death that nothing in flight can undo: no record of the member alive is newer, its handshakes are older, and no
   * beat of its clears a doubt that outlived the record.
   */
  predicate IsFinal(n: NodeState, id: NodeID, own: Ranges)
    requires id in n.tab.members
  {
    var m := n.tab.members[id];
    && m.state.Dead? && id in own
    && m.incarnation >= own[id].last && m.incarnation > own[id].first && !BeatWouldClear(n, id)
  }

  /** Still dead, perhaps by a newer record, and no doubt has been added. */
  predicate StillDead(n: NodeState, n': NodeState, id: NodeID)
    requires id in n.tab.members
  {
    && id in n'.tab.members && n'.tab.members[id].state.Dead?
    && n'.tab.members[id].incarnation >= n.tab.members[id].incarnation
    && (id in n'.suspects ==> id in n.suspects && n'.suspects[id] == n.suspects[id])
  }

  /** The step keeps the node within bounds and holds every final death. */
  ghost predicate Holds(n: NodeState, n': NodeState, own: Ranges) {
    && NodeBounded(n', own)
    && (forall id <- n.tab.members :: IsFinal(n, id, own) ==> StillDead(n, n', id))
  }

  // ---------------------------------------------------------------------------
  // Sub-steps
  // ---------------------------------------------------------------------------

  lemma HoldTwice(a: NodeState, b: NodeState, c: NodeState, own: Ranges)
    requires a.Keyed() && Holds(a, b, own) && Holds(b, c, own)
    ensures Holds(a, c, own)
  {
    forall id <- a.tab.members | IsFinal(a, id, own) ensures StillDead(a, c, id) {
      assert IsFinal(b, id, own);
    }
  }

  /** Changes to anything but the table, the doubts and the messages. */
  lemma SameTableHolds(n: NodeState, n': NodeState, own: Ranges)
    requires NodeBounded(n, own) && n'.tab.members == n.tab.members && n'.suspects == n.suspects
    requires forall m <- n'.sent :: m in n.sent || MessageBounded(m, own)
    ensures Holds(n, n', own)
  {
    forall id <- n'.suspects ensures DoubtBounded(n', id, own) { assert DoubtBounded(n, id, own); }
  }

  lemma TouchHolds(n: NodeState, n': NodeState, x: NodeID, own: Ranges)
    requires NodeBounded(n, own) && OnlyTouches(n, n', x)
    requires x in n'.tab.members ==> Bounded(n'.tab.members[x], own)
    requires x in n.tab.members && IsFinal(n, x, own) ==> StillDead(n, n', x)
    requires DoubtBounded(n', x, own)
    requires forall m <- n'.sent :: m in n.sent || MessageBounded(m, own)
    ensures Holds(n, n', own)
  {
    forall id <- n'.tab.members ensures Bounded(n'.tab.members[id], own) {
      if id != x { assert SameRecord(n.tab.members, n'.tab.members, id); }
    }
    forall id <- n'.suspects ensures DoubtBounded(n', id, own) {
      if id != x { assert SameDoubt(n.suspects, n'.suspects, id) && DoubtBounded(n, id, own); }
    }
    forall id <- n.tab.members | IsFinal(n, id, own) ensures StillDead(n, n', id) {
      if id != x { assert SameRecord(n.tab.members, n'.tab.members, id); }
    }
  }

  lemma MarkDeadHolds(n: NodeState, id: NodeID, own: Ranges)
    requires NodeBounded(n, own)
    ensures Holds(n, MarkDead(n, id), own)
  {
    MarkDeadTouches(n, id);
    TouchHolds(n, MarkDead(n, id), id, own);
  }

  lemma DoubtHolds(n: NodeState, now: Time, id: NodeID, silent: bool, own: Ranges)
    requires NodeBounded(n, own) && DoubtIsCurrent(n, id)
    ensures Holds(n, Doubt(n, now, id, silent), own)
  {
    assert DoubtBounded(n, id, own);
    DoubtTouches(n, now, id, silent);
    TouchHolds(n, Doubt(n, now, id, silent), id, own);
  }

  lemma GreetedHolds(n: NodeState, id: NodeID, advertise: NodeAddress, incarnation: int64, own: Ranges)
    requires NodeBounded(n, own) && id in own && incarnation == own[id].first <= own[id].last
    ensures Holds(n, Greeted(n, id, advertise, incarnation), own)
  {
    GreetedTouches(n, id, advertise, incarnation);
    TouchHolds(n, Greeted(n, id, advertise, incarnation), id, own);
  }

  lemma TakeRecordHolds(n: NodeState, before: Members, from: NodeID, rec: Member, own: Ranges)
    requires NodeBounded(n, own) && rec.id != n.cfg.self && DoubtIsCurrent(n, rec.id) && Bounded(rec, own)
    ensures Holds(n, TakeRecord(n, before, from, rec), own)
  {
    hide Received;
    ReceivedId(rec, from, before);
    assert DoubtBounded(n, rec.id, own);
    TakeRecordTouches(n, before, from, rec);
    TouchHolds(n, TakeRecord(n, before, from, rec), rec.id, own);
  }

  lemma TakeResultHolds(n: NodeState, now: Time, round: nat, view: Members, id: NodeID, result: ProbeResult,
                        own: Ranges)
    requires NodeBounded(n, own) && DoubtIsCurrent(n, id)
    requires SameRecord(view, n.tab.members, id)
    ensures Holds(n, TakeResult(n, now, round, view, id, result), own)
  {
    hide MarkDead, Doubt, ProbeClears;
    SameTableHolds(n, n, own);
    if id in view && !view[id].state.Dead? {
      match result
      case Canceled =>
      case Failed =>
        var misses := (if id in n.missed then n.missed[id] else 0) + 1;
        var n1 := n.(local := n.local[id := Unavailable], missed := n.missed[id := misses]);
        SameTableHolds(n, n1, own);
        MarkDeadHolds(n1, id, own);
        DoubtHolds(n1, now, id, false, own);
        HoldTwice(n, n1, TakeResult(n, now, round, view, id, result), own);
      case Scored(score) =>
        var n1 := n.(local := n.local[id := score], missed := n.missed[id := 0]);
        SameTableHolds(n, n1, own);
        ProbeClearsHolds(n1, id, round, view[id].incarnation, own);
        HoldTwice(n, n1, TakeResult(n, now, round, view, id, result), own);
    }
  }

  lemma ProbeClearsHolds(n: NodeState, id: NodeID, round: nat, incarnation: int64, own: Ranges)
    requires NodeBounded(n, own) && DoubtIsCurrent(n, id) && id in own && own[id].first <= incarnation <= own[id].last
    requires id in n.tab.members ==> !n.tab.members[id].state.Dead?
    ensures Holds(n, ProbeClears(n, id, round, incarnation), own)
  {
    assert DoubtBounded(n, id, own);
    ProbeClearsTouches(n, id, round, incarnation);
    TouchHolds(n, ProbeClears(n, id, round, incarnation), id, own);
  }

  predicate OwnNews(m: Message, before: seq<Message>, t: Members, self: NodeID) {
    m in before || !m.DeltaMsg? || (self in t && m.records == [t[self]])
  }

  lemma TakeRoleSends(n: NodeState, elected: seq<NodeID>)
    ensures var n' := TakeRole(n, elected);
            forall m <- n'.sent :: OwnNews(m, n.sent, n'.tab.members, n.cfg.self)
  {
  }

  lemma TakeLeadersSends(n: NodeState, elected: seq<NodeID>)
    ensures forall m <- TakeLeaders(n, elected).sent :: m in n.sent || !m.DeltaMsg?
  {
  }

  lemma FollowSends(n: NodeState, elected: seq<NodeID>)
    ensures forall m <- Follow(n, elected).sent :: m in n.sent || !m.DeltaMsg?
  {
    hide Closest, Keep, ShouldRehome;
  }

  lemma EvaluateSends(n: NodeState)
    requires OwnsItself(n)
    ensures forall m <- Evaluate(n).sent :: OwnNews(m, n.sent, Evaluate(n).tab.members, n.cfg.self)
  {
    hide ElectionOf, TakeRole, TakeLeaders, Follow;
    var elected := ElectionOf(n).leaders;
    var n1 := TakeRole(n, elected);
    var n2 := TakeLeaders(n1, elected);
    ElectedAreMembers(n);
    TakeRoleFacts(n, elected);
    TakeRoleSends(n, elected);
    TakeLeadersFacts(n1, elected);
    TakeLeadersSends(n1, elected);
    FollowFacts(n2, elected);
    FollowSends(n2, elected);
    forall m <- Evaluate(n).sent ensures OwnNews(m, n.sent, Evaluate(n).tab.members, n.cfg.self) {
      assert m in n2.sent || !m.DeltaMsg?;
      assert m in n1.sent || !m.DeltaMsg?;
      assert m in n1.sent ==> OwnNews(m, n.sent, n1.tab.members, n.cfg.self);
    }
  }

  lemma EvaluateHolds(n: NodeState, own: Ranges)
    requires OwnsItself(n) && NodeBounded(n, own)
    ensures Holds(n, Evaluate(n), own)
  {
    hide Evaluate, ElectionOf;
    var n', self := Evaluate(n), n.cfg.self;
    EvaluateFacts(n);
    EvaluateSends(n);
    assert Bounded(n'.tab.members[self], own) by { assert Bounded(n.tab.members[self], own); }
    forall m <- n'.sent ensures MessageBounded(m, own) {
      assert OwnNews(m, n.sent, n'.tab.members, self);
    }
    forall id <- n'.suspects ensures DoubtBounded(n', id, own) { assert DoubtBounded(n, id, own); }
  }

  lemma MembershipChangedHolds(n: NodeState, own: Ranges)
    requires Inv(n) && NodeBounded(n, own)
    ensures Holds(n, MembershipChanged(n), own)
  {
    hide Evaluate;
    SameTableHolds(n, Pruned(n), own);
    EvaluateHolds(Pruned(n), own);
    HoldTwice(n, Pruned(n), MembershipChanged(n), own);
  }

  lemma IfChangedHolds(before: NodeState, n: NodeState, own: Ranges)
    requires Inv(n) && NodeBounded(n, own)
    ensures Holds(n, IfChanged(before, n), own)
  {
    hide MembershipChanged;
    SameTableHolds(n, n, own);
    MembershipChangedHolds(n, own);
  }

  // ---------------------------------------------------------------------------
  // Refutation raises the node's own ceiling
  // ---------------------------------------------------------------------------

  /** The ceiling once `n` has become `n'`. */
  function Raised(own: Ranges, n': NodeState): Ranges {
    own[n'.cfg.self := Range(n'.cfg.handshake, n'.incarnation)]
  }

  lemma BoundedIsMonotone(m: Member, own: Ranges, own': Ranges)
    requires Bounded(m, own) && m.id in own'
    requires own[m.id].first == own'[m.id].first && own[m.id].last <= own'[m.id].last
    ensures Bounded(m, own')
  {
  }

  ghost predicate NoLower(own: Ranges, own': Ranges) {
    forall id <- own :: id in own' && own[id].first == own'[id].first && own[id].last <= own'[id].last
  }

  lemma NodeBoundedIsMonotone(n: NodeState, own: Ranges, own': Ranges)
    requires NodeBounded(n, own) && NoLower(own, own')
    ensures NodeBounded(n, own')
  {
    forall id <- n.tab.members ensures Bounded(n.tab.members[id], own') {
      BoundedIsMonotone(n.tab.members[id], own, own');
    }
    forall id <- n.suspects ensures DoubtBounded(n, id, own') { assert DoubtBounded(n, id, own); }
    forall m <- n.sent ensures MessageBounded(m, own') {
      assert MessageBounded(m, own);
      if m.DeltaMsg? {
        forall r <- m.records ensures Bounded(r, own') { BoundedIsMonotone(r, own, own'); }
      }
    }
  }

  /** What a step proves: within the raised ceiling, and every final death of another member held. */
  ghost predicate Steps(n: NodeState, n': NodeState, own: Ranges) {
    && NoLower(own, Raised(own, n'))
    && NodeBounded(n', Raised(own, n'))
    && (forall id <- n.tab.members :: id != n.cfg.self && IsFinal(n, id, own) ==>
                                        StillDead(n, n', id))
  }

  lemma RefuteSteps(n: NodeState, rumour: Member, own: Ranges)
    requires OwnsItself(n) && NodeBounded(n, own) && IsItsOwn(n, own)
    ensures Steps(n, Refute(n, rumour), own)
  {
    hide Refute;
    var n' := Refute(n, rumour);
    var own' := Raised(own, n');
    RefuteFacts(n, rumour);
    NodeBoundedIsMonotone(n, own, own');
    forall m <- n'.sent ensures MessageBounded(m, own') {
      if m in n.sent { assert MessageBounded(m, own'); }
    }
    forall id <- n'.suspects ensures DoubtBounded(n', id, own') { assert DoubtBounded(n, id, own'); }
    forall id <- n'.tab.members ensures Bounded(n'.tab.members[id], own') {
      if id != n.cfg.self { assert Bounded(n.tab.members[id], own'); }
    }
  }

  lemma {:induction false} TakeRecordsSteps(n: NodeState, before: Members, from: NodeID, records: seq<Member>,
                                            own: Ranges)
    requires Inv(n) && NodeBounded(n, own) && IsItsOwn(n, own)
    requires forall r <- records :: Bounded(r, own)
    ensures Steps(n, TakeRecords(n, before, from, records).0, own)
  {
    hide TakeRecord, Refute;
    if records == [] {
      assert Raised(own, n) == own;
    } else {
      var front, rec := records[..|records| - 1], records[|records| - 1];
      TakeRecordsSteps(n, before, from, front, own);
      TakeRecordsKeeps(n, before, from, front);
      var n1 := TakeRecords(n, before, from, front).0;
      var n' := TakeRecord(n1, before, from, rec);
      var own1 := Raised(own, n1);
      assert Bounded(rec, own1) by { BoundedIsMonotone(rec, own, own1); }
      if rec.id == n.cfg.self {
        TakeOwnRecord(n1, before, from, rec);
        RefuteSteps(n1, rec, own1);
        RefuteKeepsLeader(n1, rec);
      } else {
        assert DoubtIsCurrent(n1, rec.id);
        TakeRecordHolds(n1, before, from, rec, own1);
        TakeRecordTouches(n1, before, from, rec);
      }
      StepTwice(n, n1, n', own);
    }
  }

  lemma StepTwice(a: NodeState, b: NodeState, c: NodeState, own: Ranges)
    requires a.cfg == b.cfg == c.cfg && a.Keyed() && Steps(a, b, own) && a.cfg.self in own
    requires Steps(b, c, Raised(own, b)) || (Holds(b, c, Raised(own, b)) && c.incarnation == b.incarnation)
    ensures Steps(a, c, own)
  {
    var own1, own2 := Raised(own, b), Raised(own, c);
    assert Raised(own1, c) == own2;
    assert c.incarnation == b.incarnation ==> own2 == own1;
    forall id <- a.tab.members | id != a.cfg.self && IsFinal(a, id, own)
      ensures StillDead(a, c, id) {
      assert StillDead(a, b, id);
      assert IsFinal(b, id, own1);
      assert StillDead(b, c, id);
    }
  }

  // ---------------------------------------------------------------------------
  // Every event stays within the ceiling
  // ---------------------------------------------------------------------------

  /** What an honest network may hand over: handshakes at the start-up incarnation, and bounded records in a rumour. */
  ghost predicate EventBounded(n: NodeState, e: Event, own: Ranges) {
    match e
    case PeerUp(id, _, incarnation) =>
      id == NO_NODE || id == n.cfg.self || (id in own && incarnation == own[id].first <= own[id].last)
    case Delta(_, records) => forall r <- records :: Bounded(r, own)
    case _ => true
  }

  lemma ViewBounded(n: NodeState, to: NodeID, own: Ranges)
    requires NodeBounded(n, own)
    ensures MessageBounded(DeltaMsg(to, ViewOf(n.tab.members)), own)
    ensures Holds(n, n.Send(DeltaMsg(to, ViewOf(n.tab.members))), own)
  {
    hide ViewOf;
    SameTableHolds(n, n.Send(DeltaMsg(to, ViewOf(n.tab.members))), own);
  }

  lemma OnPeerUpHolds(n: NodeState, id: NodeID, advertise: NodeAddress, incarnation: int64, own: Ranges)
    requires Inv(n) && NodeBounded(n, own) && EventBounded(n, PeerUp(id, advertise, incarnation), own)
    ensures Holds(n, OnPeerUp(n, id, advertise, incarnation), own)
  {
    hide IfChanged, Greeted, ViewOf;
    SameTableHolds(n, n, own);
    if id != NO_NODE && id != n.cfg.self {
      var n1 := Greeted(n, id, advertise, incarnation);
      GreetedTouches(n, id, advertise, incarnation);
      TouchKeepsInv(n, n1, id);
      GreetedHolds(n, id, advertise, incarnation, own);
      var n2 := n1.Send(DeltaMsg(id, ViewOf(n1.tab.members)));
      DoubtsCarryOver(n1, n2);
      ViewBounded(n1, id, own);
      HoldTwice(n, n1, n2, own);
      IfChangedHolds(n, n2, own);
      HoldTwice(n, n2, IfChanged(n, n2), own);
    }
  }

  lemma OnPeerDownHolds(n: NodeState, now: Time, id: NodeID, disposition: Disposition, own: Ranges)
    requires Inv(n) && NodeBounded(n, own)
    ensures Holds(n, OnPeerDown(n, now, id, disposition), own)
  {
    hide IfChanged, MarkDead, Doubt;
    SameTableHolds(n, n, own);
    if id != NO_NODE && id != n.cfg.self {
      var n1 := n.(attached := n.attached - {id});
      SameTableHolds(n, n1, own);
      DoubtsCarryOver(n, n1);
      assert DoubtIsCurrent(n1, id);
      var n2 := if disposition.LinkLost? then Doubt(n1, now, id, false) else MarkDead(n1, id);
      if disposition.LinkLost? {
        DoubtKeeps(n1, now, id, false);
        DoubtHolds(n1, now, id, false, own);
      } else {
        MarkDeadKeeps(n1, id);
        MarkDeadHolds(n1, id, own);
      }
      HoldTwice(n, n1, n2, own);
      IfChangedHolds(n, n2, own);
      HoldTwice(n, n2, IfChanged(n, n2), own);
    }
  }

  lemma OnDeathHolds(n: NodeState, id: NodeID, own: Ranges)
    requires Inv(n) && NodeBounded(n, own) && id != n.cfg.self && id != NO_NODE
    ensures Holds(n, OnDeath(n, id), own)
  {
    hide IfChanged, MarkDead;
    MarkDeadKeeps(n, id);
    MarkDeadHolds(n, id, own);
    IfChangedHolds(n, MarkDead(n, id), own);
    HoldTwice(n, MarkDead(n, id), OnDeath(n, id), own);
  }

  lemma OnJoinAckHolds(n: NodeState, from: NodeID, number: nat, accepted: bool, named: NodeID, own: Ranges)
    requires Inv(n) && NodeBounded(n, own)
    ensures Holds(n, OnJoinAck(n, from, number, accepted, named), own)
  {
    hide Evaluate;
    var n' := OnJoinAck(n, from, number, accepted, named);
    var detached := n.(joinID := 0, leader := NO_NODE);
    var rejected := detached.(hint := named, rejections := n.rejections + 1);
    if n' == Evaluate(detached) {
      SameTableHolds(n, detached, own);
      EvaluateHolds(detached, own);
      HoldTwice(n, detached, n', own);
    } else if n' == Evaluate(rejected) {
      SameTableHolds(n, rejected, own);
      EvaluateHolds(rejected, own);
      HoldTwice(n, rejected, n', own);
    } else {
      SameTableHolds(n, n', own);
    }
  }

  lemma BeatResumedHolds(n: NodeState, from: NodeID, own: Ranges)
    requires Inv(n) && NodeBounded(n, own)
    ensures Holds(n, BeatResumed(n, from), own)
  {
    hide IfChanged;
    SameTableHolds(n, n, own);
    if from in n.suspects && n.suspects[from].silent {
      var n1 := n.(suspects := n.suspects - {from}).Apply(Revived(n.tab.members, from, n.suspects[from].incarnation));
      assert DoubtIsCurrent(n, from) && DoubtBounded(n, from, own) && OnlyTouches(n, n1, from);
      TouchKeepsInv(n, n1, from);
      TouchHolds(n, n1, from, own);
      IfChangedHolds(n, n1, own);
      HoldTwice(n, n1, IfChanged(n, n1), own);
    }
  }

  lemma OnHeartbeatHolds(n: NodeState, from: NodeID, term: nat, own: Ranges)
    requires Inv(n) && NodeBounded(n, own)
    ensures Holds(n, OnHeartbeat(n, from, term), own)
  {
    hide BeatResumed;
    var n' := OnHeartbeat(n, from, term);
    if term < n.term {
      SameTableHolds(n, n', own);
    } else {
      var n1 := n.(term := term, sinceBeat := if from == n.leader && !n.Leads() then 0 else n.sinceBeat);
      SameTableHolds(n, n1, own);
      DoubtsCarryOver(n, n1);
      BeatResumedHolds(n1, from, own);
      HoldTwice(n, n1, BeatResumed(n1, from), own);
      SameTableHolds(BeatResumed(n1, from), n', own);
      HoldTwice(n, BeatResumed(n1, from), n', own);
    }
  }

  /** A result touches no record but its own peer's. */
  lemma {:induction false} TakeResultsTouch(n: NodeState, now: Time, round: nat, view: Members, ids: seq<NodeID>,
                                            results: map<NodeID, ProbeResult>, other: NodeID)
    requires Inv(n) && NO_NODE !in view && n.cfg.self !in ids && other !in ids
    requires forall id <- ids :: id in results
    ensures var n' := TakeResults(n, now, round, view, ids, results);
            SameRecord(n.tab.members, n'.tab.members, other) && SameDoubt(n.suspects, n'.suspects, other)
  {
    hide TakeResult;
    if ids != [] {
      var front, id := ids[..|ids| - 1], ids[|ids| - 1];
      var n1 := TakeResults(n, now, round, view, front, results);
      assert ids == front + [id];
      TakeResultsTouch(n, now, round, view, front, results, other);
      TakeResultsKeeps(n, now, round, view, front, results);
      assert DoubtIsCurrent(n1, id);
      TakeResultTouches(n1, now, round, view, id, results[id]);
      var n' := TakeResult(n1, now, round, view, id, results[id]);
      assert SameRecord(n1.tab.members, n'.tab.members, other) && SameDoubt(n1.suspects, n'.suspects, other);
    }
  }

  lemma {:induction false} TakeResultsHold(n: NodeState, now: Time, round: nat, view: Members, ids: seq<NodeID>,
                                           results: map<NodeID, ProbeResult>, own: Ranges)
    requires Inv(n) && NodeBounded(n, own) && NO_NODE !in view && n.cfg.self !in ids &&
             forall id <- ids :: id in results
    requires Ascending(NodeLess, ids) && forall id <- ids :: SameRecord(view, n.tab.members, id)
    ensures Holds(n, TakeResults(n, now, round, view, ids, results), own)
  {
    hide TakeResult;
    if ids == [] {
      SameTableHolds(n, n, own);
    } else {
      var front, id := ids[..|ids| - 1], ids[|ids| - 1];
      TakeResultsHold(n, now, round, view, front, results, own);
      TakeResultsKeeps(n, now, round, view, front, results);
      var n1 := TakeResults(n, now, round, view, front, results);
      assert DoubtIsCurrent(n1, id);
      assert ids == front + [id];
      TakeResultsTouch(n, now, round, view, front, results, id);
      TakeResultHolds(n1, now, round, view, id, results[id], own);
      HoldTwice(n, n1, TakeResult(n1, now, round, view, id, results[id]), own);
    }
  }

  lemma TakeSelfScoreHolds(n: NodeState, next: Score, own: Ranges)
    requires OwnsItself(n) && NodeBounded(n, own)
    ensures Holds(n, TakeSelfScore(n, next), own)
  {
    hide TakeSelfScore;
    var n', self := TakeSelfScore(n, next), n.cfg.self;
    TakeSelfScoreFacts(n, next);
    TakeSelfScoreSends(n, next);
    assert OnlyTouches(n, n', self) && Bounded(n.tab.members[self], own);
    forall m <- n'.sent ensures m in n.sent || MessageBounded(m, own) {
      assert OwnNews(m, n.sent, n'.tab.members, self);
    }
    TouchHolds(n, n', self, own);
  }

  lemma TakeSelfScoreSends(n: NodeState, next: Score)
    ensures var n' := TakeSelfScore(n, next);
            forall m <- n'.sent :: OwnNews(m, n.sent, n'.tab.members, n.cfg.self)
  {
  }

  lemma OnProbeRoundHolds(n: NodeState, now: Time, round: nat, results: map<NodeID, ProbeResult>, selfScore: Score,
                          own: Ranges)
    requires Inv(n) && NodeBounded(n, own) && n.cfg.self !in results
    ensures Holds(n, OnProbeRound(n, now, round, results, selfScore), own)
  {
    hide TakeResults, TakeSelfScore, Evaluate, IdList;
    var n1 := n.(probing := false, rejections := 0);
    SameTableHolds(n, n1, own);
    DoubtsCarryOver(n, n1);
    var ids := IdList(results.Keys);
    TakeResultsKeeps(n1, now, round, n.tab.members, ids, results);
    TakeResultsHold(n1, now, round, n.tab.members, ids, results, own);
    var n2, n3 := TakeResults(n1, now, round, n.tab.members, ids, results), ProbeResultsTaken(n, now, round, results);
    HoldTwice(n, n1, n2, own);
    PrunedKeeps(n2);
    SameTableHolds(n2, n3, own);
    HoldTwice(n, n2, n3, own);
    TakeSelfScoreKeeps(n3, selfScore);
    TakeSelfScoreHolds(n3, selfScore, own);
    var n4 := TakeSelfScore(n3, selfScore);
    HoldTwice(n, n3, n4, own);
    EvaluateHolds(n4, own);
    HoldTwice(n, n4, Evaluate(n4), own);
  }

  lemma OnTuneHolds(n: NodeState, threshold: Option<real>, hysteresis: Option<real>, own: Ranges)
    requires Inv(n) && NodeBounded(n, own)
    ensures Holds(n, OnTune(n, threshold, hysteresis), own)
  {
    hide Evaluate;
    var n1 := Tuned(n, threshold, hysteresis);
    SameTableHolds(n, n, own);
    SameTableHolds(n, n1, own);
    EvaluateHolds(n1, own);
    HoldTwice(n, n1, Evaluate(n1), own);
  }

  lemma ExpireHolds(n: NodeState, now: Time, view: Members, id: NodeID, own: Ranges)
    requires NodeBounded(n, own) && DoubtIsCurrent(n, id)
    ensures Holds(n, Expire(n, now, view, id), own)
  {
    hide MarkDead;
    var forgotten := n.(suspects := n.suspects - {id});
    SameTableHolds(n, n, own);
    assert OnlyTouches(n, forgotten, id);
    assert id in n.tab.members ==> Bounded(n.tab.members[id], own);
    TouchHolds(n, forgotten, id, own);
    MarkDeadHolds(n, id, own);
  }

  lemma {:induction false} ExpireAllHolds(n: NodeState, now: Time, view: Members, ids: seq<NodeID>, own: Ranges)
    requires Inv(n) && NodeBounded(n, own)
    ensures Holds(n, ExpireAll(n, now, view, ids), own)
  {
    hide Expire;
    if ids == [] {
      SameTableHolds(n, n, own);
    } else {
      var front, id := ids[..|ids| - 1], ids[|ids| - 1];
      ExpireAllHolds(n, now, view, front, own);
      ExpireAllKeeps(n, now, view, front);
      var n1 := ExpireAll(n, now, view, front);
      assert DoubtIsCurrent(n1, id);
      ExpireHolds(n1, now, view, id, own);
      HoldTwice(n, n1, Expire(n1, now, view, id), own);
    }
  }

  lemma HoldsBounds(n: NodeState, n': NodeState, own: Ranges)
    requires Holds(n, n', own)
    ensures NodeBounded(n', own)
  {
  }

  lemma CheckLeaderSilenceHolds(n: NodeState, now: Time, own: Ranges)
    requires Inv(n) && NodeBounded(n, own) && !n.Leads() && n.leader != NO_NODE
    ensures Holds(n, CheckLeaderSilence(n, now), own) &&
            CheckLeaderSilence(n, now).tab.members.Keys == n.tab.members.Keys
  {
    hide Doubt, MembershipChanged, Holds, NodeBounded;
    var counted, n1 := n.(sinceBeat := n.sinceBeat + 1), n.(sinceBeat := 0);
    SameTableHolds(n, counted, own);
    SameTableHolds(n, n1, own);
    DoubtsCarryOver(n, n1);
    assert DoubtIsCurrent(n1, n.leader);
    HoldsBounds(n, n1, own);
    DoubtKeeps(n1, now, n.leader, true);
    DoubtHolds(n1, now, n.leader, true, own);
    DoubtAddsNobody(n1, now, n.leader, true);
    var n2 := Doubt(n1, now, n.leader, true);
    var n3 := n2.(leader := NO_NODE);
    HoldsBounds(n1, n2, own);
    DoubtsCarryOver(n2, n3);
    SameTableHolds(n2, n3, own);
    HoldsBounds(n2, n3, own);
    HoldTwice(n, n1, n2, own);
    HoldTwice(n, n2, n3, own);
    MembershipChangedHolds(n3, own);
    HoldTwice(n, n3, MembershipChanged(n3), own);
    MembershipChangedAddsNobody(n3);
  }

  lemma DoubtAddsNobody(n: NodeState, now: Time, id: NodeID, silent: bool)
    ensures Doubt(n, now, id, silent).tab.members.Keys == n.tab.members.Keys
  {
  }

  lemma MembershipChangedAddsNobody(n: NodeState)
    requires Inv(n)
    ensures MembershipChanged(n).tab.members.Keys == n.tab.members.Keys
  {
    hide Evaluate, ElectionOf;
    PrunedKeeps(n);
    EvaluateFacts(Pruned(n));
  }

  /** A sweep forgets old deaths and changes no record it keeps. */
  lemma SweepForgets(n: NodeState, now: Time, own: Ranges)
    requires NodeBounded(n, own)
    ensures var n' := SweepTombstones(n, now);
            && NodeBounded(n', own) && n'.tab.members.Keys <= n.tab.members.Keys && n'.suspects == n.suspects
            && forall id <- n'.tab.members :: n'.tab.members[id] == n.tab.members[id]
  {
    hide Reconciled;
    var n' := SweepTombstones(n, now);
    forall id <- n'.suspects ensures DoubtBounded(n', id, own) { assert DoubtBounded(n, id, own); }
  }

  /** A tick may forget a final death (its tombstone has aged out), but never turns it into anything else. */
  lemma OnControlTickHolds(n: NodeState, now: Time, own: Ranges)
    requires Inv(n) && NodeBounded(n, own)
    ensures var n' := OnControlTick(n, now);
            && NodeBounded(n', own)
            && forall id <- n.tab.members | id in n'.tab.members ::
                 IsFinal(n, id, own) ==> StillDead(n, n', id)
  {
    hide ExpireSuspicions, IfChanged, SweepTombstones, CheckLeaderSilence, IdList;
    ExpireSuspicionsKeeps(n, now);
    ExpireSuspicionsHolds(n, now, own);
    var n1 := ExpireSuspicions(n, now);
    IfChangedKeeps(n, n1);
    IfChangedKeepsStanding(n, n1);
    IfChangedHolds(n, n1, own);
    var n2 := IfChanged(n, n1);
    HoldTwice(n, n1, n2, own);
    SweepKeeps(n2, now);
    SweepForgets(n2, now, own);
    var n3, n' := SweepTombstones(n2, now), OnControlTick(n, now);
    if n3.Leads() || n3.leader == NO_NODE {
      SameTableHolds(n3, n', own);
    } else {
      CheckLeaderSilenceHolds(n3, now, own);
    }
    assert n'.tab.members.Keys == n3.tab.members.Keys && Holds(n3, n', own);
    forall id <- n.tab.members | id in n'.tab.members && IsFinal(n, id, own)
      ensures StillDead(n, n', id) {
      assert StillDead(n, n2, id) && IsFinal(n2, id, own);
      assert IsFinal(n3, id, own);
    }
  }

  lemma ExpireSuspicionsHolds(n: NodeState, now: Time, own: Ranges)
    requires Inv(n) && NodeBounded(n, own)
    ensures Holds(n, ExpireSuspicions(n, now), own)
  {
    hide ExpireAll, IdList;
    ExpireAllHolds(n, now, n.tab.members, IdList(n.suspects.Keys), own);
  }

  lemma OnDeltaSteps(n: NodeState, from: NodeID, records: seq<Member>, own: Ranges)
    requires Inv(n) && NodeBounded(n, own) && IsItsOwn(n, own)
    requires forall r <- records :: Bounded(r, own)
    ensures Steps(n, OnDelta(n, from, records), own)
  {
    hide TakeRecords, MembershipChanged;
    var before, n' := n.tab.members, OnDelta(n, from, records);
    TakeRecordsSteps(n, before, from, records, own);
    TakeRecordsKeeps(n, before, from, records);
    var n1 := TakeRecords(n, before, from, records).0;
    var n2 := VoidAttachment(n1, before);
    VoidAttachmentKeeps(n1, before);
    var own1 := Raised(own, n1);
    SameTableHolds(n1, n1, own1);
    SameTableHolds(n1, n2, own1);
    MembershipChangedHolds(n2, own1);
    MembershipChangedKeeps(n2);
    HoldTwice(n1, n2, MembershipChanged(n2), own1);
    SameIncarnation(n1, n', own1);
    StepTwice(n, n1, n', own);
  }

  /** A node within a ceiling that is its own incarnation has not raised it. */
  lemma SameIncarnation(n: NodeState, n': NodeState, own: Ranges)
    requires Inv(n') && n'.cfg == n.cfg && n.incarnation <= n'.incarnation
    requires NodeBounded(n', own) && IsItsOwn(n, own)
    ensures n'.incarnation == n.incarnation && Raised(own, n') == own
  {
    assert Bounded(n'.tab.members[n.cfg.self], own);
  }

  lemma OtherStepsHold(n: NodeState, now: Time, e: Event, own: Ranges)
    requires Inv(n) && n.Keyed() && Plausible(n, e) && EventBounded(n, e, own) && NodeBounded(n, own)
    requires !e.Delta? && !e.ControlTick?
    ensures Holds(n, Step(n, now, e), own)
  {
    hide OnPeerUp, OnPeerDown, OnJoinAck, OnDeath, OnHeartbeat, OnProbeRound, OnTune, Evaluate, ViewOf, Inv,
         NodeBounded, Holds;
    match e
    case PeerUp(id, advertise, incarnation) => OnPeerUpHolds(n, id, advertise, incarnation, own);
    case PeerDown(id, disposition) => OnPeerDownHolds(n, now, id, disposition, own);
    case JoinAck(from, number, accepted, named) => OnJoinAckHolds(n, from, number, accepted, named, own);
    case Leave(from) => OnDeathHolds(n, from, own);
    case Malformed(from) => OnDeathHolds(n, from, own);
    case Heartbeat(from, term) => OnHeartbeatHolds(n, from, term, own);
    case ProbeRound(round, results, selfScore) => OnProbeRoundHolds(n, now, round, results, selfScore, own);
    case FloorTick => InvOwns(n); EvaluateHolds(n, own);
    case GossipTick(to) => ViewBounded(n, to, own);
    case Tune(threshold, hysteresis) => OnTuneHolds(n, threshold, hysteresis, own);
    case _ => QuietStepHolds(n, now, e, own);
  }

  lemma QuietStepHolds(n: NodeState, now: Time, e: Event, own: Ranges)
    requires n.Keyed() && NodeBounded(n, own) && (e.JoinCluster? || e.HeartbeatAck? || e.StateSync? || e.ProbeTick?)
    ensures Holds(n, Step(n, now, e), own)
  {
    hide Step, NodeBounded, Holds;
    QuietStepFacts(n, now, e);
    SameTableHolds(n, Step(n, now, e), own);
  }

  lemma QuietStepFacts(n: NodeState, now: Time, e: Event)
    requires n.Keyed() && (e.JoinCluster? || e.HeartbeatAck? || e.StateSync? || e.ProbeTick?)
    ensures var n' := Step(n, now, e);
            && n'.tab == n.tab && n'.suspects == n.suspects
            && forall m <- n'.sent :: m in n.sent || !m.DeltaMsg?
  {
    hide OnHeartbeatAck, OnStateSync;
    match e
    case HeartbeatAck(from, term, observed) => OnHeartbeatAckFacts(n, from, term, observed);
    case StateSync(from, named, term) => OnStateSyncFacts(n, from, named, term);
    case _ =>
  }

  /**
   * One event at one node: the ceiling (raised only by the node's own refutations) holds afterwards, and a final death
   * of another member is still that death, unless a tick has just collected it.
   */
  lemma StepStaysBounded(n: NodeState, now: Time, e: Event, own: Ranges)
    requires Inv(n) && n.Keyed() && Plausible(n, e) && EventBounded(n, e, own)
    requires NodeBounded(n, own) && IsItsOwn(n, own)
    ensures var n' := Step(n, now, e);
            && NoLower(own, Raised(own, n')) && NodeBounded(n', Raised(own, n'))
            && forall id <- n.tab.members | id != n.cfg.self && IsFinal(n, id, own) ::
                 (e.ControlTick? && id !in n'.tab.members) || StillDead(n, n', id)
  {
    hide OnDelta, OnControlTick, Inv, NodeBounded, IsFinal, Plausible;
    var n' := Step(n, now, e);
    StepKeepsInv(n, now, e);
    match e
    case Delta(from, records) => OnDeltaSteps(n, from, records, own);
    case ControlTick =>
      OnControlTickHolds(n, now, own);
      SameIncarnation(n, n', own);
    case _ =>
      hide Step;
      OtherStepsHold(n, now, e, own);
      SameIncarnation(n, n', own);
  }

  /**
   * A first-hand death is final exactly when the record was at most one behind the member's own incarnation and the
   * member's handshakes are below the int64 ceiling.
   */
  lemma DeathIsFinalExactlyWhen(n: NodeState, id: NodeID, own: Ranges)
    requires NodeBounded(n, own) && id in n.tab.members && !n.tab.members[id].state.Dead?
    ensures id in MarkDead(n, id).tab.members && Bounded(n.tab.members[id], own)
    ensures IsFinal(MarkDead(n, id), id, own) <==>
              n.tab.members[id].incarnation + 1 >= own[id].last && own[id].first < MAX_INT64
  {
    assert Bounded(n.tab.members[id], own);
  }

  lemma GreetedAlive(n: NodeState, id: NodeID, advertise: NodeAddress, incarnation: int64)
    requires id in n.tab.members && n.tab.members[id].id == id && n.tab.members[id].state.Dead?
    ensures id in Greeted(n, id, advertise, incarnation).tab.members
    ensures Greeted(n, id, advertise, incarnation).tab.members[id].state.Alive? <==>
              incarnation >= n.tab.members[id].incarnation
  {
  }

  lemma IfChangedUnsaysNothing(before: NodeState, n: NodeState)
    requires n.Keyed()
    ensures forall m <- n.sent :: m in IfChanged(before, n).sent
  {
    hide ElectionOf, TakeRole, TakeLeaders, Follow;
    var elected := ElectionOf(Pruned(n)).leaders;
    TakeRoleUnsaysNothing(Pruned(n), elected);
    TakeLeadersUnsaysNothing(TakeRole(Pruned(n), elected), elected);
    FollowUnsaysNothing(TakeLeaders(TakeRole(Pruned(n), elected), elected), elected);
  }

  lemma TakeRoleUnsaysNothing(n: NodeState, elected: seq<NodeID>)
    ensures forall m <- n.sent :: m in TakeRole(n, elected).sent
  {
  }

  lemma TakeLeadersUnsaysNothing(n: NodeState, elected: seq<NodeID>)
    ensures forall m <- n.sent :: m in TakeLeaders(n, elected).sent
  {
  }

  lemma FollowUnsaysNothing(n: NodeState, elected: seq<NodeID>)
    ensures forall m <- n.sent :: m in Follow(n, elected).sent
  {
    hide Closest, Keep, ShouldRehome;
  }

  lemma IfChangedTouchesSelf(before: NodeState, n: NodeState)
    requires Inv(n)
    ensures forall id <- n.tab.members | id != n.cfg.self ::
              SameRecord(n.tab.members, IfChanged(before, n).tab.members, id)
  {
    hide Evaluate, ElectionOf;
    PrunedKeeps(n);
    EvaluateFacts(Pruned(n));
  }

  /**
   * And final is the most a death can be: any other is undone by some one event of an honest network, the member itself
   * announcing where it is now, shaking hands, or merely beating on.
   */
  lemma OnlyTheFinalStay(n: NodeState, id: NodeID, own: Ranges) returns (e: Event)
    requires Inv(n) && NodeBounded(n, own) && id != n.cfg.self && id in n.tab.members && n.tab.members[id].state.Dead?
    requires !IsFinal(n, id, own) && id in own && own[id].first <= own[id].last
    ensures n.Keyed() && Plausible(n, e) && EventBounded(n, e, own) && !e.ControlTick?
    ensures forall now :: id in Step(n, now, e).tab.members && Step(n, now, e).tab.members[id].state.Alive?
  {
    hide OnDelta, OnPeerUp, OnHeartbeat, Inv, IsFinal;
    var m := n.tab.members[id];
    DeadMemberFacts(n, id, own);
    if m.incarnation < own[id].last {
      var news := Member(id, m.addr, m.role, Alive, own[id].last, m.score, m.claimSeq);
      e := Delta(id, [news]);
      NewsIsTaken(n, id, news);
    } else if m.incarnation <= own[id].first {
      e := PeerUp(id, m.addr, own[id].first);
      HandshakeRevives(n, id, m.addr, own[id].first);
    } else {
      e := Heartbeat(id, n.term);
      BeatRevives(n, id);
    }
  }

  lemma DeadMemberFacts(n: NodeState, id: NodeID, own: Ranges)
    requires Inv(n) && NodeBounded(n, own) && id in n.tab.members && n.tab.members[id].state.Dead?
    requires !IsFinal(n, id, own) && id in own
    ensures id != NO_NODE && n.Keyed() && n.tab.members[id].id == id
    ensures n.tab.members[id].incarnation < own[id].last || n.tab.members[id].incarnation <= own[id].first
            || BeatWouldClear(n, id)
  {
  }

  /** Newer news of another member is taken whole. */
  lemma NewsIsTaken(n: NodeState, id: NodeID, news: Member)
    requires Inv(n) && n.Keyed() && id != n.cfg.self && id != NO_NODE && news.id == id && news.state.Alive?
    requires id in n.tab.members ==> n.tab.members[id].incarnation < news.incarnation
    ensures var n' := OnDelta(n, id, [news]);
            && id in n'.tab.members && n'.tab.members[id].state.Alive?
            && n'.tab.members[id].incarnation == news.incarnation
  {
    hide MembershipChanged, Received;
    var before := n.tab.members;
    assert [news][..0] == [];
    assert TakeRecords(n, before, id, []) == (n, false);
    ReceivedId(news, id, before);
    assert DoubtIsCurrent(n, id);
    TakeRecordTouches(n, before, id, news);
    var n1 := TakeRecord(n, before, id, news);
    TouchKeepsInv(n, n1, id);
    VoidAttachmentKeeps(n1, before);
    MembershipChangedKeepsOthers(VoidAttachment(n1, before), id);
  }

  lemma MembershipChangedKeepsOthers(n: NodeState, id: NodeID)
    requires Inv(n) && id != n.cfg.self
    ensures SameRecord(n.tab.members, MembershipChanged(n).tab.members, id)
    ensures MembershipChanged(n).suspects == n.suspects
  {
    hide Evaluate, ElectionOf;
    PrunedKeeps(n);
    EvaluateFacts(Pruned(n));
  }

  /** A handshake revives a dead record exactly if it is at least as new. */
  lemma HandshakeRevives(n: NodeState, id: NodeID, advertise: NodeAddress, incarnation: int64)
    requires Inv(n) && n.Keyed() && id != n.cfg.self && id in n.tab.members && n.tab.members[id].state.Dead?
    ensures id in OnPeerUp(n, id, advertise, incarnation).tab.members
    ensures OnPeerUp(n, id, advertise, incarnation).tab.members[id].state.Alive? <==>
              incarnation >= n.tab.members[id].incarnation
  {
    hide Greeted, IfChanged, ViewOf;
    var n1 := Greeted(n, id, advertise, incarnation);
    GreetedTouches(n, id, advertise, incarnation);
    TouchKeepsInv(n, n1, id);
    var n2 := n1.Send(DeltaMsg(id, ViewOf(n1.tab.members)));
    DoubtsCarryOver(n1, n2);
    GreetedAlive(n, id, advertise, incarnation);
    IfChangedTouchesSelf(n, n2);
  }

  lemma BeatRevives(n: NodeState, from: NodeID)
    requires Inv(n) && n.Keyed() && from != n.cfg.self && from in n.tab.members && BeatWouldClear(n, from)
    ensures var n' := OnHeartbeat(n, from, n.term);
            from in n'.tab.members && n'.tab.members[from].state.Alive?
  {
    hide IfChanged;
    var n0 := n.(term := n.term, sinceBeat := if from == n.leader && !n.Leads() then 0 else n.sinceBeat);
    DoubtsCarryOver(n, n0);
    var n1 := n0.(suspects := n0.suspects - {from})
              .Apply(Revived(n0.tab.members, from, n0.suspects[from].incarnation));
    assert DoubtIsCurrent(n0, from) && OnlyTouches(n0, n1, from);
    TouchKeepsInv(n0, n1, from);
    IfChangedTouchesSelf(n0, n1);
  }
}
