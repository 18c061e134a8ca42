// What one event does to a node, outcome by outcome: for each handler what it records, whom it tells, and when.

module Effects {
  import opened Health
  import opened Membership
  import opened Sorting
  import opened Election
  import opened Affinity
  import opened NodeModel
  import opened NodeInvariant
  import opened Attachment
  import opened Misses
  import opened Ceilings
  import opened Options

  /** All an evaluation leaves of a step: the other members' records, the doubts, and whatever was said. */
  ghost predicate OnlyEvaluated(n: NodeState, n': NodeState) {
    && n'.cfg == n.cfg && n'.suspects == n.suspects && n'.attached <= n.attached
    && (forall id | id != n.cfg.self :: SameRecord(n.tab.members, n'.tab.members, id))
    && (forall m <- n.sent :: m in n'.sent)
  }

  lemma EvaluateOnlyEvaluates(n: NodeState)
    requires OwnsItself(n)
    ensures OnlyEvaluated(n, Evaluate(n))
  {
    hide ElectionOf, TakeRole, TakeLeaders, Follow;
    var elected := ElectionOf(n).leaders;
    TakeRoleFacts(n, elected);
    TakeLeadersFacts(TakeRole(n, elected), elected);
    ElectedAreMembers(n);
    FollowFacts(TakeLeaders(TakeRole(n, elected), elected), elected);
    TakeRoleUnsaysNothing(n, elected);
    TakeLeadersUnsaysNothing(TakeRole(n, elected), elected);
    FollowUnsaysNothing(TakeLeaders(TakeRole(n, elected), elected), elected);
  }

  lemma IfChangedOnlyEvaluates(before: NodeState, n: NodeState)
    requires Inv(n)
    ensures OnlyEvaluated(n, IfChanged(before, n))
  {
    hide Evaluate;
    PrunedKeeps(n);
    EvaluateOnlyEvaluates(Pruned(n));
  }

  // ---------------------------------------------------------------------------
  // Links
  // ---------------------------------------------------------------------------

  /** The record after a handshake: a known member keeps its role and score, and an older handshake changes nothing. */
  function Shaken(t: Members, id: NodeID, advertise: NodeAddress, incarnation: int64): Member {
    if id !in t then Member(id, advertise, Worker, Alive, incarnation, Unavailable, 0)
    else if incarnation < t[id].incarnation then t[id]
    else
      t[id].(addr := advertise, state := Alive, incarnation := incarnation,
             claimSeq := if incarnation > t[id].incarnation then 0 else t[id].claimSeq)
  }

  /** A handshake is recorded, ends any doubt, and is answered with the whole view. */
  lemma HandshakesAreRecorded(n: NodeState, now: Time, id: NodeID, advertise: NodeAddress, incarnation: int64)
      returns (view: seq<Member>)
    requires Inv(n) && n.Keyed() && id != NO_NODE && id != n.cfg.self
    ensures var n' := Step(n, now, PeerUp(id, advertise, incarnation));
            && id in n'.tab.members && n'.tab.members[id] == Shaken(n.tab.members, id, advertise, incarnation)
            && id !in n'.suspects && DeltaMsg(id, view) in n'.sent
            && (forall x | x != id && x != n.cfg.self :: SameRecord(n.tab.members, n'.tab.members, x))
            && (forall x <- n'.tab.members | x != n.cfg.self :: n'.tab.members[x] in view)
            && n.tab.members[n.cfg.self] in view
  {
    hide IfChanged, ViewOf, Greeted;
    var n1 := Greeted(n, id, advertise, incarnation);
    GreetedFacts(n, id, advertise, incarnation);
    GreetedTouches(n, id, advertise, incarnation);
    TouchKeepsInv(n, n1, id);
    view := ViewOf(n1.tab.members);
    var n2 := n1.Send(DeltaMsg(id, view));
    DoubtsCarryOver(n1, n2);
    IfChangedOnlyEvaluates(n, n2);
    var n' := IfChanged(n, n2);
    assert DeltaMsg(id, view) in n2.sent;
    assert SameRecord(n.tab.members, n1.tab.members, n.cfg.self);
    forall x | x != id && x != n.cfg.self ensures SameRecord(n.tab.members, n'.tab.members, x) {
      assert SameRecord(n.tab.members, n1.tab.members, x) && SameRecord(n2.tab.members, n'.tab.members, x);
    }
    assert SameRecord(n2.tab.members, n'.tab.members, id);
    forall x <- n'.tab.members | x != n.cfg.self ensures n'.tab.members[x] in view {
      assert SameRecord(n2.tab.members, n'.tab.members, x);
    }
  }

  lemma GreetedFacts(n: NodeState, id: NodeID, advertise: NodeAddress, incarnation: int64)
    requires n.Keyed()
    ensures var n' := Greeted(n, id, advertise, incarnation);
            && id in n'.tab.members && n'.tab.members[id] == Shaken(n.tab.members, id, advertise, incarnation)
            && id !in n'.suspects && n'.sent == n.sent
  {
  }

  /** A lost link is a doubt, timed from the first evidence; the worker is let go. */
  lemma LostLinksAreDoubts(n: NodeState, now: Time, id: NodeID)
    requires Inv(n) && n.Keyed() && id != NO_NODE && id != n.cfg.self
    requires id in n.tab.members && n.tab.members[id].state != Dead
    ensures var n', m := Step(n, now, PeerDown(id, LinkLost)), n.tab.members[id];
            && id in n'.tab.members && n'.tab.members[id] == m.(state := Suspect) && id !in n'.attached
            && id in n'.suspects
            && n'.suspects[id] == (if id in n.suspects then n.suspects[id]
                                   else Suspicion(now, m.incarnation, n.probeSeq, false))
            && (m.state == Alive ==> DeltaMsg(NO_NODE, [n'.tab.members[id]]) in n'.sent)
  {
    hide IfChanged, Doubt;
    var n1 := n.(attached := n.attached - {id});
    var n2 := Doubt(n1, now, id, false);
    DoubtsCarryOver(n, n1);
    DoubtKeeps(n1, now, id, false);
    DoubtFacts(n1, now, id, false);
    if n.tab.members[id].state == Alive { DoubtIsSaid(n1, now, id, false); }
    IfChangedOnlyEvaluates(n, n2);
    assert SameRecord(n2.tab.members, IfChanged(n, n2).tab.members, id);
  }

  lemma DoubtIsSaid(n: NodeState, now: Time, id: NodeID, silent: bool)
    requires id != n.cfg.self && id in n.tab.members && n.tab.members[id].state == Alive
    ensures var n' := Doubt(n, now, id, silent);
            id in n'.tab.members && DeltaMsg(NO_NODE, [n'.tab.members[id]]) in n'.sent
  {
    assert n.tab.members[id] != n.tab.members[id].(state := Suspect);
  }

  /** The events that tell of a death at once. */
  predicate TellsOfDeath(e: Event, id: NodeID) {
    || e == PeerDown(id, CleanClose) || e == PeerDown(id, ProtocolViolation)
    || e == Leave(id) || e == Malformed(id)
  }

  /**
   * A goodbye, however it comes, is a death one incarnation on, told to everybody; no doubt and no attachment is left.
   */
  lemma GoodbyesAreDeaths(n: NodeState, now: Time, id: NodeID, e: Event)
    requires Inv(n) && n.Keyed() && id != NO_NODE && id != n.cfg.self && TellsOfDeath(e, id)
    requires id in n.tab.members && n.tab.members[id].state != Dead
    ensures var n', m := Step(n, now, e), n.tab.members[id];
            && id in n'.tab.members
            && n'.tab.members[id] == m.(state := Dead, incarnation := NextIncarnation(m.incarnation))
            && id !in n'.attached && id !in n'.suspects && DeltaMsg(NO_NODE, [n'.tab.members[id]]) in n'.sent
  {
    hide IfChanged, MarkDead;
    if e.PeerDown? {
      DeathIsEvaluated(n, n.(attached := n.attached - {id}), id);
    } else {
      DeathIsEvaluated(n, n, id);
    }
  }

  lemma DeathIsEvaluated(n: NodeState, n1: NodeState, id: NodeID)
    requires Inv(n) && id in n.tab.members && n.tab.members[id].state != Dead && id != n.cfg.self
    requires n1 == n || n1 == n.(attached := n.attached - {id})
    ensures var n', m := IfChanged(n, MarkDead(n1, id)), n.tab.members[id];
            && id in n'.tab.members
            && n'.tab.members[id] == m.(state := Dead, incarnation := NextIncarnation(m.incarnation))
            && id !in n'.attached && id !in n'.suspects && DeltaMsg(NO_NODE, [n'.tab.members[id]]) in n'.sent
  {
    hide IfChanged, MarkDead;
    DoubtsCarryOver(n, n1);
    DeathIsSaid(n1, id);
    MarkDeadFacts(n1, id);
    MarkDeadKeeps(n1, id);
    IfChangedOnlyEvaluates(n, MarkDead(n1, id));
    assert SameRecord(MarkDead(n1, id).tab.members, IfChanged(n, MarkDead(n1, id)).tab.members, id);
  }

  lemma DeathIsSaid(n: NodeState, id: NodeID)
    requires id in n.tab.members && !n.tab.members[id].state.Dead?
    ensures var n' := MarkDead(n, id);
            id in n'.tab.members && DeltaMsg(NO_NODE, [n'.tab.members[id]]) in n'.sent
  {
    assert n.tab.members[id] !=
           n.tab.members[id].(state := Dead, incarnation := NextIncarnation(n.tab.members[id].incarnation));
  }

  // ---------------------------------------------------------------------------
  // Beats
  // ---------------------------------------------------------------------------

  /**
   * A beat of an older term is answered and changes nothing else; any other is adopted, clears a doubt of silence, and
   * is answered with the term and the leader as they are then.
   */
  lemma BeatsAreAnswered(n: NodeState, now: Time, from: NodeID, term: nat)
    requires Inv(n) && n.Keyed() && from != n.cfg.self
    ensures var n' := Step(n, now, Heartbeat(from, term));
            && n'.sent != [] && n'.sent[|n'.sent| - 1] == BeatAckMsg(from, n'.term, n'.leader)
            && (term < n.term ==> n' == n.Send(BeatAckMsg(from, n.term, n.leader)))
            && (term >= n.term ==> n'.term >= term)
            && (term >= n.term && from in n.suspects && n.suspects[from].silent ==>
                  && from !in n'.suspects && from in n'.tab.members
                  && (n.tab.members[from].incarnation == n.suspects[from].incarnation ==>
                        n'.tab.members[from].state == Alive))
            && (from !in n.suspects || !n.suspects[from].silent ==> n'.suspects == n.suspects && n'.tab == n.tab)
  {
    hide BeatResumed, Inv;
    if term >= n.term {
      var n1 := n.(term := term, sinceBeat := if from == n.leader && !n.Leads() then 0 else n.sinceBeat);
      assert Inv(n1) by { SameDoubtsInv(n, n1); }
      BeatResumedFacts(n1, from);
    }
  }

  lemma SameDoubtsInv(n: NodeState, n1: NodeState)
    requires Inv(n) && n1 == n.(term := n1.term, sinceBeat := n1.sinceBeat)
    ensures Inv(n1)
  {
    DoubtsCarryOver(n, n1);
  }

  lemma BeatResumedFacts(n: NodeState, from: NodeID)
    requires Inv(n) && n.Keyed() && from != n.cfg.self
    ensures var n' := BeatResumed(n, from);
            && n'.term >= n.term
            && (if from in n.suspects && n.suspects[from].silent then
                  && from !in n'.suspects && from in n.tab.members && from in n'.tab.members
                  && (n.tab.members[from].incarnation == n.suspects[from].incarnation ==>
                        n'.tab.members[from].state == Alive)
                else n' == n)
  {
    hide IfChanged;
    if from in n.suspects && n.suspects[from].silent {
      var n1 := n.(suspects := n.suspects - {from}).Apply(Revived(n.tab.members, from, n.suspects[from].incarnation));
      assert DoubtIsCurrent(n, from) && OnlyTouches(n, n1, from);
      TouchKeepsInv(n, n1, from);
      IfChangedOnlyEvaluates(n, n1);
      IfChangedKeeps(n, n1);
      assert SameRecord(n1.tab.members, IfChanged(n, n1).tab.members, from);
    }
  }

  // ---------------------------------------------------------------------------
  // Rumours
  // ---------------------------------------------------------------------------

  /**
   * What is believed of a relayed record: a measured score is not negative, and an unordered role is the member's own
   * word.
   */
  function Believed(rec: Member, from: NodeID, before: Members): Member {
    rec.(score := if rec.score.Measured? && rec.score.value >= 0.0 then rec.score else Unavailable,
         role := if rec.claimSeq > 0 || rec.id == from then rec.role
                 else if rec.id in before then before[rec.id].role else Worker)
  }

  /**
   * The record held after a rumour: newer is taken whole, older not at all, and at one incarnation liveness only
   * worsens.
   */
  function Heard(t: Members, m: Member): Member {
    if m.id !in t || m.incarnation > t[m.id].incarnation then m
    else if m.incarnation < t[m.id].incarnation then t[m.id]
    else
      var held := t[m.id];
      var newer := m.claimSeq > held.claimSeq;
      var unordered := m.claimSeq == 0 && held.claimSeq == 0;
      held.(addr := m.addr,
            state := if m.state == Dead || held.state == Dead then Dead
                     else if m.state == Suspect || held.state == Suspect then Suspect else Alive,
            role := if newer || unordered then m.role else held.role,
            score := if newer || (unordered && m.score.Measured?) then m.score else held.score,
            claimSeq := if newer then m.claimSeq else held.claimSeq)
  }

  lemma MergeIsHeard(t: Members, m: Member)
    requires WellKeyed(t)
    ensures Upserted(t, m) == t[m.id := Heard(t, m)]
  {
  }

  lemma RecordIsHeard(n: NodeState, before: Members, from: NodeID, rec: Member)
    requires n.Keyed() && rec.id != n.cfg.self
    ensures TakeRecord(n, before, from, rec) ==
            if rec.id == NO_NODE || (rec.id !in before && rec.state == Dead) then n
            else n.Apply(n.tab.members[rec.id := Heard(n.tab.members, Believed(rec, from, before))])
  {
    hide Upserted;
    MergeIsHeard(n.tab.members, Received(rec, from, before));
  }

  /** Records about different members do not get in each other's way. */
  lemma {:induction false} EachRecordIsHeard(n: NodeState, before: Members, from: NodeID, records: seq<Member>,
                                             id: NodeID)
    requires Inv(n) && n.Keyed() && UniqueIds(records) && id != n.cfg.self
    ensures var t, t' := n.tab.members, TakeRecords(n, before, from, records).0.tab.members;
            && (forall rec <- records | rec.id == id ::
                  if id == NO_NODE || (id !in before && rec.state == Dead) then SameRecord(t, t', id)
                  else id in t' && t'[id] == Heard(t, Believed(rec, from, before)))
            && ((forall rec <- records :: rec.id != id) ==> SameRecord(t, t', id))
  {
    hide TakeRecord, Heard, Believed, Refute;
    if records != [] {
      var front, last := records[..|records| - 1], records[|records| - 1];
      var n1 := TakeRecords(n, before, from, front).0;
      UniqueFront(records);
      EachRecordIsHeard(n, before, from, front, id);
      TakeRecordsKeeps(n, before, from, front);
      OneRecordIsHeard(n1, before, from, last, id);
      if last.id == id {
        BelievedId(last, from, before);
        HeardLocally(n.tab.members, n1.tab.members, Believed(last, from, before), id);
      }
    }
  }

  lemma BelievedId(rec: Member, from: NodeID, before: Members)
    ensures Believed(rec, from, before).id == rec.id
  {
  }

  lemma UniqueFront(records: seq<Member>)
    requires UniqueIds(records) && records != []
    ensures var front, last := records[..|records| - 1], records[|records| - 1];
            && records == front + [last] && UniqueIds(front) && forall rec <- front :: rec.id != last.id
  {
  }

  lemma OneRecordIsHeard(n: NodeState, before: Members, from: NodeID, rec: Member, id: NodeID)
    requires OwnsItself(n) && id != n.cfg.self
    ensures var t, t' := n.tab.members, TakeRecord(n, before, from, rec).tab.members;
            if rec.id != id || id == NO_NODE || (id !in before && rec.state == Dead) then SameRecord(t, t', id)
            else id in t' && t'[id] == Heard(t, Believed(rec, from, before))
  {
    hide TakeRecord, Heard, Believed, Refute;
    if rec.id == n.cfg.self {
      TakeOwnRecord(n, before, from, rec);
      RefuteFacts(n, rec);
    } else {
      RecordIsHeard(n, before, from, rec);
    }
  }

  lemma HeardLocally(t: Members, t': Members, m: Member, id: NodeID)
    requires SameRecord(t, t', id) && m.id == id
    ensures Heard(t, m) == Heard(t', m)
  {
  }

  /** A delta, whatever else it says, leaves each other member as its own record there says. */
  lemma RumoursAreHeard(n: NodeState, now: Time, from: NodeID, records: seq<Member>, rec: Member)
    requires Inv(n) && n.Keyed() && UniqueIds(records) && rec in records && rec.id != n.cfg.self
    ensures var t, t' := n.tab.members, Step(n, now, Delta(from, records)).tab.members;
            if rec.id == NO_NODE || (rec.id !in t && rec.state == Dead) then SameRecord(t, t', rec.id)
            else rec.id in t' && t'[rec.id] == Heard(t, Believed(rec, from, t))
  {
    hide TakeRecords, MembershipChanged, Heard, Believed;
    var t := n.tab.members;
    EachRecordIsHeard(n, t, from, records, rec.id);
    TakeRecordsKeeps(n, t, from, records);
    var n1 := TakeRecords(n, t, from, records).0;
    VoidAttachmentKeeps(n1, t);
    MembershipChangedKeepsOthers(VoidAttachment(n1, t), rec.id);
  }

  /** A rumour of doubt or death about the node itself, at least as new as the node, is outbid. */
  lemma {:induction false} OwnRumoursAreOutbid(n: NodeState, before: Members, from: NodeID, records: seq<Member>,
                                               rec: Member)
    requires Inv(n) && n.Keyed() && rec in records && rec.id == n.cfg.self && rec.state != Alive
    ensures TakeRecords(n, before, from, records).0.incarnation >= NextIncarnation(rec.incarnation)
            || rec.incarnation < TakeRecords(n, before, from, records).0.incarnation
  {
    hide TakeRecord, Refute;
    var front, last := records[..|records| - 1], records[|records| - 1];
    assert records == front + [last];
    var n1 := TakeRecords(n, before, from, front).0;
    TakeRecordsKeeps(n, before, from, front);
    TakeRecordsKeeps(n, before, from, records);
    if last == rec {
      TakeOwnRecord(n1, before, from, last);
      OutbidsIt(n1, last);
    } else {
      OwnRumoursAreOutbid(n, before, from, front, rec);
      if last.id == n.cfg.self {
        TakeOwnRecord(n1, before, from, last);
        RefuteFacts(n1, last);
      } else {
        RecordIsHeard(n1, before, from, last);
      }
    }
  }

  lemma OutbidsIt(n: NodeState, rumour: Member)
    requires rumour.state != Alive
    ensures Refute(n, rumour).incarnation ==
            if rumour.incarnation < n.incarnation then n.incarnation else NextIncarnation(rumour.incarnation)
  {
  }

  /** After hearing such a rumour the node is past it, or at the int64 ceiling with it, and alive in its own table. */
  lemma RumoursOfSelfAreOutbid(n: NodeState, now: Time, from: NodeID, records: seq<Member>, rec: Member)
    requires Inv(n) && n.Keyed() && rec in records && rec.id == n.cfg.self && rec.state != Alive
    ensures var n' := Step(n, now, Delta(from, records));
            && (n'.incarnation > rec.incarnation || n'.incarnation == rec.incarnation == MAX_INT64)
            && n.cfg.self in n'.tab.members && n'.tab.members[n.cfg.self].state == Alive
            && n'.tab.members[n.cfg.self].incarnation == n'.incarnation
  {
    hide TakeRecords, MembershipChanged;
    var t := n.tab.members;
    OwnRumoursAreOutbid(n, t, from, records, rec);
    TakeRecordsKeeps(n, t, from, records);
    OnDeltaKeeps(n, from, records);
    InvOwns(OnDelta(n, from, records));
    var n2 := VoidAttachment(TakeRecords(n, t, from, records).0, t);
    VoidAttachmentKeeps(TakeRecords(n, t, from, records).0, t);
    MembershipChangedKeeps(n2);
    SameIncarnationAfter(n2);
  }

  lemma SameIncarnationAfter(n: NodeState)
    requires Inv(n)
    ensures MembershipChanged(n).incarnation == n.incarnation
  {
    hide Evaluate, ElectionOf;
    PrunedKeeps(n);
    EvaluateFacts(Pruned(n));
  }

  /** A leader that has just claimed to be a worker is left, or joined anew. */
  lemma SteppedDownLeadersAreLeft(n: NodeState, now: Time, from: NodeID, records: seq<Member>)
    requires Inv(n) && n.Keyed() && n.leader in n.tab.members && n.leader != n.cfg.self
    requires n.tab.members[n.leader].role == Leader
    ensures var n' := Step(n, now, Delta(from, records));
            n.leader in n'.tab.members && n'.tab.members[n.leader].role == Worker ==>
              n'.leader != n.leader || n'.joins > n.joins
  {
    hide TakeRecords, Evaluate, ElectionOf;
    var t := n.tab.members;
    TakeRecordsKeeps(n, t, from, records);
    TakeRecordsChange(n, t, from, records, n.leader);
    var (n1, changed) := TakeRecords(n, t, from, records);
    if changed {
      var n2 := VoidAttachment(n1, t);
      VoidAttachmentKeeps(n1, t);
      MembershipChangedKeepsOthers(n2, n.leader);
      PrunedKeeps(n2);
      EvaluateFacts(Pruned(n2));
      if n2.leader == NO_NODE { EvaluateReplaces(Pruned(n2)); }
    }
  }

  /** If no record about another member changed the table, no other record changed. */
  lemma {:induction false} TakeRecordsChange(n: NodeState, before: Members, from: NodeID, records: seq<Member>,
                                             id: NodeID)
    requires Inv(n) && n.Keyed() && id != n.cfg.self
    ensures var (n', changed) := TakeRecords(n, before, from, records);
            !changed ==> SameRecord(n.tab.members, n'.tab.members, id)
  {
    hide TakeRecord, Refute;
    if records != [] {
      var front, last := records[..|records| - 1], records[|records| - 1];
      var n1 := TakeRecords(n, before, from, front).0;
      TakeRecordsChange(n, before, from, front, id);
      TakeRecordsKeeps(n, before, from, front);
      if last.id == n.cfg.self {
        TakeOwnRecord(n1, before, from, last);
        RefuteFacts(n1, last);
      }
    }
  }

  /** An evaluation gives a node without a leader one only by a JOIN, or itself. */
  lemma EvaluateReplaces(n: NodeState)
    requires OwnsItself(n) && n.leader == NO_NODE
    ensures var n' := Evaluate(n);
            n'.leader in {NO_NODE, n.cfg.self} || n'.joins > n.joins
  {
    hide ElectionOf, TakeRole, TakeLeaders, Follow;
    var elected := ElectionOf(n).leaders;
    ElectedAreMembers(n);
    TakeRoleFacts(n, elected);
    TakeLeadersFacts(TakeRole(n, elected), elected);
    FollowReplaces(TakeLeaders(TakeRole(n, elected), elected), elected);
  }

  lemma FollowReplaces(n: NodeState, elected: seq<NodeID>)
    requires n.leader == NO_NODE
    ensures Follow(n, elected).leader == NO_NODE || Follow(n, elected).joins > n.joins
  {
    hide Closest, Keep, ShouldRehome, SendJoin;
    var usable := Keep(Undoubted(n.suspects), elected);
    var best := if n.hint != NO_NODE && n.hint in usable then n.hint else Closest(n.local, usable);
    var next := n.(attached := {}, hint := NO_NODE);
    FollowIs(n, elected, next, best);
    SendJoinFacts(next, best);
  }
}
