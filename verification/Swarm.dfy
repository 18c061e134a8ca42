// N honest nodes over a network that loses, duplicates, delays and reorders.

module Swarm {
  import opened Health
  import opened Membership
  import opened Sorting
  import opened Election
  import opened NodeModel
  import opened NodeInvariant
  import opened Ceilings

  /**
   * Every node's state. What it has ever sent stays in `sent`: the network may deliver any of it, at any time, again.
   */
  type System = map<NodeID, NodeState>

  /** One event handled at one node. */
  datatype Action = Action(at: NodeID, now: Time, event: Event)

  function Owns(s: System): Ranges {
    map p <- s :: Range(s[p].cfg.handshake, s[p].incarnation)
  }

  /**
   * What can happen at `p`. A handshake carries the incarnation its peer's transport read at start-up, however often
   * the peer has refuted since; a rumour is one its sender has sent to `p` or to everybody. Nothing is asked of the
   * contents of any other message.
   */
  ghost predicate CanHappen(s: System, p: NodeID, e: Event)
    requires p in s
  {
    && Plausible(s[p], e)
    && match e
       case PeerUp(id, _, incarnation) => id == NO_NODE || (id in s && incarnation == s[id].cfg.handshake)
       case Delta(from, records) => from in s && exists m <- s[from].sent :: Carries(m, p, records)
       case _ => true
  }

  predicate Carries(m: Message, p: NodeID, records: seq<Member>) {
    m.DeltaMsg? && m.records == records && (m.to == NO_NODE || m.to == p)
  }

  /** Fresh nodes. A node reads its own incarnation after its transport has read the one for its handshakes. */
  ghost predicate Started(s: System) {
    forall p <- s ::
      && p != NO_NODE && s[p].cfg.self == p && s[p].cfg.handshake <= s[p].incarnation
      && s[p] == Boot(s[p].cfg, s[p].election, s[p].rehome, s[p].incarnation)
  }

  ghost predicate Moves(s: System, a: Action, s': System) {
    a.at in s && s[a.at].Keyed() && CanHappen(s, a.at, a.event) && s' == s[a.at := Step(s[a.at], a.now, a.event)]
  }

  ghost predicate IsSystemRun(states: seq<System>, actions: seq<Action>) {
    && |states| == |actions| + 1
    && Started(states[0])
    && forall i :: 0 <= i < |actions| ==> Moves(states[i], actions[i], states[i + 1])
  }

  ghost predicate NodeHolds(s: System, p: NodeID)
    requires p in s
  {
    s[p].cfg.self == p && Inv(s[p]) && NodeBounded(s[p], Owns(s))
  }

  ghost predicate SystemInv(s: System) {
    forall p <- s :: NodeHolds(s, p)
  }

  lemma StartedHolds(s: System)
    requires Started(s)
    ensures SystemInv(s)
  {
    forall p <- s ensures NodeHolds(s, p) {
      BootInv(s[p].cfg, s[p].election, s[p].rehome, s[p].incarnation);
    }
  }

  lemma DeliveredIsBounded(s: System, p: NodeID, e: Event)
    requires SystemInv(s) && p in s && CanHappen(s, p, e)
    ensures EventBounded(s[p], e, Owns(s))
  {
    if e.Delta? {
      assert NodeHolds(s, e.from);
      var m :| m in s[e.from].sent && Carries(m, p, e.records);
      assert MessageBounded(m, Owns(s));
    } else if e.PeerUp? && e.id in s {
      RangeOf(s, e.id);
    }
  }

  /** A member holds its own record, so its handshakes are not newer than it is. */
  lemma RangeOf(s: System, p: NodeID)
    requires SystemInv(s) && p in s
    ensures s[p].cfg.handshake <= s[p].incarnation
  {
    assert NodeHolds(s, p);
    assert Bounded(s[p].tab.members[p], Owns(s));
  }

  /** A move keeps the system within the ceiling, and only the moving node can raise its own. */
  lemma MoveKeeps(s: System, a: Action, s': System)
    requires SystemInv(s) && Moves(s, a, s')
    ensures SystemInv(s') && s'.Keys == s.Keys && NoLower(Owns(s), Owns(s'))
    ensures var n, n' := s[a.at], s'[a.at];
            && n'.cfg == n.cfg
            && forall id <- n.tab.members | id != a.at && IsFinal(n, id, Owns(s)) ::
                 (a.event.ControlTick? && id !in n'.tab.members) || StillDead(n, n', id)
  {
    hide Step, Inv, NodeBounded, IsFinal;
    var p, n, own := a.at, s[a.at], Owns(s);
    assert NodeHolds(s, p);
    DeliveredIsBounded(s, p, a.event);
    StepKeepsInv(n, a.now, a.event);
    StepStaysBounded(n, a.now, a.event, own);
    assert Owns(s') == Raised(own, s'[p]);
    forall q <- s' ensures NodeHolds(s', q) {
      assert NodeHolds(s, q);
      if q != p { NodeBoundedIsMonotone(s[q], own, Owns(s')); }
    }
  }

  lemma {:induction false} RunStaysBounded(states: seq<System>, actions: seq<Action>, i: nat, j: nat)
    requires IsSystemRun(states, actions) && i <= j < |states|
    ensures SystemInv(states[j]) && states[j].Keys == states[0].Keys
    ensures NoLower(Owns(states[i]), Owns(states[j]))
  {
    hide Moves, NodeHolds;
    if j == 0 {
      StartedHolds(states[0]);
    } else {
      RunStaysBounded(states, actions, if i == j then j - 1 else i, j - 1);
      assert Moves(states[j - 1], actions[j - 1], states[j]);
      MoveKeeps(states[j - 1], actions[j - 1], states[j]);
    }
  }

  /**
   * The incarnation ceiling: in every state of every run, whatever any node holds or has ever sent about a member is at
   * most the member's own incarnation if it says alive or suspect, and at most the next one if it says dead. And it is
   * never older than the member's handshakes.
   */
  lemma CeilingHolds(states: seq<System>, actions: seq<Action>, k: nat, p: NodeID, r: Member)
    requires IsSystemRun(states, actions) && k < |states| && p in states[k]
    requires (r.id in states[k][p].tab.members && r == states[k][p].tab.members[r.id])
             || exists m <- states[k][p].sent :: m.DeltaMsg? && r in m.records
    ensures r.id in states[k] && states[k][r.id].cfg.handshake <= r.incarnation
    ensures r.incarnation <= if r.state.Dead? then NextIncarnation(states[k][r.id].incarnation)
            else states[k][r.id].incarnation
  {
    hide IsSystemRun;
    RunStaysBounded(states, actions, k, k);
    assert NodeHolds(states[k], p);
    if m :| m in states[k][p].sent && m.DeltaMsg? && r in m.records {
      assert MessageBounded(m, Owns(states[k]));
    }
    assert Bounded(r, Owns(states[k]));
  }

  /** A death at `p` that holds out while `m` is at most at this incarnation: see `IsFinal`. */
  ghost predicate HoldsOut(s: System, p: NodeID, m: NodeID, own: int64)
    requires p in s && m in s && m in s[p].tab.members
  {
    IsFinal(s[p], m, map[m := Range(s[m].cfg.handshake, own)])
  }

  /**
   * Death is permanent: while the member has not refuted past it, a death above its handshakes (and that no beat would
   * clear) stays a death at every node that holds it, through any interleaving and any delivery, until that node
   * collects the record; and the very same death, if it is past the member's incarnation.
   */
  lemma {:induction false} DeathIsPermanent(states: seq<System>, actions: seq<Action>, i: nat, j: nat, p: NodeID,
                                            m: NodeID)
    requires IsSystemRun(states, actions) && i <= j < |states| && p in states[0] && m in states[0] && p != m
    requires forall k :: i <= k <= j ==> p in states[k] && m in states[k] && m in states[k][p].tab.members
    requires HoldsOut(states[i], p, m, states[j][m].incarnation)
    ensures StillDead(states[i][p], states[j][p], m) && HoldsOut(states[j], p, m, states[j][m].incarnation)
    ensures states[i][p].tab.members[m].incarnation > states[j][m].incarnation ==>
              states[j][p].tab.members[m].incarnation == states[i][p].tab.members[m].incarnation
  {
    hide IsSystemRun, SystemInv, Moves;
    if i < j {
      OwnGrows(states, actions, j - 1, j, m);
      DeathIsPermanent(states, actions, i, j - 1, p, m);
      RunMoves(states, actions, j);
      DeathSurvivesMove(states[j - 1], actions[j - 1], states[j], p, m);
      SameHandshake(states, actions, i, j, m);
      SameHandshake(states, actions, j - 1, j, m);
    }
    RecordIsBounded(states, actions, j, p, m);
  }

  lemma RecordIsBounded(states: seq<System>, actions: seq<Action>, k: nat, p: NodeID, m: NodeID)
    requires IsSystemRun(states, actions) && k < |states| && p in states[k] && m in states[k]
    requires m in states[k][p].tab.members
    ensures states[k][p].tab.members[m].incarnation <= NextIncarnation(states[k][m].incarnation)
    ensures states[k][p].tab.members[m].incarnation >= states[k][m].cfg.handshake
  {
    hide IsSystemRun;
    RunStaysBounded(states, actions, k, k);
    KeyedRecord(states[k], p, m);
    CeilingHolds(states, actions, k, p, states[k][p].tab.members[m]);
  }

  lemma SameHandshake(states: seq<System>, actions: seq<Action>, i: nat, j: nat, m: NodeID)
    requires IsSystemRun(states, actions) && i <= j < |states| && m in states[0]
    ensures m in states[i] && m in states[j] && states[i][m].cfg.handshake == states[j][m].cfg.handshake
  {
    hide IsSystemRun, SystemInv;
    RunStaysBounded(states, actions, 0, i);
    RunStaysBounded(states, actions, i, j);
    assert m in Owns(states[i]);
  }

  lemma OwnGrows(states: seq<System>, actions: seq<Action>, i: nat, j: nat, id: NodeID)
    requires IsSystemRun(states, actions) && i <= j < |states| && id in states[0]
    ensures id in states[i] && id in states[j] && states[i][id].incarnation <= states[j][id].incarnation
  {
    hide IsSystemRun, SystemInv;
    RunStaysBounded(states, actions, 0, i);
    RunStaysBounded(states, actions, i, j);
    assert id in Owns(states[i]);
  }

  lemma RunLengths(states: seq<System>, actions: seq<Action>)
    requires IsSystemRun(states, actions)
    ensures |states| == |actions| + 1
  {
  }

  lemma RunMoves(states: seq<System>, actions: seq<Action>, j: nat)
    requires IsSystemRun(states, actions) && 0 < j < |states|
    ensures j <= |actions| && SystemInv(states[j - 1]) && Moves(states[j - 1], actions[j - 1], states[j])
  {
    hide Moves, SystemInv;
    RunStaysBounded(states, actions, 0, j - 1);
    assert Moves(states[j - 1], actions[j - 1], states[j - 1 + 1]);
  }

  lemma DeathSurvivesMove(s: System, a: Action, s': System, p: NodeID, m: NodeID)
    requires SystemInv(s) && Moves(s, a, s') && p in s && m in s && p != m
    requires m in s[p].tab.members && p in s' && m in s'[p].tab.members && HoldsOut(s, p, m, s[m].incarnation)
    ensures StillDead(s[p], s'[p], m)
  {
    hide Step, SystemInv;
    MoveKeeps(s, a, s');
    assert IsFinal(s[p], m, Owns(s));
  }

  /** In particular a death past the member's incarnation holds out. */
  lemma PastDeathHoldsOut(s: System, p: NodeID, m: NodeID)
    requires SystemInv(s) && p in s && m in s && m in s[p].tab.members
    requires s[p].tab.members[m].state.Dead? && s[p].tab.members[m].incarnation > s[m].incarnation
    ensures HoldsOut(s, p, m, s[m].incarnation)
  {
    hide SystemInv;
    DoubtsAreBounded(s, p, m);
    RangeOf(s, m);
  }

  lemma DoubtsAreBounded(s: System, p: NodeID, m: NodeID)
    requires SystemInv(s) && p in s && m in s
    ensures m in s[p].suspects ==> s[p].suspects[m].incarnation <= s[m].incarnation
  {
    hide Inv;
    assert NodeHolds(s, p);
    assert m in s[p].suspects ==> DoubtBounded(s[p], m, Owns(s));
  }

  lemma KeyedRecord(s: System, p: NodeID, id: NodeID)
    requires SystemInv(s) && p in s && id in s[p].tab.members
    ensures s[p].tab.members[id].id == id
  {
    assert NodeHolds(s, p);
  }

  /**
   * The way back: a member that hears of a death past its own incarnation outbids it, and wherever its announcement
   * arrives it is alive again -- unless the death stands at the int64 ceiling, where it cannot be outbid at a node that
   * holds it.
   */
  lemma RefutationHeals(s: System, id: NodeID, rumour: Member, q: NodeID)
    requires SystemInv(s) && id in s && q in s && rumour.id == id && Bounded(rumour, Owns(s))
    requires rumour.state.Dead? && rumour.incarnation > s[id].incarnation
    ensures var n' := Refute(s[id], rumour);
            && id in n'.tab.members
            && (rumour.incarnation < MAX_INT64 ==> Upserted(s[q].tab.members, n'.tab.members[id])[id].state.Alive?)
            && (id in s[q].tab.members && s[q].tab.members[id] == rumour ==>
                  (Upserted(s[q].tab.members, n'.tab.members[id])[id].state.Alive? <==> rumour.incarnation < MAX_INT64))
  {
    hide Inv, Upserted, Refute;
    assert NodeHolds(s, id) && NodeHolds(s, q);
    InvOwns(s[id]);
    RefuteAnnounces(s[id], rumour);
    if id in s[q].tab.members {
      assert Bounded(s[q].tab.members[id], Owns(s));
    }
    Outbids(s[q].tab.members, Refute(s[id], rumour).tab.members[id], rumour);
  }

  lemma Outbids(t: Members, news: Member, rumour: Member)
    requires news.state.Alive? && news.id == rumour.id && news.incarnation == NextIncarnation(rumour.incarnation)
    requires rumour.id in t ==> t[rumour.id].incarnation <= rumour.incarnation && rumour.state.Dead?
    ensures rumour.incarnation < MAX_INT64 ==> Upserted(t, news)[rumour.id].state.Alive?
    ensures rumour.id in t && t[rumour.id] == rumour && rumour.incarnation == MAX_INT64 ==>
              !Upserted(t, news)[rumour.id].state.Alive?
  {
  }

  lemma RefuteAnnounces(n: NodeState, rumour: Member)
    requires OwnsItself(n) && rumour.state.Dead? && rumour.incarnation >= n.incarnation
    ensures var n', self := Refute(n, rumour), n.cfg.self;
            && self in n'.tab.members && n'.tab.members[self].id == self && n'.tab.members[self].state.Alive?
            && n'.tab.members[self].incarnation == NextIncarnation(rumour.incarnation)
            && n'.sent == n.sent + [DeltaMsg(NO_NODE, [n'.tab.members[self]])]
  {
  }
}
