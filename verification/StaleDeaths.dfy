// The ways in which a first-hand death is not final, each as a run of the whole system: the record was two behind the
// member's own incarnation, by refutations not heard of or from the start; or the member's handshakes are at the int64
// ceiling.

module StaleDeaths {
  import opened Health
  import opened Membership
  import opened Sorting
  import opened Election
  import opened Affinity
  import opened NodeModel
  import opened NodeInvariant
  import opened Ceilings
  import opened Swarm
  import opened Deaths

  /** Whether `p` holds a record of `id` in this state at this incarnation. */
  predicate Says(n: NodeState, id: NodeID, state: State, incarnation: int64) {
    id in n.tab.members && n.tab.members[id].state == state && n.tab.members[id].incarnation == incarnation
  }

  lemma MoveTo(s: System, a: Action) returns (s': System)
    requires SystemInv(s) && a.at in s && CanHappen(s, a.at, a.event)
    ensures s[a.at].Keyed() && Moves(s, a, s') && SystemInv(s') && s' == s[a.at := Step(s[a.at], a.now, a.event)]
    ensures s'[a.at].cfg == s[a.at].cfg
  {
    hide Step;
    NodeFacts(s, a.at);
    s' := s[a.at := Step(s[a.at], a.now, a.event)];
    MoveKeeps(s, a, s');
  }

  lemma NodeFacts(s: System, p: NodeID)
    requires SystemInv(s) && p in s
    ensures s[p].cfg.self == p && p != NO_NODE && Inv(s[p]) && s[p].Keyed()
  {
    assert NodeHolds(s, p);
  }

  // ---------------------------------------------------------------------------
  // The events, at the node that handles them
  // ---------------------------------------------------------------------------

  lemma GreetingIsBelieved(n: NodeState, id: NodeID, advertise: NodeAddress, incarnation: int64)
    requires Inv(n) && n.Keyed() && id != NO_NODE && id != n.cfg.self
    requires id in n.tab.members ==> n.tab.members[id].incarnation <= incarnation
    ensures Says(OnPeerUp(n, id, advertise, incarnation), id, Alive, incarnation)
  {
    hide Greeted, IfChanged, ViewOf;
    var n1 := Greeted(n, id, advertise, incarnation);
    var n2 := n1.Send(DeltaMsg(id, ViewOf(n1.tab.members)));
    GreetedRecord(n, id, advertise, incarnation);
    GreetedTouches(n, id, advertise, incarnation);
    TouchKeepsInv(n, n1, id);
    DoubtsCarryOver(n1, n2);
    IfChangedTouchesSelf(n, n2);
  }

  lemma GreetedRecord(n: NodeState, id: NodeID, advertise: NodeAddress, incarnation: int64)
    requires n.Keyed() && (id in n.tab.members ==> n.tab.members[id].incarnation <= incarnation)
    ensures Says(Greeted(n, id, advertise, incarnation), id, Alive, incarnation)
  {
  }

  /** A lost link is a doubt at the incarnation held, pushed to everybody. */
  lemma LostLinkIsRumoured(n: NodeState, now: Time, id: NodeID, incarnation: int64) returns (rumour: Member)
    requires Inv(n) && n.Keyed() && id != NO_NODE && id != n.cfg.self && Says(n, id, Alive, incarnation)
    ensures Says(OnPeerDown(n, now, id, LinkLost), id, Suspect, incarnation)
    ensures rumour.id == id && rumour.state.Suspect? && rumour.incarnation == incarnation
    ensures DeltaMsg(NO_NODE, [rumour]) in OnPeerDown(n, now, id, LinkLost).sent
  {
    hide IfChanged, Doubt;
    var n1 := n.(attached := n.attached - {id});
    var n2 := Doubt(n1, now, id, false);
    DoubtFacts(n1, now, id, false);
    rumour := n2.tab.members[id];
    DoubtIsPushed(n1, now, id, false);
    DoubtsCarryOver(n, n1);
    DoubtKeeps(n1, now, id, false);
    IfChangedTouchesSelf(n, n2);
    IfChangedUnsaysNothing(n, n2);
  }

  lemma DoubtIsPushed(n: NodeState, now: Time, id: NodeID, silent: bool)
    requires id != n.cfg.self && id in n.tab.members && n.tab.members[id].state.Alive?
    ensures var n' := Doubt(n, now, id, silent);
            id in n'.tab.members && DeltaMsg(NO_NODE, [n'.tab.members[id]]) in n'.sent
  {
    assert n.tab.members[id] != n.tab.members[id].(state := Suspect);
  }

  /** A node told at its own incarnation that it is suspect or dead takes the next one, and says so to everybody. */
  lemma RumourIsRefuted(n: NodeState, from: NodeID, rumour: Member) returns (news: Member)
    requires Inv(n) && n.Keyed() && rumour.id == n.cfg.self && !rumour.state.Alive?
    requires rumour.incarnation == n.incarnation
    ensures var n' := OnDelta(n, from, [rumour]);
            n'.incarnation == NextIncarnation(n.incarnation) && DeltaMsg(NO_NODE, [news]) in n'.sent
    ensures news.id == n.cfg.self && news.state.Alive? && news.incarnation == NextIncarnation(n.incarnation)
  {
    hide TakeRecord, MembershipChanged, Refute;
    var before := n.tab.members;
    assert [rumour][..0] == [];
    assert TakeRecords(n, before, from, []) == (n, false);
    TakeOwnRecord(n, before, from, rumour);
    assert TakeRecords(n, before, from, [rumour]) == (Refute(n, rumour), false);
    news := RefutedNews(n, rumour);
  }

  lemma RefutedNews(n: NodeState, rumour: Member) returns (news: Member)
    requires OwnsItself(n) && !rumour.state.Alive? && rumour.incarnation == n.incarnation
    ensures var n' := Refute(n, rumour);
            n'.incarnation == NextIncarnation(n.incarnation) && DeltaMsg(NO_NODE, [news]) in n'.sent
    ensures news.id == n.cfg.self && news.state.Alive? && news.incarnation == NextIncarnation(n.incarnation)
  {
    news := Refute(n, rumour).tab.members[n.cfg.self];
  }

  /** A goodbye is a death one incarnation on, pushed to everybody. */
  lemma GoodbyeIsDeath(n: NodeState, now: Time, id: NodeID, state: State, incarnation: int64) returns (death: Member)
    requires Inv(n) && n.Keyed() && id != NO_NODE && id != n.cfg.self
    requires Says(n, id, state, incarnation) && state != Dead
    ensures Says(OnPeerDown(n, now, id, CleanClose), id, Dead, NextIncarnation(incarnation))
    ensures death.id == id && death.state.Dead? && death.incarnation == NextIncarnation(incarnation)
    ensures DeltaMsg(NO_NODE, [death]) in OnPeerDown(n, now, id, CleanClose).sent
  {
    hide IfChanged, MarkDead;
    var n1 := n.(attached := n.attached - {id});
    DoubtsCarryOver(n, n1);
    var n2 := MarkDead(n1, id);
    MarkDeadFacts(n1, id);
    MarkDeadKeeps(n1, id);
    death := n2.tab.members[id];
    DeathIsPushed(n1, id);
    IfChangedTouchesSelf(n, n2);
    IfChangedUnsaysNothing(n, n2);
    assert SameRecord(n2.tab.members, IfChanged(n, n2).tab.members, id);
  }

  lemma DeathIsPushed(n: NodeState, id: NodeID)
    requires id in n.tab.members && !n.tab.members[id].state.Dead?
    ensures var n' := MarkDead(n, id);
            id in n'.tab.members && DeltaMsg(NO_NODE, [n'.tab.members[id]]) in n'.sent
  {
    assert n.tab.members[id] !=
           n.tab.members[id].(state := Dead, incarnation := NextIncarnation(n.tab.members[id].incarnation));
  }

  /** What a fresh node gossips is its own record. */
  lemma FreshView(n: NodeState) returns (news: Member)
    requires n == Boot(n.cfg, n.election, n.rehome, n.incarnation)
    ensures n.Keyed() && ViewOf(n.tab.members) == [news]
    ensures news.id == n.cfg.self && news.state.Alive? && news.incarnation == n.incarnation
  {
    news := n.tab.members[n.cfg.self];
    ViewIsUnique([news], n.tab.members);
  }

  // ---------------------------------------------------------------------------
  // The runs
  // ---------------------------------------------------------------------------

  /** `s'` is `s` after this move at `p`, which touched no other node. */
  ghost predicate MovedBy(s: System, a: Action, s': System) {
    Moves(s, a, s') && SystemInv(s') && s'.Keys == s.Keys && forall q <- s | q != a.at :: q in s' && s'[q] == s[q]
  }

  lemma Greets(s: System, p: NodeID, m: NodeID, advertise: NodeAddress) returns (s': System)
    requires SystemInv(s) && p in s && m in s && p != m
    requires m in s[p].tab.members ==> s[p].tab.members[m].incarnation <= s[m].cfg.handshake
    ensures MovedBy(s, Action(p, 0, PeerUp(m, advertise, s[m].cfg.handshake)), s')
    ensures p in s' && Says(s'[p], m, Alive, s[m].cfg.handshake)
  {
    hide SystemInv, OnPeerUp, Inv;
    NodeFacts(s, p);
    NodeFacts(s, m);
    s' := MoveTo(s, Action(p, 0, PeerUp(m, advertise, s[m].cfg.handshake)));
    GreetingIsBelieved(s[p], m, advertise, s[m].cfg.handshake);
  }

  /** A fresh node gossips its own record to `p`. */
  lemma Gossips(s: System, m: NodeID, p: NodeID) returns (s': System, news: Member)
    requires Started(s) && SystemInv(s) && m in s
    ensures MovedBy(s, Action(m, 0, GossipTick(p)), s') && m in s' && s'[m].incarnation == s[m].incarnation
    ensures s'[m].cfg == s[m].cfg
    ensures news.id == m && news.state.Alive? && news.incarnation == s[m].incarnation
    ensures DeltaMsg(p, [news]) in s'[m].sent
  {
    hide SystemInv, ViewOf, Inv;
    NodeFacts(s, m);
    news := FreshView(s[m]);
    s' := MoveTo(s, Action(m, 0, GossipTick(p)));
  }

  /** News of `m` that `m` has sent reaches `p`, who knows nothing as new. */
  lemma Learns(s: System, p: NodeID, m: NodeID, to: NodeID, news: Member) returns (s': System)
    requires SystemInv(s) && p in s && m in s && p != m && to in {NO_NODE, p}
    requires DeltaMsg(to, [news]) in s[m].sent && news.id == m && news.state.Alive?
    requires m in s[p].tab.members ==> s[p].tab.members[m].incarnation < news.incarnation
    ensures MovedBy(s, Action(p, 0, Delta(m, [news])), s') && p in s' && Says(s'[p], m, Alive, news.incarnation)
  {
    hide SystemInv, OnDelta, Inv;
    NodeFacts(s, p);
    NodeFacts(s, m);
    assert Carries(DeltaMsg(to, [news]), p, [news]);
    s' := MoveTo(s, Action(p, 0, Delta(m, [news])));
    NewsIsTaken(s[p], m, news);
  }

  lemma LosesLink(s: System, p: NodeID, m: NodeID, incarnation: int64) returns (s': System, rumour: Member)
    requires SystemInv(s) && p in s && m in s && p != m && Says(s[p], m, Alive, incarnation)
    ensures MovedBy(s, Action(p, 0, PeerDown(m, LinkLost)), s') && p in s' && Says(s'[p], m, Suspect, incarnation)
    ensures rumour.id == m && rumour.state.Suspect? && rumour.incarnation == incarnation
    ensures DeltaMsg(NO_NODE, [rumour]) in s'[p].sent
  {
    hide SystemInv, OnPeerDown, Inv;
    NodeFacts(s, p);
    NodeFacts(s, m);
    s' := MoveTo(s, Action(p, 0, PeerDown(m, LinkLost)));
    rumour := LostLinkIsRumoured(s[p], 0, m, incarnation);
  }

  lemma Refutes(s: System, p: NodeID, m: NodeID, rumour: Member) returns (s': System, news: Member)
    requires SystemInv(s) && p in s && m in s && p != m && DeltaMsg(NO_NODE, [rumour]) in s[p].sent
    requires rumour.id == m && !rumour.state.Alive? && rumour.incarnation == s[m].incarnation
    ensures MovedBy(s, Action(m, 0, Delta(p, [rumour])), s') && m in s' && s'[m].cfg == s[m].cfg
    ensures s'[m].incarnation == NextIncarnation(s[m].incarnation)
    ensures news.id == m && news.state.Alive? && news.incarnation == s'[m].incarnation
    ensures DeltaMsg(NO_NODE, [news]) in s'[m].sent
  {
    hide SystemInv, OnDelta, Inv;
    NodeFacts(s, p);
    NodeFacts(s, m);
    assert Carries(DeltaMsg(NO_NODE, [rumour]), m, [rumour]);
    s' := MoveTo(s, Action(m, 0, Delta(p, [rumour])));
    news := RumourIsRefuted(s[m], p, rumour);
  }

  lemma Parts(s: System, p: NodeID, m: NodeID, state: State, incarnation: int64) returns (s': System, death: Member)
    requires SystemInv(s) && p in s && m in s && p != m && state != Dead && Says(s[p], m, state, incarnation)
    ensures MovedBy(s, Action(p, 0, PeerDown(m, CleanClose)), s') && p in s'
    ensures Says(s'[p], m, Dead, NextIncarnation(incarnation))
    ensures death.id == m && death.state.Dead? && death.incarnation == NextIncarnation(incarnation)
    ensures DeltaMsg(NO_NODE, [death]) in s'[p].sent
  {
    hide SystemInv, OnPeerDown, Inv;
    NodeFacts(s, p);
    NodeFacts(s, m);
    s' := MoveTo(s, Action(p, 0, PeerDown(m, CleanClose)));
    death := GoodbyeIsDeath(s[p], 0, m, state, incarnation);
  }

  lemma JustStarted(s: System)
    requires Started(s)
    ensures IsSystemRun([s], [])
  {
  }

  lemma OneMoveMore(states: seq<System>, actions: seq<Action>, a: Action, s': System)
    requires IsSystemRun(states, actions) && MovedBy(states[|states| - 1], a, s')
    ensures IsSystemRun(states + [s'], actions + [a])
  {
    hide Moves, Started, SystemInv;
  }

  lemma NotYetMet(s: System, p: NodeID, m: NodeID)
    requires Started(s) && p in s && p != m
    ensures m !in s[p].tab.members
  {
  }

  lemma SaysOnce(n: NodeState, id: NodeID, state: State, incarnation: int64)
    requires Says(n, id, state, incarnation)
    ensures id in n.tab.members && n.tab.members[id].incarnation == incarnation
  {
  }

  /** A run so far, in whose last state the nodes are still those of `s`. */
  ghost predicate RunFrom(s: System, states: seq<System>, actions: seq<Action>) {
    && IsSystemRun(states, actions) && states[0] == s
    && SystemInv(states[|states| - 1]) && states[|states| - 1].Keys == s.Keys
  }

  lemma Extend(s: System, states: seq<System>, actions: seq<Action>, a: Action, s': System)
    requires RunFrom(s, states, actions) && MovedBy(states[|states| - 1], a, s')
    ensures RunFrom(s, states + [s'], actions + [a])
  {
    hide IsSystemRun, SystemInv, Moves;
    RunLengths(states, actions);
    OneMoveMore(states, actions, a, s');
  }

  lemma RunBegins(s: System)
    requires Started(s)
    ensures RunFrom(s, [s], [])
  {
    StartedHolds(s);
    JustStarted(s);
  }

  /** `q` learns of `m`, doubts it, and is outbid: its record is then one behind. */
  lemma RecordFallsBehind(s: System, q: NodeID, m: NodeID) returns (states: seq<System>, actions: seq<Action>)
    requires Started(s) && q in s && m in s && q != m && s[m].incarnation < MAX_INT64
    ensures RunFrom(s, states, actions) && |states| == 5 && |actions| == 4
    ensures forall p <- s | p != q && p != m :: states[4][p] == s[p]
    ensures Says(states[4][q], m, Suspect, s[m].incarnation)
    ensures states[4][m].incarnation == s[m].incarnation + 1 && states[4][m].cfg == s[m].cfg
  {
    hide SystemInv, Moves, Says, Started, IsSystemRun, RunFrom;
    RunBegins(s);
    StartedHolds(s);
    NotYetMet(s, q, m);
    var s1, news := Gossips(s, m, q);
    Extend(s, [s], [], Action(m, 0, GossipTick(q)), s1);
    states, actions := [s] + [s1], [] + [Action(m, 0, GossipTick(q))];
    var s2 := Learns(s1, q, m, q, news);
    Extend(s, states, actions, Action(q, 0, Delta(m, [news])), s2);
    states, actions := states + [s2], actions + [Action(q, 0, Delta(m, [news]))];
    var s3, rumour := LosesLink(s2, q, m, s[m].incarnation);
    Extend(s, states, actions, Action(q, 0, PeerDown(m, LinkLost)), s3);
    states, actions := states + [s3], actions + [Action(q, 0, PeerDown(m, LinkLost))];
    var s4, more := Refutes(s3, q, m, rumour);
    Extend(s, states, actions, Action(m, 0, Delta(q, [rumour])), s4);
    states, actions := states + [s4], actions + [Action(m, 0, Delta(q, [rumour]))];
  }

  /** `q` then takes `m` for dead, and `m` outbids that too. */
  lemma RefutedTwice(s: System, q: NodeID, m: NodeID)
      returns (states: seq<System>, actions: seq<Action>, news: Member)
    requires Started(s) && q in s && m in s && q != m && s[m].incarnation < MAX_INT64 - 1
    ensures RunFrom(s, states, actions) && |states| == 7 && |actions| == 6
    ensures forall p <- s | p != q && p != m :: states[6][p] == s[p]
    ensures states[6][m].incarnation == s[m].incarnation + 2 && states[6][m].cfg == s[m].cfg
    ensures news.id == m && news.state.Alive? && news.incarnation == s[m].incarnation + 2
    ensures DeltaMsg(NO_NODE, [news]) in states[6][m].sent
  {
    hide SystemInv, Moves, Says, Started, IsSystemRun;
    states, actions := RecordFallsBehind(s, q, m);
    var s5, death := Parts(states[4], q, m, Suspect, s[m].incarnation);
    Extend(s, states, actions, Action(q, 0, PeerDown(m, CleanClose)), s5);
    states, actions := states + [s5], actions + [Action(q, 0, PeerDown(m, CleanClose))];
    var s6;
    s6, news := Refutes(s5, q, m, death);
    Extend(s, states, actions, Action(m, 0, Delta(q, [death])), s6);
    states, actions := states + [s6], actions + [Action(m, 0, Delta(q, [death]))];
  }

  /** From a state in which `p` has not met `m`: a handshake, a goodbye, and then news that undoes the death. */
  lemma BriefLife(s: System, p: NodeID, m: NodeID, advertise: NodeAddress, to: NodeID, news: Member)
      returns (s1: System, s2: System, s3: System)
    requires SystemInv(s) && p in s && m in s && p != m && m !in s[p].tab.members && to in {NO_NODE, p}
    requires DeltaMsg(to, [news]) in s[m].sent && news.id == m && news.state.Alive?
    requires s[m].cfg.handshake + 1 < news.incarnation
    ensures MovedBy(s, Action(p, 0, PeerUp(m, advertise, s[m].cfg.handshake)), s1)
    ensures MovedBy(s1, Action(p, 0, PeerDown(m, CleanClose)), s2)
    ensures MovedBy(s2, Action(p, 0, Delta(m, [news])), s3)
    ensures p in s1 && Says(s1[p], m, Alive, s[m].cfg.handshake)
    ensures p in s2 && Says(s2[p], m, Dead, NextIncarnation(s[m].cfg.handshake))
    ensures p in s3 && Says(s3[p], m, Alive, news.incarnation)
    ensures m in s1 && m in s2 && m in s3 && s1[m] == s2[m] == s3[m] == s[m]
  {
    hide SystemInv, Moves, Says;
    var death;
    s1 := Greets(s, p, m, advertise);
    s2, death := Parts(s1, p, m, Alive, s[m].cfg.handshake);
    SaysOnce(s2[p], m, Dead, s[m].cfg.handshake + 1);
    s3 := Learns(s2, p, m, to, news);
  }

  lemma BriefLifeRun(s: System, states: seq<System>, actions: seq<Action>, p: NodeID, m: NodeID,
                     advertise: NodeAddress, to: NodeID, news: Member)
      returns (states': seq<System>, actions': seq<Action>)
    requires RunFrom(s, states, actions) && states != []
    requires var last := states[|states| - 1];
             && p in last && m in last && p != m && m !in last[p].tab.members && to in {NO_NODE, p}
             && DeltaMsg(to, [news]) in last[m].sent && news.id == m && news.state.Alive?
             && last[m].cfg.handshake + 1 < news.incarnation
    ensures RunFrom(s, states', actions') && |states'| == |states| + 3 && |actions'| == |states| + 2
    ensures IsUndone(states', actions', |states|, p, m, news.incarnation)
    ensures m in states'[|states|] && states'[|states|][m] == states[|states| - 1][m]
  {
    hide IsSystemRun, SystemInv, Moves, Says, IsUndone;
    var k := |states|;
    var last := states[k - 1];
    var s1, s2, s3 := BriefLife(last, p, m, advertise, to, news);
    RunLengths(states, actions);
    Extend(s, states, actions, Action(p, 0, PeerUp(m, advertise, last[m].cfg.handshake)), s1);
    states', actions' := states + [s1], actions + [Action(p, 0, PeerUp(m, advertise, last[m].cfg.handshake))];
    Extend(s, states', actions', Action(p, 0, PeerDown(m, CleanClose)), s2);
    states', actions' := states' + [s2], actions' + [Action(p, 0, PeerDown(m, CleanClose))];
    Extend(s, states', actions', Action(p, 0, Delta(m, [news])), s3);
    states', actions' := states' + [s3], actions' + [Action(p, 0, Delta(m, [news]))];
    LifeIsUndone(states', actions', k, p, m, news.incarnation, last[m].cfg.handshake);
  }

  /** In step `i` the record of `m` at `p` goes from alive to dead, and in the next to alive again. */
  lemma LifeIsUndone(states: seq<System>, actions: seq<Action>, i: nat, p: NodeID, m: NodeID, own: int64, was: int64)
    requires i + 1 < |actions| && |states| == |actions| + 1 && actions[i] == Action(p, 0, PeerDown(m, CleanClose))
    requires p in states[i] && Says(states[i][p], m, Alive, was)
    requires p in states[i + 1] && Says(states[i + 1][p], m, Dead, NextIncarnation(was))
    requires p in states[i + 2] && Says(states[i + 2][p], m, Alive, own)
    requires p != m && m in states[i] && m in states[i + 1] && m in states[i + 2]
    requires states[i + 1][m] == states[i][m] && states[i + 2][m] == states[i][m]
    ensures IsUndone(states, actions, i, p, m, own)
  {
    SaidSo(states[i][p], m, Alive, was);
    SaidSo(states[i + 1][p], m, Dead, NextIncarnation(was));
  }

  lemma SaidSo(n: NodeState, id: NodeID, state: State, incarnation: int64)
    requires Says(n, id, state, incarnation)
    ensures id in n.tab.members && n.tab.members[id].state == state && n.tab.members[id].incarnation == incarnation
  {
  }

  /** In step i `m` dies first-hand at `p`; in the next it is alive there again, having refuted nothing since. */
  ghost predicate IsUndone(states: seq<System>, actions: seq<Action>, i: nat, p: NodeID, m: NodeID, own: int64)
    requires i + 1 < |actions| && |states| == |actions| + 1
  {
    && DiesFirstHand(states, actions, i, p, m)
    && states[i + 1][m].incarnation == states[i][m].incarnation
    && m in states[i + 2] && states[i + 2][m].incarnation == states[i][m].incarnation
    && p in states[i + 2] && Says(states[i + 2][p], m, Alive, own)
  }

  /**
   * A stale death: `m` has refuted twice, once to `q`'s doubt and once to its verdict, before `p`, who has not heard,
   * takes it for dead; the announcement of the second refutation then undoes that death.
   */
  lemma StaleDeathIsUndone(s: System, p: NodeID, q: NodeID, m: NodeID, advertise: NodeAddress)
      returns (states: seq<System>, actions: seq<Action>)
    requires Started(s) && p in s && q in s && m in s && p != q && q != m && p != m
    requires s[m].incarnation < MAX_INT64 - 1
    ensures IsSystemRun(states, actions) && states[0] == s && |states| == 10 && |actions| == 9
    ensures IsUndone(states, actions, 7, p, m, s[m].incarnation + 2)
  {
    hide IsSystemRun, SystemInv, Started, Moves, IsUndone;
    var news;
    states, actions, news := RefutedTwice(s, q, m);
    assert states[6][p] == s[p];
    NotYetMet(s, p, m);
    HandshakeFirst(s, m);
    states, actions := BriefLifeRun(s, states, actions, p, m, advertise, NO_NODE, news);
  }

  lemma HandshakeFirst(s: System, m: NodeID)
    requires Started(s) && m in s
    ensures s[m].cfg.handshake <= s[m].incarnation
  {
  }

  /** A hasty death: `m`, never refuting, read its own incarnation two or more after that of its handshakes. */
  lemma HastyDeathIsUndone(s: System, p: NodeID, m: NodeID, advertise: NodeAddress)
      returns (states: seq<System>, actions: seq<Action>)
    requires Started(s) && p in s && m in s && p != m && s[m].cfg.handshake + 1 < s[m].incarnation
    ensures IsSystemRun(states, actions) && states[0] == s && |states| == 5 && |actions| == 4
    ensures IsUndone(states, actions, 2, p, m, s[m].incarnation)
    ensures m in states[2] && states[2][m].incarnation == s[m].incarnation
  {
    hide IsSystemRun, SystemInv, Started, Moves;
    RunBegins(s);
    StartedHolds(s);
    NotYetMet(s, p, m);
    var s1, news := Gossips(s, m, p);
    Extend(s, [s], [], Action(m, 0, GossipTick(p)), s1);
    states, actions := BriefLifeRun(s, [s] + [s1], [] + [Action(m, 0, GossipTick(p))], p, m, advertise, p, news);
  }

  /** At the int64 ceiling: no death of `m` can be recorded past its handshakes, so every one of them undoes it. */
  lemma DeathAtTheCeilingIsUndone(s: System, p: NodeID, m: NodeID, advertise: NodeAddress)
      returns (states: seq<System>, actions: seq<Action>)
    requires Started(s) && p in s && m in s && p != m && s[m].cfg.handshake == MAX_INT64
    ensures IsSystemRun(states, actions) && states[0] == s && |states| == 4 && |actions| == 3
    ensures IsUndone(states, actions, 1, p, m, MAX_INT64)
  {
    hide SystemInv, Moves, Says, Started, IsSystemRun;
    RunBegins(s);
    StartedHolds(s);
    NotYetMet(s, p, m);
    var s1 := Greets(s, p, m, advertise);
    Extend(s, [s], [], Action(p, 0, PeerUp(m, advertise, MAX_INT64)), s1);
    states, actions := [s] + [s1], [] + [Action(p, 0, PeerUp(m, advertise, MAX_INT64))];
    var s2, death := Parts(s1, p, m, Alive, MAX_INT64);
    Extend(s, states, actions, Action(p, 0, PeerDown(m, CleanClose)), s2);
    states, actions := states + [s2], actions + [Action(p, 0, PeerDown(m, CleanClose))];
    SaidSo(s1[p], m, Alive, MAX_INT64);
    SaidSo(s2[p], m, Dead, MAX_INT64);
    var s3 := Greets(s2, p, m, advertise);
    Extend(s, states, actions, Action(p, 0, PeerUp(m, advertise, MAX_INT64)), s3);
    states, actions := states + [s3], actions + [Action(p, 0, PeerUp(m, advertise, MAX_INT64))];
  }
}
