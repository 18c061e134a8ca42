// Anti-entropy: a shuffled round-robin over the live peers, redrawn when it is exhausted or the peer set changes.

module Gossip {
  import opened Membership
  import opened Sorting

  /** `order` is walked by `next`; `peers` holds the same identifiers, as of table version `version`. */
  datatype GossipState = GossipState(order: seq<NodeID>, next: nat, peers: set<NodeID>, version: nat)

  const FRESH: GossipState := GossipState([], 0, {}, 0)

  /** The members a node gossips to: suspects too, since only what a suspect hears can it refute. */
  function Peers(t: Members, self: NodeID): set<NodeID> {
    set id <- t | id != self && !t[id].state.Dead?
  }

  predicate IsPeer(self: NodeID, m: Member) {
    m.state != Dead && m.id != self
  }

  function PeerIds(self: NodeID, view: seq<Member>): seq<NodeID> {
    if view == [] then []
    else PeerIds(self, view[..|view| - 1]) + if IsPeer(self, view[|view| - 1]) then [view[|view| - 1].id] else []
  }

  type Shuffle = seq<NodeID> -> seq<NodeID>

  function Bag(s: seq<NodeID>): multiset<NodeID> {
    multiset(s)
  }

  ghost predicate Permutes(shuffle: Shuffle) {
    forall s: seq<NodeID> :: Bag(shuffle(s)) == Bag(s)
  }

  /** One round over table contents `v`: the state afterwards, and the peer sent to (NO_NODE if there is none). */
  ghost function Round(g: GossipState, v: TableState, self: NodeID, shuffle: Shuffle): (GossipState, NodeID)
    requires WellKeyed(v.members)
  {
    var stale := v.version != g.version && Peers(v.members, self) != g.peers;
    var g1 := if stale || g.next >= |g.order|
              then GossipState(shuffle(PeerIds(self, ViewOf(v.members))), 0, Peers(v.members, self), v.version)
              else g.(version := v.version);
    if g1.order == [] || g1.next >= |g1.order| then (g1, NO_NODE) else (g1.(next := g1.next + 1), g1.order[g1.next])
  }

  // ---------------------------------------------------------------------------
  // The round, as the node runs it
  // ---------------------------------------------------------------------------

  class Gossiper {
    const self: NodeID
    var order: seq<NodeID>
    var next: nat
    var peers: set<NodeID>
    var version: nat

    ghost function State(): GossipState reads this {
      GossipState(order, next, peers, version)
    }

    constructor (self: NodeID)
      ensures State() == FRESH && this.self == self
    {
      this.self := self;
      order, next, peers, version := [], 0, {}, 0;
    }

    method SamePeers(view: seq<Member>, ghost t: Members) returns (same: bool)
      requires WellKeyed(t) && IsView(view, t)
      ensures same <==> Peers(t, self) == peers
    {
      hide PeerIds, Peers;
      var count := 0;
      ghost var all := PeerIds(self, view);
      PeerIdsAre(self, view);
      ViewPeers(view, t, self);
      NoPeers(self);
      for i := 0 to |view|
        invariant count == |PeerIds(self, view[..i])| && forall id <- PeerIds(self, view[..i]) :: id in peers
      {
        NextPeer(self, view, i);
        var m := view[i];
        if m.state == Dead || m.id == self {
          continue;
        }
        if m.id !in peers {
          assert m in view && m.id in all;
          return false;
        }
        count := count + 1;
      }
      assert view[..|view|] == view;
      DistinctCount(all, Peers(t, self));
      SubsetOfSameSize(Peers(t, self), peers);
      return count == |peers|;
    }

    method DrawOrder(view: seq<Member>, ghost t: Members, shuffle: Shuffle)
      requires WellKeyed(t) && IsView(view, t)
      modifies this`order, this`peers, this`next
      ensures order == shuffle(PeerIds(self, ViewOf(t))) && peers == Peers(t, self) && next == 0
    {
      order, peers := [], {};
      for i := 0 to |view|
        invariant order == PeerIds(self, view[..i]) && forall id :: id in peers <==> id in order
      {
        assert view[..i + 1][..i] == view[..i];
        var m := view[i];
        if m.state != Dead && m.id != self {
          order := order + [m.id];
          peers := peers + {m.id};
        }
      }
      assert view[..|view|] == view;
      PeerIdsAre(self, view);
      ViewPeers(view, t, self);
      ViewIsUnique(view, t);
      order := shuffle(order);
      next := 0;
    }

    method GossipRound(table: Table, shuffle: Shuffle) returns (target: NodeID)
      requires table.Valid()
      modifies this`order, this`next, this`peers, this`version
      ensures (State(), target) == Round(old(State()), table.Contents(), self, shuffle)
    {
      hide ViewOf, IsView, Peers, PeerIds;
      var view := table.Snapshot();
      if table.version != version {
        version := table.version;
        var same := SamePeers(view, table.members);
        if !same {
          next := |order|;
        }
      }
      if next >= |order| {
        DrawOrder(view, table.members, shuffle);
      }
      if |order| == 0 {
        return NO_NODE;
      }
      target := order[next];
      next := next + 1;
    }
  }

  lemma NoPeers(self: NodeID)
    ensures PeerIds(self, []) == []
  {
  }

  lemma NextPeer(self: NodeID, view: seq<Member>, i: nat)
    requires i < |view|
    ensures PeerIds(self, view[..i + 1]) ==
            PeerIds(self, view[..i]) + if IsPeer(self, view[i]) then [view[i].id] else []
  {
    assert view[..i + 1][..i] == view[..i];
  }

  lemma IdsAscend(view: seq<Member>, i: nat)
    requires Ascending(IdLess, view) && i < |view|
    ensures forall m <- view[..i] :: m.id != view[i].id
  {
    forall m <- view[..i] ensures m.id != view[i].id {
      var k :| 0 <= k < i && view[k] == m;
      assert IdLess(view[k], view[i]);
    }
  }

  lemma ViewPeers(view: seq<Member>, t: Members, self: NodeID)
    requires WellKeyed(t) && IsView(view, t)
    ensures (set m <- view | IsPeer(self, m) :: m.id) == Peers(t, self)
  {
    forall id <- Peers(t, self) ensures id in (set m <- view | IsPeer(self, m) :: m.id) {
      assert t[id] in view;
    }
  }

  lemma {:induction false} SubsetOfSameSize(a: set<NodeID>, b: set<NodeID>)
    requires a <= b
    ensures |a| <= |b| && (|a| == |b| <==> a == b)
  {
    assert b == a + (b - a) && |b| == |a| + |b - a|;
  }

  lemma {:induction false} PeerIdsAre(self: NodeID, view: seq<Member>)
    requires Ascending(IdLess, view)
    ensures Distinct(PeerIds(self, view))
    ensures forall id :: id in PeerIds(self, view) <==> id in (set m <- view | IsPeer(self, m) :: m.id)
  {
    if view != [] {
      var front, last := view[..|view| - 1], view[|view| - 1];
      PeerIdsAre(self, front);
      IdsAscend(view, |view| - 1);
      assert view == front + [last];
      assert forall m <- view :: m in front || m == last;
      assert last.id !in PeerIds(self, front);
    }
  }

  // ---------------------------------------------------------------------------
  // What every round keeps
  // ---------------------------------------------------------------------------

  ghost predicate Inv(g: GossipState) {
    g.next <= |g.order| && Distinct(g.order) && forall id :: id in g.order <==> id in g.peers
  }

  /** The state knows the table it was last compared with. */
  ghost predicate Knows(g: GossipState, v: TableState, self: NodeID) {
    g.version == v.version ==> g.peers == Peers(v.members, self)
  }

  lemma DrawIsPermutation(v: Members, self: NodeID, shuffle: Shuffle)
    requires WellKeyed(v) && Permutes(shuffle)
    ensures var order := shuffle(PeerIds(self, ViewOf(v)));
            Distinct(order) && forall id :: id in order <==> id in Peers(v, self)
  {
    hide ViewOf;
    var ids := PeerIds(self, ViewOf(v));
    PeerIdsAre(self, ViewOf(v));
    ViewPeers(ViewOf(v), v, self);
    assert Bag(shuffle(ids)) == Bag(ids);
    SameElements(shuffle(ids), ids);
  }

  lemma SameElements(a: seq<NodeID>, b: seq<NodeID>)
    requires multiset(a) == multiset(b) && Distinct(b)
    ensures Distinct(a) && |a| == |b| && forall id :: id in a <==> id in b
  {
    assert |a| == |multiset(a)| && |b| == |multiset(b)|;
    forall id ensures id in a <==> id in b {
      assert id in a <==> id in multiset(a);
      assert id in b <==> id in multiset(b);
    }
    forall i, j | 0 <= i < j < |a| ensures a[i] != a[j] {
      AtMostOnce(b, a[i]);
      if a[i] == a[j] { Twice(a, i, j); }
    }
  }

  lemma Twice(s: seq<NodeID>, i: nat, j: nat)
    requires i < j < |s| && s[i] == s[j]
    ensures multiset(s)[s[i]] >= 2
  {
    assert s == s[..j] + [s[j]] + s[j + 1..];
    assert s[..j][i] == s[i];
    assert s[i] in multiset(s[..j]);
  }

  lemma {:induction false} AtMostOnce(s: seq<NodeID>, id: NodeID)
    requires Distinct(s)
    ensures multiset(s)[id] <= 1
  {
    if s != [] {
      var front, last := s[..|s| - 1], s[|s| - 1];
      AtMostOnce(front, id);
      assert s == front + [last];
      if id == last {
        assert last !in front;
        assert last !in multiset(front);
      }
    }
  }

  /** After a round the order is a permutation of the live peers, and a target, if any, is one of them. */
  lemma RoundFacts(g: GossipState, v: TableState, self: NodeID, shuffle: Shuffle)
    requires WellKeyed(v.members) && Permutes(shuffle) && Inv(g) && Knows(g, v, self)
    ensures var (g', target) := Round(g, v, self, shuffle);
            && Inv(g') && g'.peers == Peers(v.members, self) && g'.version == v.version
            && (g'.peers == {} <==> g'.order == []) && |g'.order| == |g'.peers|
            && (g'.order != [] ==> g'.next > 0 && target == g'.order[g'.next - 1])
            && (g'.order == [] ==> target == NO_NODE)
            && (g.peers == g'.peers && g.next < |g.order| ==> g'.order == g.order && g'.next == g.next + 1)
            && (g.next >= |g.order| && g'.order != [] ==> g'.next == 1)
  {
    hide ViewOf, Peers, PeerIds, Permutes;
    DrawIsPermutation(v.members, self, shuffle);
    var g' := Round(g, v, self, shuffle).0;
    DistinctCount(g'.order, g'.peers);
  }

  lemma {:induction false} DistinctCount(s: seq<NodeID>, ids: set<NodeID>)
    requires Distinct(s) && forall id :: id in s <==> id in ids
    ensures |s| == |ids|
  {
    if s == [] {
      assert ids == {};
    } else {
      var front, last := s[..|s| - 1], s[|s| - 1];
      assert s == front + [last] && last !in front;
      DistinctCount(front, ids - {last});
    }
  }

  // ---------------------------------------------------------------------------
  // Runs
  // ---------------------------------------------------------------------------

  /** Rounds over the successive contents of one table, with whatever permutations the shuffles pick. */
  datatype Run = Run(self: NodeID, states: seq<GossipState>, tables: seq<TableState>, shuffles: seq<Shuffle>,
                     targets: seq<NodeID>)

  ghost predicate IsRun(r: Run) {
    && |r.states| == |r.tables| + 1 && |r.shuffles| == |r.targets| == |r.tables|
    && r.states[0] == FRESH
    && (forall i :: 0 <= i < |r.tables| ==> RunStep(r, i))
    && (forall i, j :: 0 <= i <= j < |r.tables| && r.tables[i].version == r.tables[j].version ==>
          r.tables[i] == r.tables[j])
  }

  ghost predicate RunStep(r: Run, i: nat)
    requires i < |r.tables| && |r.states| == |r.tables| + 1 && |r.shuffles| == |r.targets| == |r.tables|
  {
    && WellKeyed(r.tables[i].members) && Permutes(r.shuffles[i]) && r.tables[i].version > 0
    && (r.states[i + 1], r.targets[i]) == Round(r.states[i], r.tables[i], r.self, r.shuffles[i])
  }

  lemma {:induction false} RunKeepsInv(r: Run, i: nat)
    requires IsRun(r) && i < |r.tables|
    ensures Inv(r.states[i]) && Knows(r.states[i], r.tables[i], r.self)
    ensures Inv(r.states[i + 1]) && r.states[i + 1].peers == Peers(r.tables[i].members, r.self)
  {
    hide Round, Peers, Permutes;
    assert RunStep(r, i);
    if i > 0 {
      RunKeepsInv(r, i - 1);
      assert RunStep(r, i - 1);
      RoundFacts(r.states[i - 1], r.tables[i - 1], r.self, r.shuffles[i - 1]);
    }
    RoundFacts(r.states[i], r.tables[i], r.self, r.shuffles[i]);
  }

  /** Every target is a live peer of the view sent, and a round sends nothing only when there is no live peer. */
  lemma TargetsAreLivePeers(r: Run, i: nat)
    requires IsRun(r) && i < |r.tables|
    ensures var peers := Peers(r.tables[i].members, r.self);
            if peers == {} then r.targets[i] == NO_NODE else r.targets[i] in peers
  {
    hide Round, Peers, Permutes;
    RunKeepsInv(r, i);
    assert RunStep(r, i);
    RoundFacts(r.states[i], r.tables[i], r.self, r.shuffles[i]);
  }

  ghost predicate SamePeersDuring(r: Run, i: nat, j: nat, peers: set<NodeID>) {
    forall k :: i <= k < j && k < |r.tables| ==> Peers(r.tables[k].members, r.self) == peers
  }

  /** From state `a`, the peer at a position not yet passed is reached in as many rounds as it is away. */
  lemma {:induction false} ReachesPosition(r: Run, a: nat, q: nat, peers: set<NodeID>)
    requires IsRun(r) && a < |r.tables| && Inv(r.states[a]) && r.states[a].peers == peers
    requires r.states[a].next <= q < |r.states[a].order| && a + (q - r.states[a].next) < |r.tables|
    requires SamePeersDuring(r, a, a + (q - r.states[a].next) + 1, peers)
    ensures r.targets[a + (q - r.states[a].next)] == r.states[a].order[q]
    decreases q - r.states[a].next
  {
    hide Round, Peers, Permutes;
    RunKeepsInv(r, a);
    assert RunStep(r, a);
    RoundFacts(r.states[a], r.tables[a], r.self, r.shuffles[a]);
    if q > r.states[a].next {
      ReachesPosition(r, a + 1, q, peers);
    }
  }

  /** From state `a`, the current permutation is used up after its remaining rounds. */
  lemma {:induction false} ReachesTheWrap(r: Run, a: nat, n: nat, peers: set<NodeID>)
    requires IsRun(r) && a < |r.states| && Inv(r.states[a]) && r.states[a].peers == peers &&
             n == |r.states[a].order| - r.states[a].next
    requires a + n < |r.states| && SamePeersDuring(r, a, a + n, peers)
    ensures Inv(r.states[a + n]) && r.states[a + n].peers == peers && r.states[a + n].next == |r.states[a + n].order|
    decreases n
  {
    hide Round, Peers, Permutes;
    if n > 0 {
      RunKeepsInv(r, a);
      assert RunStep(r, a);
      RoundFacts(r.states[a], r.tables[a], r.self, r.shuffles[a]);
      ReachesTheWrap(r, a + 1, n - 1, peers);
    }
  }

  /** A fresh permutation reaches everyone in it within as many rounds as there are peers. */
  lemma FreshPermutationReaches(r: Run, a: nat, peers: set<NodeID>, id: NodeID) returns (k: nat)
    requires IsRun(r) && a < |r.states| && Inv(r.states[a]) && r.states[a].peers == peers &&
             r.states[a].next == |r.states[a].order|
    requires id in peers && a + |peers| <= |r.tables| && SamePeersDuring(r, a, a + |peers|, peers)
    ensures a <= k < a + |peers| && r.targets[k] == id
  {
    hide Round, Peers, Permutes;
    assert |peers| > 0;
    RunKeepsInv(r, a);
    assert RunStep(r, a);
    RoundFacts(r.states[a], r.tables[a], r.self, r.shuffles[a]);
    var next := r.states[a + 1];
    var q :| 0 <= q < |next.order| && next.order[q] == id;
    k := a + q;
    if q > 0 { ReachesPosition(r, a + 1, q, peers); }
  }

  /**
   * Gossip completeness: while the set of live peers stays the same, whatever the shuffles pick and however often the
   * table changes otherwise, every peer is sent the view in any 2N-1 consecutive rounds.
   */
  lemma EveryPeerIsReached(r: Run, i: nat, peers: set<NodeID>, id: NodeID) returns (k: nat)
    requires IsRun(r) && id in peers && i + 2 * |peers| - 1 <= |r.tables| &&
             SamePeersDuring(r, i, i + 2 * |peers| - 1, peers)
    ensures i <= k < i + 2 * |peers| - 1 && r.targets[k] == id
  {
    hide Round, Peers, Permutes;
    assert |peers| > 0;
    RunKeepsInv(r, i);
    assert RunStep(r, i);
    RoundFacts(r.states[i], r.tables[i], r.self, r.shuffles[i]);
    var g := r.states[i + 1];
    var q :| 0 <= q < |g.order| && g.order[q] == id;
    if q == g.next - 1 {
      k := i;
    } else if q >= g.next {
      k := i + 1 + (q - g.next);
      ReachesPosition(r, i + 1, q, peers);
    } else {
      var n := |g.order| - g.next;
      ReachesTheWrap(r, i + 1, n, peers);
      k := FreshPermutationReaches(r, i + 1 + n, peers, id);
    }
  }
}
