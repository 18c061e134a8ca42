// Member records, the merge rule, and the membership table.

module Membership {
  import opened Health
  import opened Sorting

  /** Identifiers enter the protocol only through equality and their order; NO_NODE is the empty (least) one. */
  type NodeID = nat
  const NO_NODE: NodeID := 0

  type NodeAddress = nat

  const MAX_INT64: int := 0x7fff_ffff_ffff_ffff
  const MIN_INT64: int := -0x8000_0000_0000_0000

  type int64 = x: int | MIN_INT64 <= x <= MAX_INT64

  datatype Role = Worker | Leader

  datatype State = Alive | Suspect | Dead {
    function Severity(): nat {
      match this
      case Alive => 0
      case Suspect => 1
      case Dead => 2
    }
  }

  function Worse(a: State, b: State): State {
    if a.Severity() < b.Severity() then b else a
  }

  datatype Member = Member(id: NodeID, addr: NodeAddress, role: Role, state: State,
                           incarnation: int64, score: Score, claimSeq: nat)

  type Members = map<NodeID, Member>

  /** Every record is filed under its own identifier. */
  predicate WellKeyed(t: Members) {
    forall id <- t :: t[id].id == id
  }

  /** Saturates instead of wrapping: the order of incarnations must stay monotonic. */
  function NextIncarnation(inc: int64): (next: int64)
    ensures inc <= next
    ensures inc < next <==> inc < MAX_INT64
  {
    if inc == MAX_INT64 then inc else inc + 1
  }

  // ---------------------------------------------------------------------------
  // The merge rule, as a function of the record held and the record received
  // ---------------------------------------------------------------------------

  /** The role, score and Seq that survive a merge at equal incarnation. */
  function MergedClaims(held: Member, m: Member): (Role, Score, nat) {
    if m.claimSeq > held.claimSeq then (m.role, m.score, m.claimSeq)
    else if m.claimSeq == 0 && held.claimSeq == 0
    then (m.role, if IsValidScore(m.score) then m.score else held.score, 0)
    else (held.role, held.score, held.claimSeq)
  }

  /** The record held after merging `m` into `held`. */
  function Merged(held: Member, m: Member): Member {
    if m.incarnation > held.incarnation then m
    else if m.incarnation < held.incarnation then held
    else
      var (role, score, claimSeq) := MergedClaims(held, m);
      m.(state := Worse(held.state, m.state), role := role, score := score, claimSeq := claimSeq)
  }

  function Upserted(t: Members, m: Member): (t': Members)
    ensures WellKeyed(t) ==> WellKeyed(t')
  {
    t[m.id := if m.id in t then Merged(t[m.id], m) else m]
  }

  function WithScore(t: Members, id: NodeID, score: Score): (t': Members)
    ensures WellKeyed(t) ==> WellKeyed(t')
  {
    if id in t && t[id].score != score then t[id := t[id].(score := score, claimSeq := t[id].claimSeq + 1)] else t
  }

  function WithRole(t: Members, id: NodeID, role: Role): (t': Members)
    ensures WellKeyed(t) ==> WellKeyed(t')
  {
    if id in t && t[id].role != role then t[id := t[id].(role := role, claimSeq := t[id].claimSeq + 1)] else t
  }

  function WithState(t: Members, id: NodeID, state: State): (t': Members)
    ensures WellKeyed(t) ==> WellKeyed(t')
  {
    if id in t && t[id].state != state then
      t[id := t[id].(state := state,
                     incarnation := if state.Dead? then NextIncarnation(t[id].incarnation) else t[id].incarnation)]
    else t
  }

  function Revived(t: Members, id: NodeID, incarnation: int64): (t': Members)
    ensures WellKeyed(t) ==> WellKeyed(t')
  {
    if id in t && incarnation >= t[id].incarnation then t[id := t[id].(state := Alive, incarnation := incarnation)]
    else t
  }

  /** A table's contents and its mutation counter. */
  datatype TableState = TableState(members: Members, version: nat) {
    /** One mutation: the counter moves exactly when the contents do. */
    function Commit(next: Members): TableState {
      TableState(next, version + if next != members then 1 else 0)
    }
  }

  /** The identifiers of a set, in ascending order. */
  ghost function IdList(ids: set<NodeID>): (list: seq<NodeID>)
    ensures Ascending(NodeLess, list) && forall id :: id in list <==> id in ids
  {
    SortKeeps(NodeLess, Enumerate(ids));
    SortAscends(NodeLess, Enumerate(ids));
    SortBy(NodeLess, Enumerate(ids))
  }

  ghost function Enumerate(ids: set<NodeID>): (list: seq<NodeID>)
    ensures Distinct(list) && forall id :: id in list <==> id in ids
  {
    if ids == {} then [] else var id :| id in ids; [id] + Enumerate(ids - {id})
  }

  predicate NodeLess(a: NodeID, b: NodeID) {
    a < b
  }

  method SortedIds(ids: set<NodeID>) returns (list: seq<NodeID>)
    ensures list == IdList(ids)
  {
    var rest := ids;
    var found: seq<NodeID> := [];
    while rest != {}
      invariant rest <= ids && Distinct(found)
      invariant forall id :: id in found <==> id in ids && id !in rest
      decreases rest
    {
      var id :| id in rest;
      found := found + [id];
      rest := rest - {id};
    }
    list := SortBy(NodeLess, found);
    SortKeeps(NodeLess, found);
    SortAscends(NodeLess, found);
    AscendingIsUnique(NodeLess, list, IdList(ids));
  }

  // ---------------------------------------------------------------------------
  // Views: the table, listed by identifier
  // ---------------------------------------------------------------------------

  predicate IdLess(a: Member, b: Member) {
    a.id < b.id
  }

  ghost predicate UniqueIds(s: seq<Member>) {
    forall i, j :: 0 <= i < j < |s| ==> s[i].id != s[j].id
  }

  /** `view` lists exactly the members of `t`, in ascending order of identifier. */
  ghost predicate IsView(view: seq<Member>, t: Members) {
    && Ascending(IdLess, view)
    && (forall m :: m in view <==> m.id in t && t[m.id] == m)
  }

  ghost function Listing(t: Members): (s: seq<Member>)
    requires WellKeyed(t)
    ensures UniqueIds(s) && forall m :: m in s <==> m.id in t && t[m.id] == m
  {
    if t == map[] then []
    else
      var id :| id in t;
      [t[id]] + Listing(t - {id})
  }

  ghost function ViewOf(t: Members): (view: seq<Member>)
    requires WellKeyed(t)
    ensures IsView(view, t)
  {
    SortKeeps(IdLess, Listing(t));
    SortAscends(IdLess, Listing(t));
    SortBy(IdLess, Listing(t))
  }

  lemma ViewIsUnique(view: seq<Member>, t: Members)
    requires WellKeyed(t) && IsView(view, t)
    ensures view == ViewOf(t)
  {
    AscendingIsUnique(IdLess, view, ViewOf(t));
  }

  // ---------------------------------------------------------------------------
  // The table
  // ---------------------------------------------------------------------------

  class Table {
    var members: Members
    var version: nat

    ghost predicate Valid() reads this {
      WellKeyed(members)
    }

    ghost function Contents(): TableState reads this {
      TableState(members, version)
    }

    constructor ()
      ensures Valid() && members == map[] && version == 0
    {
      members, version := map[], 0;
    }

    method Upsert(record: Member) returns (changed: bool)
      requires Valid()
      modifies this
      ensures Valid() && Contents() == old(Contents()).Commit(Upserted(old(members), record))
      ensures changed <==> members != old(members)
    {
      var m := record;
      if m.id in members {
        var existing := members[m.id];
        if m.incarnation > existing.incarnation {
          // The node speaking about itself after a restart or a refutation: taken whole.
        } else if m.incarnation < existing.incarnation {
          assert members == Upserted(members, record);
          return false;
        } else {
          if m.state.Severity() < existing.state.Severity() {
            m := m.(state := existing.state);
          }
          if m.claimSeq > existing.claimSeq {
            // A newer claim from the member, an unavailable score included.
          } else if m.claimSeq == 0 && existing.claimSeq == 0 {
            if !IsValidScore(m.score) {
              m := m.(score := existing.score);
            }
          } else {
            m := m.(role := existing.role, score := existing.score, claimSeq := existing.claimSeq);
          }
          if m.state == existing.state && m.role == existing.role && m.addr == existing.addr &&
             m.claimSeq == existing.claimSeq && m.score == existing.score {
            assert m == existing;
            assert members == Upserted(members, record);
            return false;
          }
        }
        assert members[m.id] != m;
      }
      members := members[m.id := m];
      version := version + 1;
      return true;
    }

    method SetScore(id: NodeID, score: Score) returns (changed: bool)
      requires Valid()
      modifies this
      ensures Valid() && Contents() == old(Contents()).Commit(WithScore(old(members), id, score))
      ensures changed <==> members != old(members)
    {
      if id !in members || members[id].score == score {
        return false;
      }
      var m := members[id];
      m := m.(score := score, claimSeq := m.claimSeq + 1);
      assert members[id] != m;
      members := members[id := m];
      version := version + 1;
      return true;
    }

    method SetRole(id: NodeID, role: Role) returns (changed: bool)
      requires Valid()
      modifies this
      ensures Valid() && Contents() == old(Contents()).Commit(WithRole(old(members), id, role))
      ensures changed <==> members != old(members)
    {
      if id !in members || members[id].role == role {
        return false;
      }
      var m := members[id];
      m := m.(role := role, claimSeq := m.claimSeq + 1);
      assert members[id] != m;
      members := members[id := m];
      version := version + 1;
      return true;
    }

    method SetState(id: NodeID, state: State) returns (changed: bool)
      requires Valid()
      modifies this
      ensures Valid() && Contents() == old(Contents()).Commit(WithState(old(members), id, state))
      ensures changed <==> members != old(members)
    {
      if id !in members || members[id].state == state {
        return false;
      }
      var m := members[id].(state := state);
      if state == Dead {
        m := m.(incarnation := NextIncarnation(m.incarnation));
      }
      assert members[id] != m;
      members := members[id := m];
      version := version + 1;
      return true;
    }

    method Revive(id: NodeID, incarnation: int64) returns (changed: bool)
      requires Valid()
      modifies this
      ensures Valid() && Contents() == old(Contents()).Commit(Revived(old(members), id, incarnation))
      ensures changed <==> members != old(members)
    {
      if id !in members || incarnation < members[id].incarnation {
        return false;
      }
      var m := members[id];
      if m.state == Alive && m.incarnation == incarnation {
        assert m.(state := Alive, incarnation := incarnation) == m;
        assert members == Revived(members, id, incarnation);
        return false;
      }
      m := m.(state := Alive, incarnation := incarnation);
      assert members[id] != m;
      members := members[id := m];
      version := version + 1;
      return true;
    }

    /** A copy in a fixed order: map order is random, and an election must not depend on it. */
    method Snapshot() returns (view: seq<Member>)
      requires Valid()
      ensures view == ViewOf(members)
    {
      var rest := members.Keys;
      var listed: seq<Member> := [];
      while rest != {}
        invariant rest <= members.Keys
        invariant UniqueIds(listed)
        invariant forall m :: m in listed <==> m.id in members && m.id !in rest && members[m.id] == m
        decreases rest
      {
        var id :| id in rest;
        listed := listed + [members[id]];
        rest := rest - {id};
      }
      view := SortBy(IdLess, listed);
      SortKeeps(IdLess, listed);
      SortAscends(IdLess, listed);
      ViewIsUnique(view, members);
    }

    method Remove(id: NodeID) returns (changed: bool)
      requires Valid()
      modifies this
      ensures Valid() && Contents() == old(Contents()).Commit(old(members) - {id})
      ensures changed <==> members != old(members)
    {
      if id !in members {
        assert members == members - {id};
        return false;
      }
      members := members - {id};
      version := version + 1;
      return true;
    }
  }

  /** Along any run of mutations, states with the same counter have the same contents. */
  lemma {:induction false} VersionsIdentifyContents(run: seq<TableState>, i: nat, j: nat)
    requires i <= j < |run| && forall k :: 0 < k < |run| ==> run[k] == run[k - 1].Commit(run[k].members)
    ensures run[i].version <= run[j].version
    ensures run[i].version == run[j].version ==> run[i] == run[j]
  {
    if i < j { VersionsIdentifyContents(run, i, j - 1); }
  }

  // ---------------------------------------------------------------------------
  // Convergence: merging is a join, so arrival order and duplicates do not matter
  // ---------------------------------------------------------------------------

  /** A record without the address, which is last-writer-wins and not part of the claim. */
  function Claim(m: Member): Member {
    m.(addr := 0)
  }

  function Claims(t: Members): Members {
    map id <- t :: Claim(t[id])
  }

  /** Merges a whole sequence of records, in arrival order. */
  function MergeAll(t: Members, records: seq<Member>): Members
    decreases |records|
  {
    if records == [] then t else MergeAll(Upserted(t, records[0]), records[1..])
  }

  /** What authors produce: ordered claims, and one claim per (member, incarnation, Seq). */
  ghost predicate Coherent(records: set<Member>) {
    && (forall r <- records :: r.claimSeq >= 1)
    && (forall r, s | r in records && s in records :: SameStamp(r, s) ==> r.role == s.role && r.score == s.score)
  }

  predicate SameStamp(r: Member, s: Member) {
    r.id == s.id && r.incarnation == s.incarnation && r.claimSeq == s.claimSeq
  }

  function Records(records: seq<Member>): set<Member> {
    set r | r in records
  }

  /** `held` is no older than `r`, and at equal incarnation no healthier and no staler. */
  predicate Covers(held: Member, r: Member) {
    && r.incarnation <= held.incarnation
    && (r.incarnation == held.incarnation ==>
          r.state.Severity() <= held.state.Severity() && r.claimSeq <= held.claimSeq)
  }

  predicate SuppliesState(r: Member, held: Member) {
    r.id == held.id && r.incarnation == held.incarnation && r.state == held.state
  }

  predicate SuppliesClaim(r: Member, held: Member) {
    SameStamp(r, held) && r.role == held.role && r.score == held.score
  }

  /**
   * `held` is the least record that accounts for every record of its member in `records`: the newest incarnation, the
   * worst state reported at it, and the claim with the newest Seq at it. Nothing here mentions an order of arrival.
   */
  ghost predicate IsJoin(held: Member, records: set<Member>) {
    && (forall r <- records :: r.id == held.id ==> Covers(held, r))
    && (exists r <- records :: SuppliesState(r, held))
    && (exists r <- records :: SuppliesClaim(r, held))
  }

  lemma JoinIsUnique(a: Member, b: Member, records: set<Member>)
    requires Coherent(records) && a.id == b.id && IsJoin(a, records) && IsJoin(b, records)
    ensures Claim(a) == Claim(b)
  {
    var ra :| ra in records && SuppliesClaim(ra, a);
    var rb :| rb in records && SuppliesClaim(rb, b);
    assert Covers(a, rb) && Covers(b, ra);
    assert SameStamp(ra, rb);
    assert a.state.Severity() == b.state.Severity();
  }

  lemma MergedIsJoin(held: Member, m: Member, records: set<Member>)
    requires Coherent(records + {m}) && IsJoin(held, records) && m.id == held.id
    ensures IsJoin(Merged(held, m), records + {m})
  {
    var merged := Merged(held, m);
    var s :| s in records && SuppliesState(s, held);
    var c :| c in records && SuppliesClaim(c, held);
    assert m in records + {m} && s in records + {m} && c in records + {m};
    assert SuppliesState(m, merged) || SuppliesState(s, merged);
    assert SameStamp(m, c) ==> m.role == c.role && m.score == c.score;
    assert SuppliesClaim(m, merged) || SuppliesClaim(c, merged);
    forall r | r in records + {m} && r.id == merged.id ensures Covers(merged, r) {
      assert r == m || Covers(held, r);
    }
  }

  lemma JoinIgnoresOthers(held: Member, m: Member, records: set<Member>)
    requires m.id != held.id && IsJoin(held, records)
    ensures IsJoin(held, records + {m})
  {
    var s :| s in records && SuppliesState(s, held);
    var c :| c in records && SuppliesClaim(c, held);
    assert s in records + {m} && c in records + {m};
  }

  lemma FirstRecordIsJoin(m: Member, records: set<Member>)
    requires forall r <- records :: r.id != m.id
    ensures IsJoin(m, records + {m})
  {
    assert m in records + {m} && SuppliesState(m, m) && SuppliesClaim(m, m);
  }

  /** `t` holds for `id` the join of the records merged so far, or nothing if there are none. */
  ghost predicate HoldsJoin(t: Members, id: NodeID, records: set<Member>) {
    if id in t then t[id].id == id && IsJoin(t[id], records)
    else forall r <- records :: r.id != id
  }

  lemma UpsertJoins(t: Members, id: NodeID, m: Member, records: set<Member>)
    requires Coherent(records + {m}) && HoldsJoin(t, id, records)
    ensures HoldsJoin(Upserted(t, m), id, records + {m})
  {
    if id != m.id {
      if id in t { JoinIgnoresOthers(t[id], m, records); }
    } else if id in t {
      MergedIsJoin(t[id], m, records);
    } else {
      FirstRecordIsJoin(m, records);
    }
  }

  lemma {:induction false} MergeAllJoins(t: Members, id: NodeID, records: seq<Member>, before: set<Member>)
    requires Coherent(before + Records(records)) && HoldsJoin(t, id, before)
    ensures HoldsJoin(MergeAll(t, records), id, before + Records(records))
    decreases |records|
  {
    if records == [] {
      assert before + Records(records) == before;
    } else {
      var m, rest := records[0], records[1..];
      assert before + Records(records) == before + {m} + Records(rest);
      UpsertJoins(t, id, m, before);
      MergeAllJoins(Upserted(t, m), id, rest, before + {m});
    }
  }

  /** Two nodes that merged the same records, in any order and with any duplication, hold the same claims. */
  lemma MergeConverges(a: seq<Member>, b: seq<Member>)
    requires Records(a) == Records(b) && Coherent(Records(a))
    ensures Claims(MergeAll(map[], a)) == Claims(MergeAll(map[], b))
  {
    var ta, tb := MergeAll(map[], a), MergeAll(map[], b);
    forall id ensures id in ta <==> id in tb
              ensures id in ta ==> Claim(ta[id]) == Claim(tb[id]) {
      var records := Records(a);
      assert {} + records == records;
      MergeAllJoins(map[], id, a, {});
      MergeAllJoins(map[], id, b, {});
      if id in ta && id in tb {
        JoinIsUnique(ta[id], tb[id], records);
      }
    }
  }

  /** Newer incarnation, then newer Seq decide; only records equal in both can disagree, and then the order shows. */
  predicate Agree(a: Member, b: Member) {
    || a.id != b.id || a.incarnation != b.incarnation || a.claimSeq != b.claimSeq
    || (a.role == b.role && (a.score == b.score || (a.claimSeq == 0 && IsValidScore(a.score) != IsValidScore(b.score))))
  }

  lemma MergeOfTwo(a: Member, b: Member)
    ensures MergeAll(map[], [a, b]) == Upserted(map[a.id := a], b)
  {
    assert [a, b][1..] == [b] && [b][1..] == [];
    assert map[][a.id := a] == map[a.id := a];
    assert MergeAll(map[a.id := a], [b]) == MergeAll(Upserted(map[a.id := a], b), []);
  }

  /** Exactly when two records make the same table in either order, addresses apart. */
  lemma TwoRecordsConvergeExactlyWhen(a: Member, b: Member)
    ensures Claims(MergeAll(map[], [a, b])) == Claims(MergeAll(map[], [b, a])) <==> Agree(a, b)
  {
    MergeOfTwo(a, b);
    MergeOfTwo(b, a);
    var t, u := Upserted(map[a.id := a], b), Upserted(map[b.id := b], a);
    assert t.Keys == u.Keys;
    assert a.id != b.id ==> t == u;
    assert Claims(t) == Claims(u) ==> Claims(t)[a.id] == Claims(u)[a.id];
  }

  /** So without Seq the guarantee fails: two unordered records leave the role to arrival order. */
  lemma UnorderedRecordsDoNotConverge(id: NodeID, inc: int64)
    ensures var w := Member(id, 0, Worker, Alive, inc, Unavailable, 0);
            var l := w.(role := Leader);
            Claims(MergeAll(map[], [w, l])) != Claims(MergeAll(map[], [l, w]))
  {
    var w := Member(id, 0, Worker, Alive, inc, Unavailable, 0);
    TwoRecordsConvergeExactlyWhen(w, w.(role := Leader));
  }
}
