// An election outcome is a fixed point: once members announce the roles it gave them, electing again gives it back.

module ElectionFixedPoint {
  import opened Health
  import opened Membership
  import opened Sorting
  import opened Election
  import opened ElectionProperties

  /** The members of `subset` adopt the role the outcome gives them; everyone else keeps the role it claims. */
  function Adopt(subset: set<NodeID>, leaders: set<NodeID>): Member -> Member {
    (m: Member) => if m.id in subset then m.(role := if m.id in leaders then Leader else Worker) else m
  }

  lemma MapIds(f: Member -> Member, s: seq<Member>)
    requires forall m <- s :: f(m).id == m.id
    ensures Ids(Map(f, s)) == Ids(s) && Map(IdOf, Map(f, s)) == Map(IdOf, s)
  {
    var t := Map(f, s);
    assert forall i :: 0 <= i < |s| ==> t[i] == f(s[i]) && s[i] in s && t[i] in t;
    assert forall id <- Ids(s) :: id in Ids(t);
  }

  /** Fewer newcomers, but the weakest one still among them: it is still the weakest. */
  lemma WeakestSurvives(scores: Scores, seats: seq<Member>, subset: set<NodeID>, leaders: set<NodeID>)
    requires Weakest(scores, seats) != -1 && seats[Weakest(scores, seats)].id !in leaders
    requires forall m <- seats :: IsIncumbent(m) ==> m.id in leaders
    ensures Weakest(scores, Map(Adopt(subset, leaders), seats)) == Weakest(scores, seats)
  {
    var w := Weakest(scores, seats);
    var seats' := Map(Adopt(subset, leaders), seats);
    WeakestIsWeakest(scores, seats);
    assert forall i :: 0 <= i < |seats| ==> seats[i] in seats;
    assert IsWeakest(scores, seats', w);
    WeakestIsUnique(scores, seats', w);
  }

  /** A refusal stands: every newcomer still there is at least as good as the one that was too good to displace. */
  lemma RefusalStands(scores: Scores, margin: real, seats: seq<Member>, subset: set<NodeID>, leaders: set<NodeID>,
                      inc: Member)
    requires Weakest(scores, seats) != -1
    requires Outranks(scores, margin, seats[Weakest(scores, seats)], inc)
    requires forall m <- seats :: IsIncumbent(m) ==> m.id in leaders
    ensures var seats' := Map(Adopt(subset, leaders), seats);
            var w' := Weakest(scores, seats');
            w' == -1 || Outranks(scores, margin, seats'[w'], inc)
  {
    var seats' := Map(Adopt(subset, leaders), seats);
    WeakestIsWeakest(scores, seats);
    WeakestIsWeakest(scores, seats');
    assert forall i :: 0 <= i < |seats| ==> seats[i] in seats;
  }

  lemma SeatedIncumbentsLead(scores: Scores, margin: real, seats: seq<Member>, displaced: seq<Member>)
    requires UniqueIds(seats + displaced) && forall m <- displaced :: IsIncumbent(m)
    ensures forall m <- seats :: IsIncumbent(m) ==> m.id in Ids(Hold(scores, margin, seats, displaced))
    ensures Ids(Hold(scores, margin, seats, displaced)) <= Ids(seats + displaced)
  {
    HoldMembers(scores, margin, seats, displaced);
  }

  lemma AllIncumbent(scores: Scores, seats: seq<Member>)
    requires Weakest(scores, seats) == -1
    ensures forall m <- seats :: IsIncumbent(m)
  {
    WeakestIsWeakest(scores, seats);
  }

  /** The displaced incumbents of the rerun: those the outcome did not turn into workers. */
  function Remaining(f: Member -> Member, displaced: seq<Member>): seq<Member> {
    Keep(IsIncumbent, Map(f, displaced))
  }

  lemma RemainingHead(f: Member -> Member, displaced: seq<Member>)
    requires displaced != []
    ensures Remaining(f, displaced) ==
            (if IsIncumbent(f(displaced[0])) then [f(displaced[0])] else []) + Remaining(f, displaced[1..])
  {
    assert Map(f, displaced)[1..] == Map(f, displaced[1..]);
    KeepHead(IsIncumbent, Map(f, displaced));
  }

  lemma RefusedAgain(scores: Scores, margin: real, seats: seq<Member>, displaced: seq<Member>,
                     subset: set<NodeID>, leaders: set<NodeID>)
    requires displaced != [] && Weakest(scores, seats) != -1
    requires Outranks(scores, margin, seats[Weakest(scores, seats)], displaced[0])
    requires forall m <- seats :: IsIncumbent(m) ==> m.id in leaders
    ensures var f := Adopt(subset, leaders);
            Hold(scores, margin, Map(f, seats), Remaining(f, displaced)) ==
            Hold(scores, margin, Map(f, seats), Remaining(f, displaced[1..]))
  {
    var f := Adopt(subset, leaders);
    var inc := displaced[0];
    RemainingHead(f, displaced);
    RefusalStands(scores, margin, seats, subset, leaders, inc);
    var rest := Remaining(f, displaced[1..]);
    if IsIncumbent(f(inc)) {
      assert ([f(inc)] + rest)[1..] == rest;
    } else {
      assert [] + rest == rest;
    }
  }

  lemma DisplacesAgain(scores: Scores, margin: real, seats: seq<Member>, displaced: seq<Member>,
                       subset: set<NodeID>, leaders: set<NodeID>)
    requires displaced != [] && Weakest(scores, seats) != -1
    requires !Outranks(scores, margin, seats[Weakest(scores, seats)], displaced[0])
    requires IsIncumbent(displaced[0]) && displaced[0].id in leaders && seats[Weakest(scores, seats)].id !in leaders
    requires forall m <- seats :: IsIncumbent(m) ==> m.id in leaders
    ensures var f := Adopt(subset, leaders);
            Hold(scores, margin, Map(f, seats), Remaining(f, displaced)) ==
            Hold(scores, margin, Map(f, seats[Weakest(scores, seats) := displaced[0]]), Remaining(f, displaced[1..]))
  {
    var f := Adopt(subset, leaders);
    var inc, w := displaced[0], Weakest(scores, seats);
    RemainingHead(f, displaced);
    WeakestSurvives(scores, seats, subset, leaders);
    assert Map(f, seats)[w := f(inc)] == Map(f, seats[w := inc]);
    var rest := Remaining(f, displaced[1..]);
    assert ([f(inc)] + rest)[1..] == rest;
  }

  /** The protection pass, rerun on the adopted roles, seats the same members. */
  lemma {:induction false} HoldIsStable(scores: Scores, margin: real, seats: seq<Member>, displaced: seq<Member>,
                                        subset: set<NodeID>, leaders: set<NodeID>)
    requires UniqueIds(seats + displaced) && (forall m <- displaced :: IsIncumbent(m))
    requires leaders == Ids(Hold(scores, margin, seats, displaced))
    ensures var f := Adopt(subset, leaders);
            Hold(scores, margin, Map(f, seats), Remaining(f, displaced)) ==
              Map(f, Hold(scores, margin, seats, displaced))
    decreases |displaced|
  {
    var f := Adopt(subset, leaders);
    SeatedIncumbentsLead(scores, margin, seats, displaced);
    if displaced == [] {
    } else if Weakest(scores, seats) == -1 {
      AllIncumbent(scores, seats);
      assert forall i :: 0 <= i < |seats| ==> seats[i] in seats;
      assert Map(f, seats) == seats;
    } else {
      var w, inc, rest := Weakest(scores, seats), displaced[0], displaced[1..];
      PassedOver(seats, displaced);
      if Outranks(scores, margin, seats[w], inc) {
        RefusedAgain(scores, margin, seats, displaced, subset, leaders);
        HoldIsStable(scores, margin, seats, rest, subset, leaders);
      } else {
        TakesSeat(seats, displaced, w);
        SeatedIncumbentsLead(scores, margin, seats[w := inc], rest);
        assert seats[w := inc][w] == inc;
        DisplacesAgain(scores, margin, seats, displaced, subset, leaders);
        HoldIsStable(scores, margin, seats[w := inc], rest, subset, leaders);
      }
    }
  }

  // ---------------------------------------------------------------------------
  // The whole election
  // ---------------------------------------------------------------------------

  function NodeSet(ids: seq<NodeID>): set<NodeID> {
    set id <- ids
  }

  /** Members this node may be told to re-announce: a suspect's seat in the electorate depends on its role. */
  predicate NoSuspects(view: seq<Member>, subset: set<NodeID>) {
    forall m <- view :: m.state == Suspect ==> m.id !in subset
  }

  lemma EligibleCommutes(view: seq<Member>, scores: Scores, subset: set<NodeID>, leaders: set<NodeID>)
    requires NoSuspects(view, subset)
    ensures var f := Adopt(subset, leaders);
            && Keep(InElectorate, Map(f, view)) == Map(f, Keep(InElectorate, view))
            && Ranked(Map(f, view), scores) == Map(f, Ranked(view, scores))
            && Eligible(Map(f, view), scores) == Map(f, Eligible(view, scores))
  {
    var f := Adopt(subset, leaders);
    var alive := Keep(InElectorate, view);
    KeepCommutes(InElectorate, f, view);
    SortCommutes(Rank(scores), f, alive);
    KeepCommutes(Measurable(scores), f, Ranked(view, scores));
  }

  lemma SortThenKeep(p: Member -> bool, s: seq<Member>, scores: Scores)
    requires UniqueIds(s)
    ensures SortBy(IdLess, Keep(p, s)) == Keep(p, SortBy(IdLess, s))
  {
    KeepUnique(p, s);
    UniqueViewIsOrdered(s, scores);
    UniqueViewIsOrdered(Keep(p, s), scores);
    SortKeeps(IdLess, s);
    SortAscends(IdLess, s);
    SortKeeps(IdLess, Keep(p, s));
    SortAscends(IdLess, Keep(p, s));
    KeepAscends(IdLess, p, SortBy(IdLess, s));
    KeepMembers(p, SortBy(IdLess, s));
    UniqueViewIsOrdered(SortBy(IdLess, Keep(p, s)), scores);
    AscendingIsUnique(IdLess, SortBy(IdLess, Keep(p, s)), Keep(p, SortBy(IdLess, s)));
  }

  /** Nobody outside the displaced incumbents and the top ranked becomes an incumbent by adopting the outcome. */
  lemma LostSeatAgrees(scores: Scores, top: seq<Member>, eligible: seq<Member>, displaced: seq<Member>,
                       subset: set<NodeID>, leaders: set<NodeID>, x: Member)
    requires UniqueIds(eligible) && x in eligible && leaders <= Ids(top) + Ids(displaced)
    requires forall d <- displaced :: d in eligible && IsIncumbent(d)
    ensures var f := Adopt(subset, leaders);
            LostSeat(scores, Map(f, top))(f(x)) <==> LostSeat(scores, top)(x) && IsIncumbent(f(x))
  {
    var f := Adopt(subset, leaders);
    MapIds(f, top);
    if x.id in Ids(displaced) {
      var d :| d in displaced && d.id == x.id;
      assert d == x;
    }
  }

  lemma LostCommutes(scores: Scores, top: seq<Member>, eligible: seq<Member>, subset: set<NodeID>, leaders: set<NodeID>)
    requires UniqueIds(eligible) && top <= eligible
    requires leaders <= Ids(top) + Ids(Displaced(scores, top, eligible))
    ensures var f := Adopt(subset, leaders);
            Keep(LostSeat(scores, Map(f, top)), Map(f, eligible)) == Remaining(f, Keep(LostSeat(scores, top), eligible))
  {
    hide Displaced, Keep;
    var f := Adopt(subset, leaders);
    DisplacedMembers(scores, top, eligible);
    forall x <- eligible
      ensures LostSeat(scores, Map(f, top))(f(x)) <==> LostSeat(scores, top)(x) && IsIncumbent(f(x)) {
      LostSeatAgrees(scores, top, eligible, Displaced(scores, top, eligible), subset, leaders, x);
    }
    KeepRefines(LostSeat(scores, top), LostSeat(scores, Map(f, top)), IsIncumbent, f, eligible);
  }

  lemma DisplacedCommutes(scores: Scores, top: seq<Member>, eligible: seq<Member>, subset: set<NodeID>,
                          leaders: set<NodeID>)
    requires UniqueIds(eligible) && top <= eligible
    requires leaders <= Ids(top) + Ids(Displaced(scores, top, eligible))
    ensures var f := Adopt(subset, leaders);
            Displaced(scores, Map(f, top), Map(f, eligible)) == Remaining(f, Displaced(scores, top, eligible))
  {
    hide Keep, SortBy;
    var f := Adopt(subset, leaders);
    var lost := Keep(LostSeat(scores, top), eligible);
    LostCommutes(scores, top, eligible, subset, leaders);
    KeepUnique(LostSeat(scores, top), eligible);
    MapIds(f, lost);
    SortCommutes(IdLess, f, lost);
    SortThenKeep(IsIncumbent, Map(f, lost), scores);
  }

  lemma SeatedIsStable(scores: Scores, margin: real, top: seq<Member>, eligible: seq<Member>,
                       subset: set<NodeID>, leaders: set<NodeID>)
    requires UniqueIds(eligible) && top <= eligible && leaders == Ids(Seated(scores, margin, top, eligible))
    ensures var f := Adopt(subset, leaders);
            Seated(scores, margin, Map(f, top), Map(f, eligible)) == Map(f, Seated(scores, margin, top, eligible))
  {
    if margin > 0.0 {
      var displaced := Displaced(scores, top, eligible);
      DisplacedMembers(scores, top, eligible);
      SeatedIncumbentsLead(scores, margin, top, displaced);
      DisplacedCommutes(scores, top, eligible, subset, leaders);
      HoldIsStable(scores, margin, top, displaced, subset, leaders);
    }
  }

  /** A relabelling that the electorate, the ranking and the eligible follow carries over to the top ranked. */
  lemma TopRankedFollows(view: seq<Member>, scores: Scores, cfg: Config, f: Member -> Member)
    requires Keep(InElectorate, Map(f, view)) == Map(f, Keep(InElectorate, view))
    requires Eligible(Map(f, view), scores) == Map(f, Eligible(view, scores))
    ensures TopRanked(Map(f, view), scores, cfg) == Map(f, TopRanked(view, scores, cfg))
  {
    var n := Seats(view, scores, cfg);
    assert Seats(Map(f, view), scores, cfg) == n;
    assert Map(f, Eligible(view, scores))[..n] == Map(f, Eligible(view, scores)[..n]);
  }

  /** What remains to be shown once the ranking follows a relabelling: the protection pass does too. */
  lemma ChosenFollows(view: seq<Member>, scores: Scores, cfg: Config, f: Member -> Member)
    requires Keep(InElectorate, Map(f, view)) == Map(f, Keep(InElectorate, view))
    requires Ranked(Map(f, view), scores) == Map(f, Ranked(view, scores))
    requires Eligible(Map(f, view), scores) == Map(f, Eligible(view, scores))
    requires var top, eligible := TopRanked(view, scores, cfg), Eligible(view, scores);
             var margin := cfg.WithDefaults().hysteresis;
             Keep(InElectorate, view) != [] && eligible != [] ==>
               Seated(scores, margin, Map(f, top), Map(f, eligible)) == Map(f, Seated(scores, margin, top, eligible))
    ensures Chosen(Map(f, view), scores, cfg) == Map(f, Chosen(view, scores, cfg))
  {
    var alive, ranked := Keep(InElectorate, view), Ranked(view, scores);
    TopRankedFollows(view, scores, cfg, f);
    if alive != [] && Eligible(view, scores) == [] {
      SortKeeps(Rank(scores), alive);
      assert Map(f, ranked)[..1] == Map(f, ranked[..1]);
    }
  }

  lemma ChosenIsStable(view: seq<Member>, scores: Scores, cfg: Config, subset: set<NodeID>)
    requires UniqueIds(view) && NoSuspects(view, subset)
    ensures var f := Adopt(subset, Ids(Chosen(view, scores, cfg)));
            Chosen(Map(f, view), scores, cfg) == Map(f, Chosen(view, scores, cfg))
  {
    var leaders := Ids(Chosen(view, scores, cfg));
    var f := Adopt(subset, leaders);
    EligibleCommutes(view, scores, subset, leaders);
    var margin, eligible, top := cfg.WithDefaults().hysteresis, Eligible(view, scores), TopRanked(view, scores, cfg);
    if Keep(InElectorate, view) != [] && eligible != [] {
      EligibleRanks(view, scores);
      SeatedIsStable(scores, margin, top, eligible, subset, leaders);
    }
    ChosenFollows(view, scores, cfg, f);
  }

  /**
   * Whichever non-suspect members announce the role an election gave them, and in whatever combination, electing again
   * gives the same leaders, the same size and the same seat count.
   */
  lemma AnnouncingKeepsTheOutcome(view: seq<Member>, scores: Scores, cfg: Config, subset: set<NodeID>)
    requires UniqueIds(view) && NoSuspects(view, subset)
    ensures var r := Elected(view, scores, cfg);
            Elected(Map(Adopt(subset, NodeSet(r.leaders)), view), scores, cfg) == r
  {
    var leaders := NodeSet(Elected(view, scores, cfg).leaders);
    var f := Adopt(subset, leaders);
    LeadersAreChosen(view, scores, cfg);
    assert leaders == Ids(Chosen(view, scores, cfg));
    EligibleCommutes(view, scores, subset, leaders);
    ChosenIsStable(view, scores, cfg, subset);
    MapIds(f, Chosen(view, scores, cfg));
  }

  // ---------------------------------------------------------------------------
  // Convergence of records makes elections agree
  // ---------------------------------------------------------------------------

  /** All an election reads of a record besides the score: who, with what role, in what state. */
  function Ballot(m: Member): Member {
    Member(m.id, 0, m.role, m.state, 0, Unavailable, 0)
  }

  lemma {:induction false} HoldReadsBallots(scores: Scores, margin: real, seats: seq<Member>, displaced: seq<Member>)
    ensures Hold(scores, margin, Map(Ballot, seats), Map(Ballot, displaced)) ==
            Map(Ballot, Hold(scores, margin, seats, displaced))
    decreases |displaced|
  {
    WeakestReadsBallots(scores, seats);
    if displaced != [] && Weakest(scores, seats) != -1 {
      var w, inc := Weakest(scores, seats), displaced[0];
      assert Map(Ballot, displaced)[1..] == Map(Ballot, displaced[1..]);
      assert Map(Ballot, seats)[w := Ballot(inc)] == Map(Ballot, seats[w := inc]);
      HoldReadsBallots(scores, margin, seats, displaced[1..]);
      HoldReadsBallots(scores, margin, seats[w := inc], displaced[1..]);
    }
  }

  lemma {:induction false} WeakestReadsBallots(scores: Scores, seats: seq<Member>)
    ensures Weakest(scores, Map(Ballot, seats)) == Weakest(scores, seats)
  {
    if seats != [] {
      WeakestReadsBallots(scores, seats[..|seats| - 1]);
      assert Map(Ballot, seats)[..|seats| - 1] == Map(Ballot, seats[..|seats| - 1]);
    }
  }

  lemma KeepPointwise(p: Member -> bool, q: Member -> bool, s: seq<Member>)
    requires forall m :: p(m) <==> q(m)
    ensures Keep(p, s) == Keep(q, s)
  {
  }

  lemma EligibleReadsBallots(view: seq<Member>, scores: Scores)
    ensures Keep(InElectorate, Map(Ballot, view)) == Map(Ballot, Keep(InElectorate, view))
    ensures Ranked(Map(Ballot, view), scores) == Map(Ballot, Ranked(view, scores))
    ensures Eligible(Map(Ballot, view), scores) == Map(Ballot, Eligible(view, scores))
  {
    KeepCommutes(InElectorate, Ballot, view);
    SortCommutes(Rank(scores), Ballot, Keep(InElectorate, view));
    KeepCommutes(Measurable(scores), Ballot, Ranked(view, scores));
  }

  lemma SeatedReadsBallots(scores: Scores, margin: real, top: seq<Member>, eligible: seq<Member>)
    ensures Seated(scores, margin, Map(Ballot, top), Map(Ballot, eligible)) ==
            Map(Ballot, Seated(scores, margin, top, eligible))
  {
    MapIds(Ballot, top);
    KeepPointwise(LostSeat(scores, Map(Ballot, top)), LostSeat(scores, top), Map(Ballot, eligible));
    KeepCommutes(LostSeat(scores, top), Ballot, eligible);
    SortCommutes(IdLess, Ballot, Keep(LostSeat(scores, top), eligible));
    HoldReadsBallots(scores, margin, top, Displaced(scores, top, eligible));
  }

  lemma OnlyBallotsMatter(view: seq<Member>, scores: Scores, cfg: Config)
    ensures Elected(Map(Ballot, view), scores, cfg) == Elected(view, scores, cfg)
  {
    EligibleReadsBallots(view, scores);
    SeatedReadsBallots(scores, cfg.WithDefaults().hysteresis, TopRanked(view, scores, cfg), Eligible(view, scores));
    ChosenFollows(view, scores, cfg, Ballot);
    MapIds(Ballot, Chosen(view, scores, cfg));
  }

  ghost predicate SameBallots(a: Members, b: Members) {
    a.Keys == b.Keys && forall id <- a :: Ballot(a[id]) == Ballot(b[id])
  }

  lemma SameIdsInOrder(a: Members, b: Members)
    requires WellKeyed(a) && WellKeyed(b) && a.Keys == b.Keys
    ensures Map(IdOf, ViewOf(a)) == Map(IdOf, ViewOf(b))
  {
    ViewIds(a);
    ViewIds(b);
    AscendingIsUnique(NodeLess, Map(IdOf, ViewOf(a)), Map(IdOf, ViewOf(b)));
  }

  lemma ViewIds(t: Members)
    requires WellKeyed(t)
    ensures var ids := Map(IdOf, ViewOf(t));
            Ascending(NodeLess, ids) && forall id :: id in ids <==> id in t
  {
    var view := ViewOf(t);
    var ids := Map(IdOf, view);
    forall i, j | 0 <= i < j < |ids| ensures NodeLess(ids[i], ids[j]) {
      assert IdLess(view[i], view[j]);
    }
    forall id ensures id in ids <==> id in t {
      if id in t {
        var i :| 0 <= i < |view| && view[i] == t[id];
        assert ids[i] == id;
      }
      if id in ids {
        var i :| 0 <= i < |ids| && ids[i] == id;
        assert view[i] in view;
      }
    }
  }

  /** Tables that agree on ballots elect alike from the same scores. */
  lemma SameBallotsSameLeaders(a: Members, b: Members, scores: Scores, cfg: Config)
    requires WellKeyed(a) && WellKeyed(b) && SameBallots(a, b)
    ensures Elected(ViewOf(a), scores, cfg) == Elected(ViewOf(b), scores, cfg)
  {
    var va, vb := ViewOf(a), ViewOf(b);
    SameIdsInOrder(a, b);
    forall i | 0 <= i < |va| ensures Ballot(va[i]) == Ballot(vb[i]) {
      assert Map(IdOf, va)[i] == Map(IdOf, vb)[i];
      assert va[i] in va && vb[i] in vb;
    }
    assert |Map(IdOf, va)| == |va| && |Map(IdOf, vb)| == |vb|;
    assert Map(Ballot, va) == Map(Ballot, vb);
    OnlyBallotsMatter(va, scores, cfg);
    OnlyBallotsMatter(vb, scores, cfg);
  }

  lemma SameClaims(a: Members, b: Members)
    requires Claims(a) == Claims(b)
    ensures SameBallots(a, b) && ReportedScores(a) == ReportedScores(b)
  {
    assert a.Keys == Claims(a).Keys == Claims(b).Keys == b.Keys;
    forall id <- a ensures a[id].score == b[id].score && Ballot(a[id]) == Ballot(b[id]) {
      assert Claims(a)[id] == Claim(a[id]) && Claims(b)[id] == Claim(b[id]);
      assert Claim(a[id]).score == a[id].score && Ballot(Claim(a[id])) == Ballot(a[id]);
      assert Claim(b[id]).score == b[id].score && Ballot(Claim(b[id])) == Ballot(b[id]);
    }
  }

  /** Nodes that merged the same coherent records, in any order, elect the same leaders from them. */
  lemma SameRecordsSameLeaders(a: seq<Member>, b: seq<Member>, cfg: Config)
    requires Records(a) == Records(b) && Coherent(Records(a))
    ensures var ta, tb := MergeAll(map[], a), MergeAll(map[], b);
            && WellKeyed(ta) && WellKeyed(tb)
            && Elected(ViewOf(ta), ReportedScores(ta), cfg) == Elected(ViewOf(tb), ReportedScores(tb), cfg)
  {
    var ta, tb := MergeAll(map[], a), MergeAll(map[], b);
    MergeAllKeys(map[], a);
    MergeAllKeys(map[], b);
    MergeConverges(a, b);
    SameClaims(ta, tb);
    SameBallotsSameLeaders(ta, tb, ReportedScores(ta), cfg);
  }

  lemma MergeAllKeys(t: Members, records: seq<Member>)
    requires WellKeyed(t)
    ensures WellKeyed(MergeAll(t, records))
    decreases |records|
  {
    if records != [] { MergeAllKeys(Upserted(t, records[0]), records[1..]); }
  }
}
