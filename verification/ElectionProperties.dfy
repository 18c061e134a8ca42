// What an election guarantees: seat conservation, the hysteresis gap, and independence of the input order.

module ElectionProperties {
  import opened Health
  import opened Membership
  import opened Sorting
  import opened Election

  // ---------------------------------------------------------------------------
  // Ranking
  // ---------------------------------------------------------------------------

  predicate OtherId(a: Member, b: Member) {
    a.id != b.id
  }

  lemma UniqueViewIsOrdered(view: seq<Member>, scores: Scores)
    requires UniqueIds(view)
    ensures Distinct(view) && StrictOrderOn(Rank(scores), view) && StrictOrderOn(IdLess, view)
  {
    hide Better;
    forall x, y, z | x in view && y in view && z in view
      ensures Rank(scores)(x, y) ==> !Rank(scores)(y, x)
      ensures x == y || Rank(scores)(x, y) || Rank(scores)(y, x)
      ensures Rank(scores)(x, y) && Rank(scores)(y, z) ==> Rank(scores)(x, z) {
      BetterIsStrictWeakOrder(ScoreOf(scores, x.id), ScoreOf(scores, y.id), ScoreOf(scores, z.id));
      BetterIsStrictWeakOrder(ScoreOf(scores, y.id), ScoreOf(scores, z.id), ScoreOf(scores, x.id));
      BetterIsStrictWeakOrder(ScoreOf(scores, z.id), ScoreOf(scores, y.id), ScoreOf(scores, x.id));
    }
  }

  lemma KeepUnique(p: Member -> bool, s: seq<Member>)
    requires UniqueIds(s)
    ensures UniqueIds(Keep(p, s)) && forall m :: m in Keep(p, s) <==> m in s && p(m)
  {
    assert Ascending(OtherId, s);
    KeepAscends(OtherId, p, s);
    KeepMembers(p, s);
  }

  lemma RankedRanks(view: seq<Member>, scores: Scores)
    requires UniqueIds(view)
    ensures Ascending(Rank(scores), Ranked(view, scores)) && |Ranked(view, scores)| == |Keep(InElectorate, view)|
    ensures forall m :: m in Ranked(view, scores) <==> m in view && InElectorate(m)
  {
    var alive := Keep(InElectorate, view);
    KeepUnique(InElectorate, view);
    UniqueViewIsOrdered(alive, scores);
    SortAscends(Rank(scores), alive);
    SortKeeps(Rank(scores), alive);
  }

  /** The measurable electorate, best first, each member once. */
  lemma EligibleRanks(view: seq<Member>, scores: Scores)
    requires UniqueIds(view)
    ensures Ascending(Rank(scores), Eligible(view, scores)) && UniqueIds(Eligible(view, scores))
    ensures forall m :: m in Eligible(view, scores) <==>
                        m in view && InElectorate(m) && IsValidScore(ScoreOf(scores, m.id))
  {
    RankedRanks(view, scores);
    KeepAscends(Rank(scores), Measurable(scores), Ranked(view, scores));
    KeepMembers(Measurable(scores), Ranked(view, scores));
  }

  // ---------------------------------------------------------------------------
  // The protection pass
  // ---------------------------------------------------------------------------

  ghost predicate IsWeakest(scores: Scores, seats: seq<Member>, w: int) {
    && 0 <= w < |seats| && !IsIncumbent(seats[w])
    && (forall i :: 0 <= i < |seats| && !IsIncumbent(seats[i]) ==>
                      !Better(ScoreOf(scores, seats[w].id), ScoreOf(scores, seats[i].id)))
    && (forall i :: 0 <= i < w && !IsIncumbent(seats[i]) ==>
                      Better(ScoreOf(scores, seats[i].id), ScoreOf(scores, seats[w].id)))
  }

  lemma {:induction false} WeakestIsWeakest(scores: Scores, seats: seq<Member>)
    ensures var w := Weakest(scores, seats);
            if w == -1 then forall m <- seats :: IsIncumbent(m) else IsWeakest(scores, seats, w)
  {
    if seats != [] {
      WeakestIsWeakest(scores, seats[..|seats| - 1]);
    }
  }

  lemma WeakestIsUnique(scores: Scores, seats: seq<Member>, w: int)
    requires IsWeakest(scores, seats, w)
    ensures Weakest(scores, seats) == w
  {
    WeakestIsWeakest(scores, seats);
    assert seats[w] in seats;
  }

  lemma PassedOver(seats: seq<Member>, displaced: seq<Member>)
    requires displaced != [] && UniqueIds(seats + displaced)
    ensures UniqueIds(seats) && UniqueIds(seats + displaced[1..])
    ensures displaced[0].id !in Ids(seats + displaced[1..])
  {
    var all, rest := seats + displaced, seats + displaced[1..];
    assert forall i :: 0 <= i < |seats| ==> all[i] == seats[i];
    assert forall i :: 0 <= i < |rest| ==> rest[i] == all[if i < |seats| then i else i + 1];
    assert all[|seats|] == displaced[0];
  }

  lemma TakesSeat(seats: seq<Member>, displaced: seq<Member>, w: nat)
    requires displaced != [] && w < |seats| && UniqueIds(seats + displaced)
    ensures UniqueIds(seats[w := displaced[0]] + displaced[1..])
    ensures seats[w].id !in Ids(seats[w := displaced[0]] + displaced[1..])
  {
    var all, next := seats + displaced, seats[w := displaced[0]] + displaced[1..];
    assert all[|seats|] == displaced[0] && all[w] == seats[w];
    assert forall i :: 0 <= i < |next| ==> next[i] == all[if i == w then |seats| else if i < |seats| then i else i + 1];
  }

  /** Seats go only to those who had one or claim one, nobody holds two, and no incumbent is unseated. */
  lemma {:induction false} HoldMembers(scores: Scores, margin: real, seats: seq<Member>, displaced: seq<Member>)
    requires UniqueIds(seats + displaced) && forall m <- displaced :: IsIncumbent(m)
    ensures UniqueIds(Hold(scores, margin, seats, displaced))
    ensures forall m <- Hold(scores, margin, seats, displaced) :: m in seats || m in displaced
    ensures forall m <- seats :: IsIncumbent(m) ==> m in Hold(scores, margin, seats, displaced)
    decreases |displaced|
  {
    if displaced == [] {
      assert seats + displaced == seats;
    } else {
      var w, inc, rest := Weakest(scores, seats), displaced[0], displaced[1..];
      WeakestIsWeakest(scores, seats);
      PassedOver(seats, displaced);
      if w == -1 {
      } else if GapAtLeast(ScoreOf(scores, inc.id), ScoreOf(scores, seats[w].id), margin) {
        HoldMembers(scores, margin, seats, rest);
      } else {
        var seats' := seats[w := inc];
        TakesSeat(seats, displaced, w);
        HoldMembers(scores, margin, seats', rest);
        forall m | m in seats && IsIncumbent(m) ensures m in Hold(scores, margin, seats, displaced) {
          var i :| 0 <= i < |seats| && seats[i] == m;
          assert seats'[i] == m;
        }
      }
    }
  }

  predicate AllMeasured(scores: Scores, s: seq<Member>) {
    forall m <- s :: IsValidScore(ScoreOf(scores, m.id))
  }

  predicate Outranks(scores: Scores, margin: real, c: Member, inc: Member) {
    GapAtLeast(ScoreOf(scores, inc.id), ScoreOf(scores, c.id), margin)
  }

  /** A displaced incumbent that stays out is worse by the margin than every newcomer that stays in. */
  lemma {:induction false} RefusalsAreJustified(scores: Scores, margin: real, seats: seq<Member>,
                                                displaced: seq<Member>, inc: Member, c: Member)
    requires UniqueIds(seats + displaced) && AllMeasured(scores, seats) && AllMeasured(scores, displaced)
    requires forall m <- displaced :: IsIncumbent(m)
    requires inc in displaced && inc !in Hold(scores, margin, seats, displaced)
    requires c in Hold(scores, margin, seats, displaced) && !IsIncumbent(c)
    ensures Outranks(scores, margin, c, inc)
    decreases |displaced|
  {
    var w, first, rest := Weakest(scores, seats), displaced[0], displaced[1..];
    WeakestIsWeakest(scores, seats);
    PassedOver(seats, displaced);
    if w != -1 {
      if Outranks(scores, margin, seats[w], first) {
        if inc == first {
          HoldMembers(scores, margin, seats, rest);
          assert c in seats;
        } else {
          RefusalsAreJustified(scores, margin, seats, rest, inc, c);
        }
      } else {
        TakesSeat(seats, displaced, w);
        HoldMembers(scores, margin, seats[w := first], rest);
        assert seats[w := first][w] == first;
        RefusalsAreJustified(scores, margin, seats[w := first], rest, inc, c);
      }
    }
  }

  /** A seat is lost only by a newcomer, and only to a displaced incumbent within the margin of it. */
  lemma {:induction false} LossesAreJustified(scores: Scores, margin: real, seats: seq<Member>, displaced: seq<Member>,
                                              m: Member) returns (to: Member)
    requires UniqueIds(seats + displaced) && forall d <- displaced :: IsIncumbent(d)
    requires m in seats && m !in Hold(scores, margin, seats, displaced)
    ensures !IsIncumbent(m)
    ensures to in displaced && to in Hold(scores, margin, seats, displaced) && !Outranks(scores, margin, m, to)
    decreases |displaced|
  {
    var w, first, rest := Weakest(scores, seats), displaced[0], displaced[1..];
    WeakestIsWeakest(scores, seats);
    PassedOver(seats, displaced);
    if Outranks(scores, margin, seats[w], first) {
      to := LossesAreJustified(scores, margin, seats, rest, m);
    } else {
      var seats' := seats[w := first];
      TakesSeat(seats, displaced, w);
      if m == seats[w] {
        HoldMembers(scores, margin, seats', rest);
        assert seats'[w] == first;
        to := first;
      } else {
        var i :| 0 <= i < |seats| && seats[i] == m;
        assert seats'[i] == m;
        to := LossesAreJustified(scores, margin, seats', rest, m);
      }
    }
  }

  // ---------------------------------------------------------------------------
  // Guarantees of the outcome
  // ---------------------------------------------------------------------------

  lemma DisplacedMembers(scores: Scores, top: seq<Member>, eligible: seq<Member>)
    requires UniqueIds(eligible) && top <= eligible
    ensures UniqueIds(top + Displaced(scores, top, eligible))
    ensures forall m :: m in Displaced(scores, top, eligible) <==> m in eligible && LostSeat(scores, top)(m)
    ensures Ascending(IdLess, Displaced(scores, top, eligible))
  {
    var lost := Keep(LostSeat(scores, top), eligible);
    KeepUnique(LostSeat(scores, top), eligible);
    UniqueViewIsOrdered(lost, scores);
    SortKeeps(IdLess, lost);
    SortAscends(IdLess, lost);
    var displaced := Displaced(scores, top, eligible);
    assert forall i :: 0 <= i < |displaced| ==> displaced[i] in displaced;
    assert forall i :: 0 <= i < |top| ==> top[i] in top && top[i] == eligible[i];
  }

  lemma SeatedMembers(scores: Scores, margin: real, top: seq<Member>, eligible: seq<Member>)
    requires UniqueIds(eligible) && top <= eligible
    ensures var seated := Seated(scores, margin, top, eligible);
            && UniqueIds(seated) && |seated| == |top| && (forall m <- seated :: m in eligible)
  {
    DisplacedMembers(scores, top, eligible);
    if margin > 0.0 {
      HoldMembers(scores, margin, top, Displaced(scores, top, eligible));
    } else {
      assert forall i :: 0 <= i < |top| ==> top[i] == eligible[i];
    }
  }

  /** The chosen are distinct members of the electorate, measurable ones if there are any. */
  lemma ChosenMembers(view: seq<Member>, scores: Scores, cfg: Config)
    requires UniqueIds(view)
    ensures UniqueIds(Chosen(view, scores, cfg))
    ensures forall m <- Chosen(view, scores, cfg) :: m in view && InElectorate(m)
  {
    hide Keep, SortBy, Seated, LeaderCount;
    EligibleRanks(view, scores);
    var alive, eligible := Keep(InElectorate, view), Eligible(view, scores);
    if alive != [] {
      if eligible == [] {
        KeepMembers(InElectorate, view);
        SortKeeps(Rank(scores), alive);
      } else {
        SeatedMembers(scores, cfg.WithDefaults().hysteresis, TopRanked(view, scores, cfg), eligible);
      }
    }
  }

  lemma LeadersAreChosen(view: seq<Member>, scores: Scores, cfg: Config)
    requires UniqueIds(view)
    ensures Ascending(NodeLess, Elected(view, scores, cfg).leaders)
    ensures forall id :: id in Elected(view, scores, cfg).leaders <==> id in Ids(Chosen(view, scores, cfg))
    ensures |Elected(view, scores, cfg).leaders| == |Chosen(view, scores, cfg)|
  {
    var chosen := Chosen(view, scores, cfg);
    ChosenMembers(view, scores, cfg);
    var ids := Map(IdOf, chosen);
    SortKeeps(NodeLess, ids);
    assert forall i :: 0 <= i < |ids| ==> ids[i] == chosen[i].id && ids[i] in ids;
    assert forall id :: id in ids <==> id in Ids(chosen);
    assert Distinct(ids);
    SortAscends(NodeLess, ids);
  }

  /** Leaders are distinct electorate members, and every seat that somebody measurable can fill is filled. */
  lemma SeatsAreConserved(view: seq<Member>, scores: Scores, cfg: Config)
    requires UniqueIds(view)
    ensures var r := Elected(view, scores, cfg);
            && Ascending(NodeLess, r.leaders)
            && (forall id <- r.leaders :: exists m <- view :: m.id == id && InElectorate(m))
            && r.size == |Keep(InElectorate, view)|
            && (r.size == 0 ==> r.leaders == [])
            && (r.size > 0 && Eligible(view, scores) != [] ==>
                  |r.leaders| == if r.want < |Eligible(view, scores)| then r.want else |Eligible(view, scores)|)
            && (r.size > 0 && Eligible(view, scores) == [] ==>
                  |r.leaders| == 1 && forall m <- view :: InElectorate(m) ==> r.leaders[0] <= m.id)
  {
    LeadersAreChosen(view, scores, cfg);
    ChosenMembers(view, scores, cfg);
    EligibleRanks(view, scores);
    var alive, eligible := Keep(InElectorate, view), Eligible(view, scores);
    var leaders := Elected(view, scores, cfg).leaders;
    if alive != [] {
      if eligible != [] {
        SeatedMembers(scores, cfg.WithDefaults().hysteresis, TopRanked(view, scores, cfg), eligible);
      } else {
        LowestIdLeads(view, scores, cfg);
      }
    }
  }

  lemma FirstOfUnmeasured(scores: Scores, ranked: seq<Member>, m: Member)
    requires Ascending(Rank(scores), ranked) && m in ranked && !AnyMeasured(scores, ranked)
    ensures ranked[0].id <= m.id
  {
    var i :| 0 <= i < |ranked| && ranked[i] == m;
    assert i > 0 ==> Rank(scores)(ranked[0], ranked[i]);
    assert ranked[0] in ranked;
  }

  predicate AnyMeasured(scores: Scores, s: seq<Member>) {
    exists m <- s :: IsValidScore(ScoreOf(scores, m.id))
  }

  lemma LowestIdLeads(view: seq<Member>, scores: Scores, cfg: Config)
    requires UniqueIds(view) && Keep(InElectorate, view) != [] && Eligible(view, scores) == []
    ensures var leaders := Elected(view, scores, cfg).leaders;
            |leaders| == 1 && forall m <- view :: InElectorate(m) ==> leaders[0] <= m.id
  {
    var ranked := Ranked(view, scores);
    RankedRanks(view, scores);
    KeepMembers(Measurable(scores), ranked);
    assert forall m <- ranked :: m in Eligible(view, scores) || !IsValidScore(ScoreOf(scores, m.id));
    var chosen := ranked[..1];
    assert Chosen(view, scores, cfg) == chosen;
    assert Map(IdOf, chosen) == [ranked[0].id] && [ranked[0].id][1..] == [];
    assert SortBy(NodeLess, [ranked[0].id]) == [ranked[0].id];
    forall m <- view | InElectorate(m) ensures ranked[0].id <= m.id {
      FirstOfUnmeasured(scores, ranked, m);
    }
  }

  lemma SeatedGap(scores: Scores, margin: real, top: seq<Member>, eligible: seq<Member>, inc: Member, c: Member)
    requires UniqueIds(eligible) && Ascending(Rank(scores), eligible) && top <= eligible &&
             AllMeasured(scores, eligible)
    requires margin >= 0.0
    requires inc in eligible && IsIncumbent(inc) && inc !in Seated(scores, margin, top, eligible)
    requires c in Seated(scores, margin, top, eligible) && !IsIncumbent(c)
    ensures Outranks(scores, margin, c, inc)
  {
    assert forall i :: 0 <= i < |top| ==> top[i] == eligible[i];
    var i :| 0 <= i < |eligible| && eligible[i] == inc;
    if margin > 0.0 {
      var displaced := Displaced(scores, top, eligible);
      DisplacedMembers(scores, top, eligible);
      HoldMembers(scores, margin, top, displaced);
      assert inc !in top;
      SameMemberOut(eligible, inc, top);
      RefusalsAreJustified(scores, margin, top, displaced, inc, c);
    } else {
      var j :| 0 <= j < |top| && top[j] == c;
      assert Rank(scores)(eligible[j], eligible[i]);
    }
  }

  /**
   * The hysteresis gap: a measurable incumbent left out is worse by at least the margin than EVERY newcomer seated.
   * (A margin of zero means no damping, and then it is merely no better.)
   */
  lemma IncumbentLosesOnlyByMargin(view: seq<Member>, scores: Scores, cfg: Config, inc: Member, c: Member)
    requires UniqueIds(view) && inc in view && c in view
    requires InElectorate(inc) && IsIncumbent(inc) && IsValidScore(ScoreOf(scores, inc.id))
    requires inc.id !in Elected(view, scores, cfg).leaders
    requires c.id in Elected(view, scores, cfg).leaders && !IsIncumbent(c)
    ensures Outranks(scores, cfg.WithDefaults().hysteresis, c, inc)
  {
    hide Elected, Eligible, Seats, Keep, SortBy, Seated, Outranks, UniqueIds;
    assert Eligible(view, scores) != [] && Keep(InElectorate, view) != [] by {
      EligibleRanks(view, scores);
      KeepMembers(InElectorate, view);
    }
    LeadersAreChosen(view, scores, cfg);
    ChosenMembers(view, scores, cfg);
    EligibleRanks(view, scores);
    KeepMembers(InElectorate, view);
    SameMember(view, c, Chosen(view, scores, cfg));
    SeatedGap(scores, cfg.WithDefaults().hysteresis, TopRanked(view, scores, cfg), Eligible(view, scores), inc, c);
  }

  lemma SameMember(view: seq<Member>, m: Member, s: seq<Member>)
    requires UniqueIds(view) && m in view && (forall x <- s :: x in view) && m.id in Ids(s)
    ensures m in s
  {
    var x :| x in s && x.id == m.id;
  }

  lemma SameMemberOut(view: seq<Member>, m: Member, s: seq<Member>)
    requires UniqueIds(view) && m in view && (forall x <- s :: x in view) && m !in s
    ensures m.id !in Ids(s)
  {
    if m.id in Ids(s) { SameMember(view, m, s); }
  }

  /** A top-ranked member is left out only if it is a newcomer, and only for a displaced incumbent within the margin. */
  lemma TopRankedLosesOnlyWithinMargin(view: seq<Member>, scores: Scores, cfg: Config, m: Member) returns (to: Member)
    requires UniqueIds(view) && m in TopRanked(view, scores, cfg) && m.id !in Elected(view, scores, cfg).leaders
    ensures !IsIncumbent(m)
    ensures to in view && IsIncumbent(to) && to.id in Elected(view, scores, cfg).leaders &&
            to !in TopRanked(view, scores, cfg)
    ensures !Outranks(scores, cfg.WithDefaults().hysteresis, m, to)
  {
    hide Elected, Eligible, Seats, Keep, SortBy, Displaced, Outranks, Hold;
    LeadersAreChosen(view, scores, cfg);
    EligibleRanks(view, scores);
    KeepMembers(InElectorate, view);
    var margin := cfg.WithDefaults().hysteresis;
    var top, eligible := TopRanked(view, scores, cfg), Eligible(view, scores);
    DisplacedMembers(scores, top, eligible);
    assert m !in Chosen(view, scores, cfg);
    to := LossesAreJustified(scores, margin, top, Displaced(scores, top, eligible), m);
    assert to !in top;
  }

  /** Two nodes holding the same members, listed in any order, elect the same leaders. */
  lemma OrderDoesNotMatter(a: seq<Member>, b: seq<Member>, scores: Scores, cfg: Config)
    requires UniqueIds(a) && UniqueIds(b) && forall m :: m in a <==> m in b
    ensures Elected(a, scores, cfg) == Elected(b, scores, cfg)
  {
    hide Keep, SortBy, LeaderCount;
    KeepUnique(InElectorate, a);
    KeepUnique(InElectorate, b);
    var x, y := Keep(InElectorate, a), Keep(InElectorate, b);
    UniqueViewIsOrdered(x, scores);
    SortForgetsOrder(Rank(scores), x, y);
    SortKeeps(Rank(scores), x);
    SortKeeps(Rank(scores), y);
    assert |x| == |Ranked(a, scores)| == |y|;
  }
}
