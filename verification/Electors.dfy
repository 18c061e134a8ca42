// The election in its own terms: who counts, how many seats there are, and who sits in them, stated over states, roles
// and scores alone.

module Electors {
  import opened Health
  import opened Membership
  import opened Sorting
  import opened Election
  import opened ElectionProperties
  import opened ElectionFixedPoint

  // ---------------------------------------------------------------------------
  // Who counts
  // ---------------------------------------------------------------------------

  /** Every incumbent among `doubted` that was alive is now suspect. */
  function Doubting(doubted: set<NodeID>): Member -> Member {
    (m: Member) => if m.id in doubted && m.role == Leader && m.state == Alive then m.(state := Suspect) else m
  }

  lemma {:induction false} HoldFollows(scores: Scores, margin: real, seats: seq<Member>, displaced: seq<Member>,
                                       f: Member -> Member)
    requires forall m :: f(m).id == m.id && f(m).role == m.role
    ensures Hold(scores, margin, Map(f, seats), Map(f, displaced)) == Map(f, Hold(scores, margin, seats, displaced))
    decreases |displaced|
  {
    WeakestFollows(scores, seats, f);
    if displaced != [] && Weakest(scores, seats) != -1 {
      var w, inc := Weakest(scores, seats), displaced[0];
      assert Map(f, displaced)[1..] == Map(f, displaced[1..]);
      assert Map(f, seats)[w := f(inc)] == Map(f, seats[w := inc]);
      HoldFollows(scores, margin, seats, displaced[1..], f);
      HoldFollows(scores, margin, seats[w := inc], displaced[1..], f);
    }
  }

  lemma {:induction false} WeakestFollows(scores: Scores, seats: seq<Member>, f: Member -> Member)
    requires forall m :: f(m).id == m.id && f(m).role == m.role
    ensures Weakest(scores, Map(f, seats)) == Weakest(scores, seats)
  {
    if seats != [] {
      WeakestFollows(scores, seats[..|seats| - 1], f);
      assert Map(f, seats)[..|seats| - 1] == Map(f, seats[..|seats| - 1]);
    }
  }

  lemma SeatedFollows(scores: Scores, margin: real, top: seq<Member>, eligible: seq<Member>, f: Member -> Member)
    requires forall m :: f(m).id == m.id && f(m).role == m.role
    ensures Seated(scores, margin, Map(f, top), Map(f, eligible)) == Map(f, Seated(scores, margin, top, eligible))
  {
    MapIds(f, top);
    KeepPointwise(LostSeat(scores, Map(f, top)), LostSeat(scores, top), Map(f, eligible));
    KeepCommutes(LostSeat(scores, top), f, eligible);
    SortCommutes(IdLess, f, Keep(LostSeat(scores, top), eligible));
    HoldFollows(scores, margin, top, Displaced(scores, top, eligible), f);
  }

  /** Suspicion alone costs nobody a seat: whichever incumbents are doubted, the outcome is the same. */
  lemma SuspicionUnseatsNobody(view: seq<Member>, scores: Scores, cfg: Config, doubted: set<NodeID>)
    ensures Elected(Map(Doubting(doubted), view), scores, cfg) == Elected(view, scores, cfg)
  {
    var f := Doubting(doubted);
    KeepCommutes(InElectorate, f, view);
    SortCommutes(Rank(scores), f, Keep(InElectorate, view));
    KeepCommutes(Measurable(scores), f, Ranked(view, scores));
    SeatedFollows(scores, cfg.WithDefaults().hysteresis, TopRanked(view, scores, cfg), Eligible(view, scores), f);
    ChosenFollows(view, scores, cfg, f);
    MapIds(f, Chosen(view, scores, cfg));
  }

  lemma {:induction false} KeepTwice(p: Member -> bool, q: Member -> bool, view: seq<Member>)
    requires forall m <- view :: q(m) ==> p(m)
    ensures Keep(q, Keep(p, view)) == Keep(q, view)
  {
    if view != [] {
      var front, m := view[..|view| - 1], view[|view| - 1];
      assert view == front + [m] && m in view;
      KeepTwice(p, q, front);
      KeepSnoc(p, front, m);
      KeepSnoc(q, front, m);
      if p(m) {
        KeepSnoc(q, Keep(p, front), m);
      } else {
        assert Keep(p, view) == Keep(p, front);
      }
    }
  }

  /**
   * Nobody else is even looked at: leaving members out, as long as everyone alive and every suspect leader stays in,
   * leaves the outcome as it is. So suspect workers and the dead neither lead nor count.
   */
  lemma OutsidersDoNotMatter(view: seq<Member>, scores: Scores, cfg: Config, p: Member -> bool)
    requires forall m <- view :: m.state == Alive || (m.state == Suspect && m.role == Leader) ==> p(m)
    ensures Elected(Keep(p, view), scores, cfg) == Elected(view, scores, cfg)
  {
    hide Keep, SortBy;
    KeepTwice(p, InElectorate, view);
  }

  lemma {:induction false} UniqueCount(s: seq<Member>)
    requires UniqueIds(s)
    ensures |set m <- s :: m| == |s|
  {
    if s != [] {
      var front, last := s[..|s| - 1], s[|s| - 1];
      UniqueCount(front);
      assert s == front + [last];
      assert forall m :: m in s <==> m in front || m == last;
      assert last !in front;
      assert (set m <- s :: m) == (set m <- front :: m) + {last};
    }
  }

  /** Size is the number of members alive, or suspect with the role of leader. */
  lemma SizeCountsElectors(view: seq<Member>, scores: Scores, cfg: Config)
    requires UniqueIds(view)
    ensures Elected(view, scores, cfg).size ==
            |set m | m in view && (m.state == Alive || (m.state == Suspect && m.role == Leader))|
  {
    KeepUnique(InElectorate, view);
    var alive := Keep(InElectorate, view);
    UniqueCount(alive);
    assert (set m <- alive :: m) == set m | m in view && (m.state == Alive || (m.state == Suspect && m.role == Leader));
  }

  // ---------------------------------------------------------------------------
  // Who sits
  // ---------------------------------------------------------------------------

  /** May lead: alive, or suspect and a leader already; and measured. */
  predicate MayLead(m: Member, view: seq<Member>, scores: Scores) {
    && m in view && (m.state == Alive || (m.state == Suspect && m.role == Leader))
    && m.id in scores && scores[m.id].Measured?
  }

  predicate Ahead(a: Member, b: Member, scores: Scores)
    requires a.id in scores && b.id in scores && scores[a.id].Measured? && scores[b.id].Measured?
  {
    scores[a.id].value < scores[b.id].value || (scores[a.id].value == scores[b.id].value && a.id < b.id)
  }

  ghost function AheadOf(m: Member, view: seq<Member>, scores: Scores): set<Member>
    requires MayLead(m, view, scores)
  {
    set x | x in view && MayLead(x, view, scores) && Ahead(x, m, scores)
  }

  /** By score alone the member would lead: fewer are ahead of it than there are seats. */
  ghost predicate WinsOnScore(m: Member, view: seq<Member>, scores: Scores, cfg: Config) {
    MayLead(m, view, scores) && |AheadOf(m, view, scores)| < Elected(view, scores, cfg).want
  }

  function MarginOf(cfg: Config): real {
    if cfg.hysteresis < 0.0 then 0.5 else cfg.hysteresis
  }

  lemma EligibleMembers(view: seq<Member>, scores: Scores)
    requires UniqueIds(view)
    ensures forall m :: m in Eligible(view, scores) <==> MayLead(m, view, scores)
  {
    EligibleRanks(view, scores);
  }

  lemma PositionCounts(view: seq<Member>, scores: Scores, i: nat)
    requires UniqueIds(view) && i < |Eligible(view, scores)|
    ensures MayLead(Eligible(view, scores)[i], view, scores)
    ensures |AheadOf(Eligible(view, scores)[i], view, scores)| == i
  {
    hide Eligible, InElectorate;
    var eligible := Eligible(view, scores);
    var m := eligible[i];
    EligibleRanks(view, scores);
    EligibleMembers(view, scores);
    assert m in eligible;
    forall x ensures x in AheadOf(m, view, scores) <==> x in eligible[..i] {
      if x in eligible {
        var j :| 0 <= j < |eligible| && eligible[j] == x;
        if j < i { assert Rank(scores)(eligible[j], eligible[i]); assert eligible[..i][j] == x; }
        if j > i { assert Rank(scores)(eligible[i], eligible[j]); }
      }
    }
    assert UniqueIds(eligible[..i]);
    UniqueCount(eligible[..i]);
    assert AheadOf(m, view, scores) == set x <- eligible[..i] :: x;
  }

  lemma TopRankedWins(view: seq<Member>, scores: Scores, cfg: Config, m: Member)
    requires UniqueIds(view)
    ensures m in TopRanked(view, scores, cfg) <==> WinsOnScore(m, view, scores, cfg)
  {
    hide Eligible, InElectorate;
    var eligible := Eligible(view, scores);
    EligibleMembers(view, scores);
    EligibleRanks(view, scores);
    if m in eligible {
      var i :| 0 <= i < |eligible| && eligible[i] == m;
      PositionCounts(view, scores, i);
      var n := Seats(view, scores, cfg);
      assert i < n ==> eligible[..n][i] == m;
      if m in eligible[..n] {
        var k :| 0 <= k < n && eligible[..n][k] == m;
        assert eligible[k] == eligible[i] && k == i;
      }
    }
  }

  /** How much worse a measured member is than another. */
  function GapOver(a: Member, b: Member, scores: Scores): real
    requires a.id in scores && b.id in scores && scores[a.id].Measured? && scores[b.id].Measured?
  {
    scores[a.id].value - scores[b.id].value
  }

  /** Everyone who leads may lead, if anyone may; and there are as many leaders as seats, or as members who may lead. */
  lemma SeatsAreFilled(view: seq<Member>, scores: Scores, cfg: Config)
    requires UniqueIds(view) && exists m :: MayLead(m, view, scores)
    ensures var r := Elected(view, scores, cfg);
            var able := |set m | m in view && MayLead(m, view, scores)|;
            && |r.leaders| == (if r.want < able then r.want else able)
            && (forall id <- r.leaders :: exists m: Member :: m.id == id && MayLead(m, view, scores))
  {
    hide InElectorate, Eligible, Keep, SortBy;
    EligibleMembers(view, scores);
    EligibleRanks(view, scores);
    var eligible := Eligible(view, scores);
    UniqueCount(eligible);
    assert (set m | m in view && MayLead(m, view, scores)) == set m <- eligible :: m;
    SeatsAreConserved(view, scores, cfg);
    LeadersAreChosen(view, scores, cfg);
    SomebodyIsAlive(view, scores);
    SeatedMembers(scores, cfg.WithDefaults().hysteresis, TopRanked(view, scores, cfg), eligible);
    assert Chosen(view, scores, cfg) ==
           Seated(scores, cfg.WithDefaults().hysteresis, TopRanked(view, scores, cfg), eligible);
    forall id <- Elected(view, scores, cfg).leaders ensures exists m: Member :: m.id == id && MayLead(m, view, scores) {
      var m :| m in Chosen(view, scores, cfg) && m.id == id;
      assert MayLead(m, view, scores);
    }
  }

  lemma SomebodyIsAlive(view: seq<Member>, scores: Scores)
    requires UniqueIds(view) && exists m :: MayLead(m, view, scores)
    ensures Keep(InElectorate, view) != [] && Eligible(view, scores) != []
  {
    hide Keep, Eligible;
    EligibleMembers(view, scores);
    KeepMembers(InElectorate, view);
  }

  /** A sitting leader that could lead and does not is worse than every newcomer seated by at least the margin. */
  lemma IncumbentsYieldToTheMargin(view: seq<Member>, scores: Scores, cfg: Config, inc: Member, c: Member)
    requires UniqueIds(view) && MayLead(inc, view, scores) && inc.role == Leader && c in view && c.role == Worker
    requires inc.id !in Elected(view, scores, cfg).leaders && c.id in Elected(view, scores, cfg).leaders
    ensures MayLead(c, view, scores) && GapOver(inc, c, scores) >= MarginOf(cfg)
  {
    hide Elected;
    IncumbentLosesOnlyByMargin(view, scores, cfg, inc, c);
    LeadersMayLead(view, scores, cfg, c);
  }

  /** A sitting leader that wins on score leads. */
  lemma IncumbentsWinOnScore(view: seq<Member>, scores: Scores, cfg: Config, m: Member)
    requires UniqueIds(view) && WinsOnScore(m, view, scores, cfg) && m.role == Leader
    ensures m.id in Elected(view, scores, cfg).leaders
  {
    hide WinsOnScore, Elected, TopRanked;
    TopRankedWins(view, scores, cfg, m);
    if m.id !in Elected(view, scores, cfg).leaders {
      var to := TopRankedLosesOnlyWithinMargin(view, scores, cfg, m);
    }
  }

  /**
   * A worker who wins on score and does not lead made way for a sitting leader that is worse by less than the margin.
   */
  lemma NewcomersYieldWithinTheMargin(view: seq<Member>, scores: Scores, cfg: Config, m: Member) returns (to: Member)
    requires UniqueIds(view) && WinsOnScore(m, view, scores, cfg) && m.id !in Elected(view, scores, cfg).leaders
    ensures m.role == Worker && to in view && to.role == Leader && to.id in Elected(view, scores, cfg).leaders
    ensures MayLead(to, view, scores) && !WinsOnScore(to, view, scores, cfg)
    ensures GapOver(to, m, scores) < MarginOf(cfg)
  {
    hide WinsOnScore, Elected, TopRanked, Eligible, SortBy, Keep, Seated;
    TopRankedWins(view, scores, cfg, m);
    to := TopRankedLosesOnlyWithinMargin(view, scores, cfg, m);
    TopRankedWins(view, scores, cfg, to);
    assert exists x :: MayLead(x, view, scores) by { Winners(view, scores, cfg, m); }
    LeadersMayLead(view, scores, cfg, to);
    Winners(view, scores, cfg, m);
  }

  lemma Winners(view: seq<Member>, scores: Scores, cfg: Config, m: Member)
    requires WinsOnScore(m, view, scores, cfg)
    ensures MayLead(m, view, scores)
  {
  }

  lemma LeadersMayLead(view: seq<Member>, scores: Scores, cfg: Config, m: Member)
    requires UniqueIds(view) && (exists x :: MayLead(x, view, scores)) && m in view
    requires m.id in Elected(view, scores, cfg).leaders
    ensures MayLead(m, view, scores)
  {
    hide Elected;
    SeatsAreFilled(view, scores, cfg);
    var x: Member :| x.id == m.id && MayLead(x, view, scores);
    var i :| 0 <= i < |view| && view[i] == x;
    var j :| 0 <= j < |view| && view[j] == m;
  }

  /** A worker leads only if it wins on score. */
  lemma NewcomersWinOnScore(view: seq<Member>, scores: Scores, cfg: Config, m: Member)
    requires UniqueIds(view) && (exists x :: MayLead(x, view, scores)) && m in view && m.role == Worker
    requires m.id in Elected(view, scores, cfg).leaders
    ensures WinsOnScore(m, view, scores, cfg)
  {
    hide InElectorate, Keep, SortBy, WinsOnScore, Hold;
    var top, eligible := TopRanked(view, scores, cfg), Eligible(view, scores);
    var margin := cfg.WithDefaults().hysteresis;
    SomebodyIsAlive(view, scores);
    ChosenMembers(view, scores, cfg);
    LeadersAreChosen(view, scores, cfg);
    EligibleRanks(view, scores);
    SameMember(view, m, Chosen(view, scores, cfg));
    TopRankedWins(view, scores, cfg, m);
    DisplacedMembers(scores, top, eligible);
    if margin > 0.0 { HoldMembers(scores, margin, top, Displaced(scores, top, eligible)); }
  }

  // ---------------------------------------------------------------------------
  // Which of the newcomers give up their seats, and to which of the incumbents
  // ---------------------------------------------------------------------------

  ghost predicate AllScored(scores: Scores, s: seq<Member>) {
    forall m <- s :: m.id in scores && scores[m.id].Measured?
  }

  lemma WeakestIsWorst(scores: Scores, seats: seq<Member>, c: Member)
    requires AllScored(scores, seats) && c in seats && !IsIncumbent(c)
    ensures var w := Weakest(scores, seats);
            w != -1 && seats[w] in seats && scores[seats[w].id].value >= scores[c.id].value
  {
    WeakestIsWeakest(scores, seats);
    var i :| 0 <= i < |seats| && seats[i] == c;
  }

  lemma {:induction false} TheWorstYield(scores: Scores, margin: real, seats: seq<Member>, displaced: seq<Member>,
                                         c: Member, d: Member)
    requires UniqueIds(seats + displaced) && AllScored(scores, seats) && AllScored(scores, displaced)
    requires forall m <- displaced :: IsIncumbent(m)
    requires c in Hold(scores, margin, seats, displaced) && !IsIncumbent(c) && c.id in scores && scores[c.id].Measured?
    requires d in seats && d !in Hold(scores, margin, seats, displaced)
    ensures !IsIncumbent(d) && scores[c.id].value <= scores[d.id].value
    decreases |displaced|
  {
    var w, first, rest := Weakest(scores, seats), displaced[0], displaced[1..];
    WeakestIsWeakest(scores, seats);
    PassedOver(seats, displaced);
    if GapAtLeast(ScoreOf(scores, first.id), ScoreOf(scores, seats[w].id), margin) {
      TheWorstYield(scores, margin, seats, rest, c, d);
    } else {
      var seats' := seats[w := first];
      TakesSeat(seats, displaced, w);
      HoldMembers(scores, margin, seats', rest);
      if d == seats[w] {
        assert c in seats;
        WeakestIsWorst(scores, seats, c);
      } else {
        var i :| 0 <= i < |seats| && seats[i] == d;
        assert seats'[i] == d;
        TheWorstYield(scores, margin, seats', rest, c, d);
      }
    }
  }

  /** Whoever takes a seat is within the margin of some newcomer's. */
  lemma {:induction false} SeatsAreTakenWithinTheMargin(scores: Scores, margin: real, seats: seq<Member>,
                                                        displaced: seq<Member>, b: Member) returns (c: Member)
    requires UniqueIds(seats + displaced) && AllScored(scores, seats) && AllScored(scores, displaced)
    requires forall m <- displaced :: IsIncumbent(m)
    requires b in displaced && b in Hold(scores, margin, seats, displaced)
    ensures c in seats && !IsIncumbent(c) && scores[b.id].value - scores[c.id].value < margin
    decreases |displaced|
  {
    var w, first, rest := Weakest(scores, seats), displaced[0], displaced[1..];
    WeakestIsWeakest(scores, seats);
    PassedOver(seats, displaced);
    assert (seats + displaced)[|seats|] == first;
    if w == -1 {
      NotSeated(seats, displaced, b);
      c := b;
    } else if GapAtLeast(ScoreOf(scores, first.id), ScoreOf(scores, seats[w].id), margin) {
      if b == first {
        HoldMembers(scores, margin, seats, rest);
        NotSeated(seats, displaced, b);
      }
      c := SeatsAreTakenWithinTheMargin(scores, margin, seats, rest, b);
    } else if b == first {
      c := seats[w];
    } else {
      TakesSeat(seats, displaced, w);
      c := SeatsAreTakenWithinTheMargin(scores, margin, seats[w := first], rest, b);
    }
  }

  lemma NotSeated(seats: seq<Member>, displaced: seq<Member>, b: Member)
    requires UniqueIds(seats + displaced) && b in displaced
    ensures b !in seats
  {
    var j :| 0 <= j < |displaced| && displaced[j] == b;
    assert (seats + displaced)[|seats| + j] == b;
    assert forall i :: 0 <= i < |seats| ==> (seats + displaced)[i] == seats[i];
  }

  /** Of two who lost a seat the earlier considered stays out for the later only if it is worse. */
  lemma {:induction false} TheEarlierIsWorse(scores: Scores, margin: real, seats: seq<Member>, displaced: seq<Member>,
                                             i: nat, j: nat)
    requires UniqueIds(seats + displaced) && AllScored(scores, seats) && AllScored(scores, displaced)
    requires (forall m <- displaced :: IsIncumbent(m)) && i < j < |displaced|
    requires displaced[i] !in Hold(scores, margin, seats, displaced)
    requires displaced[j] in Hold(scores, margin, seats, displaced)
    ensures displaced[i] in displaced && displaced[j] in displaced
    ensures scores[displaced[j].id].value < scores[displaced[i].id].value
    decreases |displaced|
  {
    var w, first, rest := Weakest(scores, seats), displaced[0], displaced[1..];
    WeakestIsWeakest(scores, seats);
    PassedOver(seats, displaced);
    NotSeated(seats, displaced, displaced[j]);
    if GapAtLeast(ScoreOf(scores, first.id), ScoreOf(scores, seats[w].id), margin) {
      if i == 0 {
        assert rest[j - 1] == displaced[j];
        var c := SeatsAreTakenWithinTheMargin(scores, margin, seats, rest, displaced[j]);
        WeakestIsWorst(scores, seats, c);
      } else {
        TheEarlierIsWorse(scores, margin, seats, rest, i - 1, j - 1);
      }
    } else {
      TakesSeat(seats, displaced, w);
      HoldMembers(scores, margin, seats[w := first], rest);
      assert seats[w := first][w] == first;
      TheEarlierIsWorse(scores, margin, seats[w := first], rest, i - 1, j - 1);
    }
  }

  /**
   * The first within the margin of a newcomer, everyone before it being beyond the margin of all of them, keeps a seat.
   */
  lemma {:induction false} TheFirstWithinTheMarginStays(scores: Scores, margin: real, seats: seq<Member>,
                                                        displaced: seq<Member>, k: nat, c: Member)
    requires UniqueIds(seats + displaced) && AllScored(scores, seats) && AllScored(scores, displaced)
    requires (forall m <- displaced :: IsIncumbent(m)) && k < |displaced| && c in seats && !IsIncumbent(c)
    requires scores[displaced[k].id].value - scores[c.id].value < margin
    requires forall i, x | 0 <= i < k && x in seats && !IsIncumbent(x) ::
               scores[displaced[i].id].value - scores[x.id].value >= margin
    ensures displaced[k] in Hold(scores, margin, seats, displaced)
    decreases |displaced|
  {
    var w, first, rest := Weakest(scores, seats), displaced[0], displaced[1..];
    WeakestIsWeakest(scores, seats);
    WeakestIsWorst(scores, seats, c);
    PassedOver(seats, displaced);
    if k == 0 {
      TakesSeat(seats, displaced, w);
      HoldMembers(scores, margin, seats[w := first], rest);
      assert seats[w := first][w] == first;
    } else {
      assert scores[displaced[0].id].value - scores[seats[w].id].value >= margin;
      forall i, x | 0 <= i < k - 1 && x in seats && !IsIncumbent(x)
        ensures scores[rest[i].id].value - scores[x.id].value >= margin {
        assert rest[i] == displaced[i + 1];
      }
      TheFirstWithinTheMarginStays(scores, margin, seats, rest, k - 1, c);
    }
  }

  /** A sitting leader that could lead but does not win on score. */
  ghost predicate IsDisplaced(m: Member, view: seq<Member>, scores: Scores, cfg: Config) {
    MayLead(m, view, scores) && m.role == Leader && !WinsOnScore(m, view, scores, cfg)
  }

  /** What the protection pass works on, in terms of the view. */
  lemma PassFacts(view: seq<Member>, scores: Scores, cfg: Config)
    requires UniqueIds(view) && exists m :: MayLead(m, view, scores)
    ensures var top, eligible := TopRanked(view, scores, cfg), Eligible(view, scores);
            var displaced := Displaced(scores, top, eligible);
            && UniqueIds(top + displaced) && AllScored(scores, top) && AllScored(scores, displaced)
            && Ascending(IdLess, displaced) && (forall m <- displaced :: IsIncumbent(m))
            && (forall m :: m in top <==> WinsOnScore(m, view, scores, cfg))
            && (forall m :: m in displaced <==> IsDisplaced(m, view, scores, cfg))
            && Chosen(view, scores, cfg) == Seated(scores, cfg.WithDefaults().hysteresis, top, eligible)
  {
    hide InElectorate, Keep, SortBy, WinsOnScore, Seated, Eligible;
    var top, eligible := TopRanked(view, scores, cfg), Eligible(view, scores);
    SomebodyIsAlive(view, scores);
    EligibleRanks(view, scores);
    EligibleMembers(view, scores);
    forall m ensures m in top <==> WinsOnScore(m, view, scores, cfg) { TopRankedWins(view, scores, cfg, m); }
    assert forall i :: 0 <= i < |top| ==> top[i] == eligible[i] && top[i] in eligible;
    DisplacedMembers(scores, top, eligible);
    forall m ensures m in Displaced(scores, top, eligible) <==> IsDisplaced(m, view, scores, cfg) {
      if m in eligible { LostExactly(eligible, top, m); }
    }
  }

  lemma LostExactly(eligible: seq<Member>, top: seq<Member>, m: Member)
    requires UniqueIds(eligible) && top <= eligible && m in eligible
    ensures m.id in Ids(top) <==> m in top
  {
    assert forall i :: 0 <= i < |top| ==> top[i] == eligible[i] && top[i] in eligible;
    if m.id in Ids(top) { SameMember(eligible, m, top); }
  }

  lemma LeadsExactly(view: seq<Member>, scores: Scores, cfg: Config, m: Member)
    requires UniqueIds(view) && m in view
    ensures m.id in Elected(view, scores, cfg).leaders <==> m in Chosen(view, scores, cfg)
  {
    hide Elected, Chosen;
    LeadersAreChosen(view, scores, cfg);
    ChosenMembers(view, scores, cfg);
    if m.id in Ids(Chosen(view, scores, cfg)) { SameMember(view, m, Chosen(view, scores, cfg)); }
  }

  /** Of the workers who win on score it is the worst who make way. */
  lemma TheWorstNewcomersYield(view: seq<Member>, scores: Scores, cfg: Config, c: Member, d: Member)
    requires UniqueIds(view) && WinsOnScore(c, view, scores, cfg) && WinsOnScore(d, view, scores, cfg)
    requires c.role == Worker && c.id in Elected(view, scores, cfg).leaders &&
             d.id !in Elected(view, scores, cfg).leaders
    ensures GapOver(c, d, scores) <= 0.0
  {
    hide InElectorate, Elected, Chosen, WinsOnScore, IsDisplaced, Hold, Eligible, TopRanked, Displaced;
    Winners(view, scores, cfg, c);
    Winners(view, scores, cfg, d);
    PassFacts(view, scores, cfg);
    LeadsExactly(view, scores, cfg, c);
    LeadsExactly(view, scores, cfg, d);
    var top := TopRanked(view, scores, cfg);
    var margin := cfg.WithDefaults().hysteresis;
    TheWorstYield(scores, margin, top, Displaced(scores, top, Eligible(view, scores)), c, d);
  }

  lemma LowerIsEarlier(ms: seq<Member>, i: nat, j: nat)
    requires Ascending(IdLess, ms) && i < |ms| && j < |ms| && ms[i].id < ms[j].id
    ensures i < j
  {
  }

  /** Of two displaced leaders the one with the lower identifier stays out for the other only if it is worse. */
  lemma TheLowerIdStaysOutOnlyIfWorse(view: seq<Member>, scores: Scores, cfg: Config, a: Member, b: Member)
    requires UniqueIds(view) && IsDisplaced(a, view, scores, cfg) && IsDisplaced(b, view, scores, cfg) && a.id < b.id
    requires a.id !in Elected(view, scores, cfg).leaders && b.id in Elected(view, scores, cfg).leaders
    ensures GapOver(a, b, scores) > 0.0
  {
    hide InElectorate, Elected, Chosen, WinsOnScore, Hold, Eligible, TopRanked, Displaced;
    PassFacts(view, scores, cfg);
    LeadsExactly(view, scores, cfg, a);
    LeadsExactly(view, scores, cfg, b);
    var top := TopRanked(view, scores, cfg);
    var displaced := Displaced(scores, top, Eligible(view, scores));
    var i :| 0 <= i < |displaced| && displaced[i] == a;
    var j :| 0 <= j < |displaced| && displaced[j] == b;
    LowerIsEarlier(displaced, i, j);
    TheEarlierIsWorse(scores, cfg.WithDefaults().hysteresis, top, displaced, i, j);
  }

  /**
   * Displaced leaders are considered by identifier: one within the margin of a worker who wins on score keeps its seat,
   * if every displaced leader with a lower identifier is beyond the margin of all of them.
   */
  lemma TheLowestIdWithinTheMarginStays(view: seq<Member>, scores: Scores, cfg: Config, b: Member, c: Member)
    requires UniqueIds(view) && MarginOf(cfg) > 0.0 && IsDisplaced(b, view, scores, cfg)
    requires WinsOnScore(c, view, scores, cfg) && c.role == Worker && GapOver(b, c, scores) < MarginOf(cfg)
    requires forall a, x | IsDisplaced(a, view, scores, cfg) && WinsOnScore(x, view, scores, cfg) ::
               a.id < b.id && x.role == Worker ==> GapOver(a, x, scores) >= MarginOf(cfg)
    ensures b.id in Elected(view, scores, cfg).leaders
  {
    hide InElectorate, Elected, Chosen, WinsOnScore, Hold, Eligible, TopRanked, Displaced;
    PassFacts(view, scores, cfg);
    LeadsExactly(view, scores, cfg, b);
    var top := TopRanked(view, scores, cfg);
    var displaced := Displaced(scores, top, Eligible(view, scores));
    var k :| 0 <= k < |displaced| && displaced[k] == b;
    forall i, x | 0 <= i < k && x in top && !IsIncumbent(x)
      ensures scores[displaced[i].id].value - scores[x.id].value >= MarginOf(cfg) {
      assert IdLess(displaced[i], displaced[k]) && displaced[i] in displaced;
      assert GapOver(displaced[i], x, scores) >= MarginOf(cfg);
    }
    TheFirstWithinTheMarginStays(scores, MarginOf(cfg), top, displaced, k, c);
  }

  // ---------------------------------------------------------------------------
  // How many seats there are, and who leads when nobody is measured
  // ---------------------------------------------------------------------------

  /**
   * The seats wanted are the least whole number that is at least the fraction (0.3 if out of range) of those who count.
   */
  lemma WantIsTheFraction(view: seq<Member>, scores: Scores, cfg: Config)
    ensures var r := Elected(view, scores, cfg);
            var t := if 0.0 < cfg.threshold <= 1.0 then cfg.threshold else 0.3;
            && (r.size == 0 ==> r.want == 0 && r.leaders == [])
            && (r.size > 0 ==> (r.want - 1) as real < r.size as real * t <= r.want as real)
  {
    hide InElectorate, Keep, LeaderCount, Elected;
    OutcomeFields(view, scores, cfg);
  }

  lemma OutcomeFields(view: seq<Member>, scores: Scores, cfg: Config)
    ensures var r := Elected(view, scores, cfg);
            && r.want == LeaderCount(r.size, cfg.WithDefaults().threshold)
            && (r.size == 0 ==> r.leaders == [])
  {
    hide InElectorate, Keep, LeaderCount, Seated, Eligible, Ranked, TopRanked;
    assert SortBy(NodeLess, []) == [];
  }

  /** If nobody who counts is measured, the one with the lowest identifier leads alone. */
  lemma TheLowestIdLeads(view: seq<Member>, scores: Scores, cfg: Config, m: Member)
    requires UniqueIds(view) && m in view && (m.state == Alive || (m.state == Suspect && m.role == Leader))
    requires !exists x :: MayLead(x, view, scores)
    requires forall x <- view :: x.state == Alive || (x.state == Suspect && x.role == Leader) ==> m.id <= x.id
    ensures Elected(view, scores, cfg).leaders == [m.id]
  {
    hide Keep, Eligible, Elected;
    EligibleMembers(view, scores);
    KeepMembers(InElectorate, view);
    assert m in Keep(InElectorate, view);
    forall x ensures x !in Eligible(view, scores) { assert !MayLead(x, view, scores); }
    EligibleRanks(view, scores);
    UniqueCount(Eligible(view, scores));
    assert (set x <- Eligible(view, scores) :: x) == {};
    LowestIdLeads(view, scores, cfg);
    LeadersAreChosen(view, scores, cfg);
    ChosenMembers(view, scores, cfg);
    var leaders := Elected(view, scores, cfg).leaders;
    assert leaders[0] in Ids(Chosen(view, scores, cfg));
    var x :| x in Chosen(view, scores, cfg) && x.id == leaders[0];
  }
}
