// Leader election: ranking, seat count, and the pass that protects sitting leaders.

module Election {
  import opened Health
  import opened Membership
  import opened Sorting

  const DEFAULT_THRESHOLD: real := 0.3
  const DEFAULT_HYSTERESIS: real := 0.5

  type Scores = map<NodeID, Score>

  datatype Config = Config(threshold: real, hysteresis: real) {
    function WithDefaults(): Config {
      Config(if threshold <= 0.0 || threshold > 1.0 then DEFAULT_THRESHOLD else threshold,
             if hysteresis < 0.0 then DEFAULT_HYSTERESIS else hysteresis)
    }
  }

  /** `want` can exceed `|leaders|`: the swarm could not staff its own leadership. */
  datatype Result = Result(leaders: seq<NodeID>, size: nat, want: nat)

  function Ceil(x: real): int {
    -((-x).Floor)
  }

  lemma FractionOf(n: nat, t: real)
    requires n > 0 && 0.0 < t <= 1.0
    ensures 0.0 < n as real * t <= n as real
  {
    var rest := n as real * (1.0 - t);
    assert n as real * t + rest == n as real;
    assert rest >= 0.0;
  }

  /** The least whole number of seats that is at least `n * threshold`, so never zero in a non-empty swarm. */
  function LeaderCount(n: nat, threshold: real): (k: nat)
    ensures n == 0 ==> k == 0
    ensures n > 0 ==> 1 <= k <= n
    ensures 0.0 < threshold <= 1.0 ==> (k - 1) as real < n as real * threshold <= k as real || n == 0
  {
    if n == 0 then 0
    else
      var t := if threshold <= 0.0 || threshold > 1.0 then DEFAULT_THRESHOLD else threshold;
      var product := n as real * t;
      FractionOf(n, t);
      var k := Ceil(product);
      if k < 1 then 1 else if k > n then n else k
  }

  function ScoreOf(scores: Scores, id: NodeID): Score {
    if id in scores then scores[id] else Unavailable
  }

  /** The self-reported scores an election ranks on. */
  function ReportedScores(t: Members): Scores {
    map id <- t :: t[id].score
  }

  predicate InElectorate(m: Member) {
    m.state == Alive || (m.state == Suspect && m.role == Leader)
  }

  predicate IsIncumbent(m: Member) {
    m.role == Leader
  }

  predicate RankLess(scores: Scores, a: Member, b: Member) {
    if Better(ScoreOf(scores, a.id), ScoreOf(scores, b.id)) then true
    else if Better(ScoreOf(scores, b.id), ScoreOf(scores, a.id)) then false
    else a.id < b.id
  }

  function Rank(scores: Scores): (Member, Member) -> bool {
    (a: Member, b: Member) => RankLess(scores, a, b)
  }

  function Measurable(scores: Scores): Member -> bool {
    (m: Member) => IsValidScore(ScoreOf(scores, m.id))
  }

  function Ids(s: seq<Member>): set<NodeID> {
    set m <- s :: m.id
  }

  function IdOf(m: Member): NodeID {
    m.id
  }

  /** Incumbents outside `top`. */
  function LostSeat(scores: Scores, top: seq<Member>): Member -> bool {
    (m: Member) => IsIncumbent(m) && m.id !in Ids(top) && IsValidScore(ScoreOf(scores, m.id))
  }

  // ---------------------------------------------------------------------------
  // The outcome, as a function of the view
  // ---------------------------------------------------------------------------

  /** Index of the newcomer with the worst score, the first of equals; -1 when every seat is an incumbent's. */
  function Weakest(scores: Scores, seats: seq<Member>): (w: int)
    ensures -1 <= w < |seats|
  {
    if seats == [] then -1
    else
      var last := |seats| - 1;
      var w := Weakest(scores, seats[..last]);
      if IsIncumbent(seats[last]) then w
      else if w == -1 || Better(ScoreOf(scores, seats[w].id), ScoreOf(scores, seats[last].id)) then last
      else w
  }

  /** Displaced incumbents, in turn, take the weakest newcomer's seat unless it is better by the margin. */
  function Hold(scores: Scores, margin: real, seats: seq<Member>, displaced: seq<Member>): (held: seq<Member>)
    ensures |held| == |seats|
    decreases |displaced|
  {
    if displaced == [] then seats
    else
      var w := Weakest(scores, seats);
      if w == -1 then seats
      else if GapAtLeast(ScoreOf(scores, displaced[0].id), ScoreOf(scores, seats[w].id), margin)
      then Hold(scores, margin, seats, displaced[1..])
      else Hold(scores, margin, seats[w := displaced[0]], displaced[1..])
  }

  function Displaced(scores: Scores, top: seq<Member>, eligible: seq<Member>): seq<Member> {
    SortBy(IdLess, Keep(LostSeat(scores, top), eligible))
  }

  function Seated(scores: Scores, margin: real, top: seq<Member>, eligible: seq<Member>): seq<Member> {
    if margin <= 0.0 then top else Hold(scores, margin, top, Displaced(scores, top, eligible))
  }

  function Ranked(view: seq<Member>, scores: Scores): seq<Member> {
    SortBy(Rank(scores), Keep(InElectorate, view))
  }

  function Eligible(view: seq<Member>, scores: Scores): seq<Member> {
    Keep(Measurable(scores), Ranked(view, scores))
  }

  function Seats(view: seq<Member>, scores: Scores, cfg: Config): (n: nat)
    ensures n <= |Eligible(view, scores)|
  {
    var want := LeaderCount(|Keep(InElectorate, view)|, cfg.WithDefaults().threshold);
    if want > |Eligible(view, scores)| then |Eligible(view, scores)| else want
  }

  /** The best measurable members, as many as there are seats: the leaders if nobody were incumbent. */
  function TopRanked(view: seq<Member>, scores: Scores, cfg: Config): seq<Member> {
    Eligible(view, scores)[..Seats(view, scores, cfg)]
  }

  function Chosen(view: seq<Member>, scores: Scores, cfg: Config): seq<Member> {
    if Keep(InElectorate, view) == [] then []
    else if Eligible(view, scores) == [] then
      SortKeeps(Rank(scores), Keep(InElectorate, view));
      Ranked(view, scores)[..1]
    else Seated(scores, cfg.WithDefaults().hysteresis, TopRanked(view, scores, cfg), Eligible(view, scores))
  }

  function Elected(view: seq<Member>, scores: Scores, cfg: Config): Result {
    var size := |Keep(InElectorate, view)|;
    Result(SortBy(NodeLess, Map(IdOf, Chosen(view, scores, cfg))), size,
           LeaderCount(size, cfg.WithDefaults().threshold))
  }

  // ---------------------------------------------------------------------------
  // The algorithm
  // ---------------------------------------------------------------------------

  method Electorate(view: seq<Member>) returns (out: seq<Member>)
    ensures out == Keep(InElectorate, view)
  {
    out := [];
    for i := 0 to |view|
      invariant out == Keep(InElectorate, view[..i])
    {
      KeepStep(InElectorate, view, i);
      var m := view[i];
      if m.state == Alive || (m.state == Suspect && m.role == Leader) {
        out := out + [m];
      }
    }
    assert view[..|view|] == view;
  }

  method FindDisplaced(seats: seq<Member>, eligible: seq<Member>, scores: Scores) returns (displaced: seq<Member>)
    ensures displaced == Keep(LostSeat(scores, seats), eligible)
  {
    var inChosen := set m <- seats :: m.id;
    displaced := [];
    for i := 0 to |eligible|
      invariant displaced == Keep(LostSeat(scores, seats), eligible[..i])
    {
      KeepStep(LostSeat(scores, seats), eligible, i);
      var m := eligible[i];
      if m.role == Leader && m.id !in inChosen && IsValidScore(ScoreOf(scores, m.id)) {
        displaced := displaced + [m];
      }
    }
    assert eligible[..|eligible|] == eligible;
  }

  method FindWeakest(scores: Scores, chosen: seq<Member>) returns (weakest: int)
    ensures weakest == Weakest(scores, chosen)
  {
    weakest := -1;
    for i := 0 to |chosen|
      invariant weakest == Weakest(scores, chosen[..i])
    {
      assert chosen[..i + 1][..i] == chosen[..i];
      var m := chosen[i];
      if m.role == Leader {
        continue;
      }
      if weakest == -1 || Better(ScoreOf(scores, chosen[weakest].id), ScoreOf(scores, m.id)) {
        weakest := i;
      }
    }
    assert chosen[..|chosen|] == chosen;
  }

  method ApplyHysteresis(seats: seq<Member>, eligible: seq<Member>, scores: Scores, margin: real)
      returns (chosen: seq<Member>)
    ensures chosen == Seated(scores, margin, seats, eligible)
  {
    chosen := seats;
    if margin <= 0.0 {
      return;
    }
    var displaced := FindDisplaced(seats, eligible, scores);
    if |displaced| == 0 {
      return;
    }
    displaced := SortBy(IdLess, displaced);
    for k := 0 to |displaced|
      invariant Hold(scores, margin, seats, displaced) == Hold(scores, margin, chosen, displaced[k..])
    {
      var inc := displaced[k];
      assert displaced[k..][1..] == displaced[k + 1..];
      var weakest := FindWeakest(scores, chosen);
      if weakest == -1 {
        return;
      }
      var challenger := ScoreOf(scores, chosen[weakest].id);
      var incumbent := ScoreOf(scores, inc.id);
      if GapAtLeast(incumbent, challenger, margin) {
        continue;
      }
      chosen := chosen[weakest := inc];
    }
  }

  method FindEligible(ranked: seq<Member>, scores: Scores) returns (eligible: seq<Member>)
    ensures eligible == Keep(Measurable(scores), ranked)
  {
    eligible := [];
    for i := 0 to |ranked|
      invariant eligible == Keep(Measurable(scores), ranked[..i])
    {
      KeepStep(Measurable(scores), ranked, i);
      if IsValidScore(ScoreOf(scores, ranked[i].id)) {
        eligible := eligible + [ranked[i]];
      }
    }
    assert ranked[..|ranked|] == ranked;
  }

  method CollectIds(chosen: seq<Member>) returns (ids: seq<NodeID>)
    ensures ids == Map(IdOf, chosen)
  {
    ids := [];
    for i := 0 to |chosen|
      invariant ids == Map(IdOf, chosen[..i])
    {
      ids := ids + [chosen[i].id];
    }
    assert chosen[..|chosen|] == chosen;
  }

  method Elect(view: seq<Member>, scores: Scores, config: Config) returns (result: Result)
    ensures result == Elected(view, scores, config)
  {
    var cfg := config.WithDefaults();
    var alive := Electorate(view);
    result := Result([], |alive|, 0);
    if |alive| == 0 {
      return;
    }
    result := result.(want := LeaderCount(|alive|, cfg.threshold));
    var ranked := SortBy(Rank(scores), alive);
    SortKeeps(Rank(scores), alive);
    var eligible := FindEligible(ranked, scores);
    if |eligible| == 0 {
      assert Map(IdOf, ranked[..1]) == [ranked[0].id];
      result := result.(leaders := SortBy(NodeLess, [ranked[0].id]));
      return;
    }
    var want := result.want;
    if want > |eligible| {
      want := |eligible|;
    }
    var chosen := ApplyHysteresis(eligible[..want], eligible, scores, cfg.hysteresis);
    var leaders := CollectIds(chosen);
    result := result.(leaders := SortBy(NodeLess, leaders));
  }
}
