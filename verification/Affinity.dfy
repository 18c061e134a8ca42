// Affinity: which elected leader a worker attaches to, and when it moves.

module Affinity {
  import opened Health
  import opened Membership
  import opened Election

  /** The choice among `leaders`, scanned left to right; NO_NODE when none is measured. */
  function Closest(scores: Scores, leaders: seq<NodeID>): NodeID {
    if leaders == [] then NO_NODE
    else
      var best, id := Closest(scores, leaders[..|leaders| - 1]), leaders[|leaders| - 1];
      if !IsValidScore(ScoreOf(scores, id)) then best
      else if !IsValidScore(ScoreOf(scores, best)) || best == NO_NODE then id
      else if Closer(scores, id, best) then id else best
  }

  /** Better score, then lower identifier: a total order, so the choice does not depend on the order of the scan. */
  predicate Closer(scores: Scores, a: NodeID, b: NodeID) {
    Better(ScoreOf(scores, a), ScoreOf(scores, b)) || (ScoreOf(scores, a) == ScoreOf(scores, b) && a < b)
  }

  method ChooseLeader(scores: Scores, leaders: seq<NodeID>) returns (best: NodeID, found: bool)
    requires NO_NODE !in leaders
    ensures found <==> exists id <- leaders :: IsValidScore(ScoreOf(scores, id))
    ensures found ==> best in leaders && IsValidScore(ScoreOf(scores, best))
    ensures found ==> forall id <- leaders :: IsValidScore(ScoreOf(scores, id)) && id != best ==>
              Closer(scores, best, id)
    ensures best == Closest(scores, leaders) && (!found ==> best == NO_NODE)
  {
    var bestScore := Unavailable;
    best, found := NO_NODE, false;
    for i := 0 to |leaders|
      invariant !found ==> forall id <- leaders[..i] :: !IsValidScore(ScoreOf(scores, id))
      invariant found ==> best in leaders[..i] && bestScore == ScoreOf(scores, best) && IsValidScore(bestScore)
      invariant forall id <- leaders[..i] :: found && IsValidScore(ScoreOf(scores, id)) && id != best ==>
                  Closer(scores, best, id)
      invariant best == Closest(scores, leaders[..i]) && (!found ==> best == NO_NODE)
    {
      assert leaders[..i + 1][..i] == leaders[..i];
      assert leaders[..i + 1] == leaders[..i] + [leaders[i]];
      var id := leaders[i];
      assert id in leaders[..i + 1] && forall x <- leaders[..i] :: x in leaders[..i + 1];
      if id !in scores || !IsValidScore(scores[id]) {
        continue;
      }
      var s := scores[id];
      if !found {
        best, bestScore, found := id, s, true;
      } else if Better(s, bestScore) {
        best, bestScore := id, s;
      } else if !Better(bestScore, s) && id < best {
        best, bestScore := id, s;
      }
    }
    assert leaders[..|leaders|] == leaders;
  }

  lemma ClosestIsLeader(scores: Scores, leaders: seq<NodeID>)
    ensures Closest(scores, leaders) != NO_NODE ==>
              Closest(scores, leaders) in leaders && IsValidScore(ScoreOf(scores, Closest(scores, leaders)))
  {
    if leaders != [] { ClosestIsLeader(scores, leaders[..|leaders| - 1]); }
  }

  predicate ShouldRehome(current: NodeID, best: NodeID, scores: Scores, leaders: seq<NodeID>, damping: real) {
    var margin := if damping < 0.0 then 0.0 else damping;
    if !IsValidScore(ScoreOf(scores, best)) || best !in leaders then false
    else if best == current then false
    else if !IsValidScore(ScoreOf(scores, current)) || current !in leaders then true
    else
      && Better(ScoreOf(scores, best), ScoreOf(scores, current))
      && GapAtLeast(ScoreOf(scores, current), ScoreOf(scores, best), margin)
  }

  /** A leader the worker can compare with others: elected, and measured. */
  predicate Usable(id: NodeID, scores: Scores, leaders: seq<NodeID>) {
    id in leaders && IsValidScore(ScoreOf(scores, id))
  }

  /**
   * A worker moves only to a usable leader; it always leaves one that is not usable; and it leaves a usable one exactly
   * for a strictly better one that beats it by at least the margin (a negative margin counts as none).
   */
  lemma MovesExactlyWhenWorthIt(a: NodeID, b: NodeID, scores: Scores, leaders: seq<NodeID>, damping: real)
    requires a != b
    ensures !Usable(b, scores, leaders) ==> !ShouldRehome(a, b, scores, leaders, damping)
    ensures Usable(b, scores, leaders) && !Usable(a, scores, leaders) ==> ShouldRehome(a, b, scores, leaders, damping)
    ensures Usable(a, scores, leaders) && Usable(b, scores, leaders) ==>
              var gain := ScoreOf(scores, a).value - ScoreOf(scores, b).value;
              ShouldRehome(a, b, scores, leaders, damping) <==> gain > 0.0 && gain >= damping
  {
  }

  /** The leaders a worker goes through in turn, each move one it finds worth making by the same scores. */
  ghost predicate IsWalk(walk: seq<NodeID>, scores: Scores, leaders: seq<NodeID>, damping: real) {
    forall i :: 0 <= i < |walk| - 1 ==> ShouldRehome(walk[i], walk[i + 1], scores, leaders, damping)
  }

  /** From the first leader that is usable, every later one is better, and by at least the margin. */
  lemma {:induction false} WalksDescend(walk: seq<NodeID>, scores: Scores, leaders: seq<NodeID>, damping: real, i: nat,
                                        j: nat)
    requires IsWalk(walk, scores, leaders, damping) && i < j < |walk|
    ensures Usable(walk[j], scores, leaders)
    ensures Usable(walk[i], scores, leaders) ==>
              var gain := ScoreOf(scores, walk[i]).value - ScoreOf(scores, walk[j]).value;
              gain > 0.0 && gain >= damping
  {
    hide ShouldRehome, Usable;
    assert ShouldRehome(walk[j - 1], walk[j - 1 + 1], scores, leaders, damping);
    NowhereToStay(walk[j], scores, leaders, damping);
    MovesExactlyWhenWorthIt(walk[j - 1], walk[j], scores, leaders, damping);
    if i < j - 1 { WalksDescend(walk, scores, leaders, damping, i, j - 1); }
  }

  lemma NowhereToStay(a: NodeID, scores: Scores, leaders: seq<NodeID>, damping: real)
    ensures !ShouldRehome(a, a, scores, leaders, damping)
  {
  }

  /**
   * While the scores and the leaders stay the same a worker never comes back to a leader it has left, whatever the
   * margin, so it moves at most as often as there are leaders.
   */
  lemma WorkersSettle(walk: seq<NodeID>, scores: Scores, leaders: seq<NodeID>, damping: real)
    requires IsWalk(walk, scores, leaders, damping)
    ensures forall i, j :: 0 <= i < j < |walk| ==> walk[i] != walk[j]
    ensures |walk| <= |leaders| + 1
  {
    hide IsWalk;
    forall i, j | 0 <= i < j < |walk| ensures walk[i] != walk[j] && walk[j] in leaders {
      WalksDescend(walk, scores, leaders, damping, i, j);
    }
    if walk != [] {
      assert forall i :: 0 < i < |walk| ==> walk[0] != walk[i] && walk[i] in leaders;
      forall id <- walk[1..] ensures id in leaders { assert exists i :: 0 < i < |walk| && walk[i] == id; }
      DistinctFit(walk[1..], leaders);
    }
  }

  /** Distinct elements of a sequence are no more than it has. */
  lemma {:induction false} DistinctFit(some: seq<NodeID>, all: seq<NodeID>)
    requires forall i, j :: 0 <= i < j < |some| ==> some[i] != some[j]
    requires forall id <- some :: id in all
    ensures |some| <= |all|
    decreases |some|
  {
    if some != [] {
      var last := some[|some| - 1];
      assert last in all;
      var k :| 0 <= k < |all| && all[k] == last;
      var rest := all[..k] + all[k + 1..];
      forall id <- some[..|some| - 1] ensures id in rest {
        assert id in some && id in all;
        var m :| 0 <= m < |all| && all[m] == id;
        assert id == rest[if m < k then m else m - 1];
      }
      DistinctFit(some[..|some| - 1], rest);
    }
  }
}
