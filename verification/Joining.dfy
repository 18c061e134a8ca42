// Joining and leading, in their own terms: whom a worker joins and when, what the answer does, and whom a leader keeps.

module Joining {
  import opened Health
  import opened Membership
  import opened Sorting
  import opened Election
  import opened Affinity
  import opened NodeModel
  import opened NodeInvariant
  import opened Attachment

  // ---------------------------------------------------------------------------
  // Whom a worker joins
  // ---------------------------------------------------------------------------

  /** Elected, and not doubted first-hand. */
  predicate IsUsable(n: NodeState, elected: seq<NodeID>, id: NodeID) {
    id in elected && id !in n.suspects
  }

  predicate IsMeasured(n: NodeState, id: NodeID) {
    id in n.local && n.local[id].Measured?
  }

  /** The leader to be with: the hinted one if it is usable, and otherwise the closest that is. */
  predicate IsChoice(n: NodeState, elected: seq<NodeID>, t: NodeID) {
    if n.hint != NO_NODE && IsUsable(n, elected, n.hint) then t == n.hint
    else
      && IsUsable(n, elected, t) && IsMeasured(n, t)
      && forall x <- elected :: IsUsable(n, elected, x) && IsMeasured(n, x) && x != t ==>
           n.local[t].value < n.local[x].value || (n.local[t].value == n.local[x].value && t < x)
  }

  /** The present leader is none, or cannot be kept, or the choice beats it by the margin. */
  predicate IsWorthIt(n: NodeState, elected: seq<NodeID>, t: NodeID)
    requires IsMeasured(n, t)
  {
    || n.leader == NO_NODE || !IsUsable(n, elected, n.leader) || !IsMeasured(n, n.leader)
    || (n.local[t].value < n.local[n.leader].value && n.local[n.leader].value - n.local[t].value >= n.rehome)
  }

  /** A worker with rejections to spare joins this leader. */
  predicate IsJoined(n: NodeState, elected: seq<NodeID>, t: NodeID) {
    n.rejections <= 3 && IsChoice(n, elected, t) && IsMeasured(n, t) && IsWorthIt(n, elected, t)
  }

  lemma {:induction false} ClosestIsClosest(scores: Scores, leaders: seq<NodeID>)
    requires NO_NODE !in leaders
    ensures var best := Closest(scores, leaders);
            if best == NO_NODE then forall x <- leaders :: !IsValidScore(ScoreOf(scores, x))
            else
              && best in leaders && IsValidScore(ScoreOf(scores, best))
              && forall x <- leaders :: IsValidScore(ScoreOf(scores, x)) && x != best ==> Closer(scores, best, x)
  {
    if leaders != [] { ClosestIsClosest(scores, leaders[..|leaders| - 1]); }
  }

  lemma UsableLeaders(n: NodeState, elected: seq<NodeID>)
    ensures forall id :: id in Keep(Undoubted(n.suspects), elected) <==> IsUsable(n, elected, id)
  {
    KeepMembers(Undoubted(n.suspects), elected);
  }

  /** The leader `Follow` turns to. */
  ghost function BestOf(n: NodeState, elected: seq<NodeID>): NodeID {
    var usable := Keep(Undoubted(n.suspects), elected);
    if n.hint != NO_NODE && n.hint in usable then n.hint else Closest(n.local, usable)
  }

  lemma BestIsChoice(n: NodeState, elected: seq<NodeID>, t: NodeID)
    requires NO_NODE !in elected
    ensures IsChoice(n, elected, t) && IsMeasured(n, t) <==> t == BestOf(n, elected) && t != NO_NODE && IsMeasured(n, t)
  {
    hide Keep, Closest;
    UsableLeaders(n, elected);
    ClosestIsClosest(n.local, Keep(Undoubted(n.suspects), elected));
  }

  lemma FollowJoinsExactly(n: NodeState, elected: seq<NodeID>)
    requires NO_NODE !in elected
    ensures var n', t := Follow(n, elected), BestOf(n, elected);
            if IsJoined(n, elected, t) then
              && n'.leader == (if n.cfg.delivers(n.joins) then t else NO_NODE) && n'.joins == n.joins + 1
              && n'.joinID == (if n.cfg.delivers(n.joins) then n.joins + 1 else 0)
              && n'.sent == n.sent + if n.cfg.delivers(n.joins) then [JoinMsg(t, n.joins + 1)] else []
            else
              && n'.leader == (if IsUsable(n, elected, n.leader) then n.leader else NO_NODE) && n'.joins == n.joins
              && n'.joinID == n.joinID && n'.sent == n.sent
  {
    hide Keep, Closest;
    UsableLeaders(n, elected);
    ClosestIsClosest(n.local, Keep(Undoubted(n.suspects), elected));
    BestIsChoice(n, elected, BestOf(n, elected));
    assert n.sent + [] == n.sent;
  }

  lemma ChoiceIsUnique(n: NodeState, elected: seq<NodeID>, t: NodeID)
    requires NO_NODE !in elected
    ensures IsJoined(n, elected, t) ==> t == BestOf(n, elected)
  {
    hide Keep, Closest;
    BestIsChoice(n, elected, t);
  }

  /**
   * What an evaluation does for a worker: it sends one JOIN exactly if there is a leader to be with, and being with it
   * is worth it; the JOIN goes to that leader and, if delivered, attaches. Otherwise nothing is sent, and the node
   * keeps its leader exactly if it is usable.
   */
  lemma WorkerJoinsExactlyWhen(n: NodeState)
    requires OwnsItself(n) && n.cfg.self !in ElectionOf(n).leaders
    ensures var n', elected := Evaluate(n), ElectionOf(n).leaders;
            && n'.leaders == elected && n'.attached == {} && n'.hint == NO_NODE
            && (forall t | IsJoined(n, elected, t) ::
                  if n.cfg.delivers(n.joins)
                  then n'.leader == t && JoinsIn(n'.sent) == JoinsIn(n.sent) + [JoinMsg(t, n.joins + 1)]
                       && n'.joinID == n'.joins == n.joins + 1
                  else n'.leader == NO_NODE && JoinsIn(n'.sent) == JoinsIn(n.sent) && n'.joinID == 0)
            && ((forall t :: !IsJoined(n, elected, t)) ==>
                  && JoinsIn(n'.sent) == JoinsIn(n.sent) && n'.joins == n.joins && n'.joinID == n.joinID
                  && n'.leader == if IsUsable(n, elected, n.leader) then n.leader else NO_NODE)
  {
    hide ElectionOf, TakeRole, TakeLeaders, Follow, JoinsIn, IsJoined, BestOf;
    var elected := ElectionOf(n).leaders;
    ElectedAreMembers(n);
    var n2 := TakeLeaders(TakeRole(n, elected), elected);
    TakeRoleFacts(n, elected);
    TakeLeadersFacts(TakeRole(n, elected), elected);
    TakeRoleStays(n, elected);
    TakeLeadersStays(TakeRole(n, elected), elected);
    NoJoinSaid(n.sent, TakeRole(n, elected).sent);
    NoJoinSaid(TakeRole(n, elected).sent, n2.sent);
    SameChoices(n, n2, elected);
    FollowFacts(n2, elected);
    FollowJoinsExactly(n2, elected);
    OneJoinMore(n2.sent, JoinMsg(BestOf(n2, elected), n2.joins + 1));
    assert n2.sent + [] == n2.sent;
    forall t | IsJoined(n, elected, t) ensures t == BestOf(n2, elected) && IsJoined(n2, elected, t) {
      assert IsJoined(n2, elected, t);
      ChoiceIsUnique(n2, elected, t);
    }
    assert !IsJoined(n, elected, BestOf(n2, elected)) ==> !IsJoined(n2, elected, BestOf(n2, elected));
  }

  lemma SameChoices(n: NodeState, n2: NodeState, elected: seq<NodeID>)
    requires n2.suspects == n.suspects && n2.local == n.local && n2.hint == n.hint && n2.leader == n.leader
    requires n2.rejections == n.rejections && n2.rehome == n.rehome
    ensures forall t :: IsJoined(n2, elected, t) <==> IsJoined(n, elected, t)
    ensures forall t :: IsUsable(n2, elected, t) <==> IsUsable(n, elected, t)
  {
  }

  lemma OneJoinMore(sent: seq<Message>, m: Message)
    ensures JoinsIn(sent + [m]) == JoinsIn(sent) + if m.JoinMsg? then [m] else []
  {
    assert (sent + [m])[..|sent|] == sent;
  }

  // ---------------------------------------------------------------------------
  // Announcing, and leading
  // ---------------------------------------------------------------------------

  /** A role that changed and a change of leaders are both said to everybody; a change of leaders starts a term. */
  lemma ElectionsAreAnnounced(n: NodeState)
    requires OwnsItself(n)
    ensures var n', self, elected := Evaluate(n), n.cfg.self, ElectionOf(n).leaders;
            && self in n'.tab.members && (n'.tab.members[self].role == Leader <==> self in elected)
            && (n'.tab.members[self] != n.tab.members[self] ==> DeltaMsg(NO_NODE, [n'.tab.members[self]]) in n'.sent)
            && n'.term == n.term + (if elected != n.leaders then 1 else 0)
            && (elected != n.leaders ==> ElectionMsg(n.term + 1, elected) in n'.sent)
  {
    hide ElectionOf, TakeRole, TakeLeaders, Follow;
    var elected := ElectionOf(n).leaders;
    var n1 := TakeRole(n, elected);
    var n2 := TakeLeaders(n1, elected);
    ElectedAreMembers(n);
    TakeRoleFacts(n, elected);
    RoleIsAnnounced(n, elected);
    TakeLeadersFacts(n1, elected);
    LeadersAreAnnounced(n1, elected);
    FollowFacts(n2, elected);
    FollowSaysMore(n2, elected);
  }

  lemma RoleIsAnnounced(n: NodeState, elected: seq<NodeID>)
    requires OwnsItself(n)
    ensures var n', self := TakeRole(n, elected), n.cfg.self;
            && self in n'.tab.members && (n'.tab.members[self].role == Leader <==> self in elected)
            && (n'.tab.members[self] != n.tab.members[self] ==> DeltaMsg(NO_NODE, [n'.tab.members[self]]) in n'.sent)
  {
  }

  lemma LeadersAreAnnounced(n: NodeState, elected: seq<NodeID>)
    ensures var n' := TakeLeaders(n, elected);
            && n'.term == n.term + (if elected != n.leaders then 1 else 0)
            && (elected != n.leaders ==> ElectionMsg(n.term + 1, elected) in n'.sent)
            && forall m <- n.sent :: m in n'.sent
  {
  }

  lemma FollowSaysMore(n: NodeState, elected: seq<NodeID>)
    ensures Follow(n, elected).term == n.term && forall m <- n.sent :: m in Follow(n, elected).sent
  {
    hide Closest, Keep, ShouldRehome;
  }

  /** A leader follows nobody, and keeps exactly the workers it knows, alive or suspect, that do not claim to lead. */
  lemma LeaderKeepsItsWorkers(n: NodeState)
    requires OwnsItself(n) && n.cfg.self in ElectionOf(n).leaders
    ensures var n' := Evaluate(n);
            && n'.leader == n.cfg.self && n'.hint == NO_NODE && n'.joins == n.joins
            && forall w :: w in n'.attached <==>
                 && w in n.attached && w in n.tab.members
                 && n.tab.members[w].state != Dead && n.tab.members[w].role == Worker
  {
    hide ElectionOf, TakeRole, TakeLeaders, Follow;
    var elected := ElectionOf(n).leaders;
    TakeRoleFacts(n, elected);
    TakeLeadersFacts(TakeRole(n, elected), elected);
  }

  /**
   * A JOIN to a leader attaches the worker (by default the sender) and is accepted; any other node names its own
   * leader.
   */
  lemma JoinsAreAnswered(n: NodeState, now: Time, from: NodeID, claimed: NodeID, number: nat)
    requires n.Keyed()
    ensures var n' := Step(n, now, JoinCluster(from, claimed, number));
            var worker := if claimed == NO_NODE then from else claimed;
            if n.cfg.self in n.leaders then
              && n'.attached == n.attached + {worker}
              && n'.sent == n.sent + [JoinAckMsg(from, number, true, n.cfg.self)]
            else
              n'.attached == n.attached && n'.sent == n.sent + [JoinAckMsg(from, number, false, n.leader)]
  {
  }

  /** An acceptance by the leader asked keeps it; the JOIN is no longer outstanding, and no rejection is spent. */
  lemma AcceptanceAttaches(n: NodeState, now: Time, from: NodeID, named: NodeID)
    requires n.Keyed() && n.joinID != 0 && n.leader == from && named in {NO_NODE, from}
    ensures Step(n, now, JoinAck(from, n.joinID, true, named)) == n.(joinID := 0, hint := NO_NODE)
  {
  }

  /** A refusal that names a leader sends the worker there, if it has rejections to spare and that leader is usable. */
  lemma RefusalIsFollowed(n: NodeState, now: Time, from: NodeID, named: NodeID)
    requires Inv(n) && n.Keyed() && n.joinID != 0 && n.leader == from && from != n.cfg.self && from != NO_NODE
    requires n.cfg.self !in ElectionOf(n).leaders && n.rejections < 3 && named != NO_NODE
    requires IsUsable(n, ElectionOf(n).leaders, named) && IsMeasured(n, named) && n.cfg.delivers(n.joins)
    ensures var n' := Step(n, now, JoinAck(from, n.joinID, false, named));
            && n'.leader == named && JoinsIn(n'.sent) == JoinsIn(n.sent) + [JoinMsg(named, n.joins + 1)]
            && n'.rejections == n.rejections + 1
  {
    hide Evaluate, ElectionOf, JoinsIn;
    var rejected := n.(joinID := 0, leader := NO_NODE, hint := named, rejections := n.rejections + 1);
    SameElection(n, rejected);
    WorkerJoinsExactlyWhen(rejected);
    EvaluateFacts(rejected);
    assert IsJoined(rejected, ElectionOf(n).leaders, named);
  }

  lemma SameElection(n: NodeState, n': NodeState)
    requires n.Keyed() && n'.tab == n.tab && n'.election == n.election
    ensures n'.Keyed() && ElectionOf(n') == ElectionOf(n)
  {
  }

  /** A beat's answer attaches a worker that says it follows this leader, and lets one go that does not. */
  lemma AcksKeepTheRoster(n: NodeState, now: Time, from: NodeID, term: nat, observed: NodeID)
    requires n.Keyed()
    ensures var n' := Step(n, now, HeartbeatAck(from, term, observed));
            && n'.term == (if term > n.term then term else n.term)
            && (forall w | w != from :: w in n'.attached <==> w in n.attached)
            && (from in n'.attached <==> observed == n.cfg.self && (from in n.attached || MayBeAttached(n, from)))
  {
    hide OnHeartbeatAck, MayBeAttached;
    RosterFollowsTheAck(n, from, term, observed);
  }

  /** This node leads, and the worker is known, not dead, and does not claim to lead. */
  predicate MayBeAttached(n: NodeState, w: NodeID) {
    n.cfg.self in n.leaders && w in n.tab.members && n.tab.members[w].state != Dead && n.tab.members[w].role == Worker
  }

  lemma RosterFollowsTheAck(n: NodeState, from: NodeID, term: nat, observed: NodeID)
    ensures var n' := OnHeartbeatAck(n, from, term, observed);
            && n'.term == (if term > n.term then term else n.term)
            && (forall w | w != from :: w in n'.attached <==> w in n.attached)
            && (from in n'.attached <==> observed == n.cfg.self && (from in n.attached || MayBeAttached(n, from)))
  {
  }
}
