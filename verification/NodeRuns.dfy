// Whole runs of one node: the JOIN budget between probe rounds, and evaluation as a no-op the second time.

module NodeRuns {
  import opened Health
  import opened Membership
  import opened Sorting
  import opened Election
  import opened ElectionProperties
  import opened ElectionFixedPoint
  import opened Affinity
  import opened NodeModel
  import opened NodeInvariant

  datatype Input = Input(now: Time, event: Event)

  /** A run: plausible events handled one after another, from a freshly started node. */
  ghost predicate IsRun(states: seq<NodeState>, inputs: seq<Input>) {
    && |states| == |inputs| + 1
    && states[0].cfg.self != NO_NODE
    && states[0] == Boot(states[0].cfg, states[0].election, states[0].rehome, states[0].incarnation)
    && (forall i :: 0 <= i < |inputs| ==> Follows(states[i], inputs[i], states[i + 1]))
  }

  ghost predicate Follows(n: NodeState, input: Input, n': NodeState) {
    n.Keyed() && Plausible(n, input.event) && n' == Step(n, input.now, input.event)
  }

  /** Every state of every run satisfies the loop invariant, and terms and the own incarnation only grow. */
  lemma {:induction false} RunKeepsInv(states: seq<NodeState>, inputs: seq<Input>, i: nat, j: nat)
    requires IsRun(states, inputs) && i <= j < |states|
    ensures Inv(states[j]) && states[j].cfg == states[0].cfg
    ensures states[i].term <= states[j].term && states[i].incarnation <= states[j].incarnation
  {
    hide Step;
    if j == 0 {
      BootInv(states[0].cfg, states[0].election, states[0].rehome, states[0].incarnation);
    } else {
      RunKeepsInv(states, inputs, if i == j then j - 1 else i, j - 1);
      assert Follows(states[j - 1], inputs[j - 1], states[j]);
      StepKeepsInv(states[j - 1], inputs[j - 1].now, inputs[j - 1].event);
    }
  }

  // ---------------------------------------------------------------------------
  // The JOIN budget
  // ---------------------------------------------------------------------------

  /** How many of the answers handled in steps [i, j) rejected the JOIN outstanding at the time. */
  ghost function RejectionsActedOn(states: seq<NodeState>, inputs: seq<Input>, i: nat, j: nat): nat
    requires IsRun(states, inputs) && i <= j < |states|
  {
    if i == j then 0
    else RejectionsActedOn(states, inputs, i, j - 1) + if Rejects(states[j - 1], inputs[j - 1].event) then 1 else 0
  }

  ghost predicate NoProbeRound(inputs: seq<Input>, i: nat, j: nat) {
    forall k :: i <= k < j && k < |inputs| ==> !inputs[k].event.ProbeRound?
  }

  lemma StepBudget(n: NodeState, now: Time, e: Event)
    requires Inv(n) && Plausible(n, e) && !e.ProbeRound?
    ensures var n' := Step(n, now, e);
            && n'.rejections == n.rejections + (if Rejects(n, e) then 1 else 0)
            && (n'.rejections > MAX_REJECTIONS_PER_ROUND ==> n'.joins == n.joins)
  {
    hide OnPeerUp, OnPeerDown, OnDelta, OnJoinCluster, OnJoinAck, OnDeath, OnHeartbeat, OnHeartbeatAck, OnProbeRound,
         OnControlTick, OnTune, Evaluate, ViewOf;
    match e
    case PeerUp(id, advertise, incarnation) => OnPeerUpKeeps(n, id, advertise, incarnation);
    case PeerDown(id, disposition) => OnPeerDownKeeps(n, now, id, disposition);
    case Delta(from, records) => OnDeltaKeeps(n, from, records);
    case JoinCluster(from, worker, number) => OnJoinClusterKeeps(n, from, worker, number);
    case JoinAck(from, number, accepted, named) => OnJoinAckKeeps(n, from, number, accepted, named);
    case Leave(from) => OnDeathKeeps(n, from);
    case Malformed(from) => OnDeathKeeps(n, from);
    case Heartbeat(from, term) => OnHeartbeatKeeps(n, from, term);
    case HeartbeatAck(from, term, observed) => OnHeartbeatAckKeeps(n, from, term, observed);
    case FloorTick => EvaluateKeeps(n);
    case ControlTick => OnControlTickKeeps(n, now);
    case Tune(threshold, hysteresis) => OnTuneKeeps(n, threshold, hysteresis);
    case _ =>
  }

  lemma {:induction false} RejectionsAreCounted(states: seq<NodeState>, inputs: seq<Input>, i: nat, j: nat)
    requires IsRun(states, inputs) && i <= j < |states| && NoProbeRound(inputs, i, j)
    ensures states[j].rejections == states[i].rejections + RejectionsActedOn(states, inputs, i, j)
    ensures states[i].rejections > MAX_REJECTIONS_PER_ROUND ==> states[j].joins == states[i].joins
  {
    hide Step;
    if i < j {
      RejectionsAreCounted(states, inputs, i, j - 1);
      RunKeepsInv(states, inputs, i, j - 1);
      assert Follows(states[j - 1], inputs[j - 1], states[j]);
      StepBudget(states[j - 1], inputs[j - 1].now, inputs[j - 1].event);
    }
  }

  /**
   * Between two probe rounds a worker acts on at most four rejections, and once it has acted on the fourth it sends no
   * further JOIN and stays detached (or leads itself) until the next round.
   */
  lemma JoinsCannotLivelock(states: seq<NodeState>, inputs: seq<Input>, i: nat, k: nat, j: nat)
    requires IsRun(states, inputs) && i <= k <= j < |states| && NoProbeRound(inputs, i, j)
    ensures RejectionsActedOn(states, inputs, i, j) <= MAX_REJECTIONS_PER_ROUND + 1
    ensures RejectionsActedOn(states, inputs, i, k) == MAX_REJECTIONS_PER_ROUND + 1 ==>
              && states[j].joins == states[k].joins
              && (states[j].leader == NO_NODE || states[j].leader == states[j].cfg.self)
  {
    hide Boot;
    RejectionsAreCounted(states, inputs, i, k);
    RejectionsAreCounted(states, inputs, k, j);
    RejectionsAreCounted(states, inputs, i, j);
    RunKeepsInv(states, inputs, i, j);
    RunKeepsInv(states, inputs, i, k);
  }

  // ---------------------------------------------------------------------------
  // Evaluating twice
  // ---------------------------------------------------------------------------

  lemma AdoptedView(t: Members, self: NodeID, leaders: set<NodeID>)
    requires WellKeyed(t) && self in t
    ensures var f := Adopt({self}, leaders);
            && WellKeyed(t[self := f(t[self])])
            && ViewOf(t[self := f(t[self])]) == Map(f, ViewOf(t))
  {
    hide ViewOf, UniqueIds;
    var f := Adopt({self}, leaders);
    var t', view := t[self := f(t[self])], ViewOf(t);
    var mapped := Map(f, view);
    assert forall i :: 0 <= i < |view| ==> view[i] in view;
    forall m ensures m in mapped <==> m.id in t' && t'[m.id] == m {
      if m.id in t' && t'[m.id] == m {
        assert t[m.id] in view;
        var i :| 0 <= i < |view| && view[i] == t[m.id];
        assert mapped[i] == m;
      }
    }
    ViewIsUnique(mapped, t');
  }

  lemma AdoptedBallots(t: Members, self: NodeID, elected: seq<NodeID>)
    requires WellKeyed(t) && self in t
    ensures var f := Adopt({self}, NodeSet(elected));
            var t' := WithRole(t, self, RoleIn(self, elected));
            SameBallots(t[self := f(t[self])], t') && ReportedScores(t') == ReportedScores(t)
  {
  }

  lemma OnlySelfAnnounces(t: Members, self: NodeID)
    requires WellKeyed(t) && self in t && t[self].state.Alive?
    ensures NoSuspects(ViewOf(t), {self})
  {
  }

  /** A node that writes its own elected role into its table elects the same leaders again. */
  lemma OwnRoleKeepsTheOutcome(t: Members, self: NodeID, cfg: Config)
    requires WellKeyed(t) && self in t && t[self].state.Alive?
    ensures var r := Elected(ViewOf(t), ReportedScores(t), cfg);
            var t' := WithRole(t, self, RoleIn(self, r.leaders));
            WellKeyed(t') && Elected(ViewOf(t'), ReportedScores(t'), cfg) == r
  {
    hide Elected, ViewOf, SameBallots, Adopt, NoSuspects, WithRole, IsView, UniqueIds, ReportedScores;
    var scores := ReportedScores(t);
    var elected := Elected(ViewOf(t), scores, cfg).leaders;
    var adopted := t[self := Adopt({self}, NodeSet(elected))(t[self])];
    AdoptedView(t, self, NodeSet(elected));
    OnlySelfAnnounces(t, self);
    ViewsAreUnique(t);
    AnnouncingKeepsTheOutcome(ViewOf(t), scores, cfg, {self});
    AdoptedBallots(t, self, elected);
    SameBallotsSameLeaders(adopted, WithRole(t, self, RoleIn(self, elected)), scores, cfg);
  }

  lemma ViewsAreUnique(t: Members)
    requires WellKeyed(t)
    ensures UniqueIds(ViewOf(t))
  {
    hide ViewOf;
    var view := ViewOf(t);
    assert forall i, j :: 0 <= i < j < |view| ==> IdLess(view[i], view[j]);
  }

  lemma FollowTwice(n: NodeState, elected: seq<NodeID>)
    requires n.hint == NO_NODE && n.cfg.delivers(n.joins) && NO_NODE !in elected
    ensures Follow(Follow(n, elected), elected) == Follow(n, elected)
  {
    hide Closest, Keep;
    KeepMembers(Undoubted(n.suspects), elected);
    ClosestIsLeader(n.local, Keep(Undoubted(n.suspects), elected));
  }

  lemma SecondElection(n: NodeState, n': NodeState)
    requires OwnsItself(n) && n'.election == n.election
    requires n'.tab.members == WithRole(n.tab.members, n.cfg.self, RoleIn(n.cfg.self, ElectionOf(n).leaders))
    ensures n'.Keyed() && ElectionOf(n') == ElectionOf(n)
  {
    hide Elected, ViewOf, WithRole, ReportedScores;
    OwnRoleKeepsTheOutcome(n.tab.members, n.cfg.self, n.election);
  }

  lemma NothingToTake(n: NodeState, elected: seq<NodeID>)
    requires n.cfg.self in n.tab.members && n.tab.members[n.cfg.self].role == RoleIn(n.cfg.self, elected) &&
             n.leaders == elected
    ensures TakeLeaders(TakeRole(n, elected), elected) == n
  {
  }

  lemma LeadTwice(n: NodeState, n': NodeState)
    requires Inv(n) && n' == Evaluate(n) && n'.Leads()
    ensures StillOurs(n'.attached, n'.tab.members) == n'.attached && n'.leader == n.cfg.self && n'.hint == NO_NODE
  {
    hide ElectionOf, Follow, TakeRole, TakeLeaders;
    EvaluateFacts(n);
  }

  /**
   * With no hint pending and the network taking the JOIN (if one is sent), a second evaluation changes and sends
   * nothing.
   */
  lemma EvaluateIsIdempotent(n: NodeState)
    requires Inv(n) && n.hint == NO_NODE && n.cfg.delivers(n.joins)
    ensures Evaluate(Evaluate(n)) == Evaluate(n)
  {
    hide ElectionOf, Follow, TakeRole, TakeLeaders, StillOurs, WithRole;
    var n', elected := Evaluate(n), ElectionOf(n).leaders;
    ElectedAreMembers(n);
    EvaluateFacts(n);
    SecondElection(n, n');
    NothingToTake(n', elected);
    TakeRoleFacts(n, elected);
    TakeLeadersFacts(TakeRole(n, elected), elected);
    if n'.Leads() {
      LeadTwice(n, n');
    } else {
      FollowTwice(TakeLeaders(TakeRole(n, elected), elected), elected);
    }
  }
}
