// The failure detector in its own terms: what a probe result does and from which miss on, what a silent tick does, when
// a death record is collected, and what a node says of its own score.

module Detector {
  import opened Health
  import opened Membership
  import opened Sorting
  import opened Election
  import opened NodeModel
  import opened NodeInvariant
  import opened NodeRuns
  import opened Attachment
  import opened Misses
  import opened Ceilings
  import opened Effects
  import opened Options

  // ---------------------------------------------------------------------------
  // Probe results
  // ---------------------------------------------------------------------------

  /** All that a probe result reads and writes about a peer is the same in both. */
  predicate SameAt(n: NodeState, n': NodeState, id: NodeID) {
    && SameRecord(n.tab.members, n'.tab.members, id) && SameDoubt(n.suspects, n'.suspects, id)
    && MissesOf(n.missed, id) == MissesOf(n'.missed, id)
    && (id in n.local <==> id in n'.local) && (id in n.local ==> n'.local[id] == n.local[id])
  }

  lemma TakeResultIsLocal(n: NodeState, now: Time, round: nat, view: Members, x: NodeID, result: ProbeResult,
                          id: NodeID)
    requires n.Keyed() && DoubtIsCurrent(n, x) && x != id
    ensures SameAt(n, TakeResult(n, now, round, view, x, result), id)
    ensures TakeResult(n, now, round, view, x, result).probeSeq == n.probeSeq
  {
    hide TakeResult;
    TakeResultTouches(n, now, round, view, x, result);
    TakeResultCounts(n, now, round, view, x, result);
    TakeResultMeasures(n, now, round, view, x, result);
    assert SameRecord(n.tab.members, TakeResult(n, now, round, view, x, result).tab.members, id);
  }

  lemma TakeResultMeasures(n: NodeState, now: Time, round: nat, view: Members, x: NodeID, result: ProbeResult)
    ensures var n' := TakeResult(n, now, round, view, x, result);
            && n'.probeSeq == n.probeSeq
            && n'.local == if x !in view || view[x].state == Dead || result.Canceled? then n.local
                           else n.local[x := if result.Scored? then result.score else Unavailable]
  {
    hide MarkDead, Doubt, ProbeClears;
    var misses := (if x in n.missed then n.missed[x] else 0) + 1;
    var n1 := n.(local := n.local[x := Unavailable], missed := n.missed[x := misses]);
    MarkDeadFacts(n1, x);
    DoubtFacts(n1, now, x, false);
    if result.Scored? && x in view {
      ClearingMeasuresNothing(n.(local := n.local[x := result.score], missed := n.missed[x := 0]), x, round,
                              view[x].incarnation);
    }
  }

  lemma ClearingMeasuresNothing(n: NodeState, id: NodeID, round: nat, incarnation: int64)
    ensures var n' := ProbeClears(n, id, round, incarnation);
            n'.local == n.local && n'.probeSeq == n.probeSeq
  {
  }

  /** The outcome of a failed probe of a peer that is not dead, at this count of misses. */
  ghost predicate FailsAs(n: NodeState, n': NodeState, now: Time, id: NodeID)
    requires id in n.tab.members
  {
    var m, misses := n.tab.members[id], MissesOf(n.missed, id) + 1;
    && id in n'.tab.members && id in n'.local && n'.local[id] == Unavailable && MissesOf(n'.missed, id) == misses
    && if misses >= n.cfg.deadAfter then
         n'.tab.members[id] == m.(state := Dead, incarnation := NextIncarnation(m.incarnation)) && id !in n'.suspects
       else if misses >= n.cfg.suspectAfter then
         && n'.tab.members[id] == m.(state := Suspect) && id in n'.suspects
         && n'.suspects[id] == (if id in n.suspects then n.suspects[id]
                                else Suspicion(now, m.incarnation, n.probeSeq, false))
       else n'.tab.members[id] == m && SameDoubt(n.suspects, n'.suspects, id)
  }

  /**
   * The outcome of a measurement: a suspect is cleared unless the round is no newer than the doubt, or it is of
   * silence.
   */
  ghost predicate AnswersAs(n: NodeState, n': NodeState, round: nat, id: NodeID, score: Score)
    requires id in n.tab.members
  {
    var m := n.tab.members[id];
    && id in n'.tab.members && id in n'.local && n'.local[id] == score && MissesOf(n'.missed, id) == 0
    && if m.state == Suspect && (id in n.suspects ==> n.suspects[id].round < round && !n.suspects[id].silent) then
         n'.tab.members[id] == m.(state := Alive) && id !in n'.suspects
       else n'.tab.members[id] == m && SameDoubt(n.suspects, n'.suspects, id)
  }

  lemma ResultIs(n: NodeState, now: Time, round: nat, view: Members, id: NodeID, result: ProbeResult)
    requires n.Keyed() && id != n.cfg.self && id in n.tab.members && n.tab.members[id].state != Dead
    requires SameRecord(view, n.tab.members, id)
    ensures var n' := TakeResult(n, now, round, view, id, result);
            match result
            case Canceled => n' == n
            case Failed => FailsAs(n, n', now, id)
            case Scored(score) => AnswersAs(n, n', round, id, score)
  {
    hide MarkDead, Doubt;
    var misses := (if id in n.missed then n.missed[id] else 0) + 1;
    var n1 := n.(local := n.local[id := Unavailable], missed := n.missed[id := misses]);
    MarkDeadFacts(n1, id);
    DoubtFacts(n1, now, id, false);
  }

  lemma SameOutcome(n: NodeState, n1: NodeState, n2: NodeState, now: Time, round: nat, id: NodeID, result: ProbeResult)
    requires SameAt(n, n1, id) && id in n.tab.members && n1.cfg == n.cfg && n1.probeSeq == n.probeSeq
    ensures result.Failed? && FailsAs(n1, n2, now, id) ==> FailsAs(n, n2, now, id)
    ensures result.Scored? && AnswersAs(n1, n2, round, id, result.score) ==> AnswersAs(n, n2, round, id, result.score)
  {
  }

  lemma OutcomeStays(n: NodeState, n1: NodeState, n2: NodeState, now: Time, round: nat, id: NodeID, result: ProbeResult)
    requires SameAt(n1, n2, id) && id in n.tab.members
    ensures result.Failed? && FailsAs(n, n1, now, id) ==> FailsAs(n, n2, now, id)
    ensures result.Scored? && AnswersAs(n, n1, round, id, result.score) ==> AnswersAs(n, n2, round, id, result.score)
    ensures SameAt(n, n1, id) ==> SameAt(n, n2, id)
  {
  }

  /** Each peer's outcome is that of its own result. */
  lemma {:induction false} ResultsAre(n: NodeState, now: Time, round: nat, ids: seq<NodeID>,
                                      results: map<NodeID, ProbeResult>, id: NodeID)
    requires Inv(n) && n.Keyed() && n.cfg.self !in ids && Ascending(NodeLess, ids) && forall x <- ids :: x in results
    requires id in n.tab.members && n.tab.members[id].state != Dead && id != n.cfg.self
    ensures var n' := TakeResults(n, now, round, n.tab.members, ids, results);
            && n'.cfg == n.cfg && n'.probeSeq == n.probeSeq
            && (id !in ids || results[id].Canceled? ==> SameAt(n, n', id))
            && (id in ids && results[id].Failed? ==> FailsAs(n, n', now, id))
            && (id in ids && results[id].Scored? ==> AnswersAs(n, n', round, id, results[id].score))
  {
    hide TakeResult, FailsAs, AnswersAs, SameAt;
    if ids == [] {
      SameAtItself(n, id);
    } else {
      var view := n.tab.members;
      var front, x := ids[..|ids| - 1], ids[|ids| - 1];
      assert ids == front + [x];
      var n1 := TakeResults(n, now, round, view, front, results);
      ResultsAre(n, now, round, front, results, id);
      TakeResultsKeeps(n, now, round, view, front, results);
      assert DoubtIsCurrent(n1, x);
      var n' := TakeResult(n1, now, round, view, x, results[x]);
      if x == id {
        AtTheRecord(n, n1, id);
        ResultIs(n1, now, round, view, id, results[id]);
        TakeResultMeasures(n1, now, round, view, id, results[id]);
        SameOutcome(n, n1, n', now, round, id, results[id]);
      } else {
        TakeResultIsLocal(n1, now, round, view, x, results[x], id);
        if id in front { OutcomeStays(n, n1, n', now, round, id, results[id]); } else { SameAtTwice(n, n1, n', id); }
      }
    }
  }

  lemma SameAtItself(n: NodeState, id: NodeID)
    ensures SameAt(n, n, id)
  {
  }

  lemma AtTheRecord(n: NodeState, n1: NodeState, id: NodeID)
    requires SameAt(n, n1, id) && id in n.tab.members
    ensures SameRecord(n.tab.members, n1.tab.members, id) && id in n1.tab.members
    ensures n1.tab.members[id] == n.tab.members[id]
  {
  }

  lemma SameAtTwice(a: NodeState, b: NodeState, c: NodeState, id: NodeID)
    requires SameAt(a, b, id) && SameAt(b, c, id)
    ensures SameAt(a, c, id)
  {
  }

  /** What the rest of a round, after the results, leaves of a peer. */
  ghost predicate KeepsPeer(n: NodeState, n': NodeState, id: NodeID) {
    && SameRecord(n.tab.members, n'.tab.members, id) && SameDoubt(n.suspects, n'.suspects, id)
    && (id in n.tab.members && n.tab.members[id].state != Dead ==> SameAt(n, n', id))
  }

  lemma RestOfRound(n: NodeState, now: Time, round: nat, results: map<NodeID, ProbeResult>, selfScore: Score,
                    id: NodeID)
    requires Inv(n) && n.Keyed() && n.cfg.self !in results && id != n.cfg.self
    ensures var n1 := n.(probing := false, rejections := 0);
            var n2 := TakeResults(n1, now, round, n.tab.members, IdList(results.Keys), results);
            KeepsPeer(n2, OnProbeRound(n, now, round, results, selfScore), id)
  {
    hide TakeResults, TakeSelfScore, Evaluate, ElectionOf, IdList, KeepsPeer, Pruned;
    var n1, ids := n.(probing := false, rejections := 0), IdList(results.Keys);
    DoubtsCarryOver(n, n1);
    TakeResultsKeeps(n1, now, round, n.tab.members, ids, results);
    var n2, n3 := TakeResults(n1, now, round, n.tab.members, ids, results), ProbeResultsTaken(n, now, round, results);
    PrunedKeeps(n2);
    PrunedKeepsPeer(n2, id);
    var n4 := TakeSelfScore(n3, selfScore);
    SelfScoreIsLocal(n3, selfScore, id);
    KeepsPeerTwice(n2, n3, n4, id);
    TakeSelfScoreKeeps(n3, selfScore);
    EvaluateKeepsPeer(n4, id);
    KeepsPeerTwice(n2, n4, Evaluate(n4), id);
  }

  lemma KeepsPeerTwice(a: NodeState, b: NodeState, c: NodeState, id: NodeID)
    requires KeepsPeer(a, b, id) && KeepsPeer(b, c, id)
    ensures KeepsPeer(a, c, id)
  {
  }

  lemma PrunedKeepsPeer(n: NodeState, id: NodeID)
    requires id != n.cfg.self
    ensures KeepsPeer(n, n, id) && KeepsPeer(n, Pruned(n), id)
  {
  }

  lemma EvaluateKeepsPeer(n: NodeState, id: NodeID)
    requires OwnsItself(n) && id != n.cfg.self
    ensures KeepsPeer(n, Evaluate(n), id)
  {
    hide Evaluate, ElectionOf;
    EvaluateFacts(n);
  }

  lemma SelfScoreIsLocal(n: NodeState, next: Score, id: NodeID)
    requires OwnsItself(n) && id != n.cfg.self
    ensures KeepsPeer(n, TakeSelfScore(n, next), id)
  {
    hide TakeSelfScore;
    TakeSelfScoreFacts(n, next);
    SelfScoreIsMeasured(n, next);
  }

  lemma SelfScoreIsMeasured(n: NodeState, next: Score)
    ensures TakeSelfScore(n, next).local == n.local[n.cfg.self := next]
  {
  }

  /**
   * A failed probe counts as one more miss; from the configured count on it is a doubt, and from the higher one a death
   * one incarnation on. Before that the record and any doubt stay as they are.
   */
  lemma FailedProbes(n: NodeState, now: Time, round: nat, results: map<NodeID, ProbeResult>, selfScore: Score,
                     id: NodeID)
    requires Inv(n) && n.Keyed() && n.cfg.self !in results && id in results && results[id].Failed?
    requires id in n.tab.members && n.tab.members[id].state != Dead
    ensures var n', m := Step(n, now, ProbeRound(round, results, selfScore)), n.tab.members[id];
            var misses := MissesOf(n.missed, id) + 1;
            && id in n'.tab.members
            && (misses >= n.cfg.deadAfter ==>
                  && n'.tab.members[id] == m.(state := Dead, incarnation := NextIncarnation(m.incarnation))
                  && id !in n'.suspects)
            && (n.cfg.suspectAfter <= misses < n.cfg.deadAfter ==>
                  n'.tab.members[id] == m.(state := Suspect) && id in n'.suspects)
            && (misses < n.cfg.suspectAfter && misses < n.cfg.deadAfter ==>
                  n'.tab.members[id] == m && SameDoubt(n.suspects, n'.suspects, id))
            && (misses < n.cfg.deadAfter ==>
                  id in n'.local && n'.local[id] == Unavailable && MissesOf(n'.missed, id) == misses)
  {
    hide TakeResults, OnProbeRound, IdList;
    var n1 := n.(probing := false, rejections := 0);
    DoubtsCarryOver(n, n1);
    ResultsAre(n1, now, round, IdList(results.Keys), results, id);
    RestOfRound(n, now, round, results, selfScore, id);
  }

  /**
   * A measurement is recorded, clears the misses, and clears a suspect: unless its round is no newer than the doubt, or
   * the doubt is one of silence. A probe cut short does nothing, and neither does none.
   */
  lemma AnsweredProbes(n: NodeState, now: Time, round: nat, results: map<NodeID, ProbeResult>, selfScore: Score,
                       id: NodeID)
    requires Inv(n) && n.Keyed() && n.cfg.self !in results && id != n.cfg.self
    requires id in n.tab.members && n.tab.members[id].state != Dead
    ensures var n' := Step(n, now, ProbeRound(round, results, selfScore));
            && (id in results && results[id].Scored? ==> AnswersAs(n, n', round, id, results[id].score))
            && (id !in results || results[id].Canceled? ==> SameAt(n, n', id))
  {
    hide TakeResults, OnProbeRound, IdList;
    var n1 := n.(probing := false, rejections := 0);
    DoubtsCarryOver(n, n1);
    ResultsAre(n1, now, round, IdList(results.Keys), results, id);
    RestOfRound(n, now, round, results, selfScore, id);
  }

  // ---------------------------------------------------------------------------
  // The node's own score
  // ---------------------------------------------------------------------------

  /** A self-score is news if it becomes known, or stops being known, or moves by at least the election margin. */
  predicate IsNews(prev: Score, next: Score, margin: real) {
    if prev.Measured? && next.Measured? then
      prev != next && (next.value - prev.value >= margin || prev.value - next.value >= margin)
    else prev != next
  }

  /**
   * The own record takes the score, and it is announced, exactly if it is news; the margin is 0.5 if set below zero.
   */
  lemma SelfScoresAreAnnounced(n: NodeState, next: Score) returns (news: Member)
    requires OwnsItself(n)
    ensures var n', self := TakeSelfScore(n, next), n.cfg.self;
            var margin := if n.election.hysteresis < 0.0 then 0.5 else n.election.hysteresis;
            && self in n'.local && n'.local[self] == next
            && if IsNews(n.tab.members[self].score, next, margin) then
                 && n'.tab.members == n.tab.members[self := news] && n'.sent == n.sent + [DeltaMsg(NO_NODE, [news])]
                 && news == n.tab.members[self].(score := next, claimSeq := n.tab.members[self].claimSeq + 1)
               else n'.tab == n.tab && n'.sent == n.sent
  {
    news := n.tab.members[n.cfg.self].(score := next, claimSeq := n.tab.members[n.cfg.self].claimSeq + 1);
  }

  /** A finished round starts the rejections afresh, and the next may start. */
  lemma RoundsEnd(n: NodeState, now: Time, round: nat, results: map<NodeID, ProbeResult>, selfScore: Score)
    requires Inv(n) && n.Keyed() && n.cfg.self !in results
    ensures var n' := Step(n, now, ProbeRound(round, results, selfScore));
            n'.rejections == 0 && !n'.probing && n'.probeSeq == n.probeSeq
  {
    hide TakeResults, TakeSelfScore, Evaluate, ElectionOf, IdList;
    var n1, ids := n.(probing := false, rejections := 0), IdList(results.Keys);
    DoubtsCarryOver(n, n1);
    TakeResultsKeeps(n1, now, round, n.tab.members, ids, results);
    TakeResultsKeepRound(n1, now, round, n.tab.members, ids, results);
    var n3 := ProbeResultsTaken(n, now, round, results);
    PrunedKeeps(TakeResults(n1, now, round, n.tab.members, ids, results));
    TakeSelfScoreFacts(n3, selfScore);
    TakeSelfScoreKeeps(n3, selfScore);
    EvaluateFacts(TakeSelfScore(n3, selfScore));
  }

  lemma {:induction false} TakeResultsKeepRound(n: NodeState, now: Time, round: nat, view: Members, ids: seq<NodeID>,
                                                results: map<NodeID, ProbeResult>)
    requires forall id <- ids :: id in results
    ensures var n' := TakeResults(n, now, round, view, ids, results);
            n'.probing == n.probing && n'.probeSeq == n.probeSeq && n'.rejections == n.rejections
  {
    hide TakeResult;
    if ids != [] {
      var front, id := ids[..|ids| - 1], ids[|ids| - 1];
      TakeResultsKeepRound(n, now, round, view, front, results);
      TakeResultKeepsRound(TakeResults(n, now, round, view, front, results), now, round, view, id, results[id]);
    }
  }

  lemma TakeResultKeepsRound(n: NodeState, now: Time, round: nat, view: Members, id: NodeID, result: ProbeResult)
    ensures var n' := TakeResult(n, now, round, view, id, result);
            n'.probing == n.probing && n'.probeSeq == n.probeSeq && n'.rejections == n.rejections
  {
    hide MarkDead, Doubt;
    var misses := (if id in n.missed then n.missed[id] else 0) + 1;
    var n1 := n.(local := n.local[id := Unavailable], missed := n.missed[id := misses]);
    MarkDeadFacts(n1, id);
    DoubtFacts(n1, now, id, false);
  }

  /** One round at a time: a tick starts one, with the next number, unless one is still out. */
  lemma RoundsStart(n: NodeState, now: Time)
    requires n.Keyed()
    ensures Step(n, now, ProbeTick) ==
            if n.probing then n else n.(probing := true, probeSeq := n.probeSeq + 1)
  {
  }

  // ---------------------------------------------------------------------------
  // Ticks
  // ---------------------------------------------------------------------------

  /** A leader beats to every worker it has, with its term, and to nobody else. */
  lemma LeadersBeat(n: NodeState, now: Time)
    requires n.Keyed() && AtSilenceCheck(n, now).Leads()
    ensures var c, n' := AtSilenceCheck(n, now), Step(n, now, ControlTick);
            && n' == c.(sent := n'.sent) && c.sent <= n'.sent
            && (forall w :: w in n'.attached <==> BeatMsg(w, n'.term) in n'.sent[|c.sent|..])
            && (forall m <- n'.sent[|c.sent|..] :: m.BeatMsg? && m.term == n'.term && m.to in n'.attached)
  {
    hide AtSilenceCheck, IdList;
    var c, n' := AtSilenceCheck(n, now), Step(n, now, ControlTick);
    assert n' == c.(sent := c.sent + Map(Beat(c), IdList(c.attached))) by { TickOfLeader(n, now); }
    var ids := IdList(c.attached);
    assert n'.sent[|c.sent|..] == Map(Beat(c), ids);
    forall w ensures w in c.attached <==> BeatMsg(w, c.term) in Map(Beat(c), ids) {
      if w in ids {
        var i :| 0 <= i < |ids| && ids[i] == w;
        assert Map(Beat(c), ids)[i] == BeatMsg(w, c.term);
      }
    }
  }

  lemma TickOfLeader(n: NodeState, now: Time)
    requires n.Keyed() && AtSilenceCheck(n, now).Leads()
    ensures var c := AtSilenceCheck(n, now);
            Step(n, now, ControlTick) == c.(sent := c.sent + Map(Beat(c), IdList(c.attached)))
  {
    hide SweepTombstones, IfChanged, ExpireSuspicions, IdList;
  }

  /**
   * A worker counts a tick without a beat; the configured number of them is a doubt of silence about its leader, which
   * it then leaves, unless it joins it anew.
   */
  lemma SilentTicksCount(n: NodeState, now: Time)
    requires Inv(n) && n.Keyed()
    requires !AtSilenceCheck(n, now).Leads() && AtSilenceCheck(n, now).leader != NO_NODE
    ensures CountsOrLeaves(AtSilenceCheck(n, now), Step(n, now, ControlTick))
  {
    hide AtSilenceCheck, CheckLeaderSilence, Step, CountsOrLeaves;
    TickOfWorker(n, now);
    SilenceCheckInv(n, now);
    SilenceIsCountedOrLeft(AtSilenceCheck(n, now), now);
  }

  /** One tick more without a beat; or, at the configured number, the leader is doubted and left. */
  ghost predicate CountsOrLeaves(c: NodeState, n': NodeState) {
    if c.sinceBeat + 1 < c.cfg.heartbeatMisses then n' == c.(sinceBeat := c.sinceBeat + 1)
    else
      && (n'.leader != c.leader || n'.joins > c.joins)
      && (c.leader in c.tab.members && c.tab.members[c.leader].state != Dead && c.leader != c.cfg.self ==>
            && c.leader in n'.tab.members && n'.tab.members[c.leader].state == Suspect
            && c.leader in n'.suspects && n'.suspects[c.leader].silent && n'.leader != c.leader)
  }

  lemma SilenceIsCountedOrLeft(c: NodeState, now: Time)
    requires Inv(c) && c.Keyed() && !c.Leads() && c.leader != NO_NODE
    ensures CountsOrLeaves(c, CheckLeaderSilence(c, now))
  {
    hide MembershipChanged, Doubt;
    if c.sinceBeat + 1 >= c.cfg.heartbeatMisses {
      var n1 := c.(sinceBeat := 0);
      DoubtsCarryOver(c, n1);
      DoubtKeeps(n1, now, c.leader, true);
      DoubtFacts(n1, now, c.leader, true);
      var n2 := Doubt(n1, now, c.leader, true);
      var n3 := n2.(leader := NO_NODE);
      DoubtsCarryOver(n2, n3);
      MembershipChangedKeepsOthers(n3, c.leader);
      LeftForGood(n3, c.leader);
    }
  }

  lemma TickOfWorker(n: NodeState, now: Time)
    requires n.Keyed() && !AtSilenceCheck(n, now).Leads() && AtSilenceCheck(n, now).leader != NO_NODE
    ensures Step(n, now, ControlTick) == CheckLeaderSilence(AtSilenceCheck(n, now), now)
  {
    hide SweepTombstones, IfChanged, ExpireSuspicions, IdList, CheckLeaderSilence;
  }

  lemma LeftForGood(n: NodeState, leader: NodeID)
    requires Inv(n) && n.leader == NO_NODE && leader != NO_NODE && leader != n.cfg.self
    ensures var n' := MembershipChanged(n);
            && (n'.leader != leader || n'.joins > n.joins)
            && (leader in n.suspects ==> n'.leader != leader)
  {
    hide Evaluate, ElectionOf;
    PrunedKeeps(n);
    EvaluateFacts(Pruned(n));
    EvaluateReplaces(Pruned(n));
  }

  /**
   * Silence is noticed: while a worker keeps one leader, hears no beat of it, and joins nobody, the ticks it counts,
   * and had counted before, are fewer than the configured number.
   */
  lemma {:induction false} SilentLeadersAreLeft(states: seq<NodeState>, inputs: seq<Input>, i: nat, j: nat)
    requires IsRun(states, inputs) && i <= j < |states| && states[i].cfg.heartbeatMisses > 0
    requires states[i].sinceBeat < states[i].cfg.heartbeatMisses
    requires forall k :: i <= k <= j ==> states[k].leader == states[i].leader && states[k].joins == states[i].joins
    requires forall k :: i <= k < j ==> !Hears(states[k], inputs[k].event)
    requires states[i].leader != NO_NODE && states[i].leader != states[i].cfg.self
    ensures states[i].sinceBeat + Ticks(inputs, i, j) == states[j].sinceBeat < states[i].cfg.heartbeatMisses
  {
    hide Step, AtSilenceCheck, CountsOrLeaves;
    if i < j {
      SilentLeadersAreLeft(states, inputs, i, j - 1);
      var n, input, n' := states[j - 1], inputs[j - 1], states[j];
      RunKeepsInv(states, inputs, i, i);
      RunKeepsInv(states, inputs, i, j - 1);
      assert Follows(n, input, n');
      StepKeepsPlace(n, input.now, input.event);
      if input.event.ControlTick? { SilenceGoesOn(n, input.now); }
    }
  }

  /** A tick after which the leader is the same, and nobody was joined, counted one more. */
  lemma SilenceGoesOn(n: NodeState, now: Time)
    requires Inv(n) && n.Keyed() && n.leader != NO_NODE && n.leader != n.cfg.self
    requires Step(n, now, ControlTick).leader == n.leader && Step(n, now, ControlTick).joins == n.joins
    ensures Step(n, now, ControlTick).sinceBeat == n.sinceBeat + 1 < n.cfg.heartbeatMisses
  {
    hide AtSilenceCheck, Step, CountsOrLeaves, JoinInv;
    var c, n' := AtSilenceCheck(n, now), Step(n, now, ControlTick);
    UntilSilenceCheck(n, now);
    SilenceCheckInv(n, now);
    if c.Leads() {
      LeadersBeat(n, now);
      assert false;
    } else if c.leader == NO_NODE {
      TickOfNobody(n, now);
      assert false;
    } else {
      SilentTicksCount(n, now);
      AfterTheCheck(n, now);
      CountedOn(c, n');
    }
  }

  lemma TickOfNobody(n: NodeState, now: Time)
    requires n.Keyed() && !AtSilenceCheck(n, now).Leads() && AtSilenceCheck(n, now).leader == NO_NODE
    ensures Step(n, now, ControlTick) == AtSilenceCheck(n, now)
  {
    hide SweepTombstones, IfChanged, ExpireSuspicions, IdList, CheckLeaderSilence;
  }

  lemma AfterTheCheck(n: NodeState, now: Time)
    requires n.Keyed() && !AtSilenceCheck(n, now).Leads() && AtSilenceCheck(n, now).leader != NO_NODE
    ensures AtSilenceCheck(n, now).joins <= Step(n, now, ControlTick).joins
  {
    hide AtSilenceCheck, CheckLeaderSilence, Step, JoinInv;
    UntilSilenceCheck(n, now);
    TickOfWorker(n, now);
    CheckLeaderSilenceKeepsPlace(AtSilenceCheck(n, now), now);
  }

  lemma CountedOn(c: NodeState, n': NodeState)
    requires CountsOrLeaves(c, n') && n'.leader == c.leader && n'.joins == c.joins
    ensures n'.sinceBeat == c.sinceBeat + 1 < c.cfg.heartbeatMisses
  {
  }

  // ---------------------------------------------------------------------------
  // The rest
  // ---------------------------------------------------------------------------

  /** Gossip is the whole view, to the peer picked. */
  lemma GossipIsTheView(n: NodeState, now: Time, to: NodeID) returns (view: seq<Member>)
    requires n.Keyed()
    ensures Step(n, now, GossipTick(to)) == n.(sent := n.sent + [DeltaMsg(to, view)])
    ensures UniqueIds(view) && forall m :: m in view <==> m.id in n.tab.members && n.tab.members[m.id] == m
  {
    view := ViewOf(n.tab.members);
    assert forall i, j :: 0 <= i < j < |view| ==> IdLess(view[i], view[j]);
  }

  /** A snapshot's term is adopted if it comes from the node's own leader, in its own name, and is newer. */
  lemma SnapshotsCarryTheTerm(n: NodeState, now: Time, from: NodeID, named: NodeID, term: nat)
    requires n.Keyed()
    ensures Step(n, now, StateSync(from, named, term)) ==
            if n.cfg.self !in n.leaders && from == n.leader && named in {NO_NODE, from} && term > n.term
            then n.(term := term) else n
  {
  }

  /** Tuning takes a threshold in (0, 1] and a margin not below zero; the margin is that of rehoming too. */
  lemma TuningIsChecked(n: NodeState, now: Time, threshold: Option<real>, hysteresis: Option<real>)
    requires OwnsItself(n)
    ensures var n' := Step(n, now, Tune(threshold, hysteresis));
            && n'.election.threshold == (if threshold.Some? && 0.0 < threshold.value && threshold.value <= 1.0
                                         then threshold.value else n.election.threshold)
            && n'.election.hysteresis == (if hysteresis.Some? && hysteresis.value >= 0.0
                                          then hysteresis.value else n.election.hysteresis)
            && n'.rehome == (if hysteresis.Some? && hysteresis.value >= 0.0 then hysteresis.value else n.rehome)
            && (n'.election == n.election && n'.rehome == n.rehome ==> n' == n)
  {
    hide Evaluate, ElectionOf;
    EvaluateFacts(Tuned(n, threshold, hysteresis));
  }
}
