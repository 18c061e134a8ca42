// What a member says of itself: its own writes are ordered, and nobody who has heard one keeps an older claim.

module Authors {
  import opened Health
  import opened Membership
  import opened Sorting
  import opened Election
  import opened NodeModel
  import opened NodeInvariant
  import opened NodeRuns
  import opened Ceilings
  import opened Options

  // ---------------------------------------------------------------------------
  // The writes
  // ---------------------------------------------------------------------------

  /** `b` may be what `a` has become: neither number goes back, and the same Seq makes the same claim. */
  predicate Becomes(a: Member, b: Member) {
    && a.id == b.id && a.incarnation <= b.incarnation && a.claimSeq <= b.claimSeq
    && (a.claimSeq == b.claimSeq ==> a.role == b.role && a.score == b.score)
  }

  lemma BecomesTwice(a: Member, b: Member, c: Member)
    requires Becomes(a, b) && Becomes(b, c)
    ensures Becomes(a, c)
  {
  }

  datatype Write = NewScore(score: Score) | NewRole(role: Role) | Outbid(incarnation: int64)

  /** A member's own record after one of its writes; a refutation outbids a rumour at least as new as the record. */
  function Written(own: Member, w: Write): Member {
    match w
    case NewScore(score) => WithScore(map[own.id := own], own.id, score)[own.id]
    case NewRole(role) => WithRole(map[own.id := own], own.id, role)[own.id]
    case Outbid(incarnation) =>
      if incarnation < own.incarnation then own
      else
        var news := own.(state := Alive, incarnation := NextIncarnation(incarnation));
        Upserted(map[own.id := own], news)[own.id]
  }

  lemma WritesAdvance(own: Member, w: Write)
    ensures Becomes(own, Written(own, w))
    ensures var own' := Written(own, w);
            match w
            case NewScore(score) =>
              own'.score == score && own'.role == own.role && (own' == own <==> own.score == score)
            case NewRole(role) =>
              own'.role == role && own'.score == own.score && (own' == own <==> own.role == role)
            case Outbid(rumour) =>
              && own'.role == own.role && own'.score == own.score
              && (rumour >= own.incarnation ==> own'.incarnation == NextIncarnation(rumour))
  {
  }

  ghost predicate IsWriting(records: seq<Member>, writes: seq<Write>) {
    |records| == |writes| + 1 && forall i :: 0 <= i < |writes| ==> records[i + 1] == Written(records[i], writes[i])
  }

  lemma {:induction false} WritingAdvances(records: seq<Member>, writes: seq<Write>, i: nat, j: nat)
    requires IsWriting(records, writes) && i <= j < |records|
    ensures Becomes(records[i], records[j])
  {
    hide Written;
    if i < j {
      WritingAdvances(records, writes, i, j - 1);
      WritesAdvance(records[j - 1], writes[j - 1]);
      BecomesTwice(records[i], records[j - 1], records[j]);
    }
  }

  /** So whatever a member writes about itself, the records it goes through are coherent: one claim to a Seq. */
  lemma WritingIsCoherent(records: seq<Member>, writes: seq<Write>)
    requires IsWriting(records, writes) && records[0].claimSeq >= 1
    ensures Coherent(Records(records))
  {
    hide Written;
    forall i | 0 <= i < |records| ensures records[i].claimSeq >= 1 { WritingAdvances(records, writes, 0, i); }
    forall r, s | r in Records(records) && s in Records(records) && SameStamp(r, s)
      ensures r.role == s.role && r.score == s.score {
      var i :| 0 <= i < |records| && records[i] == r;
      var j :| 0 <= j < |records| && records[j] == s;
      if i <= j { WritingAdvances(records, writes, i, j); } else { WritingAdvances(records, writes, j, i); }
    }
  }

  /**
   * What of a record others may hold of it: its claim, at whatever address and in whatever state they believe it to be.
   */
  predicate SameClaim(held: Member, own: Member) {
    && held.id == own.id && held.incarnation == own.incarnation
    && held.claimSeq == own.claimSeq && held.role == own.role && held.score == own.score
  }

  /**
   * A write is heard: whoever holds any earlier claim of this incarnation and merges the record written takes the role
   * and the score in it, and those are the ones the member wrote.
   */
  lemma WritesAreHeard(records: seq<Member>, writes: seq<Write>, i: nat, j: nat, held: Member)
    requires IsWriting(records, writes) && i <= j < |writes| && SameClaim(held, records[i])
    requires records[j + 1].incarnation == records[i].incarnation && records[j + 1] != records[j]
    requires records[0].claimSeq >= 1
    ensures var merged := Merged(held, records[j + 1]);
            && merged.role == records[j + 1].role && merged.score == records[j + 1].score
            && (writes[j].NewScore? ==> merged.score == writes[j].score && merged.role == records[j].role)
            && (writes[j].NewRole? ==> merged.role == writes[j].role && merged.score == records[j].score)
  {
    WritingAdvances(records, writes, 0, i);
    WritingAdvances(records, writes, i, j);
    WriteCounts(records[j], writes[j]);
  }

  lemma WriteCounts(own: Member, w: Write)
    ensures var own' := Written(own, w);
            !w.Outbid? && own' != own ==> own'.claimSeq == own.claimSeq + 1
  {
  }

  // ---------------------------------------------------------------------------
  // The node's own record, and every copy of it the node ever sends
  // ---------------------------------------------------------------------------

  ghost predicate SaysOf(m: Message, r: Member, id: NodeID) {
    m.DeltaMsg? && r in m.records && r.id == id
  }

  /** The node has its own record, and all it has ever sent of itself is coherent, and not ahead of that record. */
  ghost predicate SpeaksCoherently(n: NodeState) {
    var self := n.cfg.self;
    && self in n.tab.members && n.tab.members[self].id == self && n.tab.members[self].claimSeq >= 1
    && (forall m, r | m in n.sent && SaysOf(m, r, self) :: r.claimSeq >= 1 && Becomes(r, n.tab.members[self]))
    && (forall m, r, m', r' | m in n.sent && SaysOf(m, r, self) && m' in n.sent && SaysOf(m', r', self) ::
          r.claimSeq == r'.claimSeq ==> r.role == r'.role && r.score == r'.score)
  }

  /** The own record advances, and what is newly sent of it is the record as it is then. */
  ghost predicate SpeaksOn(n: NodeState, n': NodeState) {
    var self := n.cfg.self;
    && n'.cfg == n.cfg && self in n.tab.members && self in n'.tab.members
    && Becomes(n.tab.members[self], n'.tab.members[self])
    && forall m, r | m in n'.sent && SaysOf(m, r, self) :: m in n.sent || r == n'.tab.members[self]
  }

  ghost predicate KeepsCoherent(n: NodeState, n': NodeState) {
    && n'.cfg == n.cfg && n.cfg.self in n.tab.members && n.cfg.self in n'.tab.members
    && Becomes(n.tab.members[n.cfg.self], n'.tab.members[n.cfg.self])
    && (SpeaksCoherently(n) ==> SpeaksCoherently(n'))
  }

  lemma SpeakingOnIsCoherent(n: NodeState, n': NodeState)
    requires SpeaksOn(n, n') && n.tab.members[n.cfg.self].id == n.cfg.self
    ensures KeepsCoherent(n, n')
  {
    if SpeaksCoherently(n) {
      var own, own' := n.tab.members[n.cfg.self], n'.tab.members[n.cfg.self];
      forall m, r | m in n'.sent && SaysOf(m, r, n.cfg.self) ensures r.claimSeq >= 1 && Becomes(r, own') {
        if m in n.sent { BecomesTwice(r, own, own'); }
      }
    }
  }

  lemma CoherentTwice(a: NodeState, b: NodeState, c: NodeState)
    requires KeepsCoherent(a, b) && KeepsCoherent(b, c)
    ensures KeepsCoherent(a, c)
  {
    hide SpeaksCoherently;
  }

  /** A step that touches another member's record, and sends at most that. */
  lemma TouchingSpeaksOn(n: NodeState, n': NodeState, x: NodeID)
    requires OwnsItself(n) && OnlyTouches(n, n', x) && x != n.cfg.self
    requires forall m <- n'.sent :: m in n.sent || !m.DeltaMsg? || (forall r <- m.records :: r.id == x)
    ensures KeepsCoherent(n, n')
  {
    assert SameRecord(n.tab.members, n'.tab.members, n.cfg.self);
    SpeakingOnIsCoherent(n, n');
  }

  /** A step that leaves the table alone, and sends at most the whole of it. */
  lemma ListingSpeaksOn(n: NodeState, n': NodeState)
    requires OwnsItself(n) && n'.cfg == n.cfg && n'.tab.members == n.tab.members
    requires forall m <- n'.sent :: m in n.sent || !m.DeltaMsg? ||
               (forall r <- m.records :: r.id in n.tab.members && n.tab.members[r.id] == r)
    ensures KeepsCoherent(n, n')
  {
    SpeakingOnIsCoherent(n, n');
  }

  lemma EvaluateSpeaksOn(n: NodeState)
    requires OwnsItself(n)
    ensures KeepsCoherent(n, Evaluate(n))
  {
    hide Evaluate, ElectionOf;
    EvaluateFacts(n);
    EvaluateSends(n);
    var n' := Evaluate(n);
    forall m, r | m in n'.sent && SaysOf(m, r, n.cfg.self) ensures m in n.sent || r == n'.tab.members[n.cfg.self] {
      assert OwnNews(m, n.sent, n'.tab.members, n.cfg.self);
    }
    SpeakingOnIsCoherent(n, n');
  }

  lemma MembershipChangedSpeaksOn(n: NodeState)
    requires Inv(n)
    ensures KeepsCoherent(n, MembershipChanged(n))
  {
    hide Evaluate;
    PrunedKeeps(n);
    ListingSpeaksOn(n, Pruned(n));
    EvaluateSpeaksOn(Pruned(n));
    CoherentTwice(n, Pruned(n), MembershipChanged(n));
  }

  lemma IfChangedSpeaksOn(before: NodeState, n: NodeState)
    requires Inv(n)
    ensures KeepsCoherent(n, IfChanged(before, n))
  {
    hide MembershipChanged;
    MembershipChangedSpeaksOn(n);
    ListingSpeaksOn(n, n);
  }

  lemma MarkDeadSpeaksOn(n: NodeState, id: NodeID)
    requires OwnsItself(n) && id != n.cfg.self
    ensures KeepsCoherent(n, MarkDead(n, id))
  {
    MarkDeadTouches(n, id);
    TouchingSpeaksOn(n, MarkDead(n, id), id);
  }

  lemma DoubtSpeaksOn(n: NodeState, now: Time, id: NodeID, silent: bool)
    requires OwnsItself(n) && DoubtIsCurrent(n, id)
    ensures KeepsCoherent(n, Doubt(n, now, id, silent))
  {
    DoubtTouches(n, now, id, silent);
    if id == n.cfg.self {
      ListingSpeaksOn(n, Doubt(n, now, id, silent));
    } else {
      TouchingSpeaksOn(n, Doubt(n, now, id, silent), id);
    }
  }

  lemma RefuteSpeaksOn(n: NodeState, rumour: Member)
    requires OwnsItself(n)
    ensures KeepsCoherent(n, Refute(n, rumour))
  {
    hide Refute;
    RefuteFacts(n, rumour);
    SpeakingOnIsCoherent(n, Refute(n, rumour));
  }

  lemma {:induction false} TakeRecordsSpeakOn(n: NodeState, before: Members, from: NodeID, records: seq<Member>)
    requires Inv(n)
    ensures KeepsCoherent(n, TakeRecords(n, before, from, records).0)
  {
    hide TakeRecord, Refute, KeepsCoherent;
    if records == [] {
      ListingSpeaksOn(n, n);
    } else {
      var front, rec := records[..|records| - 1], records[|records| - 1];
      TakeRecordsSpeakOn(n, before, from, front);
      TakeRecordsKeeps(n, before, from, front);
      var n1 := TakeRecords(n, before, from, front).0;
      var n' := TakeRecord(n1, before, from, rec);
      if rec.id == n.cfg.self {
        TakeOwnRecord(n1, before, from, rec);
        RefuteSpeaksOn(n1, rec);
      } else {
        assert DoubtIsCurrent(n1, rec.id);
        TakeRecordTouches(n1, before, from, rec);
        TakeRecordIsSilent(n1, before, from, rec);
        TouchingSpeaksOn(n1, n', rec.id);
      }
      CoherentTwice(n, n1, n');
    }
  }

  lemma TakeRecordIsSilent(n: NodeState, before: Members, from: NodeID, rec: Member)
    requires rec.id != n.cfg.self
    ensures TakeRecord(n, before, from, rec).sent == n.sent
  {
  }

  lemma TakeResultSpeaksOn(n: NodeState, now: Time, round: nat, view: Members, id: NodeID, result: ProbeResult)
    requires OwnsItself(n) && DoubtIsCurrent(n, id) && id != n.cfg.self
    ensures KeepsCoherent(n, TakeResult(n, now, round, view, id, result))
  {
    hide MarkDead, Doubt, KeepsCoherent;
    var n' := TakeResult(n, now, round, view, id, result);
    TakeResultTouches(n, now, round, view, id, result);
    var misses := (if id in n.missed then n.missed[id] else 0) + 1;
    var n1 := n.(local := n.local[id := Unavailable], missed := n.missed[id := misses]);
    MarkDeadSays(n1, id);
    DoubtSays(n1, now, id, false);
    TouchingSpeaksOn(n, n', id);
  }

  lemma MarkDeadSays(n: NodeState, id: NodeID)
    requires n.Keyed()
    ensures forall m <- MarkDead(n, id).sent :: m in n.sent || !m.DeltaMsg? || (forall r <- m.records :: r.id == id)
  {
  }

  lemma DoubtSays(n: NodeState, now: Time, id: NodeID, silent: bool)
    requires n.Keyed()
    ensures forall m <- Doubt(n, now, id, silent).sent ::
              m in n.sent || !m.DeltaMsg? || (forall r <- m.records :: r.id == id)
  {
  }

  lemma {:induction false} TakeResultsSpeakOn(n: NodeState, now: Time, round: nat, view: Members, ids: seq<NodeID>,
                                              results: map<NodeID, ProbeResult>)
    requires Inv(n) && NO_NODE !in view && n.cfg.self !in ids && forall id <- ids :: id in results
    ensures KeepsCoherent(n, TakeResults(n, now, round, view, ids, results))
  {
    hide TakeResult, KeepsCoherent;
    if ids == [] {
      ListingSpeaksOn(n, n);
    } else {
      var front, id := ids[..|ids| - 1], ids[|ids| - 1];
      TakeResultsSpeakOn(n, now, round, view, front, results);
      TakeResultsKeeps(n, now, round, view, front, results);
      var n1 := TakeResults(n, now, round, view, front, results);
      assert DoubtIsCurrent(n1, id);
      TakeResultSpeaksOn(n1, now, round, view, id, results[id]);
      CoherentTwice(n, n1, TakeResult(n1, now, round, view, id, results[id]));
    }
  }

  lemma TakeSelfScoreSpeaksOn(n: NodeState, next: Score)
    requires OwnsItself(n)
    ensures KeepsCoherent(n, TakeSelfScore(n, next))
  {
    hide TakeSelfScore;
    var n', self := TakeSelfScore(n, next), n.cfg.self;
    TakeSelfScoreFacts(n, next);
    TakeSelfScoreSends(n, next);
    SelfScoreAdvances(n, next);
    forall m, r | m in n'.sent && SaysOf(m, r, self) ensures m in n.sent || r == n'.tab.members[self] {
      assert OwnNews(m, n.sent, n'.tab.members, self);
    }
    SpeakingOnIsCoherent(n, n');
  }

  lemma SelfScoreAdvances(n: NodeState, next: Score)
    requires OwnsItself(n)
    ensures var n', self := TakeSelfScore(n, next), n.cfg.self;
            self in n'.tab.members && Becomes(n.tab.members[self], n'.tab.members[self])
  {
  }

  lemma {:induction false} ExpireAllSpeaksOn(n: NodeState, now: Time, view: Members, ids: seq<NodeID>)
    requires Inv(n)
    ensures KeepsCoherent(n, ExpireAll(n, now, view, ids))
  {
    hide Expire, KeepsCoherent;
    if ids == [] {
      ListingSpeaksOn(n, n);
    } else {
      var front, id := ids[..|ids| - 1], ids[|ids| - 1];
      ExpireAllSpeaksOn(n, now, view, front);
      ExpireAllKeeps(n, now, view, front);
      var n1 := ExpireAll(n, now, view, front);
      assert DoubtIsCurrent(n1, id);
      ExpireTouches(n1, now, view, id);
      ExpireSays(n1, now, view, id);
      if id == n.cfg.self {
        ExpireIdle(n1, now, view, id);
      } else {
        TouchingSpeaksOn(n1, Expire(n1, now, view, id), id);
        CoherentTwice(n, n1, Expire(n1, now, view, id));
      }
    }
  }

  lemma ExpireSays(n: NodeState, now: Time, view: Members, id: NodeID)
    requires n.Keyed()
    ensures forall m <- Expire(n, now, view, id).sent ::
              m in n.sent || !m.DeltaMsg? || (forall r <- m.records :: r.id == id)
  {
    hide MarkDead;
    MarkDeadSays(n, id);
  }

  // ---------------------------------------------------------------------------
  // Events
  // ---------------------------------------------------------------------------

  lemma OnPeerUpSpeaksOn(n: NodeState, id: NodeID, advertise: NodeAddress, incarnation: int64)
    requires Inv(n) && n.Keyed()
    ensures KeepsCoherent(n, OnPeerUp(n, id, advertise, incarnation))
  {
    hide IfChanged, Greeted, ViewOf, KeepsCoherent;
    if id == NO_NODE || id == n.cfg.self {
      ListingSpeaksOn(n, n);
    } else {
      var n1 := Greeted(n, id, advertise, incarnation);
      GreetedTouches(n, id, advertise, incarnation);
      GreetedIsSilent(n, id, advertise, incarnation);
      TouchKeepsInv(n, n1, id);
      TouchingSpeaksOn(n, n1, id);
      var n2 := n1.Send(DeltaMsg(id, ViewOf(n1.tab.members)));
      DoubtsCarryOver(n1, n2);
      ListingSpeaksOn(n1, n2);
      CoherentTwice(n, n1, n2);
      IfChangedSpeaksOn(n, n2);
      CoherentTwice(n, n2, IfChanged(n, n2));
    }
  }

  lemma GreetedIsSilent(n: NodeState, id: NodeID, advertise: NodeAddress, incarnation: int64)
    ensures Greeted(n, id, advertise, incarnation).sent == n.sent
  {
  }

  lemma OnPeerDownSpeaksOn(n: NodeState, now: Time, id: NodeID, disposition: Disposition)
    requires Inv(n) && n.Keyed()
    ensures KeepsCoherent(n, OnPeerDown(n, now, id, disposition))
  {
    hide IfChanged, MarkDead, Doubt, KeepsCoherent;
    if id == NO_NODE || id == n.cfg.self {
      ListingSpeaksOn(n, n);
    } else {
      var n1 := n.(attached := n.attached - {id});
      ListingSpeaksOn(n, n1);
      DoubtsCarryOver(n, n1);
      assert DoubtIsCurrent(n1, id);
      var n2 := if disposition.LinkLost? then Doubt(n1, now, id, false) else MarkDead(n1, id);
      MarkDeadKeeps(n1, id);
      DoubtKeeps(n1, now, id, false);
      MarkDeadSpeaksOn(n1, id);
      DoubtSpeaksOn(n1, now, id, false);
      CoherentTwice(n, n1, n2);
      IfChangedSpeaksOn(n, n2);
      CoherentTwice(n, n2, IfChanged(n, n2));
    }
  }

  lemma OnDeathSpeaksOn(n: NodeState, id: NodeID)
    requires Inv(n) && n.Keyed() && id != n.cfg.self && id != NO_NODE
    ensures KeepsCoherent(n, OnDeath(n, id))
  {
    hide IfChanged, MarkDead, KeepsCoherent;
    MarkDeadKeeps(n, id);
    MarkDeadSpeaksOn(n, id);
    IfChangedSpeaksOn(n, MarkDead(n, id));
    CoherentTwice(n, MarkDead(n, id), OnDeath(n, id));
  }

  lemma OnDeltaSpeaksOn(n: NodeState, from: NodeID, records: seq<Member>)
    requires Inv(n) && n.Keyed()
    ensures KeepsCoherent(n, OnDelta(n, from, records))
  {
    hide TakeRecords, MembershipChanged, KeepsCoherent;
    var before := n.tab.members;
    TakeRecordsSpeakOn(n, before, from, records);
    TakeRecordsKeeps(n, before, from, records);
    var n1 := TakeRecords(n, before, from, records).0;
    var n2 := VoidAttachment(n1, before);
    VoidAttachmentKeeps(n1, before);
    ListingSpeaksOn(n1, n2);
    CoherentTwice(n, n1, n2);
    MembershipChangedSpeaksOn(n2);
    CoherentTwice(n, n2, MembershipChanged(n2));
  }

  lemma OnJoinAckSpeaksOn(n: NodeState, from: NodeID, number: nat, accepted: bool, named: NodeID)
    requires Inv(n) && n.Keyed()
    ensures KeepsCoherent(n, OnJoinAck(n, from, number, accepted, named))
  {
    hide Evaluate, KeepsCoherent;
    var n' := OnJoinAck(n, from, number, accepted, named);
    var detached := n.(joinID := 0, leader := NO_NODE);
    var rejected := detached.(hint := named, rejections := n.rejections + 1);
    if n' == Evaluate(detached) {
      ListingSpeaksOn(n, detached);
      EvaluateSpeaksOn(detached);
      CoherentTwice(n, detached, n');
    } else if n' == Evaluate(rejected) {
      ListingSpeaksOn(n, rejected);
      EvaluateSpeaksOn(rejected);
      CoherentTwice(n, rejected, n');
    } else {
      ListingSpeaksOn(n, n');
    }
  }

  lemma OnHeartbeatSpeaksOn(n: NodeState, from: NodeID, term: nat)
    requires Inv(n) && n.Keyed()
    ensures KeepsCoherent(n, OnHeartbeat(n, from, term))
  {
    hide BeatResumed, KeepsCoherent;
    var n' := OnHeartbeat(n, from, term);
    if term < n.term {
      ListingSpeaksOn(n, n');
    } else {
      var n1 := n.(term := term, sinceBeat := if from == n.leader && !n.Leads() then 0 else n.sinceBeat);
      ListingSpeaksOn(n, n1);
      DoubtsCarryOver(n, n1);
      BeatResumedSpeaksOn(n1, from);
      BeatResumedKeeps(n1, from);
      CoherentTwice(n, n1, BeatResumed(n1, from));
      ListingSpeaksOn(BeatResumed(n1, from), n');
      CoherentTwice(n, BeatResumed(n1, from), n');
    }
  }

  lemma BeatResumedSpeaksOn(n: NodeState, from: NodeID)
    requires Inv(n) && n.Keyed()
    ensures KeepsCoherent(n, BeatResumed(n, from))
  {
    hide IfChanged, KeepsCoherent;
    if from in n.suspects && n.suspects[from].silent {
      var n1 := n.(suspects := n.suspects - {from}).Apply(Revived(n.tab.members, from, n.suspects[from].incarnation));
      assert DoubtIsCurrent(n, from) && OnlyTouches(n, n1, from);
      TouchKeepsInv(n, n1, from);
      TouchingSpeaksOn(n, n1, from);
      IfChangedSpeaksOn(n, n1);
      CoherentTwice(n, n1, IfChanged(n, n1));
    } else {
      ListingSpeaksOn(n, n);
    }
  }

  lemma OnProbeRoundSpeaksOn(n: NodeState, now: Time, round: nat, results: map<NodeID, ProbeResult>, selfScore: Score)
    requires Inv(n) && n.Keyed() && n.cfg.self !in results
    ensures KeepsCoherent(n, OnProbeRound(n, now, round, results, selfScore))
  {
    hide TakeResults, TakeSelfScore, Evaluate, IdList, KeepsCoherent;
    var n1, ids := n.(probing := false, rejections := 0), IdList(results.Keys);
    ListingSpeaksOn(n, n1);
    DoubtsCarryOver(n, n1);
    TakeResultsKeeps(n1, now, round, n.tab.members, ids, results);
    TakeResultsSpeakOn(n1, now, round, n.tab.members, ids, results);
    var n2, n3 := TakeResults(n1, now, round, n.tab.members, ids, results), ProbeResultsTaken(n, now, round, results);
    CoherentTwice(n, n1, n2);
    PrunedKeeps(n2);
    ListingSpeaksOn(n2, n3);
    CoherentTwice(n, n2, n3);
    var n4 := TakeSelfScore(n3, selfScore);
    TakeSelfScoreKeeps(n3, selfScore);
    TakeSelfScoreSpeaksOn(n3, selfScore);
    CoherentTwice(n, n3, n4);
    EvaluateSpeaksOn(n4);
    CoherentTwice(n, n4, Evaluate(n4));
  }

  lemma OnControlTickSpeaksOn(n: NodeState, now: Time)
    requires Inv(n) && n.Keyed()
    ensures KeepsCoherent(n, OnControlTick(n, now))
  {
    hide ExpireSuspicions, IfChanged, SweepTombstones, CheckLeaderSilence, IdList, KeepsCoherent;
    ExpireSuspicionsKeeps(n, now);
    ExpireSuspicionsSpeaksOn(n, now);
    var n1 := ExpireSuspicions(n, now);
    IfChangedKeeps(n, n1);
    IfChangedKeepsStanding(n, n1);
    IfChangedSpeaksOn(n, n1);
    var n2 := IfChanged(n, n1);
    CoherentTwice(n, n1, n2);
    SweepKeeps(n2, now);
    SweepSpeaksOn(n2, now);
    var n3, n' := SweepTombstones(n2, now), OnControlTick(n, now);
    CoherentTwice(n, n2, n3);
    if n3.Leads() || n3.leader == NO_NODE {
      ListingSpeaksOn(n3, n');
    } else {
      CheckLeaderSilenceSpeaksOn(n3, now);
    }
    CoherentTwice(n, n3, n');
  }

  lemma ExpireSuspicionsSpeaksOn(n: NodeState, now: Time)
    requires Inv(n)
    ensures KeepsCoherent(n, ExpireSuspicions(n, now))
  {
    hide ExpireAll, IdList, KeepsCoherent;
    ExpireAllSpeaksOn(n, now, n.tab.members, IdList(n.suspects.Keys));
  }

  lemma SweepSpeaksOn(n: NodeState, now: Time)
    requires OwnsItself(n)
    ensures KeepsCoherent(n, SweepTombstones(n, now))
  {
    hide Reconciled;
    SpeakingOnIsCoherent(n, SweepTombstones(n, now));
  }

  lemma CheckLeaderSilenceSpeaksOn(n: NodeState, now: Time)
    requires Inv(n) && n.Keyed() && !n.Leads() && n.leader != NO_NODE
    ensures KeepsCoherent(n, CheckLeaderSilence(n, now))
  {
    hide Doubt, MembershipChanged, KeepsCoherent;
    var counted, n1 := n.(sinceBeat := n.sinceBeat + 1), n.(sinceBeat := 0);
    ListingSpeaksOn(n, counted);
    if n.sinceBeat + 1 >= n.cfg.heartbeatMisses {
      ListingSpeaksOn(n, n1);
      DoubtsCarryOver(n, n1);
      assert DoubtIsCurrent(n1, n.leader);
      DoubtKeeps(n1, now, n.leader, true);
      DoubtSpeaksOn(n1, now, n.leader, true);
      var n2 := Doubt(n1, now, n.leader, true);
      var n3 := n2.(leader := NO_NODE);
      DoubtsCarryOver(n2, n3);
      ListingSpeaksOn(n2, n3);
      CoherentTwice(n, n1, n2);
      CoherentTwice(n, n2, n3);
      MembershipChangedSpeaksOn(n3);
      CoherentTwice(n, n3, MembershipChanged(n3));
    }
  }

  lemma OnTuneSpeaksOn(n: NodeState, threshold: Option<real>, hysteresis: Option<real>)
    requires Inv(n) && n.Keyed()
    ensures KeepsCoherent(n, OnTune(n, threshold, hysteresis))
  {
    hide Evaluate, KeepsCoherent;
    var n1 := Tuned(n, threshold, hysteresis);
    ListingSpeaksOn(n, n);
    ListingSpeaksOn(n, n1);
    EvaluateSpeaksOn(n1);
    CoherentTwice(n, n1, Evaluate(n1));
  }

  lemma StepSpeaksOn(n: NodeState, now: Time, e: Event)
    requires Inv(n) && n.Keyed() && Plausible(n, e)
    ensures KeepsCoherent(n, Step(n, now, e))
  {
    hide OnPeerUp, OnPeerDown, OnDelta, OnJoinAck, OnDeath, OnHeartbeat, OnProbeRound, OnControlTick, OnTune, Evaluate,
         ViewOf, Inv, KeepsCoherent;
    match e
    case PeerUp(id, advertise, incarnation) => OnPeerUpSpeaksOn(n, id, advertise, incarnation);
    case PeerDown(id, disposition) => OnPeerDownSpeaksOn(n, now, id, disposition);
    case Delta(from, records) => OnDeltaSpeaksOn(n, from, records);
    case JoinAck(from, number, accepted, named) => OnJoinAckSpeaksOn(n, from, number, accepted, named);
    case Leave(from) => OnDeathSpeaksOn(n, from);
    case Malformed(from) => OnDeathSpeaksOn(n, from);
    case Heartbeat(from, term) => OnHeartbeatSpeaksOn(n, from, term);
    case ProbeRound(round, results, selfScore) => OnProbeRoundSpeaksOn(n, now, round, results, selfScore);
    case FloorTick => InvOwns(n); EvaluateSpeaksOn(n);
    case GossipTick(to) =>
      InvOwns(n);
      ListingSpeaksOn(n, n.Send(DeltaMsg(to, ViewOf(n.tab.members))));
    case ControlTick => OnControlTickSpeaksOn(n, now);
    case Tune(threshold, hysteresis) => OnTuneSpeaksOn(n, threshold, hysteresis);
    case _ =>
      hide Step;
      InvOwns(n);
      QuietStepFacts(n, now, e);
      SpokenOnQuietly(n, Step(n, now, e));
  }

  lemma SpokenOnQuietly(n: NodeState, n': NodeState)
    requires OwnsItself(n) && n'.tab == n.tab && (forall m <- n'.sent :: m in n.sent || !m.DeltaMsg?)
    requires n'.cfg == n.cfg
    ensures KeepsCoherent(n, n')
  {
    ListingSpeaksOn(n, n');
  }

  // ---------------------------------------------------------------------------
  // Runs
  // ---------------------------------------------------------------------------

  lemma {:induction false} OwnRecordAdvances(states: seq<NodeState>, inputs: seq<Input>, i: nat, j: nat)
    requires IsRun(states, inputs) && i <= j < |states|
    ensures var self := states[0].cfg.self;
            && self in states[i].tab.members && self in states[j].tab.members
            && Becomes(states[i].tab.members[self], states[j].tab.members[self])
            && SpeaksCoherently(states[j]) && states[j].cfg.self == self
  {
    hide Step, SpeaksCoherently;
    RunKeepsInv(states, inputs, 0, j);
    if j == 0 {
      FreshIsCoherent(states[0]);
    } else {
      OwnRecordAdvances(states, inputs, if i == j then j - 1 else i, j - 1);
      RunKeepsInv(states, inputs, 0, j - 1);
      var n, input := states[j - 1], inputs[j - 1];
      assert Follows(n, input, states[j]);
      StepSpeaksOn(n, input.now, input.event);
    }
  }

  lemma FreshIsCoherent(n: NodeState)
    requires n == Boot(n.cfg, n.election, n.rehome, n.incarnation)
    ensures SpeaksCoherently(n)
  {
  }

  /** Every record of itself that a node sends, in any run, is coherent with every other, and of what it says now. */
  lemma WhatANodeSaysIsCoherent(states: seq<NodeState>, inputs: seq<Input>, k: nat, m: Message, r: Member, m': Message,
                                r': Member)
    requires IsRun(states, inputs) && k < |states|
    requires m in states[k].sent && SaysOf(m, r, states[k].cfg.self)
    requires m' in states[k].sent && SaysOf(m', r', states[k].cfg.self)
    ensures Coherent({r, r'})
    ensures states[k].cfg.self in states[k].tab.members && Becomes(r, states[k].tab.members[states[k].cfg.self])
  {
    OwnRecordAdvances(states, inputs, k, k);
  }
}
