// One node's event loop as a transition function: every handler that touches membership, election, affinity,
// suspicion, heartbeats or the JOIN exchange.

module NodeModel {
  import opened Health
  import opened Options
  import opened Membership
  import opened Sorting
  import opened Election
  import opened Affinity

  /** JOINs answered by a rejection that a worker follows up before the next probe round. */
  const MAX_REJECTIONS_PER_ROUND: nat := 3

  type Time = int

  /**
   * `handshake` is the incarnation the node's transport announces, read once at start-up. `delivers(k)` is whether the
   * k-th JOIN send succeeds: the network's choice, fixed in advance.
   */
  datatype NodeConfig = NodeConfig(self: NodeID, advertise: NodeAddress, handshake: int64, heartbeatMisses: nat,
                                   suspectAfter: nat, deadAfter: nat, suspicionTimeout: Time, tombstoneTTL: Time,
                                   delivers: nat -> bool)

  /** A first-hand doubt being timed; `silent` if raised by missed heartbeats. */
  datatype Suspicion = Suspicion(since: Time, incarnation: int64, round: nat, silent: bool)

  datatype Tombstone = Tombstone(since: Time, incarnation: int64)

  /** A `to` of NO_NODE is a broadcast. A JOIN's number is never 0, which stands for "no JOIN outstanding". */
  datatype Message =
    | DeltaMsg(to: NodeID, records: seq<Member>)
    | ElectionMsg(term: nat, leaders: seq<NodeID>)
    | JoinMsg(to: NodeID, number: nat)
    | JoinAckMsg(to: NodeID, number: nat, accepted: bool, leader: NodeID)
    | BeatMsg(to: NodeID, term: nat)
    | BeatAckMsg(to: NodeID, term: nat, observed: NodeID)

  datatype NodeState = NodeState(
    cfg: NodeConfig,
    election: Config,
    rehome: real,
    tab: TableState,
    incarnation: int64,
    term: nat,
    leaders: seq<NodeID>,
    leader: NodeID,
    hint: NodeID,
    joinID: nat,
    joins: nat,
    rejections: nat,
    attached: set<NodeID>,
    local: Scores,
    missed: map<NodeID, nat>,
    suspects: map<NodeID, Suspicion>,
    probing: bool,
    probeSeq: nat,
    tombstones: map<NodeID, Tombstone>,
    tombVersion: nat,
    sinceBeat: nat,
    sent: seq<Message>)
  {
    predicate Keyed() {
      WellKeyed(tab.members)
    }

    predicate Leads() {
      cfg.self in leaders
    }

    function Apply(next: Members): NodeState {
      this.(tab := tab.Commit(next))
    }

    function Send(m: Message): NodeState {
      this.(sent := sent + [m])
    }

    function Announce(id: NodeID): NodeState {
      if id in tab.members then Send(DeltaMsg(NO_NODE, [tab.members[id]])) else this
    }
  }

  datatype Disposition = CleanClose | ProtocolViolation | LinkLost

  datatype ProbeResult = Canceled | Failed | Scored(score: Score)

  datatype Event =
    | PeerUp(id: NodeID, advertise: NodeAddress, incarnation: int64)
    | PeerDown(id: NodeID, disposition: Disposition)
    | Delta(from: NodeID, records: seq<Member>)
    | JoinCluster(from: NodeID, worker: NodeID, number: nat)
    | JoinAck(from: NodeID, number: nat, accepted: bool, named: NodeID)
    | Leave(from: NodeID)
    | Malformed(from: NodeID)
    | Heartbeat(from: NodeID, term: nat)
    | HeartbeatAck(from: NodeID, term: nat, observed: NodeID)
    | StateSync(from: NodeID, named: NodeID, term: nat)
    | ProbeTick
    | ProbeRound(seqno: nat, results: map<NodeID, ProbeResult>, selfScore: Score)
    | FloorTick
    | GossipTick(to: NodeID)
    | ControlTick
    | Tune(threshold: Option<real>, hysteresis: Option<real>)

  ghost function Boot(cfg: NodeConfig, election: Config, rehome: real, incarnation: int64): NodeState {
    NodeState(cfg, election, rehome,
              TableState(map[cfg.self := Member(cfg.self, cfg.advertise, Worker, Alive, incarnation, Unavailable, 1)],
                         1),
              incarnation, 0, [], NO_NODE, NO_NODE, 0, 0, 0, {}, map[], map[], map[], false, 0, map[], 0, 0, [])
  }

  // ---------------------------------------------------------------------------
  // Evaluate: election and affinity
  // ---------------------------------------------------------------------------

  function Undoubted(suspects: map<NodeID, Suspicion>): NodeID -> bool {
    (id: NodeID) => id !in suspects
  }

  function SendJoin(n: NodeState, to: NodeID): (n': NodeState)
    ensures n'.cfg == n.cfg && (n.Keyed() ==> n'.Keyed())
  {
    if n.cfg.delivers(n.joins) then
      n.(leader := to, joins := n.joins + 1, joinID := n.joins + 1, sinceBeat := 0).Send(JoinMsg(to, n.joins + 1))
    else
      n.(leader := NO_NODE, joins := n.joins + 1, joinID := 0)
  }

  /** Workers still ours to lead: known, not dead, and not claiming leadership themselves. */
  function StillOurs(attached: set<NodeID>, t: Members): set<NodeID> {
    set id <- attached | id in t && !t[id].state.Dead? && t[id].role != Leader
  }

  function Follow(n: NodeState, elected: seq<NodeID>): (n': NodeState)
    ensures n'.cfg == n.cfg && (n.Keyed() ==> n'.Keyed())
  {
    var usable := Keep(Undoubted(n.suspects), elected);
    var leader := if n.leader != NO_NODE && n.leader !in usable then NO_NODE else n.leader;
    var best := if n.hint != NO_NODE && n.hint in usable then n.hint else Closest(n.local, usable);
    var next := n.(attached := {}, leader := leader, hint := NO_NODE);
    if n.rejections <= MAX_REJECTIONS_PER_ROUND && best != NO_NODE &&
       ShouldRehome(leader, best, n.local, usable, n.rehome)
    then SendJoin(next, best)
    else next
  }

  ghost function ElectionOf(n: NodeState): Result
    requires n.Keyed()
  {
    Elected(ViewOf(n.tab.members), ReportedScores(n.tab.members), n.election)
  }

  function TakeRole(n: NodeState, elected: seq<NodeID>): (n': NodeState)
    ensures n'.cfg == n.cfg && (n.Keyed() ==> n'.Keyed())
  {
    var next := n.Apply(WithRole(n.tab.members, n.cfg.self, if n.cfg.self in elected then Leader else Worker));
    if next.tab == n.tab then n else next.Announce(n.cfg.self)
  }

  function TakeLeaders(n: NodeState, elected: seq<NodeID>): (n': NodeState)
    ensures n'.cfg == n.cfg && (n.Keyed() ==> n'.Keyed())
  {
    if elected == n.leaders then n
    else n.(leaders := elected, term := n.term + 1).Send(ElectionMsg(n.term + 1, elected))
  }

  ghost function Evaluate(n: NodeState): (n': NodeState)
    requires n.Keyed()
    ensures n'.Keyed()
  {
    var elected := ElectionOf(n).leaders;
    var n1 := TakeLeaders(TakeRole(n, elected), elected);
    if n.cfg.self in elected then
      n1.(leader := n.cfg.self, hint := NO_NODE, attached := StillOurs(n.attached, n.tab.members))
    else Follow(n1, elected)
  }

  /** Measurements of peers that are dead or gone are dropped. */
  function Pruned(n: NodeState): NodeState {
    var t := n.tab.members;
    n.(local := map id <- n.local | id == n.cfg.self || (id in t && !t[id].state.Dead?) :: n.local[id],
       missed := map id <- n.missed | id in t && !t[id].state.Dead? :: n.missed[id])
  }

  ghost function MembershipChanged(n: NodeState): (n': NodeState)
    requires n.Keyed()
    ensures n'.Keyed()
  {
    Evaluate(Pruned(n))
  }

  /** `MembershipChanged`, if the table moved since `before`. */
  ghost function IfChanged(before: NodeState, n: NodeState): (n': NodeState)
    requires n.Keyed()
    ensures n'.Keyed()
  {
    if n.tab.version != before.tab.version then MembershipChanged(n) else n
  }

  // ---------------------------------------------------------------------------
  // First-hand evidence
  // ---------------------------------------------------------------------------

  /** A death, by inference or by goodbye; a change is pushed to every peer. */
  function MarkDead(n: NodeState, id: NodeID): (n': NodeState)
    ensures n'.cfg == n.cfg && (n.Keyed() ==> n'.Keyed())
  {
    var next := n.(attached := n.attached - {id}, suspects := n.suspects - {id})
                 .Apply(WithState(n.tab.members, id, Dead));
    if next.tab == n.tab then next else next.Announce(id)
  }

  /** A doubt: timed from now if not already timed, pushed if the table changed. The dead are left alone. */
  function Doubt(n: NodeState, now: Time, id: NodeID, silent: bool): (n': NodeState)
    ensures n'.cfg == n.cfg && (n.Keyed() ==> n'.Keyed())
  {
    if id == n.cfg.self || id !in n.tab.members || n.tab.members[id].state.Dead? then n
    else
      var s := if id in n.suspects then n.suspects[id].(silent := n.suspects[id].silent || silent)
               else Suspicion(now, n.tab.members[id].incarnation, n.probeSeq, silent);
      var next := n.(suspects := n.suspects[id := s]).Apply(WithState(n.tab.members, id, Suspect));
      if next.tab == n.tab then next else next.Announce(id)
  }

  /** The table after a completed handshake, which is first-hand evidence of life. */
  function Greeted(n: NodeState, id: NodeID, advertise: NodeAddress, incarnation: int64): (n': NodeState)
    ensures n'.cfg == n.cfg && (n.Keyed() ==> n'.Keyed())
  {
    var t := n.tab.members;
    var (role, score) := if id in t then (t[id].role, t[id].score) else (Worker, Unavailable);
    var n1 := n.Apply(Upserted(t, Member(id, advertise, role, Alive, incarnation, score, 0)));
    n1.Apply(Revived(n1.tab.members, id, incarnation)).(suspects := n.suspects - {id})
  }

  ghost function OnPeerUp(n: NodeState, id: NodeID, advertise: NodeAddress, incarnation: int64): NodeState
    requires n.Keyed()
  {
    if id == NO_NODE || id == n.cfg.self then n
    else
      var n1 := Greeted(n, id, advertise, incarnation);
      IfChanged(n, n1.Send(DeltaMsg(id, ViewOf(n1.tab.members))))
  }

  ghost function OnPeerDown(n: NodeState, now: Time, id: NodeID, disposition: Disposition): NodeState
    requires n.Keyed()
  {
    if id == NO_NODE || id == n.cfg.self then n
    else
      var n1 := n.(attached := n.attached - {id});
      IfChanged(n, if disposition.LinkLost? then Doubt(n1, now, id, false) else MarkDead(n1, id))
  }

  ghost function OnDeath(n: NodeState, id: NodeID): NodeState
    requires n.Keyed()
  {
    IfChanged(n, MarkDead(n, id))
  }

  // ---------------------------------------------------------------------------
  // Rumours
  // ---------------------------------------------------------------------------

  function Refute(n: NodeState, rumour: Member): (n': NodeState)
    ensures n'.cfg == n.cfg && (n.Keyed() ==> n'.Keyed())
  {
    if rumour.state.Alive? || rumour.incarnation < n.incarnation then n
    else
      var t, self, inc := n.tab.members, n.cfg.self, NextIncarnation(rumour.incarnation);
      var (role, score, stamp) := if self in t then (t[self].role, t[self].score, t[self].claimSeq)
                                  else (Worker, Measured(0.0), 0);
      n.(incarnation := inc)
       .Apply(Upserted(t, Member(self, n.cfg.advertise, role, Alive, inc, score, stamp)))
       .Announce(self)
  }

  /**
   * A relayed record as the table takes it: a negative score is unmeasured, and an unordered role is believed only
   * first-hand.
   */
  function Received(rec: Member, from: NodeID, before: Members): Member {
    var score := if rec.score.Measured? && rec.score.value >= 0.0 then rec.score else Unavailable;
    var role := if rec.claimSeq == 0 && rec.id != from then (if rec.id in before then before[rec.id].role else Worker)
                else rec.role;
    rec.(score := score, role := role)
  }

  predicate Skipped(n: NodeState, before: Members, rec: Member) {
    rec.id == NO_NODE || (rec.id != n.cfg.self && rec.id !in before && rec.state.Dead?)
  }

  function TakeRecord(n: NodeState, before: Members, from: NodeID, rec: Member): (n': NodeState)
    ensures n'.cfg == n.cfg && (n.Keyed() ==> n'.Keyed())
  {
    if Skipped(n, before, rec) then n
    else if rec.id == n.cfg.self then Refute(n, rec)
    else n.Apply(Upserted(n.tab.members, Received(rec, from, before)))
  }

  /** Handles the records in order; the flag says whether any record about another member changed the table. */
  function TakeRecords(n: NodeState, before: Members, from: NodeID, records: seq<Member>): (NodeState, bool) {
    if records == [] then (n, false)
    else
      var front, rec := records[..|records| - 1], records[|records| - 1];
      var (n1, changed) := TakeRecords(n, before, from, front);
      var n2 := TakeRecord(n1, before, from, rec);
      (n2, changed || (rec.id != n.cfg.self && n2.tab != n1.tab))
  }

  /** A leader that has just claimed to be a worker no longer lists us. */
  function VoidAttachment(n: NodeState, before: Members): NodeState {
    var t := n.tab.members;
    if n.leader == NO_NODE || n.leader == n.cfg.self then n
    else if n.leader in before && before[n.leader].role == Leader && n.leader in t && t[n.leader].role != Leader
    then n.(leader := NO_NODE)
    else n
  }

  lemma TakeRecordsKeyed(n: NodeState, before: Members, from: NodeID, records: seq<Member>)
    requires n.Keyed()
    ensures WellKeyed(TakeRecords(n, before, from, records).0.tab.members)
    ensures TakeRecords(n, before, from, records).0.cfg == n.cfg
  {
  }

  ghost function OnDelta(n: NodeState, from: NodeID, records: seq<Member>): NodeState
    requires n.Keyed()
  {
    TakeRecordsKeyed(n, n.tab.members, from, records);
    var (n', changed) := TakeRecords(n, n.tab.members, from, records);
    if changed then MembershipChanged(VoidAttachment(n', n.tab.members)) else n'
  }

  // ---------------------------------------------------------------------------
  // The JOIN exchange and heartbeats
  // ---------------------------------------------------------------------------

  function OnJoinCluster(n: NodeState, from: NodeID, claimed: NodeID, number: nat): NodeState {
    var worker := if claimed == NO_NODE then from else claimed;
    if n.Leads() then n.(attached := n.attached + {worker}).Send(JoinAckMsg(from, number, true, n.cfg.self))
    else n.Send(JoinAckMsg(from, number, false, n.leader))
  }

  ghost function OnJoinAck(n: NodeState, from: NodeID, number: nat, accepted: bool, named: NodeID): NodeState
    requires n.Keyed()
  {
    if number == 0 || number != n.joinID || n.leader != from then n
    else
      var n1 := n.(joinID := 0);
      if accepted then
        if named == NO_NODE || named == from then n1.(hint := NO_NODE) else Evaluate(n1.(leader := NO_NODE))
      else Evaluate(n1.(leader := NO_NODE, hint := named, rejections := n.rejections + 1))
  }

  /** A beat comes from the sender's own loop, which is what a silence suspicion doubted. */
  ghost function BeatResumed(n: NodeState, from: NodeID): NodeState
    requires n.Keyed()
  {
    if from !in n.suspects || !n.suspects[from].silent then n
    else IfChanged(n, n.(suspects := n.suspects - {from})
                       .Apply(Revived(n.tab.members, from, n.suspects[from].incarnation)))
  }

  ghost function OnHeartbeat(n: NodeState, from: NodeID, term: nat): NodeState
    requires n.Keyed()
  {
    var n' := if term < n.term then n
              else BeatResumed(n.(term := term,
                                  sinceBeat := if from == n.leader && !n.Leads() then 0 else n.sinceBeat), from);
    n'.Send(BeatAckMsg(from, n'.term, n'.leader))
  }

  function OnHeartbeatAck(n: NodeState, from: NodeID, term: nat, observed: NodeID): NodeState {
    var t := n.tab.members;
    var n' := n.(term := if term > n.term then term else n.term);
    if observed != n.cfg.self && from in n.attached then n'.(attached := n.attached - {from})
    else if observed == n.cfg.self && from !in n.attached && n.Leads() &&
            from in t && !t[from].state.Dead? && t[from].role != Leader
    then n'.(attached := n.attached + {from})
    else n'
  }

  function OnStateSync(n: NodeState, from: NodeID, named: NodeID, term: nat): NodeState {
    if n.Leads() || from != n.leader || (named != NO_NODE && named != from) then n
    else n.(term := if term > n.term then term else n.term)
  }

  ghost function CheckLeaderSilence(n: NodeState, now: Time): NodeState
    requires n.Keyed()
  {
    if n.sinceBeat + 1 < n.cfg.heartbeatMisses then n.(sinceBeat := n.sinceBeat + 1)
    else MembershipChanged(Doubt(n.(sinceBeat := 0), now, n.leader, true).(leader := NO_NODE))
  }

  // ---------------------------------------------------------------------------
  // Probing
  // ---------------------------------------------------------------------------

  function OnProbeTick(n: NodeState): NodeState {
    if n.probing then n else n.(probing := true, probeSeq := n.probeSeq + 1)
  }

  function ProbeMissed(n: NodeState, now: Time, id: NodeID): (n': NodeState)
    ensures n'.cfg == n.cfg && (n.Keyed() ==> n'.Keyed())
  {
    var misses := (if id in n.missed then n.missed[id] else 0) + 1;
    var next := n.(local := n.local[id := Unavailable], missed := n.missed[id := misses]);
    if misses >= n.cfg.deadAfter then MarkDead(next, id)
    else if misses >= n.cfg.suspectAfter then Doubt(next, now, id, false)
    else next
  }

  /** Evidence of life for a suspect, unless it predates the doubt or cannot answer it. */
  function ProbeClears(n: NodeState, id: NodeID, round: nat, incarnation: int64): (n': NodeState)
    ensures n'.cfg == n.cfg && (n.Keyed() ==> n'.Keyed())
  {
    if id in n.suspects && (round <= n.suspects[id].round || n.suspects[id].silent) then n
    else n.(suspects := n.suspects - {id}).Apply(Revived(n.tab.members, id, incarnation))
  }

  function TakeResult(n: NodeState, now: Time, round: nat, view: Members, id: NodeID, result: ProbeResult)
      : (n': NodeState)
    ensures n'.cfg == n.cfg && (n.Keyed() ==> n'.Keyed())
  {
    if id !in view || view[id].state.Dead? then n
    else match result
      case Canceled => n
      case Failed => ProbeMissed(n, now, id)
      case Scored(score) =>
        var next := n.(local := n.local[id := score], missed := n.missed[id := 0]);
        if view[id].state.Suspect? then ProbeClears(next, id, round, view[id].incarnation) else next
  }

  function TakeResults(n: NodeState, now: Time, round: nat, view: Members, ids: seq<NodeID>,
                       results: map<NodeID, ProbeResult>): NodeState
    requires forall id <- ids :: id in results
  {
    if ids == [] then n
    else
      var last := ids[|ids| - 1];
      TakeResult(TakeResults(n, now, round, view, ids[..|ids| - 1], results), now, round, view, last, results[last])
  }

  /** A self-score is announced when it becomes or stops being known, or moves by at least the election margin. */
  function TakeSelfScore(n: NodeState, next: Score): NodeState {
    var t, self, margin := n.tab.members, n.cfg.self, n.election.WithDefaults().hysteresis;
    var prev := if self in t then t[self].score else Unavailable;
    var n' := n.(local := n.local[self := next]);
    if prev.Measured? && next.Measured? && Abs(next.value - prev.value) < margin then n'
    else
      var n'' := n'.Apply(WithScore(t, self, next));
      if n''.tab == n.tab then n'' else n''.Announce(self)
  }

  function Abs(x: real): real {
    if x < 0.0 then -x else x
  }

  ghost function ProbeResultsTaken(n: NodeState, now: Time, round: nat, results: map<NodeID, ProbeResult>): NodeState {
    var n1 := n.(probing := false, rejections := 0);
    var n2 := TakeResults(n1, now, round, n.tab.members, IdList(results.Keys), results);
    if n2.tab.version != n.tab.version then Pruned(n2) else n2
  }

  lemma {:induction false} TakeResultsKeyed(n: NodeState, now: Time, round: nat, view: Members, ids: seq<NodeID>,
                                            results: map<NodeID, ProbeResult>)
    requires n.Keyed() && forall id <- ids :: id in results
    ensures WellKeyed(TakeResults(n, now, round, view, ids, results).tab.members)
  {
    if ids != [] {
      TakeResultsKeyed(n, now, round, view, ids[..|ids| - 1], results);
    }
  }

  ghost function OnProbeRound(n: NodeState, now: Time, round: nat, results: map<NodeID, ProbeResult>,
                              selfScore: Score): NodeState
    requires n.Keyed()
  {
    TakeResultsKeyed(n.(probing := false, rejections := 0), now, round, n.tab.members, IdList(results.Keys), results);
    Evaluate(TakeSelfScore(ProbeResultsTaken(n, now, round, results), selfScore))
  }

  // ---------------------------------------------------------------------------
  // The failure-detector tick
  // ---------------------------------------------------------------------------

  /** A doubt still standing: the record has not been refuted, revived, restarted or buried since. */
  predicate Stands(s: Suspicion, id: NodeID, t: Members) {
    id in t && t[id].state.Suspect? && t[id].incarnation == s.incarnation
  }

  function Expire(n: NodeState, now: Time, view: Members, id: NodeID): (n': NodeState)
    ensures n'.cfg == n.cfg && (n.Keyed() ==> n'.Keyed())
  {
    if id !in n.suspects then n
    else if !Stands(n.suspects[id], id, view) then n.(suspects := n.suspects - {id})
    else if now - n.suspects[id].since < n.cfg.suspicionTimeout then n
    else MarkDead(n, id)
  }

  function ExpireAll(n: NodeState, now: Time, view: Members, ids: seq<NodeID>): NodeState {
    if ids == [] then n
    else Expire(ExpireAll(n, now, view, ids[..|ids| - 1]), now, view, ids[|ids| - 1])
  }

  lemma ExpireAllKeyed(n: NodeState, now: Time, view: Members, ids: seq<NodeID>)
    requires n.Keyed()
    ensures WellKeyed(ExpireAll(n, now, view, ids).tab.members)
  {
  }

  ghost function ExpireSuspicions(n: NodeState, now: Time): (n': NodeState)
    requires n.Keyed()
    ensures n'.Keyed()
  {
    ExpireAllKeyed(n, now, n.tab.members, IdList(n.suspects.Keys));
    ExpireAll(n, now, n.tab.members, IdList(n.suspects.Keys))
  }

  predicate Buried(t: Members, self: NodeID, id: NodeID) {
    id in t && id != self && t[id].state.Dead?
  }

  /** Times every death record in the table, afresh if it is a new one, and forgets the rest. */
  function Reconciled(n: NodeState, now: Time): map<NodeID, Tombstone> {
    var t := n.tab.members;
    if n.tab.version == n.tombVersion then n.tombstones
    else map id <- t | Buried(t, n.cfg.self, id) ::
           if id in n.tombstones && n.tombstones[id].incarnation == t[id].incarnation then n.tombstones[id]
           else Tombstone(now, t[id].incarnation)
  }

  /** The death records old enough to collect, if they are still the ones that were timed. */
  function Collected(n: NodeState, now: Time): set<NodeID> {
    var t, tombs := n.tab.members, Reconciled(n, now);
    set id <- tombs | now - tombs[id].since >= n.cfg.tombstoneTTL
                      && id in t && t[id].state.Dead? && t[id].incarnation == tombs[id].incarnation
  }

  function SweepTombstones(n: NodeState, now: Time): NodeState {
    var tombs, gone := Reconciled(n, now), Collected(n, now);
    n.(tombVersion := n.tab.version,
       tombstones := map id <- tombs | now - tombs[id].since < n.cfg.tombstoneTTL :: tombs[id],
       tab := TableState(n.tab.members - gone, n.tab.version + |gone|))
  }

  function Beat(n: NodeState): NodeID -> Message {
    (w: NodeID) => BeatMsg(w, n.term)
  }

  ghost function OnControlTick(n: NodeState, now: Time): NodeState
    requires n.Keyed()
  {
    var n1 := SweepTombstones(IfChanged(n, ExpireSuspicions(n, now)), now);
    if n1.Leads() then n1.(sent := n1.sent + Map(Beat(n1), IdList(n1.attached)))
    else if n1.leader != NO_NODE then CheckLeaderSilence(n1, now)
    else n1
  }

  // ---------------------------------------------------------------------------
  // The loop
  // ---------------------------------------------------------------------------

  /** The settings after a tuning request; values out of range are ignored. One knob sets both damping margins. */
  function Tuned(n: NodeState, threshold: Option<real>, hysteresis: Option<real>): (n': NodeState)
    ensures n.Keyed() ==> n'.Keyed()
  {
    var th := if threshold.Some? && 0.0 < threshold.value <= 1.0 then threshold.value else n.election.threshold;
    var hy := hysteresis.Some? && hysteresis.value >= 0.0;
    n.(election := Config(th, if hy then hysteresis.value else n.election.hysteresis),
       rehome := if hy then hysteresis.value else n.rehome)
  }

  ghost function OnTune(n: NodeState, threshold: Option<real>, hysteresis: Option<real>): NodeState
    requires n.Keyed()
  {
    var n' := Tuned(n, threshold, hysteresis);
    if n' == n then n else Evaluate(n')
  }

  ghost function Step(n: NodeState, now: Time, e: Event): NodeState
    requires n.Keyed()
  {
    match e
    case PeerUp(id, advertise, incarnation) => OnPeerUp(n, id, advertise, incarnation)
    case PeerDown(id, disposition) => OnPeerDown(n, now, id, disposition)
    case Delta(from, records) => OnDelta(n, from, records)
    case JoinCluster(from, worker, number) => OnJoinCluster(n, from, worker, number)
    case JoinAck(from, number, accepted, named) => OnJoinAck(n, from, number, accepted, named)
    case Leave(from) => OnDeath(n, from)
    case Malformed(from) => OnDeath(n, from)
    case Heartbeat(from, term) => OnHeartbeat(n, from, term)
    case HeartbeatAck(from, term, observed) => OnHeartbeatAck(n, from, term, observed)
    case StateSync(from, named, term) => OnStateSync(n, from, named, term)
    case ProbeTick => OnProbeTick(n)
    case ProbeRound(round, results, selfScore) => OnProbeRound(n, now, round, results, selfScore)
    case FloorTick => Evaluate(n)
    case GossipTick(to) => n.Send(DeltaMsg(to, ViewOf(n.tab.members)))
    case ControlTick => OnControlTick(n, now)
    case Tune(threshold, hysteresis) => OnTune(n, threshold, hysteresis)
  }

  /** Honest traffic: a link never ends at its own node, peers join for themselves, and a node does not probe itself. */
  predicate Plausible(n: NodeState, e: Event) {
    match e
    case PeerUp(_, _, _) => true
    case PeerDown(_, _) => true
    case JoinCluster(from, worker, _) => from != n.cfg.self && from != NO_NODE && worker != n.cfg.self
    case JoinAck(from, _, _, _) => from != n.cfg.self && from != NO_NODE
    case Delta(from, _) => from != n.cfg.self && from != NO_NODE
    case Leave(from) => from != n.cfg.self && from != NO_NODE
    case Malformed(from) => from != n.cfg.self && from != NO_NODE
    case Heartbeat(from, _) => from != n.cfg.self && from != NO_NODE
    case HeartbeatAck(from, _, _) => from != n.cfg.self && from != NO_NODE
    case StateSync(from, _, _) => from != n.cfg.self && from != NO_NODE
    case ProbeRound(_, results, _) => n.cfg.self !in results
    case _ => true
  }
}
