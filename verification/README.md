# Verification of the swarm core

This project models the parts of the system where correctness depends on more than one function at a time, and proves
what they promise. To verify: `dafny verify dfyconfig.toml` (Dafny 4.11).

**The swarm** (`backend/pkg/cluster`). Every node keeps a table of what it believes about every member, merged from gossip,
corrected by first-hand evidence, and ranked to elect leaders.

- `Membership.dfy`: records, the merge rule, and the table, a class that mutates a map and a version counter.
  `Authors.dfy`: why what members say about themselves is what convergence asks for, and is heard.
- `Election.dfy`, `ElectionProperties.dfy`, `ElectionFixedPoint.dfy`: the election as loops over sequences proved against a
  specification of its outcome; what the outcome guarantees; and why announcing an outcome does not change it.
  `Electors.dfy`: who counts, who leads and who makes way, in terms of roles, states and scores.
- `Affinity.dfy`: which leader a worker attaches to, when it moves, and why it settles.
- `NodeModel.dfy`: one node's event loop as a transition function. `Node.dfy`: the loop as a class that updates its fields
  and its table in place, each handler proved to be its transition, so what is proved of transitions holds of the loop.
- `NodeInvariant.dfy`, `NodeRuns.dfy`: what every event keeps, and what holds of whole runs. `Joining.dfy`, `Effects.dfy`,
  `Detector.dfy`, `Tombstones.dfy`: what each event does, said outright. `Current.dfy`: why a node's leaders are always
  those of its table.
- `Attachment.dfy`, `Misses.dfy`: over whole runs, which JOIN is outstanding, what a leader's silence is, and what a count of
  missed probes is.
- `Suspicions.dfy`: why a timed-out suspicion is always first-hand and unbroken.
- `Ceilings.dfy`, `Swarm.dfy`: N nodes over a network that loses, duplicates, delays and reorders whatever was ever sent:
  the incarnation ceiling, and the permanence of a death. The suspicion design follows SWIM (Das, Gupta and Motivala, DSN
  2002, section 4.2); advancing the incarnation on a death is this system's own rule. `Deaths.dfy`: the permanence of a
  first-hand death. `StaleDeaths.dfy`: the runs in which one is undone.
- `Gossip.dfy`: the shuffled round-robin (section 4.3 of the same paper) and its 2N-1 bound.
- `Ledger.dfy`, `Replication.dfy`: the leader's task ledger, its eviction and trimming, one report for each result, and the
  snapshots by which workers replicate it. `Assignments.dfy`: where tasks go and what comes of them. `Delivery.dfy`: why
  the snapshots keep up. `Failover.dfy`: leading on from a copy.
- `Clock.dfy`: the simulated clock's timer queue.

**The wire** (`backend/pkg/mavlink`, `esp`). `Bits.dfy` and `Checksum.dfy` hold the CRC and what it detects, `Frame.dfy` the
MAVLink 2 encoder, decoder and resynchronising stream parser (MAVLink Developer Guide, "Packet Serialization"), and
`Crtp.dfy` with `CrtpProperties.dfy` the ground unit's client of the drone's log link. `Drone.dfy` puts the client together
with a drone that reads its bytes.

**The control center** (`backend/pkg/controlcenter`). `HubCall.dfy` is the run-or-abandon protocol between callers and the
hub, over every interleaving of its atomic steps.

`Health.dfy` is the score order; `Sorting.dfy` is the library sort with the facts the rest needs of it; `Options.dfy` is the
option type.

How the source is read:

- A score is `Unavailable` or `Measured` with a real value: NaN and the infinities are one class, as the code treats them.
- Identifiers are numbers, of which only equality and order matter; 0 stands for the empty identifier, the least.
- Incarnations are 64-bit and saturate, as in the code. A node's handshakes carry the one its transport read at start-up
  (`backend/cmd/swarm-node/main.go:219`) for good; its own starts from a second, later reading (line 293 there) and moves
  by refutation. Other counters are unbounded except where they are bytes.
- What the network decides is fixed in advance: `delivers(k)` says whether the k-th JOIN (or TASK) send succeeds. A shuffle
  is any permutation. The encoded size of a snapshot is any function of it.
- A node's events carry the instant they are handled at; nothing is asked of how instants follow one another.
- `Plausible` is what the transport guarantees: frames come from another, named node, a worker joins for itself, and a node
  does not probe itself.

Where the documentation and the code differ, the model follows the code:

- A first-hand death is described as outranking every echo. It does exactly when the record it is made from is at most one
  incarnation behind the member, whose handshakes are below the int64 ceiling (`Ceilings.DeathIsFinalExactlyWhen`,
  `Ceilings.OnlyTheFinalStay`). So a member that never refutes stays dead until collected if its two readings of the clock
  are at most one apart (`Deaths.DeathOfTheSilentStays`); `StaleDeaths` has the runs in which a death is undone otherwise:
  after two refutations not heard of, after readings further apart, and at the ceiling.
- `syncPayload` is described as trimming until the snapshot fits. With an encoding that only grows with its records it ends
  exactly if the snapshot fits without any (`Replication.TrimmingEndsIfEmptyFits`); a roster that is over the budget by itself
  keeps it trimming an empty ledger forever (`Replication.RosterOverBudget`).

## Model

| member | source | states |
|---|---|---|
| `Membership.NextIncarnation` | backend/pkg/cluster/member.go:362-378 | never goes back, and is strictly greater exactly below the int64 ceiling (it saturates, it does not wrap) |
| `Membership.Table.Upsert` | backend/pkg/cluster/member.go:225-276 | the merge rule: newer incarnation taken whole, older ignored, at equal incarnation liveness only worsens and the newer Seq wins; reports a change exactly when the contents changed, and then moves the version by one |
| `Membership.Table.SetScore` | backend/pkg/cluster/member.go:282-295 | the author's write of a score, as specified, and a change of version exactly if the score changes; that it spreads is `Authors.WritesAreHeard` |
| `Membership.Table.SetRole` | backend/pkg/cluster/member.go:309-322 | the author's write of a role: bumps Seq and the version exactly when the role changes |
| `Membership.Table.SetState` | backend/pkg/cluster/member.go:347-361 | records first-hand liveness; only a death advances the incarnation, and a repeat changes nothing |
| `Membership.Table.Revive` | backend/pkg/cluster/member.go:399-415 | first-hand evidence of life is taken only at an incarnation at least as new as the one held |
| `Membership.Table.Snapshot` | backend/pkg/cluster/member.go:442-460 | the view lists exactly the table's members, each once, in order of identifier, whatever order the map is walked in |
| `Membership.Table.Remove` | backend/pkg/cluster/member.go:421-432 | removes the record and nothing else |
| `Membership.VersionsIdentifyContents` | backend/pkg/cluster/member.go:435-460 | along any run of mutations two states with the same version have the same contents |
| `Membership.MergedIsJoin` | backend/pkg/cluster/member.go:225-276 | one merge takes the least record covering what was held and what was received: newest incarnation, worst state at it, newest Seq at it |
| `Membership.MergeConverges` | backend/pkg/cluster/member.go:225-276 | folding the merge over the same Seq-ordered records in any order, with any duplication, gives the same table apart from addresses |
| `Membership.TwoRecordsConvergeExactlyWhen` | backend/pkg/cluster/member.go:225-276 | two records give the same table in either order, addresses apart, exactly if they differ in identifier, incarnation or Seq, or agree on the role and on the score (or have no Seq and only one of them is measured) |
| `Membership.UnorderedRecordsDoNotConverge` | backend/pkg/cluster/member.go:225-276 | a concrete pair without Seq that leaves the role to arrival order |
| `Authors.WritingIsCoherent` | backend/pkg/cluster/member.go:278-322 | over any run of a member's own writes (score, role, refutation), the records it goes through are coherent: one role and one score to an incarnation and Seq |
| `Authors.WritesAreHeard` | backend/pkg/cluster/member.go:225-322 | whoever holds any earlier claim of that incarnation and merges a record just written takes the role and the score the member wrote |
| `Authors.StepSpeaksOn` | backend/pkg/cluster/node.go:1377-1422 | no event makes a node contradict what it has said about itself |
| `Authors.OwnRecordAdvances` | backend/pkg/cluster/node.go:1377-1422 | along every run a node's own record only advances, and what it has sent of itself is an earlier or the present form of it |
| `Authors.WhatANodeSaysIsCoherent` | backend/pkg/cluster/node.go:1377-1422 | any two records of itself a node sends in a run are coherent, so what members announce meets the condition under which merging converges |
| `Election.LeaderCount` | backend/pkg/cluster/election.go:69-93 | the least whole number of seats at least n times the threshold: none for an empty swarm, otherwise between 1 and n |
| `Election.Electorate` | backend/pkg/cluster/election.go:198-210 | the loop computes the specified electorate; that it is the alive members and the suspect leaders is what the `Electors` rows state of its outcome |
| `Election.FindWeakest` | backend/pkg/cluster/election.go:217-267 | the seat the protection pass gives up next, as the specification defines it |
| `Election.ApplyHysteresis` | backend/pkg/cluster/election.go:217-267 | the in-place protection loop computes the specified seating |
| `Election.Elect` | backend/pkg/cluster/election.go:126-194 | the whole algorithm, loops and sorts included, computes the specified outcome, which the `Electors` rows state in terms of roles, states and scores |
| `ElectionProperties.WeakestIsWeakest` | backend/pkg/cluster/election.go:240-252 | the seat given up is a newcomer's, no newcomer is worse, and it is the first of the equally bad |
| `ElectionProperties.EligibleRanks` | backend/pkg/cluster/election.go:126-194 | the ranking lists the measurable electorate, best first, each member once |
| `ElectionProperties.HoldMembers` | backend/pkg/cluster/election.go:217-267 | the protection pass seats nobody twice, seats only who was seated or displaced, and unseats no incumbent |
| `ElectionProperties.SeatsAreConserved` | backend/pkg/cluster/election.go:126-194 | leaders are distinct electorate members in order; they number the lesser of the seats wanted and the measurable members, or one lowest identifier if nobody is measurable, or none if nobody is left |
| `ElectionProperties.LowestIdLeads` | backend/pkg/cluster/election.go:150-165 | with nobody measurable the one leader is the lowest identifier of the electorate |
| `ElectionProperties.IncumbentLosesOnlyByMargin` | backend/pkg/cluster/election.go:217-267 | a measurable incumbent left out is worse by at least the hysteresis margin than every newcomer that was seated |
| `ElectionProperties.TopRankedLosesOnlyWithinMargin` | backend/pkg/cluster/election.go:217-267 | a top-ranked member left out is a newcomer, and lost its seat to an incumbent within the margin |
| `ElectionProperties.OrderDoesNotMatter` | backend/pkg/cluster/election.go:126-194 | the same members listed in any order elect the same leaders |
| `ElectionFixedPoint.HoldIsStable` | backend/pkg/cluster/election.go:217-267 | the greedy protection pass, rerun after any subset has adopted the roles it gave, seats the same members |
| `ElectionFixedPoint.AnnouncingKeepsTheOutcome` | backend/pkg/cluster/election.go:126-267 | an outcome is a fixed point: whichever non-suspect members announce the role it gave them, electing again gives the same leaders, size and seat count |
| `ElectionFixedPoint.OnlyBallotsMatter` | backend/pkg/cluster/election.go:126-267 | besides the scores an election reads only identifier, role and state |
| `ElectionFixedPoint.SameRecordsSameLeaders` | backend/pkg/cluster/member.go:225-276 | two nodes that merged the same ordered records, in any order, elect the same leaders from them |
| `Electors.SuspicionUnseatsNobody` | backend/pkg/cluster/election.go:196-210 | whichever incumbents are turned from alive to suspect, leaders, size and seats wanted stay the same |
| `Electors.OutsidersDoNotMatter` | backend/pkg/cluster/election.go:196-210 | removing any members other than the alive and the suspect leaders, so suspect workers and the dead, leaves the outcome as it is |
| `Electors.SizeCountsElectors` | backend/pkg/cluster/election.go:126-210 | the size is the number of members alive, or suspect with the role of leader |
| `Electors.WantIsTheFraction` | backend/pkg/cluster/election.go:30-93 | the seats wanted are the least whole number that is at least the fraction (0.3 if out of range) of those counted |
| `Electors.IncumbentsWinOnScore` | backend/pkg/cluster/election.go:126-194 | an incumbent within the seats wanted on score alone is elected |
| `Electors.IncumbentsYieldToTheMargin` | backend/pkg/cluster/election.go:217-267 | an incumbent that could lead and is not elected is worse by at least the margin (0.5 if out of range) than every newcomer that is |
| `Electors.NewcomersWinOnScore` | backend/pkg/cluster/election.go:126-194 | a newcomer is elected only within the seats wanted on score |
| `Electors.NewcomersYieldWithinTheMargin` | backend/pkg/cluster/election.go:217-267 | a newcomer within the seats wanted and not elected made way for an incumbent outside them that is worse by less than the margin |
| `Electors.TheWorstNewcomersYield` | backend/pkg/cluster/election.go:240-252 | of the newcomers within the seats wanted it is the worst that make way |
| `Electors.TheLowerIdStaysOutOnlyIfWorse` | backend/pkg/cluster/election.go:217-267 | of two displaced incumbents the one with the lower identifier stays out for the other only if it is worse |
| `Electors.TheLowestIdWithinTheMarginStays` | backend/pkg/cluster/election.go:217-267 | the first displaced incumbent in order of identifier that is within the margin of a newcomer keeps its seat |
| `Electors.TheLowestIdLeads` | backend/pkg/cluster/election.go:150-165 | if nobody counted is measured, the one with the lowest identifier leads alone |
| `Affinity.ChooseLeader` | backend/pkg/cluster/affinity.go:25-53 | finds a leader exactly when one is measured, and then the closest: better score, then lower identifier |
| `Affinity.WalksDescend` | backend/pkg/cluster/affinity.go:65-86 | over any number of moves by the same scores every leader moved to is usable, and each is better than every usable one left earlier, by at least the margin |
| `Affinity.WorkersSettle` | backend/pkg/cluster/affinity.go:65-86 | while scores and leaders stay the same a worker never comes back to a leader it left, whatever the margin, so it moves at most as often as there are leaders |
| `NodeLoop.Node.constructor` | backend/pkg/cluster/node.go:466-528 | a new node is alive, a worker, and satisfies the loop invariant |
| `NodeLoop.Node.UsableLeaders` | backend/pkg/cluster/failure.go:137-148 | the elected leaders not doubted first-hand, in order |
| `NodeLoop.Node.Join` | backend/pkg/cluster/node.go:1845-1867 | a JOIN that goes out attaches provisionally and is the one outstanding; one that fails detaches |
| `NodeLoop.Node.FollowLeader` | backend/pkg/cluster/node.go:1788-1832 | the worker's half of an evaluation is the transition, whose JOIN `Joining.WorkerJoinsExactlyWhen` states outright |
| `NodeLoop.Node.DropWorkers` | backend/pkg/cluster/node.go:1768-1787 | a leader keeps exactly the workers still known, not dead, and not claiming leadership |
| `NodeLoop.Node.Reevaluate` | backend/pkg/cluster/node.go:1738-1840 | election and affinity on the node's own fields are the evaluation transition, and keep the loop invariant; what the transition does are the first three `Joining` rows |
| `NodeLoop.Node.PruneLocal` | backend/pkg/cluster/node.go:1157-1174 | measurements of peers dead or gone are dropped, the node's own kept |
| `NodeLoop.Node.MarkDead` | backend/pkg/cluster/node.go:970-1007 | a death detaches, ends the doubt, is recorded one incarnation on, and is pushed exactly if the table changed |
| `NodeLoop.Node.RaiseDoubt` | backend/pkg/cluster/failure.go:79-101 | a doubt is timed from the first evidence, never about self or the dead, and pushed exactly if the table changed |
| `NodeLoop.Node.Greet` | backend/pkg/cluster/node.go:868-896 | a completed handshake keeps role and score, revives at the peer's own incarnation, and ends the doubt |
| `NodeLoop.Node.HandlePeerUp` | backend/pkg/cluster/node.go:861-897 | a link coming up: the handshake, the full view sent back, and a re-evaluation if the table changed |
| `NodeLoop.Node.HandlePeerDown` | backend/pkg/cluster/node.go:898-941 | a lost link is doubt; a goodbye or a protocol violation is death; the worker is detached either way |
| `NodeLoop.Node.RefuteIfNeeded` | backend/pkg/cluster/node.go:1401-1422 | a rumour of doubt or death at least as new as the node is outbid and announced; any other is ignored |
| `NodeLoop.Node.ApplyRecord` | backend/pkg/cluster/node.go:1270-1327 | one relayed record: unordered roles believed only first-hand, unknown tombstones dropped, negative scores unmeasured |
| `NodeLoop.Node.VoidIfLeaderStepped` | backend/pkg/cluster/node.go:1341-1353 | the attachment is void exactly when the node's leader has just claimed to be a worker |
| `NodeLoop.Node.HandleDelta` | backend/pkg/cluster/node.go:1260-1332 | a whole delta, judged against the table as it was before it |
| `NodeLoop.Node.HandleJoinCluster` | backend/pkg/cluster/node.go:1424-1447 | a leader attaches the worker and accepts; anyone else refuses and names its own leader |
| `NodeLoop.Node.HandleJoinAck` | backend/pkg/cluster/node.go:1465-1503 | only the answer to the outstanding JOIN counts; a refusal is counted and its hint kept |
| `NodeLoop.Node.ResumeBeat` | backend/pkg/cluster/heartbeat.go:119-129 | a beat clears a doubt raised by silence and no other |
| `NodeLoop.Node.HandleHeartbeat` | backend/pkg/cluster/heartbeat.go:84-113 | a beat of an older term is not liveness; a newer term is adopted; every beat is answered |
| `NodeLoop.Node.HandleHeartbeatAck` | backend/pkg/cluster/heartbeat.go:132-160 | the attached set follows what the worker says its leader is |
| `NodeLoop.Node.WatchLeader` | backend/pkg/cluster/heartbeat.go:65-80 | after the configured silent ticks the leader is doubted and left |
| `NodeLoop.Node.ApplyMiss` | backend/pkg/cluster/failure.go:105-113 | enough misses kill, fewer doubt |
| `NodeLoop.Node.ClearByProbe` | backend/pkg/cluster/failure.go:122-132 | a probe clears a doubt only if its round is newer and the doubt is not one of silence |
| `NodeLoop.Node.ApplyResults` | backend/pkg/cluster/node.go:1585-1629 | the round's results, in order of identifier, against the membership as it was when the round ended |
| `NodeLoop.Node.ApplyProbeRound` | backend/pkg/cluster/node.go:1585-1650 | a finished round: results, pruning, the self-score announcement, then a re-evaluation |
| `NodeLoop.Node.UpdateSelfScore` | backend/pkg/cluster/node.go:1637-1651 | the self-score is announced when it becomes known, stops being known, or moves by at least the election margin |
| `NodeLoop.Node.ExpireDoubts` | backend/pkg/cluster/failure.go:171-198 | doubts past the timeout become deaths, resolved ones are forgotten, the rest stay |
| `NodeLoop.Node.ReconcileTombstones` | backend/pkg/cluster/failure.go:233-255 | every death record is timed, afresh if it is a new one, and no other |
| `NodeLoop.Node.Sweep` | backend/pkg/cluster/failure.go:233-276 | death records past the TTL are collected if still the ones timed |
| `NodeLoop.Node.HandleControlTick` | backend/pkg/cluster/failure.go:151-166 | the failure-detector tick: confirmations, collection, then beats or the silence count |
| `NodeLoop.Node.ApplyTuning` | backend/pkg/cluster/tuning.go:89-109 | settings out of range are ignored, one knob sets both margins, and only a change re-evaluates |
| `NodeLoop.Node.HandleFrame` | backend/pkg/cluster/node.go:1178-1242 | each kind of frame, handled as its transition says |
| `NodeLoop.Node.Handle` | backend/pkg/cluster/node.go:626-714 | one turn of the loop is the step function, and keeps the loop invariant |
| `NodeInvariant.EvaluateFacts` | backend/pkg/cluster/node.go:1738-1840 | an evaluation touches only the node's own role and its place in the hierarchy, makes the three notions of leading agree, and leaves a worker detached or attached to an elected leader it does not doubt |
| `NodeInvariant.RefuteKeepsInv` | backend/pkg/cluster/node.go:1401-1422 | a refutation leaves the node alive in its own table at exactly its own incarnation |
| `NodeInvariant.OnDeltaKeeps` | backend/pkg/cluster/node.go:1260-1332 | no delta, whatever it says, breaks the loop invariant |
| `NodeInvariant.OnJoinAckKeeps` | backend/pkg/cluster/node.go:1465-1503 | an answer spends at most one rejection, and none is followed by a JOIN once the budget is spent |
| `NodeInvariant.SweepKeeps` | backend/pkg/cluster/failure.go:233-276 | collecting death records never leaves a doubt without its subject |
| `NodeInvariant.StepKeepsInv` | backend/pkg/cluster/node.go:626-714 | whatever event arrives, the node stays the authority on itself, its three notions of leading agree, only a leader has workers, no doubt outlives its subject, and neither its term nor its incarnation goes back |
| `NodeRuns.RunKeepsInv` | backend/pkg/cluster/node.go:626-714 | every state of every run satisfies the loop invariant; terms and the own incarnation only grow |
| `NodeRuns.RejectionsAreCounted` | backend/pkg/cluster/node.go:1497-1503 | between two probe rounds the counter counts exactly the rejections acted on |
| `NodeRuns.JoinsCannotLivelock` | backend/pkg/cluster/node.go:1822-1829 | between two probe rounds at most four rejections are acted on, and after the fourth no JOIN is sent and the node stays detached |
| `NodeRuns.OwnRoleKeepsTheOutcome` | backend/pkg/cluster/node.go:1748-1763 | writing its own elected role into its table does not change what the node elects |
| `NodeRuns.EvaluateIsIdempotent` | backend/pkg/cluster/node.go:1731-1738 | with no hint pending and the JOIN delivered, evaluating twice is evaluating once: nothing changes and nothing is sent |
| `Current.StepIsCurrent` | backend/pkg/cluster/node.go:626-714 | whatever event arrives, a node that goes by the leaders its table elects goes on doing so: whatever moves the table is evaluated, and what is not (collected deaths, a refutation) cannot change the election |
| `Current.LeadersAreCurrent` | backend/pkg/cluster/node.go:626-714 | in every run that begins with the loop's first evaluation, after each event the node goes by exactly the leaders its table elects, leads exactly if it is among them, and says so in its own record |
| `Current.SameScoresSameLeaders` | backend/pkg/cluster/election.go:126-267 | an election does not depend on scores of anybody not in the view |
| `Current.DeadDoNotMatter` | backend/pkg/cluster/failure.go:233-276 | collecting records of the dead changes no election |
| `Current.OnlyTheLivingAreMeasured` | backend/pkg/cluster/node.go:1131-1174 | in every run a node keeps no measurement, and no count of misses, of a peer that is dead or gone |
| `Joining.WorkerJoinsExactlyWhen` | backend/pkg/cluster/node.go:1788-1867 | an evaluation sends a worker's JOIN exactly if rejections are left and there is an elected, undoubted leader to be with (the hinted one if usable, else the best measured, lowest identifier first), and its own leader is none, unusable or unmeasured, or beaten by a positive gain of at least the margin; the JOIN goes to that leader and, delivered, attaches; otherwise nothing is sent and it keeps its leader exactly if usable |
| `Joining.ElectionsAreAnnounced` | backend/pkg/cluster/node.go:1748-1775 | the own role is the elected one, a change of it is told to everybody, and a change of leaders starts a term and is announced with it |
| `Joining.LeaderKeepsItsWorkers` | backend/pkg/cluster/node.go:1768-1787 | an elected node follows nobody and keeps exactly the attached workers it knows that are not dead and do not claim to lead |
| `Joining.JoinsAreAnswered` | backend/pkg/cluster/node.go:1424-1462 | a JOIN to a leader attaches the worker, by default the sender, and is accepted under its number; any other node attaches nobody and names its own leader |
| `Joining.AcceptanceAttaches` | backend/pkg/cluster/node.go:1465-1503 | an acceptance by the leader asked keeps it, and leaves no JOIN outstanding |
| `Joining.RefusalIsFollowed` | backend/pkg/cluster/node.go:1497-1503 | a refusal that names a usable, measured leader sends the worker there, and spends one rejection |
| `Joining.AcksKeepTheRoster` | backend/pkg/cluster/heartbeat.go:132-160 | a beat's answer attaches a worker that says it follows this leader, if it may be attached, and lets go one that says otherwise |
| `Effects.HandshakesAreRecorded` | backend/pkg/cluster/node.go:861-897 | a link that comes up is recorded, ends any doubt about the peer, and is answered with the whole view |
| `Effects.LostLinksAreDoubts` | backend/pkg/cluster/node.go:898-941 | a lost link makes the peer suspect, timed from the first evidence, and lets it go |
| `Effects.GoodbyesAreDeaths` | backend/pkg/cluster/node.go:898-1003 | a goodbye, or a protocol violation, is a death one incarnation on, told to everybody, with no doubt and no attachment left |
| `Effects.RumoursAreHeard` | backend/pkg/cluster/node.go:1260-1332 | a delta leaves each other member as its own record in it says: newer taken whole, older not at all, liveness only worse at one incarnation, roles without Seq only first-hand, unknown deaths not at all |
| `Effects.RumoursOfSelfAreOutbid` | backend/pkg/cluster/node.go:1401-1422 | after any delta that doubts it the node is past the rumour (or at the int64 ceiling with it), and alive in its own table |
| `Effects.SteppedDownLeadersAreLeft` | backend/pkg/cluster/node.go:1341-1353 | a leader that has just claimed to be a worker is left, or joined anew |
| `Effects.BeatsAreAnswered` | backend/pkg/cluster/heartbeat.go:84-129 | every beat is answered with the term and the leader as they are then; one of an older term changes nothing else; any other ends a doubt of silence, and no other doubt |
| `Detector.FailedProbes` | backend/pkg/cluster/failure.go:70-113 | a failed probe is one more miss: from the configured count on a doubt, from the higher one a death one incarnation on, and before that nothing of the record or of a doubt |
| `Detector.AnsweredProbes` | backend/pkg/cluster/node.go:1585-1629 | a measurement is recorded, clears the misses, and clears a suspect unless its round is no newer than the doubt or the doubt is of silence; a probe cut short changes nothing |
| `Detector.SelfScoresAreAnnounced` | backend/pkg/cluster/node.go:1637-1651 | the own record takes the score, one Seq on, and is announced exactly if the score became known, stopped being known, or moved by at least the margin |
| `Detector.RoundsStart` | backend/pkg/cluster/node.go:1511-1530 | one probe round at a time, each with the next number |
| `Detector.RoundsEnd` | backend/pkg/cluster/node.go:1585-1629 | a finished round starts the rejections afresh, and the next may start |
| `Detector.LeadersBeat` | backend/pkg/cluster/heartbeat.go:37-58 | a leader's tick beats to every worker it has, with its term, and to nobody else |
| `Detector.SilentTicksCount` | backend/pkg/cluster/heartbeat.go:65-80 | a worker's tick counts one more without a beat; at the configured number its leader is doubted for silence, and left unless joined anew |
| `Detector.SilentLeadersAreLeft` | backend/pkg/cluster/heartbeat.go:65-80 | in every run, while a worker keeps one leader without a beat of it or a JOIN, the ticks counted stay below the configured number |
| `Detector.GossipIsTheView` | backend/pkg/cluster/node.go:1084-1112 | gossip is the whole view, sent to the peer picked |
| `Detector.SnapshotsCarryTheTerm` | backend/pkg/cluster/replication.go:262-270 | a snapshot's term is adopted exactly if it is newer and comes from the node's own leader in its own name |
| `Detector.TuningIsChecked` | backend/pkg/cluster/tuning.go:89-109 | a threshold is taken in (0, 1], a margin at or above zero, and the margin is that of rehoming too |
| `Tombstones.TicksTimeDeaths` | backend/pkg/cluster/failure.go:233-276 | a tick collects a death record if it has been timed for the configured time, and otherwise leaves it as it is, timed from the first tick that saw it |
| `Tombstones.CollectedExactlyWhenOld` | backend/pkg/cluster/failure.go:233-276 | in every run, while a death record stays the same, a tick collects it exactly if the configured time has passed since the first tick that saw it |
| `Attachment.StepKeepsPlace` | backend/pkg/cluster/node.go:1845-1867 | no event reuses a JOIN number, leaves outstanding any JOIN but the last one sent, or counts silence except on a tick and against one leader; a beat of that leader ends it |
| `Attachment.JoinsAreNumbered` | backend/pkg/cluster/node.go:1845-1867 | in every run JOINs carry strictly increasing numbers, and one outstanding is the last one sent, to the leader the node has unless it has left it |
| `Attachment.OnlyTheLastJoinIsAnswered` | backend/pkg/cluster/node.go:1465-1503 | in every state of every run an answer is acted on exactly if it carries the outstanding number and comes from the node's leader; that is the last JOIN sent and whom it was sent to, so an answer to an earlier JOIN, or from anyone else, changes nothing |
| `Attachment.SilenceIsCounted` | backend/pkg/cluster/heartbeat.go:65-80 | what the silence counter counts: ticks since it last stood at zero, under one leader, with no beat of that leader heard among them |
| `Attachment.SilenceIsEarned` | backend/pkg/cluster/heartbeat.go:65-80 | a leader is found silent only after at least the configured number of ticks under it without one beat of its heard |
| `Misses.StepCounts` | backend/pkg/cluster/node.go:1585-1629 | the count of misses of a peer goes up only by a failed probe of that peer, one for each, and a measurement of it clears the count |
| `Misses.MissesAreCounted` | backend/pkg/cluster/failure.go:105-113 | in every run a count of misses is one of failed probes in a row: as many rounds failed, and none measured the peer since the first of them |
| `Suspicions.RecordContinues` | backend/pkg/cluster/member.go:225-276 | a rumour may end a doubt but never makes a resolved one stand again |
| `Suspicions.StepAccounts` | backend/pkg/cluster/failure.go:79-198 | after any event every doubt held is one held before it, or was raised in it first-hand: a lost link, the failed probe that reaches the threshold of misses, or the leader the tick finds silent |
| `Suspicions.DoubtsHaveAnOrigin` | backend/pkg/cluster/failure.go:79-101 | in every run every doubt goes back to a first-hand step at the instant it is timed from, and if it stands now it has stood in every state since |
| `Suspicions.TimeoutDeathsAreSound` | backend/pkg/cluster/failure.go:171-198 | a member timed out was doubted first-hand here at least the timeout earlier (for silence: after the configured number of ticks under it as the leader with no beat heard; for probes: after the configured number of failed probes with none answered), and has been suspect at that one incarnation without a break since |
| `Suspicions.ExpiryKillsExactlyTheTimedOut` | backend/pkg/cluster/failure.go:171-198 | a tick kills exactly the members that time out, one incarnation on, and touches no other record |
| `Ceilings.StepStaysBounded` | backend/pkg/cluster/node.go:861-1003 | one event at one node keeps what it holds and sends between the members' handshakes and their own incarnations, and holds every final death unless a tick collects it |
| `Ceilings.DeathIsFinalExactlyWhen` | backend/pkg/cluster/member.go:347-378 | a first-hand death is final exactly when the record was at most one behind the member's own incarnation and its handshakes are below the int64 ceiling |
| `Ceilings.OnlyTheFinalStay` | backend/pkg/cluster/member.go:225-415 | every other death can be undone by one event of an honest network: news from the member where it is now, a handshake, or a beat that clears a doubt outliving the record |
| `Ceilings.HandshakeRevives` | backend/pkg/cluster/member.go:380-415 | a handshake revives a dead record exactly if its incarnation is at least the record's |
| `StaleDeaths.StaleDeathIsUndone` | backend/pkg/cluster/member.go:225-378 | a run from any start, for any three nodes: the member has refuted twice before a node that has not heard takes it for dead, and the news of that refutation undoes the death |
| `StaleDeaths.HastyDeathIsUndone` | backend/cmd/swarm-node/main.go:208-295 | the same for a member that never refutes but read its own incarnation two or more after that of its handshakes |
| `StaleDeaths.DeathAtTheCeilingIsUndone` | backend/pkg/cluster/member.go:362-415 | the same for a member whose handshakes are at the int64 ceiling, past which no death can be recorded |
| `Swarm.MoveKeeps` | backend/pkg/cluster/node.go:861-1003 | one step of one node of the swarm keeps the ceiling everywhere; only that node can raise its own |
| `Swarm.CeilingHolds` | backend/pkg/cluster/node.go:1260-1422 | over all runs of N nodes under loss, duplication, reordering and relay: every alive or suspect record held or in flight is at most the member's own incarnation, every dead one at most the next, and none is older than its handshakes |
| `Swarm.DeathIsPermanent` | backend/pkg/cluster/member.go:225-415 | a death above the member's handshakes, and not cleared by its beats, stays a death at every node that holds it until that node collects it, as long as the member has not refuted past it; and the same death, if it is past the member |
| `Swarm.PastDeathHoldsOut` | backend/pkg/cluster/member.go:347-378 | a death past the member's incarnation is always of that kind |
| `Deaths.StepKills` | backend/pkg/cluster/node.go:898-1003 | any event but a rumour that makes a member dead does it by exactly one incarnation and leaves no doubt about it |
| `Deaths.FirstHandDeathStays` | backend/pkg/cluster/node.go:861-1003 | in every run a first-hand death stays until it is collected as long as the member is at most one incarnation past the record it was made from, and its handshakes are below the int64 ceiling |
| `Deaths.DeathOfTheSilentStays` | backend/pkg/cluster/node.go:861-1003 | so in every run a first-hand death of a member that never refutes stays until it is collected, if its two readings of the clock at start-up are at most one apart and below the int64 ceiling |
| `Swarm.RefutationHeals` | backend/pkg/cluster/node.go:1401-1422 | a member that hears of a death past its own incarnation outbids it, and its announcement makes it alive wherever it arrives; at a node holding that death, exactly if the death is below the int64 ceiling |
| `Gossip.Gossiper.SamePeers` | backend/pkg/cluster/node.go:1115-1127 | exactly whether the live peers of the view are those of the current permutation |
| `Gossip.Gossiper.GossipRound` | backend/pkg/cluster/node.go:1084-1112 | one round is the specified one: redraw when exhausted or when the peer set changed, then the next in order |
| `Gossip.RoundFacts` | backend/pkg/cluster/node.go:1060-1112 | after a round the order is a permutation of the live peers and the cursor has passed its target |
| `Gossip.TargetsAreLivePeers` | backend/pkg/cluster/node.go:1084-1112 | every target is a live peer of the view sent, and nothing is sent only when there is none |
| `Gossip.EveryPeerIsReached` | backend/pkg/cluster/node.go:1060-1112 | while the set of live peers stays the same, every one is sent the view in any 2N-1 consecutive rounds, whatever the shuffles pick and however often the table changes |
| `Ledgers.Truncated` | backend/pkg/cluster/replication.go:117-127 | at most the given number of bytes, a prefix, and cut only between characters |
| `Ledgers.TaskLeader.LedgerAppend` | backend/pkg/cluster/replication.go:136-156 | room is made by evicting, then the capped record is appended and the version moves |
| `Ledgers.TaskLeader.CompleteTask` | backend/pkg/cluster/tasks.go:231-260 | the first result closes the record and is reported; an unknown or finished task is left alone |
| `Ledgers.TaskLeader.SetAssignee` | backend/pkg/cluster/tasks.go:122-127 | the assignee changes, and then so does the version |
| `Ledgers.TaskLeader.Assign` | backend/pkg/cluster/tasks.go:98-112 | workers are offered the task in turn from the cursor; if none takes it, it runs here |
| `Ledgers.TaskLeader.LeadTask` | backend/pkg/cluster/tasks.go:87-94 | a task already in the ledger is ignored; a new one is recorded and assigned |
| `Ledgers.TaskLeader.CollectPending` | backend/pkg/cluster/tasks.go:317-330 | the tasks of the records the specification picks, in order |
| `Ledgers.TaskLeader.ReassignFrom` | backend/pkg/cluster/tasks.go:304-311 | the pending tasks of a departed worker are assigned again, each once |
| `Ledgers.TaskLeader.ReissueIfDue` | backend/pkg/cluster/tasks.go:367-379 | after a promotion every pending task is assigned again, once |
| `Ledgers.TaskLeader.SyncPayload` | backend/pkg/cluster/replication.go:221-258 | whenever trimming ends it gives the specified snapshot |
| `Ledgers.TaskLeader.TrimRound` | backend/pkg/cluster/replication.go:238-256 | one round drops the older half of the finished records or, if none, of everything, and always drops something |
| `Ledgers.TaskLeader.FlushSync` | backend/pkg/cluster/replication.go:160-181 | the flush in place is the specified one; that what is owed is sent is `Delivery.PresentIsSent` |
| `Ledgers.TaskLeader.Handle` | backend/pkg/cluster/replication.go:295-306 | one event of a tenure and the flush after it are the specified step |
| `Ledgers.HalvingShrinks` | backend/pkg/cluster/replication.go:238-256 | dropping from a ledger that has something to drop makes it shorter |
| `Replication.AppendIsBounded` | backend/pkg/cluster/replication.go:130-156 | appending keeps the ledger within its size and each task in it once; what it evicts is the oldest finished records and, only once no finished one is left, the oldest pending ones |
| `Replication.HalvingSheds` | backend/pkg/cluster/replication.go:236-256 | a trimming round drops the oldest half, at least one, of the finished records or, if there are none, of everything |
| `Replication.TrimmingSheds` | backend/pkg/cluster/replication.go:216-258 | for any size at all: what trimming ends with fits the budget, keeps term, roster and version, and lacks only the oldest finished records and, only if no finished one is left, the oldest pending ones |
| `Replication.TrimmingEndsExactlyWhen` | backend/pkg/cluster/replication.go:221-258 | for any size at all: trimming ends exactly if the snapshot fits after some number of rounds |
| `Replication.TrimmingEndsIfEmptyFits` | backend/pkg/cluster/replication.go:221-258 | the condition a leader can check beforehand: trimming ends if this snapshot without its ledger fits, and exactly then if records only add to the size |
| `Replication.RosterOverBudget` | backend/pkg/cluster/replication.go:221-258 | a roster longer than the budget, at a byte or more for each worker, fits after no number of rounds, whatever the ledger |
| `Replication.PendingTasksAre` | backend/pkg/cluster/tasks.go:313-330 | exactly the pending, re-issuable records asked for, each once |
| `Replication.AssignAllEdits` | backend/pkg/cluster/tasks.go:98-127 | assigning any set of pending tasks moves only their records, never a finished one, and reports each finish exactly once |
| `Replication.StepKeepsTenure` | backend/pkg/cluster/tasks.go:228-260 | one event keeps the ledger bounded and unique, changes no finished record, reports a task exactly when its record becomes finished, and moves the ledger only together with its version |
| `Replication.FirstResultWins` | backend/pkg/cluster/tasks.go:228-260 | over a tenure a finished record never changes while it stays in the ledger |
| `Replication.ReportedExactlyOnce` | backend/pkg/cluster/tasks.go:228-260 | over any stretch of a tenure in which a task stays in the ledger, it is reported upward exactly once if its record becomes finished, a task refused at once as busy included, and otherwise not at all |
| `Replication.StepKeepsSync` | backend/pkg/cluster/replication.go:76-181 | after every event two snapshots of the tenure with the same (term, version) are equal, and what was sent under the current version is what would be sent now |
| `Replication.TenureKeepsSync` | backend/pkg/cluster/replication.go:76-181 | the same for every state of every tenure |
| `Delivery.TenureDelivers` | backend/pkg/cluster/replication.go:155-214 | in every state of every tenure nothing is owed: the snapshot of the present state has been sent, if there is anybody to send it to and it can be made to fit |
| `Delivery.PresentIsSent` | backend/pkg/cluster/replication.go:155-258 | in every state of every tenure that has workers, if trimming ends, a snapshot sent carries the present term, version and roster, and the present ledger: whole if it fits, otherwise less what trimming sheds |
| `Delivery.WorkersHoldThePresent` | backend/pkg/cluster/replication.go:155-292 | a worker newly attached and reached by everything sent, in any order, holds the ledger of that snapshot |
| `Delivery.NothingNewNothingSent` | backend/pkg/cluster/replication.go:155-181 | a flush with nothing moved sends nothing |
| `Assignments.TasksAreDealtInTurn` | backend/pkg/cluster/tasks.go:84-158 | a task known is ignored; a new one becomes the newest record and goes to the first worker, in turn from the cursor, whose send succeeds, with the cursor past it; if every send fails the leader runs it, or at 256 running tasks refuses it and reports the refusal |
| `Assignments.OrphansAreDealtAgain` | backend/pkg/cluster/tasks.go:304-379 | when a worker goes each of its pending tasks, and at the first tick of a promotion each pending task of the ledger, is assigned to a node still there, or refused; no other record moves, and a promotion's tasks are dealt again once |
| `Assignments.ResultsAreRecorded` | backend/pkg/cluster/tasks.go:190-260 | a result closes the pending record of its task as done or failed, with the first 512 bytes of its output cut between characters and the worker it names, and is reported; any other result changes nothing; a task run here frees its place |
| `Assignments.OutcomesAreReported` | backend/pkg/cluster/tasks.go:228-260 | in every state of every tenure what has been reported are results that came in, or refusals, and every finished record not there from the start says what a reported result said |
| `Assignments.RosterIsWhoAttached` | backend/pkg/cluster/replication.go:155-181 | in every state of every tenure the roster is exactly who attached and has not been detached or lost since, and the term the greatest heard of |
| `Assignments.PromotionDealsAgain` | backend/pkg/cluster/tasks.go:332-379 | a node promoted with a copy goes on from its version, and at the first tick of its tenure, and at no later one, each pending record that holds its task is dealt to a node there |
| `Assignments.PresentIsSentAgain` | backend/pkg/cluster/replication.go:183-214 | the periodic resend sends the present ledger, trimmed as any snapshot, and changes nothing else |
| `Failover.TenureKeepsSound` | backend/pkg/cluster/replication.go:76-181 | in every state of every tenure the ledger and every snapshot ever sent hold each task once, and whatever is finished in them has been reported |
| `Replication.Replica.HandleStateSync` | backend/pkg/cluster/replication.go:262-292 | only the node's own leader's snapshots count, only newer ones replace the copy, and a newer term is adopted |
| `Replication.CopyOnlyAdvances` | backend/pkg/cluster/replication.go:262-292 | as snapshots arrive, in any order, a copy stays what it was or is replaced under a strictly greater (term, version) |
| `Replication.WorkerHoldsWhatWasSent` | backend/pkg/cluster/replication.go:262-292 | whatever part of a tenure's snapshots arrives, in any order and any number of times, the worker holds the greatest key that arrived and exactly the ledger sent under it |
| `Replication.ReplicasAgree` | backend/pkg/cluster/replication.go:262-292 | two workers reached by the same snapshots, in any order, hold the same copy |
| `Failover.CopyIsSound` | backend/pkg/cluster/replication.go:262-305 | whatever part of a tenure's snapshots reaches a worker, its copy is within its size, holds each task once and holds no result that has not been reported: a ledger to lead from |
| `Failover.NotReportedAgain` | backend/pkg/cluster/replication.go:295-305 | across a failover: a task finished in the copy the new leader starts from was reported (or known from the start) in the tenure before, and in the new one it is not reported again while its record, which does not change, is kept |
| `Clock.FakeClock.Register` | backend/pkg/cluster/clock.go:125-139 | a timer is due a duration from now and is created after every other |
| `Clock.FakeClock.Stop` | backend/pkg/cluster/clock.go:243-276 | unregisters that timer and no other |
| `Clock.FakeClock.FindDue` | backend/pkg/cluster/clock.go:220-240 | the first timer in the queue that may fire by the target |
| `Clock.FakeClock.Advance` | backend/pkg/cluster/clock.go:174-215 | ends with the clock at the target, having delivered the specified ticks and left the specified queue |
| `Clock.FiringIsProgress` | backend/pkg/cluster/clock.go:174-215 | every delivery leaves strictly less to deliver, so advancing ends |
| `Clock.DeliversExactlyTheDue` | backend/pkg/cluster/clock.go:174-215 | every live timer fires exactly at its instants up to the target, a ticker once per deadline, a one-shot at most once, and nothing else fires |
| `Clock.DeliversInOrder` | backend/pkg/cluster/clock.go:217-240 | ticks come by deadline, and by creation among equal deadlines, with no repeats |
| `Clock.LeavesOnlyTheFuture` | backend/pkg/cluster/clock.go:174-215 | fired one-shots are gone, tickers stand at their first deadline past the target, other timers are untouched |
| `CrcBits.FoldedFormIsEightShifts` | backend/pkg/mavlink/frame.go:50-64 | the folded expression is exactly eight shift-and-xor steps through the reflected polynomial |
| `CrcBits.MixOfKey` | backend/pkg/mavlink/frame.go:60-64 | different keys give different CRCs whatever the CRCs before |
| `Checksum.ComputeFrameCRC` | backend/pkg/mavlink/frame.go:80-86 | the fold over the body and then CRC_EXTRA |
| `Checksum.DifferentByte` | backend/pkg/mavlink/frame.go:60-64 | different bytes into the same CRC give different CRCs |
| `Checksum.DifferentState` | backend/pkg/mavlink/frame.go:60-64 | the same byte into different CRCs gives different CRCs |
| `Checksum.OneByteIsDetected` | backend/pkg/mavlink/frame.go:66-86 | one byte changed anywhere in a body of any length changes the checksum |
| `Checksum.DefinitionMismatchIsDetected` | backend/pkg/mavlink/frame.go:66-86 | two definitions of a message agree on a frame's checksum exactly if their CRC_EXTRA is the same |
| `Frames.Encode` | backend/pkg/mavlink/frame.go:133-168 | patching and trimming in place appends exactly the frame |
| `Frames.Trim` | backend/pkg/mavlink/frame.go:144-161 | the longest prefix without trailing zeros |
| `Frames.Decode` | backend/pkg/mavlink/frame.go:238-349 | consumes nothing exactly when the frame is not complete, and never more than there is or than the longest frame |
| `Frames.DecodeFrame` | backend/pkg/mavlink/frame.go:238-349 | the one-pass decoder judges, reads and consumes as specified, MAVLink 1 and signed frames included |
| `Frames.LegacyFramesAreRead` | backend/pkg/mavlink/frame.go:262-349 | a version 1 frame of a known message is read with its short payload zero-extended, and consumed exactly; intact but unreadable, it is skipped whole |
| `Frames.FlagsAreHonoured` | backend/pkg/mavlink/frame.go:289-349 | a signed frame is read and its signature skipped; any other incompatibility flag, or a payload its message cannot be read from, makes an intact frame unreadable, and it is skipped whole |
| `Frames.DecodeIsLocal` | backend/pkg/mavlink/frame.go:238-349 | what a complete frame is judged to be does not depend on what follows it |
| `Frames.DecodeEncoded` | backend/pkg/mavlink/frame.go:133-168 | what is encoded decodes to the same message, sequence number and sender, whatever follows, and is consumed exactly |
| `Frames.AlteredFrameIsRejected` | backend/pkg/mavlink/frame.go:289-308 | an accepted frame with any one byte altered but magic, length and message ID is never accepted: bad checksum, one byte consumed, unless it now claims a signature that has yet to arrive |
| `Frames.Parser.Feed` | backend/pkg/mavlink/frame.go:401-410 | the bytes are appended to what is pending, compaction or not |
| `Frames.Parser.Buffered` | backend/pkg/mavlink/frame.go:413 | the number of bytes pending |
| `Frames.Parser.Next` | backend/pkg/mavlink/frame.go:449-491 | one call is the specified one, buffer, event and counters |
| `Frames.Parser.TakeFrame` | backend/pkg/mavlink/frame.go:466-489 | the frame at the magic byte is delivered, waited for, or skipped and counted, as specified |
| `Frames.FindMagic` | backend/pkg/mavlink/frame.go:498-505 | the first byte that could start a frame |
| `Frames.Pull` | backend/pkg/mavlink/frame.go:449-491 | every call that reports something consumes at least one byte |
| `Frames.LeftoverIsBounded` | backend/pkg/mavlink/frame.go:372-379 | after draining at most one unfinished frame is kept, so at most 279 bytes |
| `Frames.GarbageIsSkipped` | backend/pkg/mavlink/frame.go:449-463 | bytes that cannot start a frame are counted and change nothing else |
| `Frames.PullIsLocal` | backend/pkg/mavlink/frame.go:449-491 | an event already decided is not changed by what arrives later |
| `Frames.DrainInTwo` | backend/pkg/mavlink/frame.go:401-491 | draining, feeding more and draining again is feeding everything and draining once |
| `Frames.ChunkingDoesNotMatter` | backend/pkg/mavlink/frame.go:384-491 | however the stream is cut into reads, the same frames, errors, counters and leftover |
| `Frames.StreamRoundTrip` | backend/pkg/mavlink/frame.go:133-168 | messages encoded back to back come out as sent, in order, with nothing rejected or left over |
| `Frames.StreamRoundTripInChunks` | backend/pkg/mavlink/frame.go:384-491 | the same in any chunks and behind any garbage that cannot start a frame |
| `Frames.DatagramRoundTrip` | backend/pkg/mavlink/frame.go:221-230 | a datagram holding a frame decodes to it, whatever trails |
| `Frames.DatagramsAreNotSearched` | backend/pkg/mavlink/frame.go:212-230 | a datagram yields a frame exactly if one stands at its first byte: there is no search |
| `Frames.EventsAreCounted` | backend/pkg/mavlink/frame.go:351-365 | over any reads the counters move by exactly what is reported: frames, failed checksums, every other rejected frame |
| `Frames.UnknownFramesAreSearched` | backend/pkg/mavlink/frame.go:283-299 | a frame of an unknown message is reported and only its header passed over, so that its payload is searched for frames |
| `Frames.AlteredFrameCostsOneByte` | backend/pkg/mavlink/frame.go:435-491 | a frame in the stream altered in one byte costs one byte: the search goes on at the very next |
| `Frames.Sequencer.Next` | backend/pkg/mavlink/frame.go:196-206 | each sender's calls are numbered 0 to 255 and round again, whatever the others do |
| `HubCall.StepKeepsInv` | backend/pkg/controlcenter/server.go:313-366 | every atomic step of callers, hub and cancellation keeps the agreement between the raced word, the queue and the hub |
| `HubCall.BackForGood` | backend/pkg/controlcenter/server.go:313-356 | a call that has returned is never started or finished afterwards |
| `HubCall.RunOrAbandon` | backend/pkg/controlcenter/server.go:313-356 | in every interleaving: true means the function ran to completion exactly once, false means it never starts |
| `HubCall.CommittedIsServed` | backend/pkg/controlcenter/server.go:350-355 | a caller committed to wait can return, or the hub is executing its function and two steps from letting it |
| `HubCall.StoppedHubReleasesEveryone` | backend/pkg/controlcenter/server.go:327-356 | once the hub has stopped every call not yet back has a step of its own to take |
| `HubCall.HubHasWork` | backend/pkg/controlcenter/hub.go:105-120 | while a call is on its way to a hub that has not stopped, the hub has a step to take |
| `HubCall.HubComesNearer` | backend/pkg/controlcenter/hub.go:105-120 | every step of the hub brings it nearer to every call on its way, and nobody else's step takes it further off |
| `HubCall.AbandonedForAReason` | backend/pkg/controlcenter/server.go:342-352 | in every interleaving a call is abandoned only if it was cancelled or the hub has stopped |
| `HubCall.EveryCallIsServed` | backend/pkg/controlcenter/server.go:313-356 | in every interleaving a call on its way has been started once the hub has taken the steps for what was ahead of it, unless it was cancelled or the hub has stopped |
| `Crtp.Checksum8` | esp/crtp_log.h:54-58 | the 8-bit sum of the bytes |
| `Crtp.DatagramRoundTrip` | esp/crtp_log.h:69-88 | what is encoded decodes to the same port, channel and data |
| `Crtp.AlteredDatagramIsRefused` | esp/crtp_log.h:79-88 | one byte altered anywhere: refused |
| `Crtp.LayoutFacts` | esp/crtp_log.h:405-416 | a block holds exactly the wanted variables found in the drone's table |
| `Crtp.Client.BuildCreate` | esp/crtp_log.h:401-416 | the create request lists the block's variables in order, type and id |
| `Crtp.Client.AdvanceStep` | esp/crtp_log.h:328-343 | the next setup step; after the last, streaming |
| `Crtp.Client.MoveStep` | esp/crtp_log.h:328-336 | the step after this one, skipping those of an unused slow block |
| `Crtp.Client.PollNext` | esp/crtp_log.h:211-243 | the next datagram in place is the specified one; its bytes and its timing are `Drones.SendsWhatTheStepAsks` and `Drones.SendsOnTime` |
| `Crtp.Client.HandleItem` | esp/crtp_log.h:440-462 | a table entry is taken only in turn and only if well formed; the table ends at its count, early, or when all is found |
| `Crtp.Client.StoreBlock` | esp/crtp_log.h:515-520 | the values are stored at successive offsets in the order of the block |
| `Crtp.Client.Publish` | esp/crtp_log.h:521-536 | a sample is published only once every block in use has reported |
| `Crtp.Client.Receive` | esp/crtp_log.h:245-260 | one datagram handled as specified |
| `CrtpProperties.SendsOnlyLogTraffic` | esp/crtp_log.h:211-243 | every datagram sent starts with 0x50, 0x51 or 0xF2, fits 32 bytes, and carries a valid checksum |
| `CrtpProperties.PollsSendOnce` | esp/crtp_log.h:209-243 | polling until nothing is returned ends after one send at an instant |
| `CrtpProperties.BlocksReadAsRequested` | esp/crtp_log.h:488-536 | whatever the drone packs in the order it was asked is stored at the matching variables: a non-finite float keeps the old value, percent and out-of-range altitude are clamped, no other variable moves |
| `CrtpProperties.ReactKeepsInv` | esp/crtp_log.h:245-260 | the table cursor stays inside the table (its 16 bits never wrap) and the step matches the state |
| `CrtpProperties.HandshakeIsComplete` | esp/crtp_log.h:328-343 | in setup the successes received are exactly the steps before the current one, in order |
| `CrtpProperties.StreamsOnlyAfterHandshake` | esp/crtp_log.h:465-486 | streaming is entered only after status-0 replies, at ascending positions of the input, to the reset and to the create and the start of each block in use, with the client in the handshake or streaming ever since the first |
| `CrtpProperties.NothingHalfReported` | esp/crtp_log.h:524-536 | no sample is published while a used slow block has never reported |
| `CrtpProperties.SamplesArePublished` | esp/crtp_log.h:521-536 | a block's data always counts: the fast block keeps the stream alive and, once every block in use has reported, makes a new sample; armed is thrust above zero or a motor running |
| `Drones.SendsWhatTheStepAsks` | esp/crtp_log.h:345-388 | byte by byte, without the encoder: a client that is ready sends 3 for the table's size, 2 and the number for an entry, 5 for the reset, 6, block and items for a create, 3, 1, 10 or 3, 2, 50 for a start, and then waits; otherwise it sends nothing |
| `Drones.SendsOnTime` | esp/crtp_log.h:209-243 | a request is repeated after 300 ms, five times, then the client starts over, except for the first question; a keepalive is 0xF2 0xF2 every 250 ms; 2000 ms without the fast block start over; a table with nothing wanted is read again after 5000 ms |
| `Drones.StrangersAreDropped` | esp/crtp_log.h:245-260 | a datagram that does not check is counted and dropped, one of another port or channel dropped |
| `Drones.RefusalStartsOver` | esp/crtp_log.h:465-486 | a reply to the step with a status other than 0 starts over; with 0 it moves on and lets the next request out, and streaming begins with the stream taken as alive |
| `Drones.DroneDoesTheStep` | esp/test/test_crtp_log.cpp:222-296 | a drone that reads the bytes sent does the step, and its reply answers that step, with status 0 unless it already has the block |
| `Drones.ItemExchange` | esp/crtp_log.h:436-463 | each entry the drone answers with is read as it stands in the table, under the first number of each variable wanted; a number past the end of a table announced longer than it is ends the reading |
| `Drones.ExchangeAgrees` | esp/crtp_log.h:209-486 | an exchange in which the request, the reply or nothing is lost keeps client and drone in agreement; one in which nothing is lost brings the client nearer to streaming |
| `Drones.StreamsWhatItWants` | esp/crtp_log.h:209-486 | in every run from a fresh client, whatever is lost, whatever the drone held and whatever else arrives: while the client streams, the drone holds exactly the blocks with a wanted variable in its table, each created with exactly those variables and started with 10 or 50 |
| `Drones.SamplesAreShown` | esp/crtp_log.h:488-536 | so each value the drone streams is shown at the variable whose first number in the table it is, and nothing else moves |
| `Drones.HandshakeCompletes` | esp/crtp_log.h:198-208 | in any run, once nothing more is lost, a client asking for the table streams within one exchange, one for each entry and one past the last, and five for the blocks; if the table has none of the fast variables it gives up |

## Left out

- Sockets, pools, dialling and learned addresses, goroutine joining, logging, metrics, JSON and flag parsing: plumbing, which would only add steps that may fail.
- The Status a node publishes, the claims of other leaders it shows, the degraded mark and its high-water size: read by displays, never by the protocol.
- `NodeModel.Step`: the median a node reports as its own score is an input of a probe round here, so what is proved holds for any self-score; that the code computes the median is not stated.
- `NodeModel.Step`: sends other than JOIN cannot fail here; the code ignores their failures, and `Swarm` lets the network lose anything.
- `NodeModel.Step`: a node's tasks and ledger are modelled apart (`Ledgers`, `Replication`), so that a death re-assigns tasks is stated there and not as part of the node's step.
- `Swarm.CeilingHolds`: process restarts, which choose an incarnation from the wall clock, are excluded.
- `Swarm.DeathIsPermanent`: says nothing once the node has collected the record; the code allows an echo to re-insert the member then.
- `Membership.MergeConverges`: addresses are excluded (last writer wins), as are records without Seq, for which it is false.
- `Membership.Table.Upsert`: uint64 wrap-around of Seq and of the version is not modelled; neither is reached.
- `Membership.Table.Snapshot`: the mutex is not modelled: each method is one atomic step.
- `ElectionProperties.IncumbentLosesOnlyByMargin`: over reals; rounding of the subtraction is not modelled.
- Thresholds and margins that are NaN or infinite: the settings are finite reals.
- `Ledgers.TaskLeader.Handle`: tasks handed on by a demoted leader or an orphaned worker, and results redirected to a fallback leader, are not modelled; task bodies are compared as bytes, with no body and an empty one the same.
- `Ledgers.TaskLeader.SyncPayload`: where trimming does not end the code hangs; a method here must end, so this one asks that trimming does (`Replication.TrimmingEndsExactlyWhen` says when).
- `Ledgers.TaskLeader.FlushSync`: asks the same, and only when it has something to send and somebody to send it to.
- `Ledgers.TaskLeader.Handle`: asks the same of the sends in its turn. The functions these methods compute, and everything proved of tenures, are total: there a snapshot that cannot be trimmed is never sent.
- `Replication.Replica.HandleStateSync`: the copy published for display is not modelled.
- Which worker a pending task is assigned to after a death recorded by another node: the code re-assigns only for deaths it records itself.
- `Clock.FakeClock.Advance`: timers added or stopped while it runs, and the blocking hand-over of a tick to its receiver, are not modelled; a delivery is one step.
- `Frames.Decode`: what a message's fields mean is the generated dialect's; here a message is an identifier, a length, a CRC_EXTRA byte, and a pair of functions, of which the round trips ask only that reading undoes writing.
- `Frames.Parser.Next`: the counters are unbounded.
- `Frames.Encode`: reuse of the caller's buffer is not modelled: the bytes appended are.
- `HubCall.RunOrAbandon`: what a function does on the hub, and a function that never returns or panics, are not modelled.
- `Crtp.Client.Receive`: counters of samples, restarts and bad datagrams are unbounded; floats are their bit patterns, on which finiteness and sign are decided; table ids are a sequence and not a fixed array.
- `Crtp.Client.PollNext`: the null-pointer guards of the C++ interface.
- `Drones.StreamsWhatItWants`: replies come in the turn of their request or not at all: the protocol has no numbers by which a client could tell a reply held back to an earlier handshake. The drone's own watchdog, which drops every block after a second without a packet, is not modelled.
- The front end, the Blender and simulation scripts, display models of flight and battery, boot animation and telemetry frames: they would only add easy members.
