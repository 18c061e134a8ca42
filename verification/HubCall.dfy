// The run-or-abandon protocol between callers and the hub loop, as a state machine over every interleaving of its
// atomic steps: channel operations, compare-and-swaps, cancellations, and the hub's shutdown.

module HubCall {

  type CallID = nat

  /** The word the hub and the caller race for. */
  datatype Word = Queued | Running | Abandoned

  /** Where a caller stands: before the stopped check, offering its op, waiting, giving up, committed to wait, back. */
  datatype Place = Start | Offering | Waiting | GivingUp | Committed | Returned(ok: bool)

  /** One call, with how often its function has been started and finished. */
  datatype Call = Call(place: Place, word: Word, done: bool, cancelled: bool, started: nat, finished: nat)

  datatype Op = OpOf(call: CallID) | Posted

  datatype Hub = Idle | Dispatching(call: CallID) | Executing(call: CallID) | Closing(call: CallID) | Stopped

  datatype System = System(capacity: nat, calls: map<CallID, Call>, queue: seq<Op>, hub: Hub) {
    function With(c: CallID, call: Call): System {
      this.(calls := calls[c := call])
    }
  }

  datatype Action =
    | CheckStopped(c: CallID)
    | Enqueue(c: CallID)
    | OfferFails(c: CallID)
    | SeeDone(c: CallID)
    | StopWaiting(c: CallID)
    | Abandon(c: CallID)
    | TooLate(c: CallID)
    | Cancel(c: CallID)
    | Post
    | Take
    | Claim
    | Finish
    | CloseDone
    | Stop

  /** Whether the step can be taken. A select may take any of its ready cases, whatever else is ready. */
  predicate Enabled(s: System, a: Action) {
    match a
    case CheckStopped(c) => c in s.calls && s.calls[c].place == Start
    case Enqueue(c) => c in s.calls && s.calls[c].place == Offering && |s.queue| < s.capacity
    case OfferFails(c) => c in s.calls && s.calls[c].place == Offering && (s.hub.Stopped? || s.calls[c].cancelled)
    case SeeDone(c) => c in s.calls && s.calls[c].place in {Waiting, Committed} && s.calls[c].done
    case StopWaiting(c) => c in s.calls && s.calls[c].place == Waiting && (s.hub.Stopped? || s.calls[c].cancelled)
    case Abandon(c) => c in s.calls && s.calls[c].place == GivingUp && s.calls[c].word == Queued
    case TooLate(c) => c in s.calls && s.calls[c].place == GivingUp && s.calls[c].word != Queued
    case Cancel(c) => c in s.calls
    case Post => |s.queue| < s.capacity
    case Take => s.hub.Idle? && s.queue != []
    case Claim => s.hub.Dispatching? && s.hub.call in s.calls
    case Finish => s.hub.Executing? && s.hub.call in s.calls
    case CloseDone => s.hub.Closing? && s.hub.call in s.calls
    case Stop => s.hub.Idle?
  }

  function Do(s: System, a: Action): System
    requires Enabled(s, a)
  {
    match a
    case CheckStopped(c) => s.With(c, s.calls[c].(place := if s.hub.Stopped? then Returned(false) else Offering))
    case Enqueue(c) => s.With(c, s.calls[c].(place := Waiting)).(queue := s.queue + [OpOf(c)])
    case OfferFails(c) => s.With(c, s.calls[c].(place := Returned(false)))
    case SeeDone(c) => s.With(c, s.calls[c].(place := Returned(true)))
    case StopWaiting(c) => s.With(c, s.calls[c].(place := GivingUp))
    case Abandon(c) => s.With(c, s.calls[c].(place := Returned(false), word := Abandoned))
    case TooLate(c) => s.With(c, s.calls[c].(place := Committed))
    case Cancel(c) => s.With(c, s.calls[c].(cancelled := true))
    case Post => s.(queue := s.queue + [Posted])
    case Take => s.(queue := s.queue[1..], hub := if s.queue[0].OpOf? then Dispatching(s.queue[0].call) else Idle)
    case Claim =>
      var c := s.hub.call;
      if s.calls[c].word == Queued
      then s.With(c, s.calls[c].(word := Running, started := s.calls[c].started + 1)).(hub := Executing(c))
      else s.(hub := Idle)
    case Finish =>
      var c := s.hub.call;
      s.With(c, s.calls[c].(finished := s.calls[c].finished + 1)).(hub := Closing(c))
    case CloseDone => s.With(s.hub.call, s.calls[s.hub.call].(done := true)).(hub := Idle)
    case Stop => s.(hub := Stopped)
  }

  // ---------------------------------------------------------------------------
  // What every step keeps
  // ---------------------------------------------------------------------------

  predicate HubHas(s: System, c: CallID) {
    !s.hub.Idle? && !s.hub.Stopped? && s.hub.call == c
  }

  /** The call's op is still on its way to the hub's compare-and-swap. */
  predicate InFlight(s: System, c: CallID) {
    OpOf(c) in s.queue || s.hub == Dispatching(c)
  }

  predicate WordAgrees(s: System, c: CallID)
    requires c in s.calls
  {
    var k := s.calls[c];
    match k.word
    case Queued => k.started == 0 && k.finished == 0 && !k.done && s.hub != Executing(c) && s.hub != Closing(c)
    case Abandoned => k.started == 0 && k.finished == 0 && !k.done && k.place == Returned(false)
                      && s.hub != Executing(c) && s.hub != Closing(c)
    case Running =>
      && k.started == 1 && !InFlight(s, c)
      && k.finished == (if s.hub == Executing(c) then 0 else 1)
      && (k.done <==> s.hub != Executing(c) && s.hub != Closing(c))
  }

  predicate PlaceAgrees(s: System, c: CallID)
    requires c in s.calls
  {
    var k := s.calls[c];
    match k.place
    case Start => k.word == Queued && !InFlight(s, c)
    case Offering => k.word == Queued && !InFlight(s, c)
    case Committed => k.word == Running
    case Returned(ok) =>
      if ok then k.word == Running && k.done else k.word == Abandoned || (k.word == Queued && !InFlight(s, c))
    case _ => k.word != Abandoned
  }

  ghost predicate Inv(s: System) {
    && (forall i, j :: 0 <= i < j < |s.queue| && s.queue[i].OpOf? ==> s.queue[i] != s.queue[j])
    && (forall op <- s.queue :: op.OpOf? ==> op.call in s.calls)
    && (s.hub.Dispatching? || s.hub.Executing? || s.hub.Closing? ==>
          s.hub.call in s.calls && OpOf(s.hub.call) !in s.queue)
    && (forall c <- s.calls :: WordAgrees(s, c) && PlaceAgrees(s, c))
  }

  lemma CallerKeepsInv(s: System, a: Action)
    requires Inv(s) && Enabled(s, a)
    requires a.CheckStopped? || a.OfferFails? || a.SeeDone? || a.StopWaiting? || a.Abandon? || a.TooLate? || a.Cancel?
    ensures Inv(Do(s, a))
  {
    var s' := Do(s, a);
    forall c <- s'.calls ensures WordAgrees(s', c) && PlaceAgrees(s', c) {
      assert WordAgrees(s, c) && PlaceAgrees(s, c);
    }
  }

  lemma QueueKeepsInv(s: System, a: Action)
    requires Inv(s) && Enabled(s, a) && (a.Enqueue? || a.Post?)
    ensures Inv(Do(s, a))
  {
    var s' := Do(s, a);
    if a.Enqueue? { assert PlaceAgrees(s, a.c) && !InFlight(s, a.c); }
    forall c <- s'.calls ensures WordAgrees(s', c) && PlaceAgrees(s', c) {
      assert WordAgrees(s, c) && PlaceAgrees(s, c);
      assert InFlight(s', c) <==> InFlight(s, c) || (a.Enqueue? && c == a.c);
    }
  }

  lemma HubKeepsInv(s: System, a: Action)
    requires Inv(s) && Enabled(s, a) && (a.Take? || a.Claim? || a.Finish? || a.CloseDone? || a.Stop?)
    ensures Inv(Do(s, a))
  {
    var s' := Do(s, a);
    if a.Take? {
      assert s.queue[0] in s.queue && forall i :: 0 <= i < |s'.queue| ==> s'.queue[i] == s.queue[i + 1];
      assert forall op <- s'.queue :: op in s.queue;
      assert forall op <- s.queue :: op == s.queue[0] || op in s'.queue;
    }
    forall c <- s'.calls ensures WordAgrees(s', c) && PlaceAgrees(s', c) {
      assert WordAgrees(s, c) && PlaceAgrees(s, c);
    }
  }

  lemma StepKeepsInv(s: System, a: Action)
    requires Inv(s) && Enabled(s, a)
    ensures Inv(Do(s, a))
  {
    hide Inv, Do;
    match a
    case Enqueue(_) => QueueKeepsInv(s, a);
    case Post => QueueKeepsInv(s, a);
    case Take => HubKeepsInv(s, a);
    case Claim => HubKeepsInv(s, a);
    case Finish => HubKeepsInv(s, a);
    case CloseDone => HubKeepsInv(s, a);
    case Stop => HubKeepsInv(s, a);
    case _ => CallerKeepsInv(s, a);
  }

  // ---------------------------------------------------------------------------
  // Every interleaving
  // ---------------------------------------------------------------------------

  const FRESH: Call := Call(Start, Queued, false, false, 0, 0)

  /** A run: any number of calls, none begun, and then any enabled steps in any order. */
  ghost predicate IsRun(states: seq<System>, actions: seq<Action>) {
    && |states| == |actions| + 1
    && states[0].queue == [] && states[0].hub == Idle && (forall c <- states[0].calls :: states[0].calls[c] == FRESH)
    && forall i :: 0 <= i < |actions| ==> Steps(states[i], actions[i], states[i + 1])
  }

  ghost predicate Steps(s: System, a: Action, s': System) {
    Enabled(s, a) && s' == Do(s, a)
  }

  lemma {:induction false} RunKeepsInv(states: seq<System>, actions: seq<Action>, k: nat)
    requires IsRun(states, actions) && k < |states|
    ensures Inv(states[k]) && states[k].calls.Keys == states[0].calls.Keys
  {
    hide Inv, Do;
    if k == 0 {
      FreshHolds(states[0]);
    } else {
      RunKeepsInv(states, actions, k - 1);
      assert Steps(states[k - 1], actions[k - 1], states[k]);
      StepKeepsInv(states[k - 1], actions[k - 1]);
      SameCallers(states[k - 1], actions[k - 1]);
    }
  }

  lemma FreshHolds(s: System)
    requires s.queue == [] && s.hub == Idle && forall c <- s.calls :: s.calls[c] == FRESH
    ensures Inv(s)
  {
  }

  lemma SameCallers(s: System, a: Action)
    requires Inv(s) && Enabled(s, a)
    ensures Do(s, a).calls.Keys == s.calls.Keys
  {
  }

  /**
   * A call that is back stays back, with the answer it gave; and its function is neither started nor finished any more.
   */
  lemma BackForGood(s: System, a: Action, c: CallID)
    requires Inv(s) && Enabled(s, a) && c in s.calls && s.calls[c].place.Returned?
    ensures var s' := Do(s, a);
            c in s'.calls && s'.calls[c].place == s.calls[c].place
            && s'.calls[c].started == s.calls[c].started && s'.calls[c].finished == s.calls[c].finished
  {
    assert WordAgrees(s, c) && PlaceAgrees(s, c);
  }

  /**
   * Run or abandon, in every interleaving: once a call has returned true its function has run to completion exactly
   * once, and once it has returned false its function has not started -- and neither changes ever after.
   */
  lemma {:induction false} RunOrAbandon(states: seq<System>, actions: seq<Action>, i: nat, j: nat, c: CallID)
    requires IsRun(states, actions) && i <= j < |states| && c in states[0].calls
    ensures c in states[i].calls && c in states[j].calls
    ensures var k, k' := states[i].calls[c], states[j].calls[c];
            && (k.place == Returned(true) ==> k'.place == Returned(true) && k'.started == 1 && k'.finished == 1)
            && (k.place == Returned(false) ==> k'.place == Returned(false) && k'.started == 0)
  {
    hide Inv, Do, IsRun;
    RunKeepsInv(states, actions, i);
    RunKeepsInv(states, actions, j);
    if i == j {
      AnswerIsTrue(states[i], c);
    } else {
      RunOrAbandon(states, actions, i, j - 1, c);
      RunKeepsInv(states, actions, j - 1);
      assert Steps(states[j - 1], actions[j - 1], states[j]) by { StepOfRun(states, actions, j); }
      if states[i].calls[c].place.Returned? { BackForGood(states[j - 1], actions[j - 1], c); }
    }
  }

  lemma StepOfRun(states: seq<System>, actions: seq<Action>, j: nat)
    requires IsRun(states, actions) && 0 < j < |states|
    ensures j <= |actions| && Steps(states[j - 1], actions[j - 1], states[j])
  {
    hide Steps;
    assert Steps(states[j - 1], actions[j - 1], states[j - 1 + 1]);
  }

  lemma AnswerIsTrue(s: System, c: CallID)
    requires Inv(s) && c in s.calls
    ensures s.calls[c].place == Returned(true) ==> s.calls[c].started == 1 && s.calls[c].finished == 1
    ensures s.calls[c].place == Returned(false) ==> s.calls[c].started == 0
  {
    assert WordAgrees(s, c) && PlaceAgrees(s, c);
  }

  /**
   * Nobody waits forever on a hub that has gone: a caller committed to waiting can either return at once, or the hub is
   * executing its function and its next two steps are what the caller waits for.
   */
  lemma CommittedIsServed(s: System, c: CallID)
    requires Inv(s) && c in s.calls && s.calls[c].place == Committed
    ensures Enabled(s, SeeDone(c)) || (HubHas(s, c) && (Enabled(s, Finish) || Enabled(s, CloseDone)))
    ensures HubHas(s, c) && Enabled(s, Finish) ==> Enabled(Do(s, Finish), CloseDone)
    ensures HubHas(s, c) && Enabled(s, CloseDone) ==> Enabled(Do(s, CloseDone), SeeDone(c))
  {
    assert WordAgrees(s, c) && PlaceAgrees(s, c);
  }

  /** Once the hub has stopped, every call not yet back has a step of its own to take. */
  lemma StoppedHubReleasesEveryone(s: System, c: CallID)
    requires Inv(s) && s.hub.Stopped? && c in s.calls && !s.calls[c].place.Returned?
    ensures exists a :: Enabled(s, a) &&
              a in {CheckStopped(c), OfferFails(c), StopWaiting(c), Abandon(c), TooLate(c), SeeDone(c)}
  {
    var k := s.calls[c];
    assert WordAgrees(s, c) && PlaceAgrees(s, c);
    match k.place
    case Start => assert Enabled(s, CheckStopped(c));
    case Offering => assert Enabled(s, OfferFails(c));
    case Waiting => assert Enabled(s, StopWaiting(c));
    case GivingUp => assert Enabled(s, Abandon(c)) || Enabled(s, TooLate(c));
    case Committed => assert Enabled(s, SeeDone(c));
    case Returned(_) =>
  }

  // ---------------------------------------------------------------------------
  // The hub serves every call in its turn
  // ---------------------------------------------------------------------------

  /** How many ops are before this one. */
  function Ahead(queue: seq<Op>, op: Op): (n: nat)
    requires op in queue
    ensures n < |queue| && queue[n] == op
  {
    if queue[0] == op then 0 else Ahead(queue[1..], op) + 1
  }

  lemma {:induction false} AheadKeeps(queue: seq<Op>, op: Op, more: Op)
    requires op in queue
    ensures Ahead(queue + [more], op) == Ahead(queue, op)
  {
    if queue[0] != op {
      AheadKeeps(queue[1..], op, more);
      assert (queue + [more])[1..] == queue[1..] + [more];
    }
  }

  /** The hub's steps until it comes to the call: what it has in hand, and four for each op ahead. */
  function HubStepsLeft(s: System, c: CallID): nat
    requires InFlight(s, c)
  {
    if s.hub == Dispatching(c) then 1
    else 2 + 4 * Ahead(s.queue, OpOf(c)) +
         match s.hub
         case Dispatching(_) => 3
         case Executing(_) => 2
         case Closing(_) => 1
         case _ => 0
  }

  predicate IsHubStep(a: Action) {
    a.Take? || a.Claim? || a.Finish? || a.CloseDone?
  }

  /** While an op is on its way to a hub not stopped, the hub has a step to take. */
  lemma HubHasWork(s: System, c: CallID)
    requires Inv(s) && InFlight(s, c) && !s.hub.Stopped?
    ensures exists a :: IsHubStep(a) && Enabled(s, a)
  {
    match s.hub
    case Idle => assert Enabled(s, Take);
    case Dispatching(_) => assert Enabled(s, Claim);
    case Executing(_) => assert Enabled(s, Finish);
    case Closing(_) => assert Enabled(s, CloseDone);
  }

  /** Every step of the hub brings it nearer to a call on its way, and nobody else's step takes it further off. */
  lemma HubComesNearer(s: System, a: Action, c: CallID)
    requires Inv(s) && Enabled(s, a) && c in s.calls && InFlight(s, c) && !a.Stop?
    ensures var s' := Do(s, a);
            && c in s'.calls
            && if InFlight(s', c) then HubStepsLeft(s', c) + (if IsHubStep(a) then 1 else 0) <= HubStepsLeft(s, c)
               else s'.calls[c].word != Queued
  {
    hide Ahead, PlaceAgrees, WordAgrees;
    match a
    case Enqueue(d) =>
      if OpOf(c) in s.queue { AheadKeeps(s.queue, OpOf(c), OpOf(d)); }
    case Post =>
      if OpOf(c) in s.queue { AheadKeeps(s.queue, OpOf(c), Posted); }
    case Take =>
      TakenIsNearer(s, c);
    case _ =>
  }

  lemma TakenIsNearer(s: System, c: CallID)
    requires Inv(s) && s.hub == Idle && OpOf(c) in s.queue
    ensures var queue := s.queue[1..];
            if s.queue[0] == OpOf(c) then true
            else OpOf(c) in queue && Ahead(queue, OpOf(c)) + 1 == Ahead(s.queue, OpOf(c))
  {
  }

  function HubSteps(actions: seq<Action>): nat {
    if actions == [] then 0
    else HubSteps(actions[..|actions| - 1]) + if IsHubStep(actions[|actions| - 1]) then 1 else 0
  }

  /** A hub that has stopped stays stopped. */
  lemma StoppedForGood(s: System, a: Action)
    requires Enabled(s, a) && s.hub.Stopped?
    ensures Do(s, a).hub.Stopped?
  {
  }

  lemma {:induction false} ServedOrNearer(states: seq<System>, actions: seq<Action>, i: nat, j: nat, c: CallID)
    requires IsRun(states, actions) && i <= j < |states| && c in states[0].calls
    requires InFlight(states[i], c) && !states[j].hub.Stopped?
    ensures c in states[j].calls
    ensures if InFlight(states[j], c)
            then HubStepsLeft(states[j], c) + HubSteps(actions[i..j]) <= HubStepsLeft(states[i], c)
            else states[j].calls[c].word != Queued
  {
    hide Inv, Do, IsRun, Enabled, HubStepsLeft, InFlight;
    RunSizes(states, actions);
    RunKeepsInv(states, actions, i);
    RunKeepsInv(states, actions, j);
    if i < j {
      RunKeepsInv(states, actions, j - 1);
      StepOfRun(states, actions, j);
      var s, a := states[j - 1], actions[j - 1];
      if s.hub.Stopped? { StoppedForGood(s, a); }
      ServedOrNearer(states, actions, i, j - 1, c);
      assert actions[i..j][..j - 1 - i] == actions[i..j - 1] && actions[i..j][j - 1 - i] == a;
      if InFlight(s, c) {
        if a.Stop? { StopStops(s); }
        HubComesNearer(s, a, c);
      } else {
        NeverQueuedAgain(s, a, c);
      }
    } else {
      assert actions[i..j] == [];
    }
  }

  lemma RunSizes(states: seq<System>, actions: seq<Action>)
    requires IsRun(states, actions)
    ensures |states| == |actions| + 1
  {
  }

  lemma StopStops(s: System)
    requires Enabled(s, Stop)
    ensures Do(s, Stop).hub.Stopped?
  {
  }

  lemma NeverQueuedAgain(s: System, a: Action, c: CallID)
    requires Inv(s) && Enabled(s, a) && c in s.calls && !InFlight(s, c) && s.calls[c].word != Queued
    ensures var s' := Do(s, a); c in s'.calls && s'.calls[c].word != Queued && !InFlight(s', c)
  {
    assert WordAgrees(s, c) && PlaceAgrees(s, c);
  }

  /** A call is abandoned only if it was cancelled or the hub has stopped. */
  lemma {:induction false} AbandonedForAReason(states: seq<System>, actions: seq<Action>, k: nat, c: CallID)
    requires IsRun(states, actions) && k < |states| && c in states[0].calls
    ensures c in states[k].calls
    ensures states[k].calls[c].place == GivingUp || states[k].calls[c].word == Abandoned ==>
              states[k].calls[c].cancelled || states[k].hub.Stopped?
  {
    hide Inv, IsRun;
    RunKeepsInv(states, actions, k);
    if k > 0 {
      AbandonedForAReason(states, actions, k - 1, c);
      StepOfRun(states, actions, k);
      if states[k - 1].hub.Stopped? { StoppedForGood(states[k - 1], actions[k - 1]); }
    } else {
      NotYetAbandoned(states, actions, c);
    }
  }

  lemma NotYetAbandoned(states: seq<System>, actions: seq<Action>, c: CallID)
    requires IsRun(states, actions) && c in states[0].calls
    ensures states[0].calls[c] == FRESH
  {
  }

  /**
   * Every call is served in its turn: a call whose op is on its way at step i has been started by step j, if the hub
   * has by then taken the steps it needs for what is ahead and has not stopped, and the call has not been cancelled.
   */
  lemma EveryCallIsServed(states: seq<System>, actions: seq<Action>, i: nat, j: nat, c: CallID)
    requires IsRun(states, actions) && i <= j < |states| && c in states[0].calls && InFlight(states[i], c)
    requires HubSteps(actions[i..j]) >= HubStepsLeft(states[i], c)
    ensures c in states[j].calls
    ensures states[j].calls[c].started == 1 || states[j].calls[c].cancelled || states[j].hub.Stopped?
  {
    hide IsRun, HubSteps, PlaceAgrees;
    RunKeepsInv(states, actions, j);
    AbandonedForAReason(states, actions, j, c);
    if !states[j].hub.Stopped? {
      ServedOrNearer(states, actions, i, j, c);
      assert WordAgrees(states[j], c);
    }
  }
}
