// What the log client guarantees: it only ever sends its own kind of datagram, it reads a block exactly as it asked for
// it, it streams only after a complete handshake, and it shows nothing half-reported.

module CrtpProperties {
  import opened ByteBits
  import opened Crtp
  import opened Options

  // ---------------------------------------------------------------------------
  // What it sends
  // ---------------------------------------------------------------------------

  lemma RequestIsSmall(c: ClientState)
    ensures 1 <= |Request(c).1| <= 20 && Request(c).0 in {0x50, 0x51}
  {
    hide Layout, Items;
    LayoutIsSmall(c.ids, BLOCK_FAST);
    LayoutIsSmall(c.ids, BLOCK_SLOW);
  }

  /** Every datagram sent is a log request or a keepalive, fits the link, and carries a valid checksum. */
  lemma SendsOnlyLogTraffic(c: ClientState, now: Millis, cap: nat)
    ensures var out := Poll(c, now, cap).1;
            out != [] ==>
              |out| <= cap && 2 <= |out| <= MAX_DATAGRAM && out[0] in {0x50, 0x51, 0xF2} && Decode(out).Some?
  {
    hide Request, Sum;
    RequestIsSmall(c);
    var out := Poll(c, now, cap).1;
    if out != [] {
      var (hdr, data) := if c.state == Streaming then (KEEPALIVE_HEADER, []) else Request(c);
      assert out == Encode(hdr, data, cap);
      assert out[..|out| - 1] == [hdr] + data;
    }
  }

  /** "Call until it returns 0" ends after one send: a second poll at the same instant sends nothing. */
  lemma PollsSendOnce(c: ClientState, now: Millis, cap: nat)
    ensures var (c', out) := Poll(c, now, cap);
            out != [] ==> Poll(c', now, cap) == (c', [])
  {
    hide Request, Encode;
  }

  // ---------------------------------------------------------------------------
  // What it reads: the drone packs what it was asked for, in the order it was asked
  // ---------------------------------------------------------------------------

  /** A variable as the drone was asked for it. */
  datatype Asked = Asked(kind: byte, id: nat)

  /** The drone's reading of a create request's items. */
  function ReadItems(items: seq<byte>): seq<Asked> {
    if |items| < 3 then [] else [Asked(items[0], Le16(items[1..3]))] + ReadItems(items[3..])
  }

  /** The drone's values: for each variable asked for, as many bytes as its type takes. */
  ghost predicate Sized(value: Asked -> seq<byte>) {
    forall a :: |value(a)| == SizeOf(a.kind)
  }

  function PackAll(asked: seq<Asked>, value: Asked -> seq<byte>): seq<byte> {
    if asked == [] then [] else value(asked[0]) + PackAll(asked[1..], value)
  }

  function AskedOf(ids: Ids, v: Var): Asked
    requires ids[v] >= 0
  {
    Asked(Spec(v).kind, ids[v])
  }

  function PackVars(ids: Ids, vars: seq<Var>, value: Asked -> seq<byte>): seq<byte>
    requires forall v <- vars :: ids[v] >= 0
  {
    if vars == [] then [] else value(AskedOf(ids, vars[0])) + PackVars(ids, vars[1..], value)
  }

  function AskedAll(ids: Ids, vars: seq<Var>): (asked: seq<Asked>)
    requires forall v <- vars :: ids[v] >= 0
    ensures |asked| == |vars|
  {
    if vars == [] then [] else [AskedOf(ids, vars[0])] + AskedAll(ids, vars[1..])
  }

  lemma {:induction false} ItemsAreRead(ids: Ids, vars: seq<Var>)
    requires forall v <- vars :: ids[v] >= 0
    ensures ReadItems(Items(ids, vars)) == AskedAll(ids, vars)
  {
    if vars != [] {
      var v, items := vars[0], Items(ids, vars);
      ItemsAreRead(ids, vars[1..]);
      assert items[3..] == Items(ids, vars[1..]) && items[1..3] == [ids[v] % 256, ids[v] / 256];
      assert items[0] == Spec(v).kind;
    }
  }

  lemma {:induction false} PacksInOrder(ids: Ids, vars: seq<Var>, value: Asked -> seq<byte>)
    requires forall v <- vars :: ids[v] >= 0
    ensures PackAll(AskedAll(ids, vars), value) == PackVars(ids, vars, value)
  {
    if vars != [] { PacksInOrder(ids, vars[1..], value); }
  }

  lemma DronePacksInOrder(ids: Ids, vars: seq<Var>, value: Asked -> seq<byte>)
    requires forall v <- vars :: ids[v] >= 0
    ensures PackAll(ReadItems(Items(ids, vars)), value) == PackVars(ids, vars, value)
  {
    hide AskedAll, ReadItems, Items;
    ItemsAreRead(ids, vars);
    PacksInOrder(ids, vars, value);
  }

  /** What one variable shows after a sample, from what it showed before and the bytes received. */
  function Shown(prev: Field, v: Var, b: seq<byte>): Field
    requires |b| >= SizeOf(Spec(v).kind)
  {
    if v == V_ZRANGE then (if Le16(b) <= ZRANGE_MAX then RangeField(Le16(b), true) else RangeField(0, false))
    else if v == V_PCT then CountField(if b[0] <= 100 then b[0] as nat else 100)
    else if Spec(v).kind == LOG_UINT16 then CountField(Le16(b))
    else if IsFinite(Le32(b)) then FloatField(Le32(b)) else prev
  }

  lemma StoreShows(t: Telemetry, v: Var, b: seq<byte>, u: Var)
    requires |b| >= SizeOf(Spec(v).kind) && |t.motor| == 4
    ensures FieldOf(Store(t, v, b), u) == if u == v then Shown(FieldOf(t, v), v, b) else FieldOf(t, u)
  {
    hide Le16, Le32, IsFinite;
  }

  lemma ShownIsLocal(prev: Field, v: Var, b: seq<byte>, tail: seq<byte>)
    requires |b| == SizeOf(Spec(v).kind)
    ensures Shown(prev, v, b + tail) == Shown(prev, v, b)
  {
  }

  lemma {:induction false} PackedSize(ids: Ids, vars: seq<Var>, value: Asked -> seq<byte>)
    requires Sized(value) && forall v <- vars :: ids[v] >= 0
    ensures |PackVars(ids, vars, value)| == Bytes(vars)
  {
    if vars != [] { PackedSize(ids, vars[1..], value); }
  }

  lemma {:induction false} StoreAllShows(t: Telemetry, ids: Ids, vars: seq<Var>, value: Asked -> seq<byte>, u: Var)
    requires Sized(value) && (forall v <- vars :: ids[v] >= 0) && |t.motor| == 4
    requires forall i, j :: 0 <= i < j < |vars| ==> vars[i] < vars[j]
    ensures |PackVars(ids, vars, value)| >= Bytes(vars)
    ensures var t' := StoreAll(t, vars, PackVars(ids, vars, value));
            FieldOf(t', u) == if u in vars then Shown(FieldOf(t, u), u, value(AskedOf(ids, u))) else FieldOf(t, u)
    decreases |vars|
  {
    hide Store, Shown, FieldOf, Spec;
    PackedSize(ids, vars, value);
    if vars != [] {
      var v, data := vars[0], PackVars(ids, vars, value);
      var b, rest := value(AskedOf(ids, v)), PackVars(ids, vars[1..], value);
      assert data == b + rest && data[SizeOf(Spec(v).kind)..] == rest;
      StoreShows(t, v, data, u);
      ShownIsLocal(FieldOf(t, v), v, b, rest);
      StoreAllShows(Store(t, v, data), ids, vars[1..], value, u);
      assert v !in vars[1..];
      assert u in vars <==> u == v || u in vars[1..];
    }
  }

  /** A block's data packet, as a drone that was asked for the block sends it. */
  function DataPacket(block: byte, stamp: seq<byte>, request: seq<byte>, value: Asked -> seq<byte>): seq<byte>
    requires |stamp| == 3 && |request| >= 2
  {
    [block] + stamp + PackAll(ReadItems(request[2..]), value)
  }

  /**
   * Request and decoder agree: whatever block the client asked for, and whatever values the drone packs in the order it
   * was asked, each variable of the block shows its own value (a non-finite float keeps the old one, percent and range
   * are clamped), and no other variable moves.
   */
  lemma BlocksReadAsRequested(c: ClientState, now: Millis, block: byte, stamp: seq<byte>, value: Asked -> seq<byte>,
                              u: Var)
    requires (c.state == Setup || c.state == Streaming) && |c.t.motor| == 4 && Sized(value) && |stamp| == 3
    requires (block == BLOCK_FAST || block == BLOCK_SLOW) && BlockUsed(c.ids, block)
    ensures var t' := OnData(c, now, DataPacket(block, stamp, CreateRequest(c.ids, block), value)).t;
            && |t'.motor| == 4 && t'.droneMs == Le24(stamp)
            && FieldOf(t', u) == if Wants(c.ids, block, u) then Shown(FieldOf(c.t, u), u, value(AskedOf(c.ids, u)))
                                 else FieldOf(c.t, u)
  {
    hide Shown, Layout, Items, ReadItems, PackAll, StoreAll, Spec, Bytes, IsArmed;
    var vars := Layout(c.ids, block, 0);
    LayoutFacts(c.ids, block, 0);
    LayoutAscends(c.ids, block, 0);
    RequestItems(c.ids, block);
    DronePacksInOrder(c.ids, vars, value);
    var packed := PackVars(c.ids, vars, value);
    var data := DataPacket(block, stamp, CreateRequest(c.ids, block), value);
    assert data == [block] + stamp + packed && data[4..] == packed && data[1..4] == stamp;
    Stamped(data, stamp);
    PackedSize(c.ids, vars, value);
    StoreAllShows(c.t, c.ids, vars, value, u);
  }

  lemma RequestItems(ids: Ids, block: byte)
    ensures forall v <- Layout(ids, block, 0) :: ids[v] >= 0
    ensures |CreateRequest(ids, block)| >= 2 && CreateRequest(ids, block)[2..] == Items(ids, Layout(ids, block, 0))
  {
    LayoutFacts(ids, block, 0);
  }

  lemma Stamped(data: seq<byte>, stamp: seq<byte>)
    requires |data| >= 4 && |stamp| == 3 && data[1..4] == stamp
    ensures Le24(data[1..]) == Le24(stamp)
  {
    assert forall i :: 0 <= i < 3 ==> data[1..4][i] == data[1..][i];
  }

  // ---------------------------------------------------------------------------
  // What every input keeps
  // ---------------------------------------------------------------------------

  datatype Input = PollAt(now: Millis, cap: nat) | Datagram(now: Millis, dg: seq<byte>) | TakeFresh

  function React(c: ClientState, input: Input): ClientState
    requires |c.t.motor| == 4
  {
    match input
    case PollAt(now, cap) => Poll(c, now, cap).0
    case Datagram(now, dg) => OnDatagram(c, now, dg)
    case TakeFresh => c.(freshSample := false)
  }

  /** The table cursor stays inside the table (so its 16 bits never wrap), and the steps match the state. */
  predicate Inv(c: ClientState) {
    && |c.t.motor| == 4 && c.tocCount < 65536
    && (c.state == ReadToc ==> c.nextItem < c.tocCount)
    && (c.state == Setup ==> c.step != Done && (c.step in {CreateSlow, StartSlow} ==> BlockUsed(c.ids, BLOCK_SLOW)))
    && (c.state == Streaming ==> c.step == Done)
    && (c.state == Setup || c.state == Streaming ==> BlockUsed(c.ids, BLOCK_FAST))
  }

  lemma PollKeepsInv(c: ClientState, now: Millis, cap: nat)
    requires Inv(c)
    ensures Inv(Poll(c, now, cap).0)
  {
    hide Request, Encode, BlockUsed;
  }

  lemma OnTocKeepsInv(c: ClientState, now: Millis, data: seq<byte>)
    requires Inv(c)
    ensures Inv(OnToc(c, now, data))
  {
    hide BlockUsed, OnItem;
    if c.state == ReadToc && data != [] { OnItemKeepsInv(c, now, data); }
  }

  lemma OnItemKeepsInv(c: ClientState, now: Millis, data: seq<byte>)
    requires Inv(c) && c.state == ReadToc && data != []
    ensures Inv(OnItem(c, now, data))
  {
    hide BlockUsed, WithItem, TextLength, AllFound;
  }

  lemma OnControlKeepsInv(c: ClientState, now: Millis, data: seq<byte>)
    requires Inv(c)
    ensures Inv(OnControl(c, now, data))
  {
    hide BlockUsed;
  }

  lemma OnDataKeepsInv(c: ClientState, now: Millis, data: seq<byte>)
    requires Inv(c)
    ensures Inv(OnData(c, now, data))
  {
    hide BlockUsed, StoreAll, IsArmed, Bytes, Layout;
  }

  lemma ReactKeepsInv(c: ClientState, input: Input)
    requires Inv(c)
    ensures Inv(React(c, input))
  {
    hide Poll, OnToc, OnControl, OnData, Decode, BlockUsed;
    match input
    case PollAt(now, cap) => PollKeepsInv(c, now, cap);
    case Datagram(now, dg) =>
      if Decode(dg).Some? {
        OnTocKeepsInv(c, now, Decode(dg).value.data);
        OnControlKeepsInv(c, now, Decode(dg).value.data);
        OnDataKeepsInv(c, now, Decode(dg).value.data);
      }
    case TakeFresh =>
  }

  // ---------------------------------------------------------------------------
  // The handshake, over whole runs
  // ---------------------------------------------------------------------------

  ghost predicate IsRun(states: seq<ClientState>, inputs: seq<Input>) {
    && |states| == |inputs| + 1 && states[0] == FRESH
    && forall i :: 0 <= i < |inputs| ==> Reacts(states[i], inputs[i], states[i + 1])
  }

  predicate Reacts(c: ClientState, input: Input, c': ClientState) {
    |c.t.motor| == 4 && c' == React(c, input)
  }

  lemma {:induction false} RunKeepsInv(states: seq<ClientState>, inputs: seq<Input>, k: nat)
    requires IsRun(states, inputs) && k < |states|
    ensures Inv(states[k])
  {
    hide React, BlockUsed;
    if k > 0 {
      RunKeepsInv(states, inputs, k - 1);
      assert Reacts(states[k - 1], inputs[k - 1], states[k]);
      ReactKeepsInv(states[k - 1], inputs[k - 1]);
    }
  }

  /** A drone's reply that a setup step succeeded: on the control channel, for that step and block, with status 0. */
  predicate IsSuccess(input: Input, step: Step) {
    input.Datagram? && Decode(input.dg).Some? &&
    var p := Decode(input.dg).value;
    p.port == PORT_LOG && p.channel == CH_CONTROL && |p.data| >= 3 && Answers(step, p.data) && p.data[2] == 0
  }

  /** The steps whose success has been received, in order, since the client last left the handshake. */
  ghost function Successes(states: seq<ClientState>, inputs: seq<Input>, k: nat): seq<Step>
    requires IsRun(states, inputs) && k < |states|
  {
    if k == 0 then []
    else
      var prev, c := Successes(states, inputs, k - 1), states[k - 1];
      if c.state == Setup && IsSuccess(inputs[k - 1], c.step) then prev + [c.step]
      else if states[k].state == Setup || states[k].state == Streaming then prev
      else []
  }

  /** The handshake's steps before `step`, in order; all of them before `Done`. */
  function StepsBefore(step: Step, slow: bool): seq<Step> {
    match step
    case Reset => []
    case CreateFast => [Reset]
    case CreateSlow => [Reset, CreateFast]
    case StartFast => [Reset, CreateFast] + (if slow then [CreateSlow] else [])
    case StartSlow => [Reset, CreateFast, CreateSlow, StartFast]
    case Done =>
      [Reset, CreateFast] + (if slow then [CreateSlow] else []) + [StartFast] + (if slow then [StartSlow] else [])
  }

  /** In and after setup the steps done are exactly those before the current one; elsewhere none count. */
  ghost predicate Accounts(c: ClientState, done: seq<Step>) {
    done == if c.state == Setup || c.state == Streaming then StepsBefore(c.step, BlockUsed(c.ids, BLOCK_SLOW)) else []
  }

  lemma NextStepAccounts(step: Step, slow: bool)
    requires step != Done && (step in {CreateSlow, StartSlow} ==> slow)
    ensures StepsBefore(NextStep(step, slow), slow) == StepsBefore(step, slow) + [step]
  {
  }

  /** Anything but a success leaves setup where it was, leaves it for good, or enters it at its first step. */
  predicate Quiet(c: ClientState, c': ClientState) {
    && (c'.state == Streaming ==> c.state == Streaming)
    && (c'.state == Setup ==>
          (c.state == Setup && c'.step == c.step) || (c.state != Setup && c.state != Streaming && c'.step == Reset))
    && ((c'.state == Setup || c'.state == Streaming) && c'.state == c.state ==> c'.ids == c.ids && c'.step == c.step)
  }

  lemma QuietPoll(c: ClientState, now: Millis, cap: nat)
    ensures Quiet(c, Poll(c, now, cap).0)
  {
    hide Request, Encode;
  }

  lemma QuietToc(c: ClientState, now: Millis, data: seq<byte>)
    ensures Quiet(c, OnToc(c, now, data))
  {
    hide BlockUsed, WithItem, TextLength, AllFound;
  }

  lemma QuietControl(c: ClientState, now: Millis, data: seq<byte>)
    requires c.state == Setup && |data| >= 3 && Answers(c.step, data) ==> data[2] != 0
    ensures Quiet(c, OnControl(c, now, data))
  {
    hide Answers, Advanced;
  }

  lemma QuietData(c: ClientState, now: Millis, data: seq<byte>)
    requires |c.t.motor| == 4
    ensures Quiet(c, OnData(c, now, data))
  {
    hide BlockUsed, StoreAll, IsArmed, Bytes, Layout;
  }

  lemma QuietInput(c: ClientState, input: Input)
    requires Inv(c) && !(c.state == Setup && IsSuccess(input, c.step))
    ensures Quiet(c, React(c, input))
  {
    hide Poll, OnToc, OnControl, OnData, Decode, BlockUsed, Answers;
    match input
    case PollAt(now, cap) => QuietPoll(c, now, cap);
    case Datagram(now, dg) =>
      if Decode(dg).Some? {
        var p := Decode(dg).value;
        QuietToc(c, now, p.data);
        if p.port == PORT_LOG && p.channel == CH_CONTROL { QuietControl(c, now, p.data); }
        QuietData(c, now, p.data);
      }
    case TakeFresh =>
  }

  lemma SuccessfulInput(c: ClientState, input: Input)
    requires Inv(c) && c.state == Setup && IsSuccess(input, c.step)
    ensures React(c, input) == Advanced(c, input.now)
  {
    hide Decode, Advanced;
  }

  lemma {:induction false} HandshakeIsComplete(states: seq<ClientState>, inputs: seq<Input>, k: nat)
    requires IsRun(states, inputs) && k < |states|
    ensures Accounts(states[k], Successes(states, inputs, k))
  {
    hide React, BlockUsed, IsSuccess, Inv;
    if k > 0 {
      var c, input := states[k - 1], inputs[k - 1];
      RunKeepsInv(states, inputs, k - 1);
      HandshakeIsComplete(states, inputs, k - 1);
      assert Reacts(c, input, states[k]);
      OneMoreAccounts(c, input, states[k], Successes(states, inputs, k - 1), Successes(states, inputs, k));
    }
  }

  lemma OneMoreAccounts(c: ClientState, input: Input, c': ClientState, done: seq<Step>, done': seq<Step>)
    requires Inv(c) && c' == React(c, input) && Accounts(c, done)
    requires done' == if c.state == Setup && IsSuccess(input, c.step) then done + [c.step]
                      else if c'.state == Setup || c'.state == Streaming then done else []
    ensures Accounts(c', done')
  {
    hide React, BlockUsed, IsSuccess;
    if c.state == Setup && IsSuccess(input, c.step) {
      SuccessfulInput(c, input);
      NextStepAccounts(c.step, BlockUsed(c.ids, BLOCK_SLOW));
    } else {
      QuietInput(c, input);
    }
  }

  /** The inputs at these positions are replies that these steps succeeded. */
  ghost predicate Succeeded(inputs: seq<Input>, at: seq<nat>, steps: seq<Step>) {
    && |at| == |steps|
    && (forall i, j :: 0 <= i < j < |at| ==> at[i] < at[j])
    && (forall i :: 0 <= i < |at| ==> at[i] < |inputs| && IsSuccess(inputs[at[i]], steps[i]))
  }

  /** In no state of [i, k] is the client outside the handshake and what follows it. */
  ghost predicate StaysUp(states: seq<ClientState>, i: nat, k: nat)
    requires k < |states|
  {
    forall j :: i <= j <= k ==> states[j].state == Setup || states[j].state == Streaming
  }

  /** Where in the input the steps before the current one succeeded, all in one stay in the handshake. */
  lemma {:induction false} SuccessesAreInputs(states: seq<ClientState>, inputs: seq<Input>, k: nat)
      returns (at: seq<nat>)
    requires IsRun(states, inputs) && k < |states| && (states[k].state == Setup || states[k].state == Streaming)
    ensures Succeeded(inputs, at, StepsBefore(states[k].step, BlockUsed(states[k].ids, BLOCK_SLOW)))
    ensures forall i <- at :: i < k
    ensures at != [] ==> StaysUp(states, at[0], k)
  {
    hide React, BlockUsed, IsSuccess, Inv, StepsBefore;
    var c, input := states[k - 1], inputs[k - 1];
    RunKeepsInv(states, inputs, k - 1);
    assert Reacts(c, input, states[k]);
    if c.state == Setup && IsSuccess(input, c.step) {
      var before := SuccessesAreInputs(states, inputs, k - 1);
      SuccessMovesOn(c, input);
      OneMoreSucceeded(inputs, before, StepsBefore(c.step, BlockUsed(c.ids, BLOCK_SLOW)), k - 1, c.step);
      at := before + [k - 1];
    } else {
      QuietInput(c, input);
      if c.state == Setup || c.state == Streaming {
        at := SuccessesAreInputs(states, inputs, k - 1);
      } else {
        at := [];
        NothingBeforeReset(BlockUsed(states[k].ids, BLOCK_SLOW));
      }
    }
  }

  lemma NothingBeforeReset(slow: bool)
    ensures StepsBefore(Reset, slow) == []
  {
  }

  lemma OneMoreSucceeded(inputs: seq<Input>, at: seq<nat>, steps: seq<Step>, i: nat, step: Step)
    requires Succeeded(inputs, at, steps) && i < |inputs| && IsSuccess(inputs[i], step) && forall j <- at :: j < i
    ensures Succeeded(inputs, at + [i], steps + [step])
  {
    hide IsSuccess;
    assert forall j :: 0 <= j < |at| ==> at[j] in at;
  }

  lemma SuccessMovesOn(c: ClientState, input: Input)
    requires Inv(c) && c.state == Setup && IsSuccess(input, c.step)
    ensures var c' := React(c, input);
            && (c'.state == Setup || c'.state == Streaming)
            && StepsBefore(c'.step, BlockUsed(c'.ids, BLOCK_SLOW)) ==
               StepsBefore(c.step, BlockUsed(c.ids, BLOCK_SLOW)) + [c.step]
  {
    hide BlockUsed, React;
    SuccessfulInput(c, input);
    NextStepAccounts(c.step, BlockUsed(c.ids, BLOCK_SLOW));
  }

  /**
   * The client streams only after the drone has confirmed, with status 0 and in this order, the reset, the creation of
   * each block in use, and the start of each block in use: the replies stand at ascending positions of the input, and
   * the client has not been back to the table, or down, since the first of them.
   */
  lemma StreamsOnlyAfterHandshake(states: seq<ClientState>, inputs: seq<Input>, k: nat) returns (at: seq<nat>)
    requires IsRun(states, inputs) && k < |states| && states[k].state == Streaming
    ensures Successes(states, inputs, k) ==
            if BlockUsed(states[k].ids, BLOCK_SLOW) then [Reset, CreateFast, CreateSlow, StartFast, StartSlow]
            else [Reset, CreateFast, StartFast]
    ensures Succeeded(inputs, at, Successes(states, inputs, k)) && StaysUp(states, at[0], k)
  {
    hide BlockUsed, IsSuccess;
    HandshakeIsComplete(states, inputs, k);
    RunKeepsInv(states, inputs, k);
    at := SuccessesAreInputs(states, inputs, k);
  }

  // ---------------------------------------------------------------------------
  // Nothing half-reported is shown
  // ---------------------------------------------------------------------------

  /** A data packet of the slow block, read as such. */
  predicate StoresSlow(c: ClientState, input: Input) {
    input.Datagram? && Decode(input.dg).Some? &&
    var p := Decode(input.dg).value;
    p.port == PORT_LOG && p.channel == CH_DATA && IsBlockData(c, p.data) && p.data[0] == BLOCK_SLOW
  }

  predicate ShowsNothingNew(c: ClientState, c': ClientState) {
    c'.slowSeen == c.slowSeen && c'.samples == c.samples
  }

  lemma OnlyDataShows(c: ClientState, now: Millis, cap: nat, data: seq<byte>)
    ensures ShowsNothingNew(c, Poll(c, now, cap).0)
    ensures ShowsNothingNew(c, OnToc(c, now, data)) && ShowsNothingNew(c, OnControl(c, now, data))
  {
    hide Request, Encode, BlockUsed, OnItem, Answers, NextStep;
    if data != [] { ItemShowsNothing(c, now, data); }
  }

  lemma ItemShowsNothing(c: ClientState, now: Millis, data: seq<byte>)
    requires data != []
    ensures ShowsNothingNew(c, OnItem(c, now, data))
  {
    hide BlockUsed, WithItem, TextLength, AllFound;
  }

  lemma DataShows(c: ClientState, now: Millis, data: seq<byte>)
    requires |c.t.motor| == 4
    ensures var c' := OnData(c, now, data);
            && (c'.slowSeen ==> c.slowSeen || (IsBlockData(c, data) && data[0] == BLOCK_SLOW))
            && (c'.samples != c.samples ==> c'.slowSeen || !BlockUsed(c.ids, BLOCK_SLOW))
  {
    hide BlockUsed, StoreAll, IsArmed, Bytes, Layout;
  }

  lemma SlowSeenOnlyByReport(c: ClientState, input: Input)
    requires |c.t.motor| == 4
    ensures var c' := React(c, input);
            && (c'.slowSeen ==> c.slowSeen || StoresSlow(c, input))
            && (c'.samples != c.samples ==> c'.slowSeen || !BlockUsed(c.ids, BLOCK_SLOW))
  {
    hide Poll, OnToc, OnControl, OnData, Decode, BlockUsed, IsBlockData;
    match input
    case PollAt(now, cap) => OnlyDataShows(c, now, cap, []);
    case Datagram(now, dg) =>
      if Decode(dg).Some? {
        OnlyDataShows(c, now, 0, Decode(dg).value.data);
        DataShows(c, now, Decode(dg).value.data);
      }
    case TakeFresh =>
  }

  lemma {:induction false} SlowSeenHasAReport(states: seq<ClientState>, inputs: seq<Input>, k: nat)
    requires IsRun(states, inputs) && k < |states| && states[k].slowSeen
    ensures exists j :: 0 <= j < k && StoresSlow(states[j], inputs[j])
  {
    hide React, StoresSlow;
    if k > 0 {
      assert Reacts(states[k - 1], inputs[k - 1], states[k]);
      SlowSeenOnlyByReport(states[k - 1], inputs[k - 1]);
      if states[k - 1].slowSeen { SlowSeenHasAReport(states, inputs, k - 1); }
    }
  }

  /** A sample is published only if the slow block is not in use, or has reported at least once by then. */
  lemma NothingHalfReported(states: seq<ClientState>, inputs: seq<Input>, k: nat)
    requires IsRun(states, inputs) && k < |inputs| && states[k + 1].samples != states[k].samples
    ensures BlockUsed(states[k].ids, BLOCK_SLOW) ==> exists j :: 0 <= j <= k && StoresSlow(states[j], inputs[j])
  {
    hide React, StoresSlow, BlockUsed;
    assert Reacts(states[k], inputs[k], states[k + 1]);
    SlowSeenOnlyByReport(states[k], inputs[k]);
    if states[k + 1].slowSeen { SlowSeenHasAReport(states, inputs, k + 1); }
  }

  /**
   * A block's data is always taken in: the fast block keeps the stream alive and, once every block in use has reported,
   * makes a new sample; the drone counts as armed exactly if its thrust is above zero or a motor runs.
   */
  lemma SamplesArePublished(c: ClientState, now: Millis, data: seq<byte>)
    requires |c.t.motor| == 4 && IsBlockData(c, data)
    ensures var c' := OnData(c, now, data);
            var due := data[0] == 1 && (c.slowSeen || !exists v: Var :: Wants(c.ids, 2, v));
            && c'.slowSeen == (c.slowSeen || data[0] == 2)
            && c'.lastData == (if data[0] == 1 then now else c.lastData)
            && c'.samples == (if due then c.samples + 1 else c.samples)
            && c'.lastSample == (if due then now else c.lastSample)
            && c'.hasSample == (due || c.hasSample) && c'.freshSample == (due || c.freshSample)
            && |c'.t.motor| == 4
            && (c'.t.armed <==> 0 < c'.t.thrust < 0x7F80_0000 || exists i :: 0 <= i < 4 && c'.t.motor[i] != 0)
  {
    hide StoreAll, Layout, Bytes, Wants;
    LayoutFacts(c.ids, BLOCK_SLOW, 0);
    if BlockUsed(c.ids, BLOCK_SLOW) { assert Layout(c.ids, BLOCK_SLOW, 0)[0] in Layout(c.ids, BLOCK_SLOW, 0); }
  }
}
