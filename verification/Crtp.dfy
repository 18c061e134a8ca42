// The ground unit's side of the drone's log link: the CRTP datagram codec and the log client's handshake.

module Crtp {
  import opened ByteBits
  import opened Options

  const PORT_LOG: byte := 0x05
  const CH_TOC: byte := 0
  const CH_CONTROL: byte := 1
  const CH_DATA: byte := 2
  const MAX_DATA: nat := 30
  const MAX_DATAGRAM: nat := 32
  const KEEPALIVE_HEADER: byte := 0xF2

  // ---------------------------------------------------------------------------
  // Datagrams
  // ---------------------------------------------------------------------------

  function Header(port: byte, channel: byte): byte {
    (port % 16) * 16 + channel % 4
  }

  /** The 8-bit sum of the bytes. */
  function Sum(data: seq<byte>): byte {
    if data == [] then 0 else (Sum(data[..|data| - 1]) as int + data[|data| - 1] as int) % 256
  }

  datatype Packet = Packet(port: byte, channel: byte, data: seq<byte>)

  /** A whole datagram, or nothing if the payload is too big for the link or for `cap`. */
  function Encode(hdr: byte, data: seq<byte>, cap: nat): seq<byte> {
    if |data| > MAX_DATA || cap < |data| + 2 then [] else [hdr] + data + [Sum([hdr] + data)]
  }

  function Decode(dg: seq<byte>): Option<Packet> {
    if |dg| < 2 || |dg| > MAX_DATAGRAM || Sum(dg[..|dg| - 1]) != dg[|dg| - 1] then None
    else Some(Packet(dg[0] / 16, dg[0] % 4, dg[1..|dg| - 1]))
  }

  method Checksum8(data: seq<byte>) returns (sum: byte)
    ensures sum == Sum(data)
  {
    sum := 0;
    for i := 0 to |data|
      invariant sum == Sum(data[..i])
    {
      assert data[..i + 1][..i] == data[..i];
      sum := (sum as int + data[i] as int) % 256;
    }
    assert data[..|data|] == data;
  }

  lemma DatagramRoundTrip(port: byte, channel: byte, data: seq<byte>)
    requires port < 16 && channel < 4 && |data| <= MAX_DATA
    ensures var dg := Encode(Header(port, channel), data, MAX_DATAGRAM);
            2 <= |dg| <= MAX_DATAGRAM && Decode(dg) == Some(Packet(port, channel, data))
  {
    hide Sum, Header;
    var hdr := Header(port, channel);
    var dg := Encode(hdr, data, MAX_DATAGRAM);
    HeaderRoundTrip(port, channel);
    assert dg[..|dg| - 1] == [hdr] + data && dg[1..|dg| - 1] == data;
  }

  lemma HeaderRoundTrip(port: byte, channel: byte)
    requires port < 16 && channel < 4
    ensures Header(port, channel) / 16 == port && Header(port, channel) % 4 == channel
  {
  }

  lemma SumStep(a: byte, b: byte, x: byte)
    ensures (a as int + x as int) % 256 == (b as int + x as int) % 256 <==> a == b
    ensures (x as int + a as int) % 256 == (x as int + b as int) % 256 <==> a == b
  {
  }

  /** One byte altered: the datagram is refused. */
  lemma {:induction false} SumDetects(data: seq<byte>, i: nat, x: byte)
    requires i < |data| && x != data[i]
    ensures Sum(data[i := x]) != Sum(data)
  {
    var changed, last := data[i := x], |data| - 1;
    if i < last {
      SumDetects(data[..last], i, x);
      assert changed[..last] == data[..last][i := x];
      SumStep(Sum(changed[..last]), Sum(data[..last]), data[last]);
    } else {
      assert changed[..last] == data[..last];
      SumStep(x, data[last], Sum(data[..last]));
    }
  }

  lemma AlteredDatagramIsRefused(dg: seq<byte>, i: nat, x: byte)
    requires Decode(dg).Some? && i < |dg| && x != dg[i]
    ensures Decode(dg[i := x]) == None
  {
    var changed, last := dg[i := x], |dg| - 1;
    if i < last {
      assert changed[..last] == dg[..last][i := x];
      SumDetects(dg[..last], i, x);
    } else {
      assert changed[..last] == dg[..last];
    }
  }

  // ---------------------------------------------------------------------------
  // The variables
  // ---------------------------------------------------------------------------

  const LOG_UINT8: byte := 1
  const LOG_UINT16: byte := 2
  const LOG_FLOAT: byte := 7
  const CMD_GET_ITEM: byte := 2
  const CMD_GET_INFO: byte := 3
  const CONTROL_START: byte := 3
  const CONTROL_RESET: byte := 5
  const CONTROL_CREATE: byte := 6
  const RETRY_MS: nat := 300
  const MAX_RETRIES: nat := 5
  const KEEPALIVE_MS: nat := 250
  const STREAM_TIMEOUT_MS: nat := 2000
  const UNSUPPORTED_RETRY_MS: nat := 5000
  const BLOCK_FAST: byte := 1
  const BLOCK_SLOW: byte := 2
  const FAST_PERIOD: byte := 10
  const SLOW_PERIOD: byte := 50
  const ZRANGE_MAX: nat := 8000

  const V_ROLL: nat := 0
  const V_PITCH: nat := 1
  const V_YAW: nat := 2
  const V_THRUST: nat := 3
  const V_ZRANGE: nat := 4
  const V_VBAT: nat := 5
  const V_M1: nat := 6
  const V_PCT: nat := 10
  const V_COUNT: nat := 11

  type Var = i: nat | i < V_COUNT

  datatype VarSpec = VarSpec(group: string, name: string, kind: byte, block: byte)

  function Spec(v: Var): VarSpec {
    match v
    case 0 => VarSpec("stabilizer", "roll", LOG_FLOAT, BLOCK_FAST)
    case 1 => VarSpec("stabilizer", "pitch", LOG_FLOAT, BLOCK_FAST)
    case 2 => VarSpec("stabilizer", "yaw", LOG_FLOAT, BLOCK_FAST)
    case 3 => VarSpec("stabilizer", "thrust", LOG_FLOAT, BLOCK_FAST)
    case 4 => VarSpec("range", "zrange", LOG_UINT16, BLOCK_FAST)
    case 5 => VarSpec("pm", "vbat", LOG_FLOAT, BLOCK_FAST)
    case 6 => VarSpec("motor", "m1", LOG_UINT16, BLOCK_SLOW)
    case 7 => VarSpec("motor", "m2", LOG_UINT16, BLOCK_SLOW)
    case 8 => VarSpec("motor", "m3", LOG_UINT16, BLOCK_SLOW)
    case 9 => VarSpec("motor", "m4", LOG_UINT16, BLOCK_SLOW)
    case _ => VarSpec("pm", "batteryLevel", LOG_UINT8, BLOCK_SLOW)
  }

  function SizeOf(kind: byte): nat {
    if kind == LOG_FLOAT then 4 else if kind == LOG_UINT16 then 2 else 1
  }

  /** Table ids of the wanted variables; -1 for one not found. */
  type Ids = ids: seq<int> | |ids| == V_COUNT && forall i :: 0 <= i < V_COUNT ==> -1 <= ids[i] < 65536
    witness [-1, -1, -1, -1, -1, -1, -1, -1, -1, -1, -1]

  predicate Wants(ids: Ids, block: byte, v: Var) {
    ids[v] >= 0 && Spec(v).block == block
  }

  /** The variables of a block, in order. */
  function Layout(ids: Ids, block: byte, from: nat): seq<Var>
    requires from <= V_COUNT
    decreases V_COUNT - from
  {
    if from == V_COUNT then []
    else (if Wants(ids, block, from) then [from] else []) + Layout(ids, block, from + 1)
  }

  predicate BlockUsed(ids: Ids, block: byte) {
    Layout(ids, block, 0) != []
  }

  function Bytes(vars: seq<Var>): nat {
    if vars == [] then 0 else SizeOf(Spec(vars[0]).kind) + Bytes(vars[1..])
  }

  // ---------------------------------------------------------------------------
  // Telemetry
  // ---------------------------------------------------------------------------

  /** A 32-bit float by its bits: nothing here rounds. */
  type Float32 = x: nat | x < 0x1_0000_0000

  predicate IsFinite(f: Float32) {
    (f / 0x80_0000) % 256 != 255
  }

  predicate IsPositive(f: Float32) {
    0 < f < 0x7F80_0000
  }

  datatype Telemetry = Telemetry(roll: Float32, pitch: Float32, yaw: Float32, thrust: Float32, altMm: nat,
                                 altValid: bool, vbat: Float32, pct: nat, armed: bool, motor: seq<nat>, droneMs: nat)

  function Le16(b: seq<byte>): nat
    requires |b| >= 2
  {
    b[0] as nat + 256 * b[1] as nat
  }

  function Le24(b: seq<byte>): nat
    requires |b| >= 3
  {
    b[0] as nat + 256 * b[1] as nat + 65536 * b[2] as nat
  }

  function Le32(b: seq<byte>): Float32
    requires |b| >= 4
  {
    b[0] as nat + 256 * b[1] as nat + 65536 * b[2] as nat + 0x100_0000 * b[3] as nat
  }

  /** Keeps the previous value for a non-finite float. */
  function Finite(prev: Float32, b: seq<byte>): Float32
    requires |b| >= 4
  {
    if IsFinite(Le32(b)) then Le32(b) else prev
  }

  function Store(t: Telemetry, v: Var, b: seq<byte>): (t': Telemetry)
    requires |b| >= SizeOf(Spec(v).kind) && |t.motor| == 4
    ensures |t'.motor| == 4
  {
    if v == V_ROLL then t.(roll := Finite(t.roll, b))
    else if v == V_PITCH then t.(pitch := Finite(t.pitch, b))
    else if v == V_YAW then t.(yaw := Finite(t.yaw, b))
    else if v == V_THRUST then t.(thrust := Finite(t.thrust, b))
    else if v == V_VBAT then t.(vbat := Finite(t.vbat, b))
    else if v == V_ZRANGE then
      t.(altValid := Le16(b) <= ZRANGE_MAX, altMm := if Le16(b) <= ZRANGE_MAX then Le16(b) else 0)
    else if v == V_PCT then t.(pct := if b[0] > 100 then 100 else b[0] as nat)
    else t.(motor := t.motor[v - V_M1 := Le16(b)])
  }

  /** What the telemetry holds for one variable. */
  datatype Field = FloatField(f: Float32) | RangeField(mm: nat, valid: bool) | CountField(n: nat)

  function FieldOf(t: Telemetry, v: Var): Field
    requires |t.motor| == 4
  {
    if v == V_ROLL then FloatField(t.roll)
    else if v == V_PITCH then FloatField(t.pitch)
    else if v == V_YAW then FloatField(t.yaw)
    else if v == V_THRUST then FloatField(t.thrust)
    else if v == V_VBAT then FloatField(t.vbat)
    else if v == V_ZRANGE then RangeField(t.altMm, t.altValid)
    else if v == V_PCT then CountField(t.pct)
    else CountField(t.motor[v - V_M1])
  }

  function StoreAll(t: Telemetry, vars: seq<Var>, data: seq<byte>): (t': Telemetry)
    requires |data| >= Bytes(vars) && |t.motor| == 4
    ensures |t'.motor| == 4
    decreases |vars|
  {
    if vars == [] then t else StoreAll(Store(t, vars[0], data), vars[1..], data[SizeOf(Spec(vars[0]).kind)..])
  }

  // ---------------------------------------------------------------------------
  // The client's state
  // ---------------------------------------------------------------------------

  datatype State = GetInfo | ReadToc | Setup | Streaming | Unsupported

  datatype Step = Reset | CreateFast | CreateSlow | StartFast | StartSlow | Done

  /** Milliseconds on a 32-bit clock that wraps. */
  type Millis = x: nat | x < 0x1_0000_0000

  function Elapsed(now: Millis, since: Millis): Millis {
    (now - since) % 0x1_0000_0000
  }

  datatype ClientState = ClientState(state: State, step: Step, awaiting: bool, retries: nat, lastTx: Millis,
                                     entered: Millis, lastData: Millis, tocCount: nat, nextItem: nat, ids: Ids,
                                     t: Telemetry, hasSample: bool, freshSample: bool, slowSeen: bool,
                                     lastSample: Millis, samples: nat, restarts: nat, bad: nat)

  const NO_IDS: Ids := [-1, -1, -1, -1, -1, -1, -1, -1, -1, -1, -1]
  const NO_TELEMETRY: Telemetry := Telemetry(0, 0, 0, 0, 0, false, 0, 0, false, [0, 0, 0, 0], 0)
  const FRESH: ClientState := ClientState(GetInfo, Reset, false, 0, 0, 0, 0, 0, 0, NO_IDS, NO_TELEMETRY, false, false,
                                          false, 0, 0, 0, 0)

  /** A restart keeps the telemetry, and waits one retry period before asking again. */
  function Restarted(c: ClientState, now: Millis): ClientState {
    c.(state := GetInfo, step := Reset, awaiting := true, retries := 0, lastTx := now, entered := now, tocCount := 0,
       nextItem := 0, ids := NO_IDS, restarts := c.restarts + 1)
  }

  function Entered(c: ClientState, state: State, now: Millis): ClientState {
    c.(state := state, awaiting := false, retries := 0, entered := now)
  }

  /** The step after `step`, skipping those of a slow block with nothing in it. */
  function NextStep(step: Step, slow: bool): Step {
    match step
    case Reset => CreateFast
    case CreateFast => if slow then CreateSlow else StartFast
    case CreateSlow => StartFast
    case StartFast => if slow then StartSlow else Done
    case StartSlow => Done
    case Done => Done
  }

  function Advanced(c: ClientState, now: Millis): ClientState {
    var c1 := c.(step := NextStep(c.step, BlockUsed(c.ids, BLOCK_SLOW)), awaiting := false, retries := 0);
    if c1.step == Done then Entered(c1, Streaming, now).(lastData := now) else c1
  }

  // ---------------------------------------------------------------------------
  // Requests
  // ---------------------------------------------------------------------------

  /** One variable of a create request: the type asked for, and its table id. */
  function Item(ids: Ids, v: Var): (item: seq<byte>)
    requires ids[v] >= 0
    ensures |item| == 3
  {
    [Spec(v).kind, ids[v] % 256, ids[v] / 256]
  }

  function Items(ids: Ids, vars: seq<Var>): (items: seq<byte>)
    requires forall v <- vars :: ids[v] >= 0
    ensures |items| == 3 * |vars|
  {
    if vars == [] then [] else Item(ids, vars[0]) + Items(ids, vars[1..])
  }

  function ItemsOf(ids: Ids, block: byte, from: nat): seq<byte>
    requires from <= V_COUNT
  {
    LayoutFacts(ids, block, from);
    Items(ids, Layout(ids, block, from))
  }

  lemma NextItem(ids: Ids, block: byte, i: nat)
    requires i < V_COUNT
    ensures ItemsOf(ids, block, i) ==
            if Wants(ids, block, i) then Item(ids, i) + ItemsOf(ids, block, i + 1) else ItemsOf(ids, block, i + 1)
    ensures ItemsOf(ids, block, V_COUNT) == []
  {
    hide Layout;
    LayoutStep(ids, block, i);
  }

  lemma LayoutStep(ids: Ids, block: byte, i: nat)
    requires i < V_COUNT
    ensures var vars, rest := Layout(ids, block, i), Layout(ids, block, i + 1);
            if Wants(ids, block, i) then vars != [] && vars[0] == i && vars[1..] == rest else vars == rest
    ensures Layout(ids, block, V_COUNT) == []
  {
  }

  /** Exactly the block's wanted variables. */
  lemma {:induction false} LayoutFacts(ids: Ids, block: byte, from: nat)
    requires from <= V_COUNT
    ensures forall v <- Layout(ids, block, from) :: from <= v && Wants(ids, block, v)
    ensures forall v: Var :: from <= v && Wants(ids, block, v) ==> v in Layout(ids, block, from)
    decreases V_COUNT - from
  {
    hide Wants;
    if from < V_COUNT {
      LayoutFacts(ids, block, from + 1);
      var rest, all := Layout(ids, block, from + 1), Layout(ids, block, from);
      forall v: Var | from <= v && Wants(ids, block, v) ensures v in all {
        assert v == from || v in rest;
      }
      forall v <- all ensures from <= v && Wants(ids, block, v) {
        assert v == from || v in rest;
      }
    }
  }

  /** Each once, in the order of the table. */
  lemma {:induction false} LayoutAscends(ids: Ids, block: byte, from: nat)
    requires from <= V_COUNT
    ensures forall i, j :: 0 <= i < j < |Layout(ids, block, from)| ==>
              Layout(ids, block, from)[i] < Layout(ids, block, from)[j]
    decreases V_COUNT - from
  {
    hide Layout, Wants;
    if from < V_COUNT {
      LayoutStep(ids, block, from);
      LayoutAscends(ids, block, from + 1);
      LayoutFacts(ids, block, from + 1);
      var rest, all := Layout(ids, block, from + 1), Layout(ids, block, from);
      forall i, j | 0 <= i < j < |all| ensures all[i] < all[j] {
        if all != rest {
          assert all[j] == rest[j - 1] && rest[j - 1] in rest;
          assert i > 0 ==> all[i] == rest[i - 1];
        }
      }
    } else {
      LayoutStep(ids, block, 0);
    }
  }

  /** At most six variables to a block, so every request fits the link. */
  lemma LayoutIsSmall(ids: Ids, block: byte)
    ensures |Layout(ids, block, 0)| <= 6 || (block != BLOCK_FAST && block != BLOCK_SLOW)
  {
    assert Layout(ids, block, 11) == [];
    assert |Layout(ids, block, 10)| <= if block == BLOCK_SLOW then 1 else 0;
    assert |Layout(ids, block, 9)| <= if block == BLOCK_SLOW then 2 else 0;
    assert |Layout(ids, block, 8)| <= if block == BLOCK_SLOW then 3 else 0;
    assert |Layout(ids, block, 7)| <= if block == BLOCK_SLOW then 4 else 0;
    assert |Layout(ids, block, 6)| <= if block == BLOCK_SLOW then 5 else 0;
    assert |Layout(ids, block, 5)| <= if block == BLOCK_SLOW then 5 else 1;
    assert |Layout(ids, block, 4)| <= if block == BLOCK_SLOW then 5 else 2;
    assert |Layout(ids, block, 3)| <= if block == BLOCK_SLOW then 5 else 3;
    assert |Layout(ids, block, 2)| <= if block == BLOCK_SLOW then 5 else 4;
    assert |Layout(ids, block, 1)| <= if block == BLOCK_SLOW then 5 else 5;
  }

  function CreateRequest(ids: Ids, block: byte): seq<byte> {
    [CONTROL_CREATE, block] + ItemsOf(ids, block, 0)
  }

  function SetupRequest(step: Step, ids: Ids): seq<byte> {
    match step
    case Reset => [CONTROL_RESET]
    case CreateFast => CreateRequest(ids, BLOCK_FAST)
    case CreateSlow => CreateRequest(ids, BLOCK_SLOW)
    case StartFast => [CONTROL_START, BLOCK_FAST, FAST_PERIOD]
    case _ => [CONTROL_START, BLOCK_SLOW, SLOW_PERIOD]
  }

  function Request(c: ClientState): (byte, seq<byte>) {
    match c.state
    case GetInfo => (Header(PORT_LOG, CH_TOC), [CMD_GET_INFO])
    case ReadToc => (Header(PORT_LOG, CH_TOC), [CMD_GET_ITEM, c.nextItem % 256, (c.nextItem / 256) % 256])
    case _ => (Header(PORT_LOG, CH_CONTROL), SetupRequest(c.step, c.ids))
  }

  /** The next datagram to send, if any. */
  function Poll(c: ClientState, now: Millis, cap: nat): (ClientState, seq<byte>) {
    if c.state == Unsupported then
      (if Elapsed(now, c.entered) < UNSUPPORTED_RETRY_MS then c else Restarted(c, now), [])
    else if c.state == Streaming then
      if Elapsed(now, c.lastData) >= STREAM_TIMEOUT_MS then (Restarted(c, now), [])
      else if Elapsed(now, c.lastTx) < KEEPALIVE_MS then (c, [])
      else
        var out := Encode(KEEPALIVE_HEADER, [], cap);
        (if out != [] then c.(lastTx := now) else c, out)
    else if c.awaiting && Elapsed(now, c.lastTx) < RETRY_MS then (c, [])
    else
      var c1 := if c.awaiting then c.(retries := c.retries + 1) else c;
      if c.awaiting && c1.retries > MAX_RETRIES && c.state != GetInfo then (Restarted(c1, now), [])
      else
        var out := Encode(Request(c).0, Request(c).1, cap);
        (if out != [] then c1.(awaiting := true, lastTx := now) else c1, out)
  }

  // ---------------------------------------------------------------------------
  // Replies
  // ---------------------------------------------------------------------------

  function FinishToc(c: ClientState, now: Millis): ClientState {
    if !BlockUsed(c.ids, BLOCK_FAST) then Entered(c, Unsupported, now) else Entered(c, Setup, now).(step := Reset)
  }

  /** Length of the text at the start of `b`, or |b| if it has no terminator. */
  function TextLength(b: seq<byte>): (n: nat)
    ensures n <= |b|
  {
    if b == [] || b[0] == 0 then 0 else 1 + TextLength(b[1..])
  }

  predicate Spells(b: seq<byte>, s: string) {
    |b| == |s| && forall i :: 0 <= i < |b| ==> b[i] as int == s[i] as int
  }

  function WithItem(ids: Ids, group: seq<byte>, name: seq<byte>, id: nat): (ids': Ids)
    requires id < 65536
  {
    seq(V_COUNT, v requires 0 <= v < V_COUNT =>
      if ids[v] < 0 && Spells(group, Spec(v).group) && Spells(name, Spec(v).name) then id else ids[v])
  }

  predicate AllFound(ids: Ids) {
    forall v :: 0 <= v < V_COUNT ==> ids[v] >= 0
  }

  function OnItem(c: ClientState, now: Millis, data: seq<byte>): ClientState {
    if |data| == 1 then FinishToc(c, now)
    else if |data| < 6 || Le16(data[1..]) != c.nextItem then c
    else
      var text := data[4..];
      var glen := TextLength(text);
      if glen + 1 >= |text| then c
      else
        var rest := text[glen + 1..];
        var nlen := TextLength(rest);
        if nlen == |rest| then c
        else
          var c1 := c.(ids := WithItem(c.ids, text[..glen], rest[..nlen], Le16(data[1..])),
                       nextItem := (c.nextItem + 1) % 65536,
                       awaiting := false, retries := 0);
          if c1.nextItem >= c1.tocCount || AllFound(c1.ids) then FinishToc(c1, now) else c1
  }

  function OnToc(c: ClientState, now: Millis, data: seq<byte>): ClientState {
    if data == [] then c
    else if c.state == GetInfo && data[0] == CMD_GET_INFO && |data| >= 3 then
      var c1 := Entered(c.(tocCount := Le16(data[1..]), nextItem := 0), ReadToc, now);
      if c1.tocCount == 0 then FinishToc(c1, now) else c1
    else if c.state != ReadToc || data[0] != CMD_GET_ITEM then c
    else OnItem(c, now, data)
  }

  /** Whether a control packet answers a setup step. A reset reply is identified by its command byte alone. */
  predicate Answers(step: Step, data: seq<byte>)
    requires |data| >= 3
  {
    match step
    case Reset => data[0] == CONTROL_RESET
    case CreateFast => data[0] == CONTROL_CREATE && data[1] == BLOCK_FAST
    case CreateSlow => data[0] == CONTROL_CREATE && data[1] == BLOCK_SLOW
    case StartFast => data[0] == CONTROL_START && data[1] == BLOCK_FAST
    case _ => data[0] == CONTROL_START && data[1] == BLOCK_SLOW
  }

  function OnControl(c: ClientState, now: Millis, data: seq<byte>): ClientState {
    if c.state != Setup || |data| < 3 || !Answers(c.step, data) then c
    else if data[2] != 0 then Restarted(c, now)
    else Advanced(c, now)
  }

  predicate IsBlockData(c: ClientState, data: seq<byte>) {
    && (c.state == Setup || c.state == Streaming) && |data| >= 4
    && (data[0] == BLOCK_FAST || data[0] == BLOCK_SLOW)
    && BlockUsed(c.ids, data[0]) && |data| >= 4 + Bytes(Layout(c.ids, data[0], 0))
  }

  predicate IsArmed(t: Telemetry) {
    IsPositive(t.thrust) || exists i :: 0 <= i < |t.motor| && t.motor[i] != 0
  }

  /** A block has been stored: stamp it, and publish the sample unless a used slow block has never reported. */
  function Published(c: ClientState, now: Millis, block: byte, droneMs: nat): ClientState
    requires |c.t.motor| == 4
  {
    var t := c.t.(droneMs := droneMs);
    var c1 := c.(t := t.(armed := IsArmed(t)), slowSeen := c.slowSeen || block == BLOCK_SLOW,
                 lastData := if block == BLOCK_FAST then now else c.lastData);
    if block == BLOCK_FAST && (c1.slowSeen || !BlockUsed(c.ids, BLOCK_SLOW))
    then c1.(lastSample := now, hasSample := true, freshSample := true, samples := c.samples + 1)
    else c1
  }

  function OnData(c: ClientState, now: Millis, data: seq<byte>): ClientState
    requires |c.t.motor| == 4
  {
    if !IsBlockData(c, data) then c
    else
      Published(c.(t := StoreAll(c.t, Layout(c.ids, data[0], 0), data[4..])), now, data[0], Le24(data[1..]))
  }

  function OnDatagram(c: ClientState, now: Millis, dg: seq<byte>): ClientState
    requires |c.t.motor| == 4
  {
    match Decode(dg)
    case None => c.(bad := c.bad + 1)
    case Some(p) =>
      if p.port != PORT_LOG then c
      else if p.channel == CH_TOC then OnToc(c, now, p.data)
      else if p.channel == CH_CONTROL then OnControl(c, now, p.data)
      else if p.channel == CH_DATA then OnData(c, now, p.data)
      else c
  }

  // ---------------------------------------------------------------------------
  // The client
  // ---------------------------------------------------------------------------

  function Succ(step: Step): Step {
    match step
    case Reset => CreateFast
    case CreateFast => CreateSlow
    case CreateSlow => StartFast
    case StartFast => StartSlow
    case _ => Done
  }

  class Client {
    var state: State
    var step: Step
    var awaiting: bool
    var retries: nat
    var lastTx: Millis
    var entered: Millis
    var lastData: Millis
    var tocCount: nat
    var nextItem: nat
    var ids: Ids
    var t: Telemetry
    var hasSample: bool
    var freshSample: bool
    var slowSeen: bool
    var lastSample: Millis
    var samples: nat
    var restarts: nat
    var bad: nat

    ghost predicate Valid() reads this {
      |t.motor| == 4
    }

    ghost function View(): ClientState reads this {
      ClientState(state, step, awaiting, retries, lastTx, entered, lastData, tocCount, nextItem, ids, t, hasSample,
                  freshSample, slowSeen, lastSample, samples, restarts, bad)
    }

    constructor ()
      ensures Valid() && View() == FRESH
    {
      state, step, awaiting, retries, lastTx, entered, lastData := GetInfo, Step.Reset, false, 0, 0, 0, 0;
      tocCount, nextItem, ids, t := 0, 0, NO_IDS, NO_TELEMETRY;
      hasSample, freshSample, slowSeen, lastSample, samples, restarts, bad := false, false, false, 0, 0, 0, 0;
    }

    method Restart(now: Millis)
      modifies this`state, this`step, this`awaiting, this`retries, this`lastTx, this`entered, this`tocCount,
               this`nextItem, this`ids, this`restarts
      ensures View() == Restarted(old(View()), now)
    {
      restarts := restarts + 1;
      ForgetTable();
      Enter(GetInfo, now);
      Hold(now);
    }

    /** Waits one retry period before sending again. */
    method Hold(now: Millis)
      modifies this`awaiting, this`lastTx
      ensures View() == old(View()).(awaiting := true, lastTx := now)
    {
      awaiting, lastTx := true, now;
    }

    method ForgetTable()
      modifies this`step, this`tocCount, this`nextItem, this`ids
      ensures View() == old(View()).(tocCount := 0, nextItem := 0, step := Step.Reset, ids := NO_IDS)
    {
      tocCount, nextItem, step, ids := 0, 0, Step.Reset, NO_IDS;
    }

    method Enter(s: State, now: Millis)
      modifies this`state, this`awaiting, this`retries, this`entered
      ensures View() == Entered(old(View()), s, now)
    {
      state, awaiting, retries, entered := s, false, 0, now;
    }

    method AdvanceStep(now: Millis)
      requires step != Done
      modifies this`state, this`step, this`awaiting, this`retries, this`entered, this`lastData
      ensures View() == Advanced(old(View()), now)
    {
      hide BlockUsed;
      MoveStep();
      if step == Done {
        Enter(Streaming, now);
        lastData := now;
      }
    }

    /** The step after this one, skipping those of a slow block with nothing in it. */
    method MoveStep()
      requires step != Done
      modifies this`step, this`awaiting, this`retries
      ensures View() == old(View()).(step := NextStep(old(step), BlockUsed(ids, BLOCK_SLOW)), awaiting := false,
                                     retries := 0)
    {
      hide BlockUsed;
      var slow := BlockUsed(ids, BLOCK_SLOW);
      step := Succ(step);
      if (step == CreateSlow || step == StartSlow) && !slow {
        step := Succ(step);
      }
      awaiting := false;
      retries := 0;
    }

    method BuildCreate(block: byte) returns (req: seq<byte>)
      ensures req == CreateRequest(ids, block)
    {
      hide Layout, ItemsOf;
      LayoutFacts(ids, block, 0);
      req := [CONTROL_CREATE, block];
      ghost var all := CreateRequest(ids, block);
      for i := 0 to V_COUNT
        invariant forall v <- Layout(ids, block, i) :: Wants(ids, block, v)
        invariant req + ItemsOf(ids, block, i) == all
      {
        LayoutStep(ids, block, i);
        NextItem(ids, block, i);
        if ids[i] < 0 || Spec(i).block != block {
          continue;
        }
        var item := Item(ids, i);
        ghost var rest := ItemsOf(ids, block, i + 1);
        assert req + (item + rest) == (req + item) + rest;
        req := req + item;
      }
      NextItem(ids, block, V_COUNT - 1);
    }

    method BuildRequest() returns (hdr: byte, req: seq<byte>)
      ensures (hdr, req) == Request(View())
    {
      match state {
        case GetInfo => return Header(PORT_LOG, CH_TOC), [CMD_GET_INFO];
        case ReadToc => return Header(PORT_LOG, CH_TOC), [CMD_GET_ITEM, nextItem % 256, (nextItem / 256) % 256];
        case _ =>
          hdr := Header(PORT_LOG, CH_CONTROL);
          match step {
            case Reset => req := [CONTROL_RESET];
            case CreateFast => req := BuildCreate(BLOCK_FAST);
            case CreateSlow => req := BuildCreate(BLOCK_SLOW);
            case StartFast => req := [CONTROL_START, BLOCK_FAST, FAST_PERIOD];
            case _ => req := [CONTROL_START, BLOCK_SLOW, SLOW_PERIOD];
          }
      }
    }

    method PollNext(now: Millis, cap: nat) returns (out: seq<byte>)
      modifies this
      ensures (View(), out) == Poll(old(View()), now, cap)
    {
      hide Request, Encode;
      out := [];
      if state == Unsupported {
        if Elapsed(now, entered) >= UNSUPPORTED_RETRY_MS {
          Restart(now);
        }
        return;
      }
      if state == Streaming {
        if Elapsed(now, lastData) >= STREAM_TIMEOUT_MS {
          Restart(now);
          return;
        }
        if Elapsed(now, lastTx) < KEEPALIVE_MS {
          return;
        }
        out := Encode(KEEPALIVE_HEADER, [], cap);
        if out != [] {
          lastTx := now;
        }
        return;
      }
      out := PollRequest(now, cap);
    }

    method PollRequest(now: Millis, cap: nat) returns (out: seq<byte>)
      requires state != Unsupported && state != Streaming
      modifies this
      ensures (View(), out) == Poll(old(View()), now, cap)
    {
      hide Request, Encode;
      out := [];
      ghost var c := View();
      if awaiting {
        if Elapsed(now, lastTx) < RETRY_MS {
          return;
        }
        retries := retries + 1;
        if retries > MAX_RETRIES && state != GetInfo {
          Restart(now);
          return;
        }
      }
      var hdr, req := BuildRequest();
      RequestIgnoresRetries(c, View());
      out := Encode(hdr, req, cap);
      if out != [] {
        awaiting := true;
        lastTx := now;
      }
    }

    method CompleteToc(now: Millis)
      modifies this`state, this`awaiting, this`retries, this`entered, this`step
      ensures View() == FinishToc(old(View()), now)
    {
      if !BlockUsed(ids, BLOCK_FAST) {
        Enter(Unsupported, now);
        return;
      }
      Enter(Setup, now);
      step := Step.Reset;
    }

    method HandleItem(now: Millis, data: seq<byte>)
      requires data != []
      modifies this`state, this`awaiting, this`retries, this`entered, this`step, this`ids, this`nextItem
      ensures View() == OnItem(old(View()), now, data)
    {
      hide FinishToc, WithItem, TextLength;
      if |data| == 1 {
        CompleteToc(now);
        return;
      }
      if |data| < 6 {
        return;
      }
      var id := Le16(data[1..]);
      if id != nextItem {
        return;
      }
      var text := data[4..];
      var glen := TextLength(text);
      if glen + 1 >= |text| {
        return;
      }
      var rest := text[glen + 1..];
      var nlen := TextLength(rest);
      if nlen == |rest| {
        return;
      }
      TakeItem(WithItem(ids, text[..glen], rest[..nlen], id));
      if nextItem >= tocCount || AllFound(ids) {
        CompleteToc(now);
      }
    }

    method TakeItem(found: Ids)
      modifies this`awaiting, this`retries, this`ids, this`nextItem
      ensures View() == old(View()).(ids := found, nextItem := (old(nextItem) + 1) % 65536, awaiting := false,
                                     retries := 0)
    {
      ids := found;
      nextItem := (nextItem + 1) % 65536;
      awaiting := false;
      retries := 0;
    }

    method HandleToc(now: Millis, data: seq<byte>)
      modifies this`state, this`awaiting, this`retries, this`entered, this`step, this`ids, this`nextItem, this`tocCount
      ensures View() == OnToc(old(View()), now, data)
    {
      hide FinishToc, OnItem;
      if |data| < 1 {
        return;
      }
      if state == GetInfo && data[0] == CMD_GET_INFO && |data| >= 3 {
        tocCount := Le16(data[1..]);
        nextItem := 0;
        Enter(ReadToc, now);
        if tocCount == 0 {
          CompleteToc(now);
        }
        return;
      }
      if state != ReadToc || data[0] != CMD_GET_ITEM {
        return;
      }
      HandleItem(now, data);
    }

    method HandleControl(now: Millis, data: seq<byte>)
      requires state == Setup ==> step != Done
      modifies this
      ensures View() == OnControl(old(View()), now, data)
    {
      hide Advanced;
      if state != Setup || |data| < 3 {
        return;
      }
      if !Answers(step, data) {
        return;
      }
      if data[2] != 0 {
        Restart(now);
        return;
      }
      AdvanceStep(now);
    }

    method BytesNeeded(block: byte) returns (need: nat)
      ensures need == 4 + Bytes(Layout(ids, block, 0))
    {
      hide Layout;
      need := 4;
      for i := 0 to V_COUNT
        invariant need + Bytes(Layout(ids, block, i)) == 4 + Bytes(Layout(ids, block, 0))
      {
        LayoutStep(ids, block, i);
        if ids[i] >= 0 && Spec(i).block == block {
          need := need + SizeOf(Spec(i).kind);
        }
      }
      LayoutStep(ids, block, 0);
    }

    method StoreBlock(block: byte, values: seq<byte>)
      requires Valid() && |values| >= Bytes(Layout(ids, block, 0))
      modifies this`t
      ensures Valid() && t == StoreAll(old(t), Layout(ids, block, 0), values)
    {
      hide Store, Spec, Layout;
      var off := 0;
      ghost var all := StoreAll(t, Layout(ids, block, 0), values);
      assert values[0..] == values;
      for i := 0 to V_COUNT
        invariant off <= |values| && Valid() && |values[off..]| >= Bytes(Layout(ids, block, i))
        invariant StoreAll(t, Layout(ids, block, i), values[off..]) == all
      {
        LayoutStep(ids, block, i);
        if ids[i] < 0 || Spec(i).block != block {
          continue;
        }
        var size := SizeOf(Spec(i).kind);
        assert values[off..][size..] == values[off + size..];
        t := Store(t, i, values[off..]);
        off := off + size;
      }
      LayoutStep(ids, block, 0);
    }

    method HandleData(now: Millis, data: seq<byte>)
      requires Valid()
      modifies this`t, this`slowSeen, this`lastData, this`lastSample, this`hasSample, this`freshSample, this`samples
      ensures Valid() && View() == OnData(old(View()), now, data)
    {
      hide StoreAll, Layout, IsArmed, Bytes;
      if (state != Setup && state != Streaming) || |data| < 4 {
        return;
      }
      var block := data[0];
      if block != BLOCK_FAST && block != BLOCK_SLOW {
        return;
      }
      var need := BytesNeeded(block);
      if !BlockUsed(ids, block) || |data| < need {
        return;
      }
      StoreBlock(block, data[4..]);
      Publish(now, block, Le24(data[1..]));
    }

    /** Nothing is published until every block in use has reported once. */
    method Publish(now: Millis, block: byte, droneMs: nat)
      requires Valid()
      modifies this`t, this`slowSeen, this`lastData, this`lastSample, this`hasSample, this`freshSample, this`samples
      ensures Valid() && View() == Published(old(View()), now, block, droneMs)
    {
      hide BlockUsed, IsArmed;
      var stamped := t.(droneMs := droneMs);
      t := stamped.(armed := IsArmed(stamped));
      Note(now, block);
      if block == BLOCK_FAST && (slowSeen || !BlockUsed(ids, BLOCK_SLOW)) {
        Deliver(now);
      }
    }

    method Deliver(now: Millis)
      modifies this`lastSample, this`hasSample, this`freshSample, this`samples
      ensures View() == old(View()).(lastSample := now, hasSample := true, freshSample := true,
                                     samples := old(samples) + 1)
    {
      lastSample, hasSample, freshSample := now, true, true;
      samples := samples + 1;
    }

    method Note(now: Millis, block: byte)
      modifies this`slowSeen, this`lastData
      ensures View() == old(View()).(slowSeen := old(slowSeen) || block == BLOCK_SLOW,
                                     lastData := if block == BLOCK_FAST then now else old(lastData))
    {
      if block == BLOCK_SLOW {
        slowSeen := true;
      }
      if block == BLOCK_FAST {
        lastData := now;
      }
    }

    method Receive(now: Millis, dg: seq<byte>)
      requires Valid() && (state == Setup ==> step != Done)
      modifies this
      ensures Valid() && View() == OnDatagram(old(View()), now, dg)
    {
      hide OnToc, OnControl, OnData, Decode;
      match Decode(dg) {
        case None =>
          bad := bad + 1;
        case Some(p) =>
          if p.port != PORT_LOG {
            return;
          }
          KeepsMotors(View(), now, p.data);
          if p.channel == CH_TOC {
            HandleToc(now, p.data);
          } else if p.channel == CH_CONTROL {
            HandleControl(now, p.data);
          } else if p.channel == CH_DATA {
            HandleData(now, p.data);
          }
      }
    }

    /** True once for each sample published. */
    method TakeFreshSample() returns (taken: bool)
      modifies this`freshSample
      ensures taken == old(freshSample) && View() == old(View()).(freshSample := false)
    {
      taken := freshSample;
      freshSample := false;
    }
  }

  lemma RequestIgnoresRetries(c: ClientState, c': ClientState)
    requires c' == c.(retries := c'.retries)
    ensures Request(c') == Request(c)
  {
  }

  lemma KeepsMotors(c: ClientState, now: Millis, data: seq<byte>)
    ensures OnToc(c, now, data).t == c.t && OnControl(c, now, data).t == c.t
  {
    hide OnItem, BlockUsed, Advanced, Answers;
    if data != [] { ItemKeepsMotors(c, now, data); }
    FinishKeepsMotors(c, now);
  }

  lemma ItemKeepsMotors(c: ClientState, now: Millis, data: seq<byte>)
    requires data != []
    ensures OnItem(c, now, data).t == c.t
  {
    hide WithItem, BlockUsed, TextLength, AllFound;
  }

  lemma FinishKeepsMotors(c: ClientState, now: Millis)
    ensures Advanced(c, now).t == c.t
  {
    hide BlockUsed, NextStep;
  }
}
