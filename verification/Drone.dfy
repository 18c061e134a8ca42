// The log client and the drone together: a drone that reads the bytes the client sends ends up with exactly the blocks
// the client wants, created and started, and the values it then streams are shown at the right variables.

module Drones {
  import opened ByteBits
  import opened Crtp
  import opened CrtpProperties
  import opened Options

  // ---------------------------------------------------------------------------
  // The drone's log subsystem
  // ---------------------------------------------------------------------------

  datatype Entry = Entry(kind: byte, group: seq<byte>, name: seq<byte>)

  /**
   * The drone's table of contents, and what it announces of it: a number of entries, which may be more than there are,
   * and six bytes of checksum and limits.
   */
  datatype Log = Log(entries: seq<Entry>, claimed: nat, tail: seq<byte>)

  predicate IsText(text: seq<byte>) {
    forall i :: 0 <= i < |text| ==> text[i] != 0
  }

  /** Names are texts, each entry fits a packet, and entries are numbered in 16 bits. */
  predicate IsLog(log: Log) {
    && |log.entries| <= log.claimed < 65536 && |log.tail| == 6
    && forall i :: 0 <= i < |log.entries| ==> IsEntry(log.entries[i])
  }

  predicate IsEntry(e: Entry) {
    IsText(e.group) && IsText(e.name) && |e.group| + |e.name| + 6 <= MAX_DATA
  }

  /** A log block: what it reports, and its period once started. */
  datatype Block = Block(asked: seq<Asked>, period: Option<byte>)

  type Blocks = map<byte, Block>

  const ENOENT: byte := 2
  const E2BIG: byte := 7
  const EEXIST: byte := 17
  const MAX_BLOCK_BYTES: nat := 26

  function KindBytes(kind: byte): nat {
    if kind == 1 || kind == 4 then 1 else if kind == 2 || kind == 5 then 2 else 4
  }

  /** The drone's verdict on a new block's variables, `used` bytes into the block. */
  function CreateStatus(log: Log, asked: seq<Asked>, used: nat): byte {
    if asked == [] then 0
    else if asked[0].id >= |log.entries| then ENOENT
    else if used + KindBytes(asked[0].kind) > MAX_BLOCK_BYTES then E2BIG
    else CreateStatus(log, asked[1..], used + KindBytes(asked[0].kind))
  }

  function InfoReply(log: Log): seq<byte>
    requires IsLog(log)
  {
    [3, log.claimed % 256, log.claimed / 256] + log.tail
  }

  function ItemReply(log: Log, id: nat): seq<byte>
    requires id < 65536
  {
    if id >= |log.entries| then [2]
    else
      var e := log.entries[id];
      [2, id % 256, id / 256, e.kind] + e.group + [0] + e.name + [0]
  }

  /** The drone's blocks after one packet, and the data of its reply on the same channel, if any. */
  function OnPacket(log: Log, blocks: Blocks, p: Packet): (Blocks, seq<byte>)
    requires IsLog(log)
  {
    if p.port != 5 || p.data == [] then (blocks, [])
    else if p.channel == 0 && p.data[0] == 3 then
      (blocks, InfoReply(log))
    else if p.channel == 0 && p.data[0] == 2 && |p.data| >= 3 then
      (blocks, ItemReply(log, Le16(p.data[1..])))
    else if p.channel == 1 && p.data[0] == 5 then
      (map[], [5, if |p.data| >= 2 then p.data[1] else 0xEE, 0])
    else if p.channel == 1 && p.data[0] == 6 && |p.data| >= 2 then
      var block, asked := p.data[1], ReadItems(p.data[2..]);
      var status := if block in blocks then EEXIST else CreateStatus(log, asked, 0);
      (if status == 0 then blocks[block := Block(asked, None)] else blocks, [6, block, status])
    else if p.channel == 1 && p.data[0] == 3 && |p.data| >= 3 then
      var block := p.data[1];
      if block !in blocks then (blocks, [3, block, ENOENT])
      else (blocks[block := blocks[block].(period := Some(p.data[2]))], [3, block, 0])
    else (blocks, [])
  }

  /** The drone on one datagram: its blocks, and its reply's datagram, if any. */
  function Hears(log: Log, blocks: Blocks, dg: seq<byte>): (Blocks, seq<byte>)
    requires IsLog(log)
  {
    match Decode(dg)
    case None => (blocks, [])
    case Some(p) =>
      var (blocks', reply) := OnPacket(log, blocks, p);
      (blocks', if reply == [] then [] else Encode(Header(5, p.channel), reply, MAX_DATAGRAM))
  }

  // ---------------------------------------------------------------------------
  // The link
  // ---------------------------------------------------------------------------

  datatype Fate = Arrives | RequestLost | ReplyLost

  /** The client polls, with the reply in the same turn unless lost; or a datagram that is no reply of the log's. */
  datatype Turn = Exchange(now: Millis, fate: Fate) | Stray(now: Millis, dg: seq<byte>)

  datatype Link = Link(client: ClientState, blocks: Blocks)

  predicate IsReply(dg: seq<byte>) {
    Decode(dg).Some? && Decode(dg).value.port == 5 && Decode(dg).value.channel <= 1
  }

  ghost predicate IsTurn(log: Log, l: Link, turn: Turn, l': Link)
    requires IsLog(log)
  {
    |l.client.t.motor| == 4 &&
    match turn
    case Exchange(now, fate) => l' == Exchanged(log, l, now, fate)
    case Stray(now, dg) => !IsReply(dg) && l' == l.(client := OnDatagram(l.client, now, dg))
  }

  function Exchanged(log: Log, l: Link, now: Millis, fate: Fate): Link
    requires IsLog(log) && |l.client.t.motor| == 4
  {
    var (c, out) := Poll(l.client, now, MAX_DATAGRAM);
    if fate == RequestLost || out == [] then Link(c, l.blocks)
    else
      var (blocks, reply) := Hears(log, l.blocks, out);
      Link(if fate == ReplyLost || reply == [] then c else Replied(c, now, reply), blocks)
  }

  function Replied(c: ClientState, now: Millis, reply: seq<byte>): ClientState {
    if |c.t.motor| == 4 then OnDatagram(c, now, reply) else c
  }

  // ---------------------------------------------------------------------------
  // What the client sends, in bytes
  // ---------------------------------------------------------------------------

  /** Whether the client may send a request now. */
  predicate Ready(c: ClientState, now: Millis) {
    && c.state in {GetInfo, ReadToc, Setup}
    && (c.awaiting ==> Elapsed(now, c.lastTx) >= 300 && (c.state == GetInfo || c.retries < 5))
  }

  /** The wanted variables of a block that the table holds, in order. */
  function AskedFor(ids: Ids, block: byte): seq<Asked> {
    LayoutFacts(ids, block, 0);
    AskedAll(ids, Layout(ids, block, 0))
  }

  /** The request for a state, byte by byte. */
  predicate Asks(c: ClientState, p: Packet) {
    p.port == 5 &&
    match c.state
    case GetInfo => p.channel == 0 && p.data == [3]
    case ReadToc => p.channel == 0 && |p.data| == 3 && p.data[0] == 2 && Le16(p.data[1..]) == c.nextItem % 65536
    case _ => p.channel == 1 && AsksSetup(c.step, c.ids, p.data)
  }

  /** The request of a setup step: reset; create, with a block and its variables; start, with a block and its period. */
  predicate AsksSetup(step: Step, ids: Ids, data: seq<byte>) {
    match step
    case Reset => data == [5]
    case CreateFast => AsksCreate(ids, 1, data)
    case CreateSlow => AsksCreate(ids, 2, data)
    case StartFast => data == [3, 1, 10]
    case _ => data == [3, 2, 50]
  }

  predicate AsksCreate(ids: Ids, block: byte, data: seq<byte>) {
    |data| >= 2 && data[0] == 6 && data[1] == block && ReadItems(data[2..]) == AskedFor(ids, block)
  }

  lemma CreateIsRead(ids: Ids, block: byte)
    ensures AsksCreate(ids, block, CreateRequest(ids, block))
  {
    LayoutFacts(ids, block, 0);
    ItemsAreRead(ids, Layout(ids, block, 0));
    assert CreateRequest(ids, block)[2..] == Items(ids, Layout(ids, block, 0));
  }

  lemma RequestAsks(c: ClientState)
    ensures Asks(c, Packet(5, Request(c).0 % 4, Request(c).1))
  {
    hide Le16, SetupRequest, AsksSetup;
    match c.state
    case GetInfo =>
    case ReadToc => NumberIsRead([CMD_GET_ITEM, c.nextItem % 256, (c.nextItem / 256) % 256], c.nextItem);
    case _ => SetupAsks(c.step, c.ids);
  }

  lemma SetupAsks(step: Step, ids: Ids)
    ensures AsksSetup(step, ids, SetupRequest(step, ids))
  {
    hide CreateRequest, AsksCreate;
    CreateIsRead(ids, BLOCK_FAST);
    CreateIsRead(ids, BLOCK_SLOW);
  }

  lemma NumberIsRead(data: seq<byte>, n: nat)
    requires |data| == 3 && data[1] as int == n % 256 && data[2] as int == (n / 256) % 256
    ensures Le16(data[1..]) == n % 65536
  {
    assert data[1..][0] == data[1] && data[1..][1] == data[2];
    NumberOf(n % 65536);
    Halves(n);
  }

  lemma Halves(n: nat)
    ensures (n % 65536) % 256 == n % 256 && (n % 65536) / 256 == (n / 256) % 256
  {
  }

  lemma NumberOf(id: nat)
    requires id < 65536
    ensures id % 256 + 256 * (id / 256) == id
  {
  }

  /**
   * What is on the wire: a client that is ready sends the request of its state and step, with the block of the step,
   * the variables wanted of it or its period, and then waits; one that is not sends nothing.
   */
  lemma SendsWhatTheStepAsks(c: ClientState, now: Millis)
    requires c.state in {GetInfo, ReadToc, Setup}
    ensures var (c', out) := Poll(c, now, MAX_DATAGRAM);
            if Ready(c, now) then
              && out != [] && Decode(out).Some? && Asks(c, Decode(out).value)
              && c' == c.(awaiting := true, lastTx := now, retries := if c.awaiting then c.retries + 1 else c.retries)
            else out == [] && c' == if Elapsed(now, c.lastTx) < 300 then c else Restarted(c, now)
  {
    hide Request, Encode, Decode, Asks;
    if Ready(c, now) {
      RequestAsks(c);
      RequestIsSmall(c);
      HeadersOf(c);
      DatagramRoundTrip(5, Request(c).0 % 4, Request(c).1);
    }
  }

  lemma HeadersOf(c: ClientState)
    ensures Request(c).0 == Header(5, Request(c).0 % 4)
  {
  }

  // ---------------------------------------------------------------------------
  // What the table reader finds
  // ---------------------------------------------------------------------------

  predicate Matches(e: Entry, v: Var) {
    Spells(e.group, Spec(v).group) && Spells(e.name, Spec(v).name)
  }

  /** `id` is the first of the first `k` entries for the variable; -1 if there is none. */
  predicate IsFirst(log: Log, v: Var, id: int, k: nat)
    requires k <= |log.entries|
  {
    && (id == -1 || (0 <= id < k && Matches(log.entries[id], v)))
    && forall i :: 0 <= i < k && (id == -1 || i < id) ==> !Matches(log.entries[i], v)
  }

  predicate Found(log: Log, ids: Ids, k: nat)
    requires k <= |log.entries|
  {
    forall v: Var :: IsFirst(log, v, ids[v], k)
  }

  lemma OneMoreFound(log: Log, ids: Ids, k: nat)
    requires k < |log.entries| < 65536 && Found(log, ids, k)
    ensures Found(log, WithItem(ids, log.entries[k].group, log.entries[k].name, k), k + 1)
  {
    hide Spells, Spec;
    var ids' := WithItem(ids, log.entries[k].group, log.entries[k].name, k);
    forall v: Var ensures IsFirst(log, v, ids'[v], k + 1) {
      assert IsFirst(log, v, ids[v], k);
    }
  }

  /** Once every variable is found there is nothing more to find. */
  lemma AllFoundIsFound(log: Log, ids: Ids, k: nat)
    requires k <= |log.entries| && Found(log, ids, k) && (AllFound(ids) || k == |log.entries|)
    ensures Found(log, ids, |log.entries|)
  {
    hide Matches;
    forall v: Var ensures IsFirst(log, v, ids[v], |log.entries|) {
      assert IsFirst(log, v, ids[v], k);
    }
  }

  lemma {:induction false} TextEnds(text: seq<byte>, rest: seq<byte>)
    requires IsText(text) && rest != [] && rest[0] == 0
    ensures TextLength(text + rest) == |text|
  {
    if text == [] {
      assert text + rest == rest;
    } else {
      TextEnds(text[1..], rest);
      assert (text + rest)[1..] == text[1..] + rest;
    }
  }

  /** Two terminated texts come apart again. */
  lemma TextsComeApart(group: seq<byte>, name: seq<byte>)
    requires IsText(group) && IsText(name)
    ensures var text := group + [0] + name + [0];
            && TextLength(text) == |group| && text[..|group|] == group
            && text[|group| + 1..] == name + [0] && TextLength(name + [0]) == |name| && (name + [0])[..|name|] == name
  {
    hide TextLength, IsText;
    assert group + [0] + name + [0] == group + ([0] + name + [0]);
    TextEnds(group, [0] + name + [0]);
    TextEnds(name, [0]);
  }

  lemma ItemNumber(log: Log, id: nat)
    requires IsLog(log) && id < |log.entries|
    ensures var e, data := log.entries[id], ItemReply(log, id);
            && 6 <= |data| <= MAX_DATA && data[0] == 2 && Le16(data[1..]) == id
            && data[4..] == e.group + [0] + e.name + [0]
  {
    hide IsText;
    var e, data := log.entries[id], ItemReply(log, id);
    assert IsEntry(e);
    assert data[1..][0] == data[1] && data[1..][1] == data[2];
    assert data[4..] == e.group + [0] + e.name + [0];
  }

  /** The client's reading of the drone's table entry. */
  lemma ItemIsRead(log: Log, c: ClientState, now: Millis)
    requires IsLog(log) && c.state == ReadToc && c.nextItem < |log.entries|
    ensures var e := log.entries[c.nextItem];
            var c1 := c.(ids := WithItem(c.ids, e.group, e.name, c.nextItem), nextItem := c.nextItem + 1,
                         awaiting := false, retries := 0);
            OnToc(c, now, ItemReply(log, c.nextItem)) ==
            if c1.nextItem >= c1.tocCount || AllFound(c1.ids) then FinishToc(c1, now) else c1
  {
    hide TextLength, WithItem, FinishToc, AllFound, IsText, ItemReply, Le16;
    var e := log.entries[c.nextItem];
    assert IsEntry(e);
    ItemNumber(log, c.nextItem);
    TextsComeApart(e.group, e.name);
  }

  // ---------------------------------------------------------------------------
  // Client and drone agree
  // ---------------------------------------------------------------------------

  function Rank(step: Step): nat {
    match step
    case Reset => 0
    case CreateFast => 1
    case CreateSlow => 2
    case StartFast => 3
    case StartSlow => 4
    case Done => 5
  }

  /**
   * The drone's blocks at a setup step: block `b` is created at the step of rank `b` and started at that of rank
   * `b + 2`; what belongs to an earlier step has happened, what belongs to a later one has not.
   */
  ghost predicate Stands(ids: Ids, step: Step, blocks: Blocks) {
    Rank(step) > 0 ==>
      && (forall b <- blocks :: IsStanding(ids, step, b, blocks[b]))
      && (forall b: byte :: (b == 1 || b == 2) && BlockUsed(ids, b) && Rank(step) > b as int ==> b in blocks)
  }

  predicate IsStanding(ids: Ids, step: Step, b: byte, block: Block) {
    && (b == 1 || b == 2) && BlockUsed(ids, b) && Rank(step) >= b as int && block.asked == AskedFor(ids, b)
    && match block.period
       case None => Rank(step) <= b as int + 2
       case Some(p) => Rank(step) >= b as int + 2 && p == (if b == 1 then 10 else 50)
  }

  ghost predicate Agrees(log: Log, l: Link) {
    && Inv(l.client)
    && match l.client.state
       case GetInfo => l.client.ids == NO_IDS
       case ReadToc =>
         && l.client.tocCount == log.claimed && l.client.nextItem <= |log.entries|
         && Found(log, l.client.ids, l.client.nextItem)
       case Setup => Found(log, l.client.ids, |log.entries|) && Stands(l.client.ids, l.client.step, l.blocks)
       case Streaming => Found(log, l.client.ids, |log.entries|) && Stands(l.client.ids, Done, l.blocks)
       case Unsupported => Found(log, l.client.ids, |log.entries|) && !BlockUsed(l.client.ids, BLOCK_FAST)
  }

  lemma ReplyIsRead(c: ClientState, now: Millis, channel: byte, data: seq<byte>)
    requires |c.t.motor| == 4 && channel <= 1 && |data| <= MAX_DATA
    ensures var dg := Encode(Header(5, channel), data, MAX_DATAGRAM);
            dg != [] && OnDatagram(c, now, dg) == if channel == 0 then OnToc(c, now, data) else OnControl(c, now, data)
  {
    hide OnToc, OnControl, Encode, Decode;
    DatagramRoundTrip(5, channel, data);
  }

  lemma {:induction false} AskedAllFits(log: Log, ids: Ids, vars: seq<Var>, used: nat)
    requires forall v <- vars :: 0 <= ids[v] < |log.entries|
    requires used + 4 * |vars| <= MAX_BLOCK_BYTES
    ensures CreateStatus(log, AskedAll(ids, vars), used) == 0
  {
    if vars != [] {
      AskedAllFits(log, ids, vars[1..], used + KindBytes(Spec(vars[0]).kind));
    }
  }

  /** The drone takes every block the client asks for: its variables are in the table and its values fit. */
  lemma BlockIsAccepted(log: Log, ids: Ids, block: byte)
    requires Found(log, ids, |log.entries|) && (block == 1 || block == 2)
    ensures CreateStatus(log, AskedFor(ids, block), 0) == 0
  {
    hide Layout;
    LayoutFacts(ids, block, 0);
    LayoutIsSmall(ids, block);
    forall v <- Layout(ids, block, 0) ensures 0 <= ids[v] < |log.entries| {
      assert Wants(ids, block, v) && IsFirst(log, v, ids[v], |log.entries|);
    }
    AskedAllFits(log, ids, Layout(ids, block, 0), 0);
  }

  /** Nothing has been created ahead of the step. */
  predicate IsClean(step: Step, blocks: Blocks) {
    forall b <- blocks :: Rank(step) == 0 || Rank(step) > b as int
  }

  /** The drone does what it is asked, and its reply answers the step; it refuses only a block it already has. */
  lemma DroneDoesTheStep(log: Log, c: ClientState, blocks: Blocks, p: Packet)
    requires IsLog(log) && Inv(c) && c.state == Setup && Asks(c, p)
    requires Found(log, c.ids, |log.entries|) && Stands(c.ids, c.step, blocks)
    ensures var (blocks', reply) := OnPacket(log, blocks, p);
            && |reply| == 3 && Answers(c.step, reply) && Stands(c.ids, c.step, blocks')
            && (reply[2] == 0 ==> Stands(c.ids, NextStep(c.step, BlockUsed(c.ids, BLOCK_SLOW)), blocks'))
            && (IsClean(c.step, blocks) ==>
                  reply[2] == 0 && IsClean(NextStep(c.step, BlockUsed(c.ids, BLOCK_SLOW)), blocks'))
  {
    hide Found, BlockUsed, CreateStatus, ReadItems, AskedFor;
    BlockIsAccepted(log, c.ids, 1);
    BlockIsAccepted(log, c.ids, 2);
  }

  lemma UsedIsWanted(ids: Ids, block: byte)
    ensures BlockUsed(ids, block) <==> exists v: Var :: Wants(ids, block, v)
  {
    hide Layout, Wants;
    LayoutFacts(ids, block, 0);
    if BlockUsed(ids, block) {
      var v := Layout(ids, block, 0)[0];
      assert v in Layout(ids, block, 0);
    }
  }

  lemma InfoExchange(log: Log, c: ClientState, blocks: Blocks, now: Millis, p: Packet)
    requires IsLog(log) && Inv(c) && c.state == GetInfo && c.ids == NO_IDS && Asks(c, p)
    ensures OnPacket(log, blocks, p) == (blocks, InfoReply(log)) && |InfoReply(log)| == 9
    ensures var c' := OnToc(c, now, InfoReply(log));
            && c'.state == (if log.claimed == 0 then Unsupported else ReadToc) && c'.ids == NO_IDS
            && c'.tocCount == log.claimed && c'.nextItem == 0 && !c'.awaiting && c'.t == c.t
    ensures !BlockUsed(NO_IDS, BLOCK_FAST)
  {
    hide BlockUsed;
    UsedIsWanted(NO_IDS, BLOCK_FAST);
    var data := InfoReply(log);
    assert data[1..][0] == data[1] && data[1..][1] == data[2];
  }

  lemma ItemAnswer(log: Log, c: ClientState, blocks: Blocks, p: Packet)
    requires IsLog(log) && c.state == ReadToc && c.nextItem <= |log.entries| && Asks(c, p)
    ensures OnPacket(log, blocks, p) == (blocks, ItemReply(log, c.nextItem))
    ensures 1 <= |ItemReply(log, c.nextItem)| <= MAX_DATA
  {
    hide Le16;
    if c.nextItem < |log.entries| {
      hide ItemReply;
      ItemNumber(log, c.nextItem);
    }
  }

  /** The table read so far after one more entry, or the state its end leads to. */
  ghost predicate ReadsOn(log: Log, c: ClientState, c': ClientState) {
    && !c'.awaiting && c'.t == c.t
    && match c'.state
       case ReadToc =>
         c'.tocCount == log.claimed && c'.nextItem == c.nextItem + 1 <= |log.entries|
         && Found(log, c'.ids, c'.nextItem)
       case Setup => c'.step == Reset && Found(log, c'.ids, |log.entries|) && BlockUsed(c'.ids, BLOCK_FAST)
       case Unsupported => Found(log, c'.ids, |log.entries|) && !BlockUsed(c'.ids, BLOCK_FAST)
       case _ => false
  }

  /** An entry in turn is taken as it stands in the table; a number past the table's end ends the reading. */
  lemma ItemExchange(log: Log, c: ClientState, blocks: Blocks, now: Millis, p: Packet)
    requires IsLog(log) && Inv(c) && c.state == ReadToc && c.tocCount == log.claimed && Asks(c, p)
    requires c.nextItem <= |log.entries| && Found(log, c.ids, c.nextItem)
    ensures OnPacket(log, blocks, p) == (blocks, ItemReply(log, c.nextItem))
    ensures 1 <= |ItemReply(log, c.nextItem)| <= MAX_DATA && ReadsOn(log, c, OnToc(c, now, ItemReply(log, c.nextItem)))
  {
    hide Found, WithItem, BlockUsed, AllFound, OnToc, OnPacket, ItemReply, Asks;
    ItemAnswer(log, c, blocks, p);
    if c.nextItem < |log.entries| {
      ItemIsRead(log, c, now);
      OneMoreFound(log, c.ids, c.nextItem);
      var e := log.entries[c.nextItem];
      var ids := WithItem(c.ids, e.group, e.name, c.nextItem);
      if AllFound(ids) || c.nextItem + 1 == |log.entries| { AllFoundIsFound(log, ids, c.nextItem + 1); }
    } else {
      TableEnds(log, c, now);
    }
  }

  lemma TableEnds(log: Log, c: ClientState, now: Millis)
    requires IsLog(log) && c.state == ReadToc && c.nextItem == |log.entries|
    ensures OnToc(c, now, ItemReply(log, c.nextItem)) == FinishToc(c, now)
  {
  }

  /** How many exchanges are left until the client streams or gives up. */
  function Left(log: Log, c: ClientState): int {
    match c.state
    case GetInfo => |log.entries| + 7
    case ReadToc => |log.entries| - c.nextItem + 6
    case Setup => 5 - Rank(c.step)
    case _ => 0
  }

  predicate CleanLink(l: Link) {
    l.client.state == Setup ==> IsClean(l.client.step, l.blocks)
  }

  /** One exchange that the client was ready for and in which nothing was lost: closer to streaming, and not waiting. */
  ghost predicate MovesOn(log: Log, l: Link, l': Link) {
    Left(log, l'.client) < Left(log, l.client) && !l'.client.awaiting && CleanLink(l')
  }

  lemma WaitingAgrees(log: Log, l: Link, now: Millis)
    requires IsLog(log) && Agrees(log, l)
    ensures Agrees(log, Link(Poll(l.client, now, MAX_DATAGRAM).0, l.blocks))
  {
    hide Request, Encode, Found, BlockUsed, Stands;
    PollKeepsInv(l.client, now, MAX_DATAGRAM);
  }

  lemma AdvancedAgrees(log: Log, c: ClientState, now: Millis, blocks: Blocks, reply: seq<byte>)
    requires Inv(c) && c.state == Setup && Found(log, c.ids, |log.entries|)
    requires |reply| == 3 && Answers(c.step, reply)
    requires reply[2] == 0 ==> Stands(c.ids, NextStep(c.step, BlockUsed(c.ids, BLOCK_SLOW)), blocks)
    ensures var l' := Link(OnControl(c, now, reply), blocks);
            && Agrees(log, l')
            && (reply[2] == 0 ==> Left(log, l'.client) < Left(log, c) && !l'.client.awaiting)
            && (reply[2] == 0 && IsClean(NextStep(c.step, BlockUsed(c.ids, BLOCK_SLOW)), blocks) ==> CleanLink(l'))
  {
    hide Found, BlockUsed, Stands, Answers, IsClean;
    OnControlKeepsInv(c, now, reply);
  }

  /** What becomes of a request that arrives, with the client waiting. */
  function Handled(log: Log, c: ClientState, blocks: Blocks, now: Millis, p: Packet, fate: Fate): Link
    requires IsLog(log)
  {
    var (blocks', reply) := OnPacket(log, blocks, p);
    var dg := if reply == [] then [] else Encode(Header(5, p.channel), reply, MAX_DATAGRAM);
    Link(if fate == ReplyLost || dg == [] then c else Replied(c, now, dg), blocks')
  }

  lemma TocAgrees(log: Log, l: Link, c: ClientState, now: Millis, p: Packet, fate: Fate)
    requires IsLog(log) && Agrees(log, l) && l.client.state in {GetInfo, ReadToc} && Asks(l.client, p)
    requires fate != RequestLost && IsWaiting(l.client, c)
    ensures var l' := Handled(log, c, l.blocks, now, p, fate);
            Agrees(log, l') && (fate == Arrives ==> MovesOn(log, l, l'))
  {
    hide Found, BlockUsed, Asks, OnPacket, OnToc, OnControl, Encode, ItemReply, InfoReply, IsStanding;
    WaitingKeeps(l.client, c, p);
    assert Inv(c) && c.state == l.client.state;
    if c.state == GetInfo {
      InfoExchange(log, c, l.blocks, now, p);
      ReplyIsRead(c, now, 0, InfoReply(log));
      OnTocKeepsInv(c, now, InfoReply(log));
      NothingFoundYet(log);
    } else {
      ItemExchange(log, c, l.blocks, now, p);
      ReplyIsRead(c, now, 0, ItemReply(log, c.nextItem));
      OnTocKeepsInv(c, now, ItemReply(log, c.nextItem));
    }
  }

  lemma SetupAgrees(log: Log, l: Link, c: ClientState, now: Millis, p: Packet, fate: Fate)
    requires IsLog(log) && Agrees(log, l) && l.client.state == Setup && Asks(l.client, p)
    requires fate != RequestLost && IsWaiting(l.client, c)
    ensures var l' := Handled(log, c, l.blocks, now, p, fate);
            Agrees(log, l') && (fate == Arrives && CleanLink(l) ==> MovesOn(log, l, l'))
  {
    hide Found, BlockUsed, Asks, OnPacket, OnToc, OnControl, Encode, IsClean, Stands, Answers, NextStep, Inv;
    WaitingKeeps(l.client, c, p);
    DroneDoesTheStep(log, c, l.blocks, p);
    var (blocks, reply) := OnPacket(log, l.blocks, p);
    ReplyIsRead(c, now, 1, reply);
    AdvancedAgrees(log, c, now, blocks, reply);
  }

  /** The client with its request sent. */
  predicate IsWaiting(c: ClientState, c': ClientState) {
    c' == c.(awaiting := true, lastTx := c'.lastTx, retries := c'.retries)
  }

  lemma WaitingKeeps(c: ClientState, c': ClientState, p: Packet)
    requires Inv(c) && IsWaiting(c, c') && Asks(c, p)
    ensures Inv(c') && Asks(c', p) && |c'.t.motor| == 4
    ensures p.channel == if c.state in {GetInfo, ReadToc} then 0 else 1
  {
    hide BlockUsed, AsksCreate;
  }

  lemma NothingFoundYet(log: Log)
    ensures Found(log, NO_IDS, 0)
  {
  }

  /** One exchange, whatever is lost: client and drone go on agreeing. */
  lemma ExchangeAgrees(log: Log, l: Link, now: Millis, fate: Fate)
    requires IsLog(log) && Agrees(log, l)
    ensures var l' := Exchanged(log, l, now, fate);
            Agrees(log, l') && (fate == Arrives && Ready(l.client, now) && CleanLink(l) ==> MovesOn(log, l, l'))
  {
    hide Poll, Found, BlockUsed, Stands, Asks, OnPacket, OnToc, OnControl, Encode, Decode, IsClean, Replied;
    WaitingAgrees(log, l, now);
    if l.client.state in {GetInfo, ReadToc, Setup} {
      var (c, out) := Poll(l.client, now, MAX_DATAGRAM);
      SendsWhatTheStepAsks(l.client, now);
      if Ready(l.client, now) && fate != RequestLost {
        var p := Decode(out).value;
        if l.client.state == Setup { SetupAgrees(log, l, c, now, p, fate); }
        else { TocAgrees(log, l, c, now, p, fate); }
        assert Exchanged(log, l, now, fate) == Handled(log, c, l.blocks, now, p, fate);
      }
    } else {
      KeepalivesAreIgnored(log, l, now);
    }
  }

  /** While streaming, or having given up, the client sends nothing the drone's log answers. */
  lemma KeepalivesAreIgnored(log: Log, l: Link, now: Millis)
    requires IsLog(log) && l.client.state in {Streaming, Unsupported}
    ensures var out := Poll(l.client, now, MAX_DATAGRAM).1;
            (out == [] || out == [0xF2, 0xF2]) && Hears(log, l.blocks, out) == (l.blocks, [])
  {
    hide Request;
    var sum := Sum([KEEPALIVE_HEADER]);
    assert [KEEPALIVE_HEADER][..0] == [] && Sum([]) == 0 && sum == 0xF2;
    assert [0xF2 as byte, 0xF2][..1] == [0xF2];
  }

  // ---------------------------------------------------------------------------
  // Over whole runs
  // ---------------------------------------------------------------------------

  /** Any turns from a client just started, with a drone that may hold any blocks to begin with. */
  ghost predicate IsLinkRun(log: Log, links: seq<Link>, turns: seq<Turn>)
    requires IsLog(log)
  {
    && |links| == |turns| + 1 && links[0].client == FRESH
    && forall i :: 0 <= i < |turns| ==> IsTurn(log, links[i], turns[i], links[i + 1])
  }

  lemma StrayAgrees(log: Log, l: Link, now: Millis, dg: seq<byte>)
    requires IsLog(log) && Agrees(log, l) && !IsReply(dg)
    ensures Agrees(log, l.(client := OnDatagram(l.client, now, dg)))
  {
    hide Found, BlockUsed, Stands, OnToc, OnControl, Decode, StoreAll, IsArmed, Bytes, Layout;
    if Decode(dg).Some? { OnDataKeepsInv(l.client, now, Decode(dg).value.data); }
  }

  lemma {:induction false} RunAgrees(log: Log, links: seq<Link>, turns: seq<Turn>, k: nat)
    requires IsLog(log) && IsLinkRun(log, links, turns) && k < |links|
    ensures Agrees(log, links[k])
  {
    hide Exchanged, Agrees, OnDatagram, IsReply;
    if k == 0 {
      FreshAgrees(log, links[0]);
    } else {
      RunAgrees(log, links, turns, k - 1);
      assert IsTurn(log, links[k - 1], turns[k - 1], links[k]);
      match turns[k - 1]
      case Exchange(now, fate) => ExchangeAgrees(log, links[k - 1], now, fate);
      case Stray(now, dg) => StrayAgrees(log, links[k - 1], now, dg);
    }
  }

  lemma FreshAgrees(log: Log, l: Link)
    requires IsLog(log) && l.client == FRESH
    ensures Agrees(log, l)
  {
  }

  /** A variable of a block, as the client wants it: under its first number in the table. */
  ghost predicate IsWanted(log: Log, block: byte, a: Asked) {
    exists v: Var :: Spec(v).block == block && a.kind == Spec(v).kind && IsFirst(log, v, a.id, |log.entries|)
  }

  /** Created with exactly the wanted variables, and started with the period of the block. */
  ghost predicate IsServed(log: Log, block: byte, b: Block) {
    && (forall a: Asked :: a in b.asked <==> IsWanted(log, block, a))
    && b.period == Some(if block == 1 then 10 else 50)
  }

  lemma {:induction false} AskedAllIs(ids: Ids, vars: seq<Var>, a: Asked)
    requires forall v <- vars :: ids[v] >= 0
    ensures a in AskedAll(ids, vars) <==> exists v <- vars :: a == AskedOf(ids, v)
  {
    if vars != [] {
      var head, rest := AskedOf(ids, vars[0]), AskedAll(ids, vars[1..]);
      AskedAllIs(ids, vars[1..], a);
      assert a in AskedAll(ids, vars) <==> a == head || a in rest;
      assert vars == [vars[0]] + vars[1..];
      assert vars[0] in vars;
    }
  }

  lemma AskedForIsWanted(log: Log, ids: Ids, block: byte, a: Asked)
    requires Found(log, ids, |log.entries|)
    ensures a in AskedFor(ids, block) <==> IsWanted(log, block, a)
  {
    hide Layout, Spec, Matches;
    LayoutFacts(ids, block, 0);
    var vars := Layout(ids, block, 0);
    AskedAllIs(ids, vars, a);
    if IsWanted(log, block, a) {
      var v: Var :| Spec(v).block == block && a.kind == Spec(v).kind && IsFirst(log, v, a.id, |log.entries|);
      assert IsFirst(log, v, ids[v], |log.entries|);
      assert ids[v] == a.id && Wants(ids, block, v);
      assert v in vars && a == AskedOf(ids, v);
    }
    if a in AskedFor(ids, block) {
      var v :| v in vars && a == AskedOf(ids, v);
      assert IsFirst(log, v, ids[v], |log.entries|) && Wants(ids, block, v);
    }
  }

  lemma BlockIsWanted(log: Log, ids: Ids, block: byte)
    requires Found(log, ids, |log.entries|)
    ensures BlockUsed(ids, block) <==> exists a :: IsWanted(log, block, a)
  {
    hide Layout, IsWanted, Found;
    LayoutFacts(ids, block, 0);
    if BlockUsed(ids, block) {
      var a := AskedFor(ids, block)[0];
      assert a in AskedFor(ids, block);
      AskedForIsWanted(log, ids, block, a);
    }
    if a :| IsWanted(log, block, a) {
      AskedForIsWanted(log, ids, block, a);
    }
  }

  /**
   * Whatever is lost on the way, and whatever else arrives: while the client streams, the drone holds exactly the
   * blocks with a wanted variable in its table, each created with exactly those variables and started with its period.
   */
  lemma StreamsWhatItWants(log: Log, links: seq<Link>, turns: seq<Turn>, k: nat)
    requires IsLog(log) && IsLinkRun(log, links, turns) && k < |links| && links[k].client.state == Streaming
    ensures var blocks := links[k].blocks;
            && 1 in blocks
            && (forall b: byte :: b in blocks <==> (b == 1 || b == 2) && exists a :: IsWanted(log, b, a))
            && (forall b <- blocks :: IsServed(log, b, blocks[b]))
  {
    hide IsLinkRun, Found, BlockUsed, IsWanted, AskedFor;
    RunAgrees(log, links, turns, k);
    var l := links[k];
    BlockIsWanted(log, l.client.ids, 1);
    BlockIsWanted(log, l.client.ids, 2);
    forall b <- l.blocks ensures IsServed(log, b, l.blocks[b]) {
      assert IsStanding(l.client.ids, Done, b, l.blocks[b]);
      forall a ensures a in l.blocks[b].asked <==> IsWanted(log, b, a) {
        AskedForIsWanted(log, l.client.ids, b, a);
      }
    }
  }

  /** The data datagram of a block: its number, a time stamp, and the value of each variable it was created with. */
  function SampleOf(b: byte, block: Block, stamp: seq<byte>, value: Asked -> seq<byte>): seq<byte>
    requires |stamp| == 3
  {
    Encode(Header(5, 2), [b] + stamp + PackAll(block.asked, value), MAX_DATAGRAM)
  }

  lemma PacketIsAsRequested(ids: Ids, b: byte, stamp: seq<byte>, value: Asked -> seq<byte>)
    requires Sized(value) && |stamp| == 3 && (b == 1 || b == 2)
    ensures var data := [b] + stamp + PackAll(AskedFor(ids, b), value);
            data == DataPacket(b, stamp, CreateRequest(ids, b), value) && |data| <= MAX_DATA
  {
    hide Layout, PackAll, ReadItems, Spec, Items, AskedAll, Bytes, PackVars;
    var vars := Layout(ids, b, 0);
    LayoutFacts(ids, b, 0);
    LayoutIsSmall(ids, b);
    RequestItems(ids, b);
    ItemsAreRead(ids, vars);
    DronePacksInOrder(ids, vars, value);
    PackedSize(ids, vars, value);
    FourBytesEach(vars);
  }

  lemma {:induction false} FourBytesEach(vars: seq<Var>)
    ensures Bytes(vars) <= 4 * |vars|
  {
    if vars != [] { FourBytesEach(vars[1..]); }
  }

  /**
   * End to end: while the client streams, whatever values the drone packs for a block it holds, each variable shows the
   * value the drone keeps under the variable's number in the table, and variables of the other block do not move.
   */
  lemma SamplesAreShown(log: Log, links: seq<Link>, turns: seq<Turn>, k: nat, now: Millis, b: byte, stamp: seq<byte>,
                        value: Asked -> seq<byte>, u: Var, id: nat)
    requires IsLog(log) && IsLinkRun(log, links, turns) && k < |links| && links[k].client.state == Streaming
    requires b in links[k].blocks && Sized(value) && |stamp| == 3
    requires IsFirst(log, u, id, |log.entries|)
    ensures var l := links[k];
            && |l.client.t.motor| == 4
            && var t' := OnDatagram(l.client, now, SampleOf(b, l.blocks[b], stamp, value)).t;
               && |t'.motor| == 4 && t'.droneMs == Le24(stamp)
               && FieldOf(t', u) == if Spec(u).block == b
                                    then Shown(FieldOf(l.client.t, u), u, value(Asked(Spec(u).kind, id)))
                                    else FieldOf(l.client.t, u)
  {
    hide IsLinkRun, BlockUsed, AskedFor, Shown, FieldOf, Spec, Matches, PackAll, OnData, Encode, Decode;
    RunAgrees(log, links, turns, k);
    var l := links[k];
    assert IsStanding(l.client.ids, Done, b, l.blocks[b]) && IsFirst(log, u, l.client.ids[u], |log.entries|);
    assert l.client.ids[u] == id;
    PacketIsAsRequested(l.client.ids, b, stamp, value);
    var data := [b] + stamp + PackAll(l.blocks[b].asked, value);
    DatagramRoundTrip(5, 2, data);
    BlocksReadAsRequested(l.client, now, b, stamp, value, u);
  }

  // ---------------------------------------------------------------------------
  // The handshake ends
  // ---------------------------------------------------------------------------

  /** Exchanges at these instants, with nothing lost. */
  function Exchanges(log: Log, l: Link, nows: seq<Millis>): Link
    requires IsLog(log)
    decreases |nows|
  {
    if nows == [] || |l.client.t.motor| != 4 then l
    else Exchanges(log, Exchanged(log, l, nows[0], Arrives), nows[1..])
  }

  /** The end of a handshake: the client streams from a drone that serves it, or has found nothing worth streaming. */
  ghost predicate IsSettled(log: Log, l: Link) {
    if exists a :: IsWanted(log, 1, a) then
      l.client.state == Streaming && 1 in l.blocks && forall b <- l.blocks :: IsServed(log, b, l.blocks[b])
    else l.client.state == Unsupported
  }

  lemma AgreedIsSettled(log: Log, l: Link)
    requires Agrees(log, l) && l.client.state in {Streaming, Unsupported}
    ensures IsSettled(log, l)
  {
    hide Found, BlockUsed, IsWanted, AskedFor;
    BlockIsWanted(log, l.client.ids, 1);
    if l.client.state == Streaming {
      forall b <- l.blocks ensures IsServed(log, b, l.blocks[b]) {
        assert IsStanding(l.client.ids, Done, b, l.blocks[b]);
        forall a ensures a in l.blocks[b].asked <==> IsWanted(log, b, a) {
          AskedForIsWanted(log, l.client.ids, b, a);
        }
      }
    }
  }

  lemma LeftIsLeft(log: Log, l: Link)
    requires Agrees(log, l)
    ensures 0 <= Left(log, l.client) <= |log.entries| + 7
    ensures Left(log, l.client) == 0 <==> l.client.state in {Streaming, Unsupported}
  {
    hide Found, BlockUsed, Stands;
  }

  lemma {:induction false} SettlesFrom(log: Log, l: Link, nows: seq<Millis>)
    requires IsLog(log) && Agrees(log, l) && CleanLink(l) && |nows| >= Left(log, l.client)
    requires l.client.awaiting && nows != [] ==> Ready(l.client, nows[0])
    ensures exists k :: 0 <= k <= Left(log, l.client) && k <= |nows| && IsSettled(log, Exchanges(log, l, nows[..k]))
    decreases Left(log, l.client)
  {
    hide Exchanged, Agrees, IsSettled, CleanLink;
    LeftIsLeft(log, l);
    if l.client.state in {Streaming, Unsupported} {
      AgreedIsSettled(log, l);
      assert Exchanges(log, l, nows[..0]) == l;
    } else {
      MotorsHold(log, l);
      var l' := Exchanged(log, l, nows[0], Arrives);
      ExchangeAgrees(log, l, nows[0], Arrives);
      LeftIsLeft(log, l');
      SettlesFrom(log, l', nows[1..]);
      var k :| 0 <= k <= Left(log, l'.client) && k <= |nows[1..]| && IsSettled(log, Exchanges(log, l', nows[1..][..k]));
      assert nows[..k + 1][1..] == nows[1..][..k];
      assert Exchanges(log, l, nows[..k + 1]) == Exchanges(log, l', nows[1..][..k]);
    }
  }

  lemma MotorsHold(log: Log, l: Link)
    requires Agrees(log, l)
    ensures |l.client.t.motor| == 4
  {
  }

  /**
   * A drone that answers is streaming within one exchange for the table's size, one for each entry and one past the
   * last, and five for the blocks, at whatever instants the client polls: with every block wanted created and started
   * if the table has a variable of the fast block, and otherwise given up.
   */
  lemma HandshakeCompletes(log: Log, links: seq<Link>, turns: seq<Turn>, i: nat, nows: seq<Millis>)
    requires IsLog(log) && IsLinkRun(log, links, turns) && i < |links| && links[i].client.state == GetInfo
    requires |nows| >= |log.entries| + 7
    requires links[i].client.awaiting ==> Elapsed(nows[0], links[i].client.lastTx) >= 300
    ensures exists k :: 0 <= k <= |log.entries| + 7 && IsSettled(log, Exchanges(log, links[i], nows[..k]))
  {
    hide Agrees, IsSettled, Exchanges, IsLinkRun;
    RunAgrees(log, links, turns, i);
    SettlesFrom(log, links[i], nows);
  }

  // ---------------------------------------------------------------------------
  // When it sends
  // ---------------------------------------------------------------------------

  /** Back at the table's size with nothing read, waiting out one retry period; what was shown stays. */
  predicate StartsOver(c: ClientState, c': ClientState, now: Millis) {
    && c'.state == GetInfo && c'.ids == NO_IDS && c'.awaiting && c'.lastTx == now && c'.restarts == c.restarts + 1
    && c'.t == c.t && c'.hasSample == c.hasSample && c'.freshSample == c.freshSample && c'.samples == c.samples
  }

  /**
   * The client's clock: a request is repeated after 300 ms, five times, and then the client starts over, except that
   * the first question is asked for ever; streaming sends a keepalive every 250 ms and starts over after 2000 ms
   * without the fast block; a table with nothing wanted is read again after 5000 ms.
   */
  lemma SendsOnTime(c: ClientState, now: Millis)
    ensures var (c', out) := Poll(c, now, MAX_DATAGRAM);
            match c.state
            case Unsupported => out == [] && if Elapsed(now, c.entered) >= 5000 then StartsOver(c, c', now) else c' == c
            case Streaming =>
              if Elapsed(now, c.lastData) >= 2000 then out == [] && StartsOver(c, c', now)
              else if Elapsed(now, c.lastTx) >= 250 then out == [0xF2, 0xF2] && c' == c.(lastTx := now)
              else out == [] && c' == c
            case _ =>
              if c.awaiting && Elapsed(now, c.lastTx) < 300 then out == [] && c' == c
              else if c.awaiting && c.retries >= 5 && c.state != GetInfo then out == [] && StartsOver(c, c', now)
              else out != [] && c'.awaiting && c'.lastTx == now && c'.state == c.state && c'.step == c.step
                   && c'.retries == (if c.awaiting then c.retries + 1 else c.retries)
  {
    hide Request, Encode, Decode, Asks;
    match c.state
    case Unsupported =>
    case Streaming => KeepaliveBytes();
    case _ =>
      assert c.state.GetInfo? || c.state.ReadToc? || c.state.Setup?;
      SendsWhatTheStepAsks(c, now);
  }

  lemma KeepaliveBytes()
    ensures Encode(KEEPALIVE_HEADER, [], MAX_DATAGRAM) == [0xF2, 0xF2]
  {
    assert [KEEPALIVE_HEADER] + [] == [KEEPALIVE_HEADER] && [KEEPALIVE_HEADER][..0] == [] && Sum([]) == 0;
    assert Sum([KEEPALIVE_HEADER]) == 0xF2;
  }

  /**
   * A reply that reports a failure starts over; any other answer to the step moves on and lets the next request out.
   */
  lemma RefusalStartsOver(c: ClientState, now: Millis, data: seq<byte>)
    requires c.state == Setup && c.step != Done && |data| >= 3 && Answers(c.step, data)
    ensures var c' := OnControl(c, now, data);
            if data[2] != 0 then StartsOver(c, c', now)
            else
              && !c'.awaiting && c'.retries == 0 && Rank(c'.step) > Rank(c.step) && c'.ids == c.ids
              && (c'.step == Done ==> c'.state == Streaming && c'.lastData == now)
  {
    hide BlockUsed, Answers;
  }

  /**
   * A datagram that does not check is counted and dropped; one that is not of the log, or of none of its channels,
   * dropped.
   */
  lemma StrangersAreDropped(c: ClientState, now: Millis, dg: seq<byte>)
    requires |c.t.motor| == 4
    ensures Decode(dg).None? ==> OnDatagram(c, now, dg) == c.(bad := c.bad + 1)
    ensures Decode(dg).Some? && (Decode(dg).value.port != 5 || Decode(dg).value.channel > 2) ==>
              OnDatagram(c, now, dg) == c
  {
    hide Decode;
  }
}
