// MAVLink 2 framing: the encoder, the frame decoder, and the resynchronising stream parser.

module Frames {
  import opened ByteBits
  import opened Checksum
  import opened Options

  const MAGIC_V2: byte := 0xFD
  const MAGIC_V1: byte := 0xFE
  const HEADER_V2: nat := 10
  const HEADER_V1: nat := 6
  const CRC_LEN: nat := 2
  const SIGNATURE_LEN: nat := 13
  const MAX_PAYLOAD: nat := 255
  const MAX_FRAME: nat := HEADER_V2 + MAX_PAYLOAD + CRC_LEN + SIGNATURE_LEN

  /** What the dialect says of one message: its CRC_EXTRA, its full payload length, and how to read a payload. */
  datatype Definition<M> = Definition(extra: byte, length: nat, unmarshal: seq<byte> -> Option<M>)

  datatype Dialect<!M> = Dialect(known: map<nat, Definition<M>>, idOf: M -> nat, marshal: M -> seq<byte>)

  /** A message the dialect can carry: a 24-bit id, at most 255 payload bytes, and reading back what was written. */
  ghost predicate Encodable<M>(d: Dialect<M>, m: M) {
    var id, payload := d.idOf(m), d.marshal(m);
    && id < 0x1000000 && id in d.known
    && |payload| == d.known[id].length <= MAX_PAYLOAD
    && d.known[id].unmarshal(payload) == Some(m)
  }

  datatype Frame<M> = Frame(version: nat, incompat: byte, compat: byte, seqno: byte, sysid: byte, compid: byte,
                            id: nat, payload: seq<byte>, msg: M, signed: bool)

  datatype Error = Truncated | BadMagic | UnknownMessage(id: nat) | BadCRC | BadFlags | BadPayload

  /** The bytes to consume are reported with an error too: that is what lets a stream resynchronise. */
  datatype Outcome<M> = Decoded(frame: Frame<M>, consumed: nat) | Failed(error: Error, consumed: nat)

  // ---------------------------------------------------------------------------
  // Encoding
  // ---------------------------------------------------------------------------

  function ByteOf(n: nat): byte {
    n % 256
  }

  /** The payload without its trailing zero bytes. */
  function Trim(payload: seq<byte>): (t: seq<byte>)
    ensures t <= payload
    ensures forall i :: |t| <= i < |payload| ==> payload[i] == 0
    ensures t == [] || t[|t| - 1] != 0
  {
    if payload == [] || payload[|payload| - 1] != 0 then payload else Trim(payload[..|payload| - 1])
  }

  function Zeros(n: nat): (z: seq<byte>)
    ensures |z| == n && forall i :: 0 <= i < n ==> z[i] == 0
  {
    seq(n, _ => 0)
  }

  /** A payload as the decoder hands it to the message: extended with zeros to the full length. */
  function Extend(payload: seq<byte>, length: nat): seq<byte> {
    if |payload| >= length then payload else payload + Zeros(length - |payload|)
  }

  lemma ExtendUndoesTrim(payload: seq<byte>)
    ensures Extend(Trim(payload), |payload|) == payload
  {
  }

  function Header(length: byte, seqno: byte, sysid: byte, compid: byte, id: nat): (h: seq<byte>)
    ensures |h| == HEADER_V2
  {
    [MAGIC_V2, length, 0, 0, seqno, sysid, compid, ByteOf(id), ByteOf(id / 256), ByteOf(id / 65536)]
  }

  function Sealed(unsealed: seq<byte>, extra: byte): seq<byte>
    requires unsealed != []
  {
    unsealed + LittleEndian(FrameCRC(unsealed[1..], extra))
  }

  function Encoded<M>(d: Dialect<M>, seqno: byte, sysid: byte, compid: byte, m: M): seq<byte>
    requires Encodable(d, m)
  {
    var payload := Trim(d.marshal(m));
    Sealed(Header(ByteOf(|payload|), seqno, sysid, compid, d.idOf(m)) + payload, d.known[d.idOf(m)].extra)
  }

  /** Cutting the payload short and patching the length gives the frame with that length. */
  lemma LengthPatched(dst: seq<byte>, payload: seq<byte>, seqno: byte, sysid: byte, compid: byte, id: nat, n: nat)
    requires n <= |payload| && n <= MAX_PAYLOAD
    ensures var out := (dst + Header(0, seqno, sysid, compid, id) + payload)[..|dst| + HEADER_V2 + n];
            out[|dst| + 1 := ByteOf(n)] == dst + (Header(ByteOf(n), seqno, sysid, compid, id) + payload[..n])
  {
    assert Header(0, seqno, sysid, compid, id)[1 := ByteOf(n)] == Header(ByteOf(n), seqno, sysid, compid, id);
  }

  /** Appends a frame to `dst`, trimming the payload in place and patching the length once it is known. */
  method Encode<M>(d: Dialect<M>, dst: seq<byte>, seqno: byte, sysid: byte, compid: byte, m: M) returns (out: seq<byte>)
    requires Encodable(d, m)
    ensures out == dst + Encoded(d, seqno, sysid, compid, m)
  {
    hide LittleEndian, FrameCRC, Header, ByteOf;
    var start, id, payload := |dst|, d.idOf(m), d.marshal(m);
    out := dst + Header(0, seqno, sysid, compid, id) + payload;
    var n := |out| - start - HEADER_V2;
    while n > 0 && out[start + HEADER_V2 + n - 1] == 0
      invariant 0 <= n <= |payload| && Trim(payload) == Trim(payload[..n])
    {
      assert payload[..n][..n - 1] == payload[..n - 1];
      n := n - 1;
    }
    assert Trim(payload[..n]) == payload[..n];
    out := out[..start + HEADER_V2 + n];
    out := out[start + 1 := ByteOf(n)];
    ghost var unsealed := Header(ByteOf(n), seqno, sysid, compid, id) + payload[..n];
    LengthPatched(dst, payload, seqno, sysid, compid, id, n);
    assert out[start + 1..] == unsealed[1..];
    var crc := ComputeFrameCRC(out[start + 1..], d.known[id].extra);
    out := out + LittleEndian(crc);
  }

  // ---------------------------------------------------------------------------
  // Decoding one frame
  // ---------------------------------------------------------------------------

  predicate IsMagic(b: byte) {
    b == MAGIC_V2 || b == MAGIC_V1
  }

  function HeaderLength(magic: byte): (n: nat)
    ensures n == HEADER_V1 || n == HEADER_V2
  {
    if magic == MAGIC_V2 then HEADER_V2 else HEADER_V1
  }

  /** Bit 0 of the incompatibility flags: a signature follows the checksum. */
  predicate SaysSigned(flags: byte) {
    flags % 2 == 1
  }

  /** Any other bit: the layout itself may differ from this one. */
  predicate SaysUnknown(flags: byte) {
    flags / 2 != 0
  }

  predicate Signed(b: seq<byte>)
    requires |b| >= HEADER_V1
  {
    b[0] == MAGIC_V2 && SaysSigned(b[2])
  }

  function MessageID(b: seq<byte>): nat
    requires |b| >= HEADER_V1 && |b| >= HeaderLength(b[0])
  {
    if b[0] == MAGIC_V2 then b[7] as int + 256 * b[8] as int + 65536 * b[9] as int else b[5]
  }

  /** Where the checksum starts. */
  function BodyEnd(b: seq<byte>): (n: nat)
    requires |b| >= HEADER_V1
    ensures HEADER_V1 <= n <= HEADER_V2 + MAX_PAYLOAD
  {
    HeaderLength(b[0]) + b[1]
  }

  function FrameLength(b: seq<byte>): (n: nat)
    requires |b| >= HEADER_V1
    ensures BodyEnd(b) + CRC_LEN <= n <= MAX_FRAME
  {
    BodyEnd(b) + CRC_LEN + if Signed(b) then SIGNATURE_LEN else 0
  }

  /** Whether enough has arrived for the frame at the start of `b` to be judged. */
  predicate Complete(b: seq<byte>) {
    |b| >= HEADER_V1 && |b| >= HeaderLength(b[0]) && |b| >= FrameLength(b)
  }

  predicate ChecksumMatches(b: seq<byte>, extra: byte)
    requires Complete(b)
  {
    FrameCRC(b[1..BodyEnd(b)], extra) == ReadWord(b[BodyEnd(b)], b[BodyEnd(b) + 1])
  }

  function Content<M>(b: seq<byte>, msg: M): Frame<M>
    requires Complete(b)
  {
    var payload := b[HeaderLength(b[0])..BodyEnd(b)];
    if b[0] == MAGIC_V2 then Frame(2, b[2], b[3], b[4], b[5], b[6], MessageID(b), payload, msg, Signed(b))
    else Frame(1, 0, 0, b[2], b[3], b[4], MessageID(b), payload, msg, false)
  }

  function Decode<M>(d: Dialect<M>, b: seq<byte>): (o: Outcome<M>)
    requires b != []
    ensures o.consumed <= |b| && o.consumed <= MAX_FRAME
    ensures o.consumed == 0 <==> IsMagic(b[0]) && !Complete(b)
    ensures o.Decoded? ==> o.consumed > 0
  {
    if !IsMagic(b[0]) then Failed(BadMagic, 1)
    else if !Complete(b) then Failed(Truncated, 0)
    else if MessageID(b) !in d.known then Failed(UnknownMessage(MessageID(b)), HeaderLength(b[0]))
    else
      var def := d.known[MessageID(b)];
      if !ChecksumMatches(b, def.extra) then Failed(BadCRC, 1)
      else if b[0] == MAGIC_V2 && SaysUnknown(b[2]) then Failed(BadFlags, FrameLength(b))
      else
        match def.unmarshal(Extend(b[HeaderLength(b[0])..BodyEnd(b)], def.length))
        case None => Failed(BadPayload, FrameLength(b))
        case Some(msg) => Decoded(Content(b, msg), FrameLength(b))
  }

  /** The same, as one pass over the buffer. */
  method DecodeFrame<M>(d: Dialect<M>, b: seq<byte>) returns (o: Outcome<M>)
    requires b != []
    ensures o == Decode(d, b)
  {
    hide FrameCRC, ReadWord, Extend;
    var version, incompat, compat, seqno, sysid, compid, id, headerLen := 0, 0, 0, 0, 0, 0, 0, 0;
    var signed := false;
    if b[0] == MAGIC_V2 {
      if |b| < HEADER_V2 {
        return Failed(Truncated, 0);
      }
      version, headerLen := 2, HEADER_V2;
      incompat, compat, seqno, sysid, compid := b[2], b[3], b[4], b[5], b[6];
      id := b[7] as int + 256 * b[8] as int + 65536 * b[9] as int;
      signed := incompat % 2 == 1;
    } else if b[0] == MAGIC_V1 {
      if |b| < HEADER_V1 {
        return Failed(Truncated, 0);
      }
      version, headerLen := 1, HEADER_V1;
      seqno, sysid, compid := b[2], b[3], b[4];
      id := b[5];
    } else {
      return Failed(BadMagic, 1);
    }
    var payLen: nat := b[1];
    var total := headerLen + payLen + CRC_LEN;
    if signed {
      total := total + SIGNATURE_LEN;
    }
    if |b| < total {
      return Failed(Truncated, 0);
    }
    if id !in d.known {
      return Failed(UnknownMessage(id), headerLen);
    }
    var def := d.known[id];
    var crcAt := headerLen + payLen;
    var got := ComputeFrameCRC(b[1..crcAt], def.extra);
    if got != ReadWord(b[crcAt], b[crcAt + 1]) {
      return Failed(BadCRC, 1);
    }
    if incompat / 2 != 0 {
      return Failed(BadFlags, total);
    }
    var payload := b[headerLen..crcAt];
    var full := Extend(payload, def.length);
    match def.unmarshal(full) {
      case None => return Failed(BadPayload, total);
      case Some(msg) => return Decoded(Frame(version, incompat, compat, seqno, sysid, compid, id, payload, msg, signed),
                                       total);
    }
  }

  /** What a frame is judged to be never depends on what follows it. */
  lemma DecodeIsLocal<M>(d: Dialect<M>, b: seq<byte>, more: seq<byte>)
    requires b != [] && (IsMagic(b[0]) ==> Complete(b))
    ensures Decode(d, b + more) == Decode(d, b)
  {
    var c := b + more;
    if IsMagic(b[0]) {
      assert forall i :: 0 <= i < HEADER_V1 ==> c[i] == b[i];
      assert c[1..BodyEnd(b)] == b[1..BodyEnd(b)];
      assert c[HeaderLength(b[0])..BodyEnd(b)] == b[HeaderLength(b[0])..BodyEnd(b)];
    }
  }

  /**
   * One byte of an accepted frame altered in flight, other than magic, length and message ID, is never accepted: the
   * checksum fails. The one other answer is that an unsigned frame now says it is signed and waits for its signature.
   */
  lemma AlteredFrameIsRejected<M>(d: Dialect<M>, b: seq<byte>, i: nat, x: byte)
    requires b != [] && Decode(d, b).Decoded?
    requires 2 <= i < (if b[0] == MAGIC_V2 then 7 else 5) || HeaderLength(b[0]) <= i < BodyEnd(b) + CRC_LEN
    requires x != b[i]
    ensures var c := b[i := x];
            && Decode(d, c) == (if Complete(c) then Failed(BadCRC, 1) else Failed(Truncated, 0))
            && (!Complete(c) ==> Signed(c) && !Signed(b))
  {
    hide FrameCRC, ReadWord;
    var c, extra := b[i := x], d.known[MessageID(b)].extra;
    var body, low, high := b[1..BodyEnd(b)], b[BodyEnd(b)], b[BodyEnd(b) + 1];
    assert c[0] == b[0] && c[1] == b[1] && MessageID(c) == MessageID(b);
    if i < BodyEnd(b) {
      assert c[1..BodyEnd(b)] == body[i - 1 := x];
      OneByteIsDetected(body, i - 1, x, extra);
    } else {
      assert c[1..BodyEnd(b)] == body;
      ReadWordInjective(low, high, c[BodyEnd(b)], c[BodyEnd(b) + 1]);
    }
  }

  lemma IDRoundTrip(id: nat)
    requires id < 0x1000000
    ensures ByteOf(id) + 256 * ByteOf(id / 256) + 65536 * ByteOf(id / 65536) == id
  {
  }

  /** The frame a receiver should see. */
  function Expected<M>(d: Dialect<M>, seqno: byte, sysid: byte, compid: byte, m: M): Frame<M> {
    Frame(2, 0, 0, seqno, sysid, compid, d.idOf(m), Trim(d.marshal(m)), m, false)
  }

  /** What is encoded decodes to the same message, whatever follows it, and is consumed exactly. */
  lemma DecodeEncoded<M>(d: Dialect<M>, seqno: byte, sysid: byte, compid: byte, m: M, tail: seq<byte>)
    requires Encodable(d, m)
    ensures var frame := Encoded(d, seqno, sysid, compid, m);
            && frame != [] && Decode(d, frame + tail) == Decoded(Expected(d, seqno, sysid, compid, m), |frame|)
  {
    hide FrameCRC, Trim, Extend, ReadWord, LittleEndian;
    var id, payload := d.idOf(m), Trim(d.marshal(m));
    var unsealed := Header(ByteOf(|payload|), seqno, sysid, compid, id) + payload;
    var crc := FrameCRC(unsealed[1..], d.known[id].extra);
    var b := Encoded(d, seqno, sysid, compid, m) + tail;
    IDRoundTrip(id);
    ReadWordRoundTrip(crc);
    ExtendUndoesTrim(d.marshal(m));
    assert b[1..BodyEnd(b)] == unsealed[1..];
    assert b[HEADER_V2..BodyEnd(b)] == payload;
  }

  // ---------------------------------------------------------------------------
  // Frames from other senders
  // ---------------------------------------------------------------------------

  /** A MAVLink 1 frame, as a sender that knows neither flags nor extension fields puts it on the wire. */
  function LegacyFrame(seqno: byte, sysid: byte, compid: byte, id: byte, payload: seq<byte>, extra: byte): seq<byte>
    requires |payload| <= MAX_PAYLOAD
  {
    Sealed([MAGIC_V1, |payload|, seqno, sysid, compid, id] + payload, extra)
  }

  /**
   * A version 1 frame of a known message is read with its short payload zero-extended, and consumed exactly; if the
   * message cannot be read from that, the frame, being intact, is skipped whole.
   */
  lemma LegacyFramesAreRead<M>(d: Dialect<M>, seqno: byte, sysid: byte, compid: byte, id: byte, payload: seq<byte>,
                               tail: seq<byte>)
    requires |payload| <= MAX_PAYLOAD && id in d.known
    ensures var frame := LegacyFrame(seqno, sysid, compid, id, payload, d.known[id].extra);
            var msg := d.known[id].unmarshal(Extend(payload, d.known[id].length));
            && frame != []
            && Decode(d, frame + tail) ==
               if msg.None? then Failed(BadPayload, |frame|)
               else Decoded(Frame(1, 0, 0, seqno, sysid, compid, id, payload, msg.value, false), |frame|)
  {
    hide FrameCRC, Extend, ReadWord, LittleEndian;
    var unsealed := [MAGIC_V1, |payload|, seqno, sysid, compid, id] + payload;
    var b := LegacyFrame(seqno, sysid, compid, id, payload, d.known[id].extra) + tail;
    ReadWordRoundTrip(FrameCRC(unsealed[1..], d.known[id].extra));
    assert b[1..BodyEnd(b)] == unsealed[1..];
    assert b[HEADER_V1..BodyEnd(b)] == payload;
  }

  /** A version 2 frame with flags, from a sender that signs or extends the format. */
  function FlaggedFrame(incompat: byte, compat: byte, seqno: byte, sysid: byte, compid: byte, id: nat,
                        payload: seq<byte>, extra: byte, signature: seq<byte>): seq<byte>
    requires |payload| <= MAX_PAYLOAD && id < 0x1000000
  {
    Sealed([MAGIC_V2, |payload|, incompat, compat, seqno, sysid, compid, ByteOf(id), ByteOf(id / 256),
            ByteOf(id / 65536)]
           + payload, extra) + signature
  }

  /**
   * A signed frame is read like any other, its signature skipped. Any other incompatibility flag makes an intact frame
   * unreadable, as does a payload the message cannot be read from, and then it is skipped whole: whatever follows is
   * next.
   */
  lemma FlagsAreHonoured<M>(d: Dialect<M>, incompat: byte, compat: byte, seqno: byte, sysid: byte, compid: byte,
                            id: nat, payload: seq<byte>, signature: seq<byte>, tail: seq<byte>)
    requires |payload| <= MAX_PAYLOAD && id < 0x1000000 && id in d.known
    requires |signature| == if SaysSigned(incompat) then SIGNATURE_LEN else 0
    ensures var frame := FlaggedFrame(incompat, compat, seqno, sysid, compid, id, payload, d.known[id].extra,
                                      signature);
            var msg := d.known[id].unmarshal(Extend(payload, d.known[id].length));
            && frame != []
            && Decode(d, frame + tail) ==
               if incompat > 1 then Failed(BadFlags, |frame|)
               else if msg.None? then Failed(BadPayload, |frame|)
               else Decoded(Frame(2, incompat, compat, seqno, sysid, compid, id, payload, msg.value,
                                  SaysSigned(incompat)), |frame|)
  {
    hide FrameCRC, Extend, ReadWord, LittleEndian;
    var unsealed := [MAGIC_V2, |payload|, incompat, compat, seqno, sysid, compid, ByteOf(id), ByteOf(id / 256),
                     ByteOf(id / 65536)]
                    + payload;
    var frame := FlaggedFrame(incompat, compat, seqno, sysid, compid, id, payload, d.known[id].extra, signature);
    var b := frame + tail;
    ReadWordRoundTrip(FrameCRC(unsealed[1..], d.known[id].extra));
    IDRoundTrip(id);
    assert b[1..BodyEnd(b)] == unsealed[1..];
    assert b[HEADER_V2..BodyEnd(b)] == payload;
  }

  // ---------------------------------------------------------------------------
  // The stream parser
  // ---------------------------------------------------------------------------

  datatype Stats = Stats(frames: nat, garbage: nat, badCRC: nat, unknown: nat)

  datatype ParserState = ParserState(pending: seq<byte>, stats: Stats) {
    function Skip(n: nat): Stats {
      stats.(garbage := stats.garbage + n)
    }
  }

  datatype Event<M> = Got(frame: Frame<M>) | Rejected(error: Error)

  /** Index of the first byte that could start a frame, or -1. */
  function IndexMagic(b: seq<byte>): (i: int)
    ensures -1 <= i < |b|
    ensures i >= 0 ==> IsMagic(b[i])
  {
    if b == [] then -1
    else if IsMagic(b[0]) then 0
    else if IndexMagic(b[1..]) < 0 then -1 else IndexMagic(b[1..]) + 1
  }

  lemma {:induction false} IndexMagicIs(b: seq<byte>, i: nat)
    requires i <= |b| && (forall k :: 0 <= k < i ==> !IsMagic(b[k])) && (i < |b| ==> IsMagic(b[i]))
    ensures IndexMagic(b) == if i == |b| then -1 else i
  {
    if i > 0 { IndexMagicIs(b[1..], i - 1); }
  }

  lemma {:induction false} NoMagicBefore(b: seq<byte>)
    ensures forall k :: 0 <= k < (if IndexMagic(b) < 0 then |b| else IndexMagic(b)) ==> !IsMagic(b[k])
  {
    if b != [] && !IsMagic(b[0]) {
      NoMagicBefore(b[1..]);
      forall k | 0 <= k < (if IndexMagic(b) < 0 then |b| else IndexMagic(b)) ensures !IsMagic(b[k]) {
        assert k > 0 ==> b[k] == b[1..][k - 1];
      }
    }
  }

  /** What a call makes of a buffer that starts with a magic byte. */
  function Judge<M>(d: Dialect<M>, b: seq<byte>, stats: Stats): (ParserState, Option<Event<M>>)
    requires b != []
  {
    match Decode(d, b)
    case Decoded(frame, consumed) => (ParserState(b[consumed..], stats.(frames := stats.frames + 1)), Some(Got(frame)))
    case Failed(error, consumed) =>
      if consumed == 0 then (ParserState(b, stats), None)
      else
        (ParserState(b[consumed..], if error.BadCRC? then stats.(badCRC := stats.badCRC + 1)
                                    else stats.(unknown := stats.unknown + 1)), Some(Rejected(error)))
  }

  /** One call of the parser. No event means that no complete frame has arrived. */
  function Pull<M>(d: Dialect<M>, ps: ParserState): (r: (ParserState, Option<Event<M>>))
    ensures r.1.Some? ==> |r.0.pending| < |ps.pending|
  {
    var i := IndexMagic(ps.pending);
    if i < 0 then (ParserState([], ps.Skip(|ps.pending|)), None) else Judge(d, ps.pending[i..], ps.Skip(i))
  }

  /** Calls the parser until it needs more. */
  function Drain<M>(d: Dialect<M>, ps: ParserState): (ParserState, seq<Event<M>>)
    decreases |ps.pending|
  {
    var (next, e) := Pull(d, ps);
    if e.None? then (next, []) else (Drain(d, next).0, [e.value] + Drain(d, next).1)
  }

  function Fed(ps: ParserState, bytes: seq<byte>): ParserState {
    ps.(pending := ps.pending + bytes)
  }

  /** Feeds the chunks one after another, draining after each. */
  function FeedAll<M>(d: Dialect<M>, ps: ParserState, chunks: seq<seq<byte>>): (ParserState, seq<Event<M>>)
    decreases |chunks|
  {
    if chunks == [] then (ps, [])
    else
      var (next, events) := Drain(d, Fed(ps, chunks[0]));
      (FeedAll(d, next, chunks[1..]).0, events + FeedAll(d, next, chunks[1..]).1)
  }

  function Concat(chunks: seq<seq<byte>>): seq<byte> {
    if chunks == [] then [] else chunks[0] + Concat(chunks[1..])
  }

  /** Nothing to do until more arrives: an unfinished frame at most. */
  predicate Drained(ps: ParserState) {
    ps.pending == [] || (IsMagic(ps.pending[0]) && !Complete(ps.pending))
  }

  class Parser<M> {
    const dialect: Dialect<M>
    var buf: seq<byte>
    var off: nat
    var stats: Stats

    ghost predicate Valid() reads this {
      off <= |buf|
    }

    ghost function State(): ParserState
      requires Valid()
      reads this
    {
      ParserState(buf[off..], stats)
    }

    constructor (dialect: Dialect<M>)
      ensures Valid() && State() == ParserState([], Stats(0, 0, 0, 0)) && this.dialect == dialect
    {
      this.dialect := dialect;
      buf, off, stats := [], 0, Stats(0, 0, 0, 0);
    }

    method Feed(b: seq<byte>)
      requires Valid()
      modifies this
      ensures Valid() && State() == Fed(old(State()), b)
    {
      if off > 0 {
        buf := buf[off..];
        off := 0;
      }
      buf := buf + b;
    }

    /** Bytes fed and not yet consumed. */
    method Buffered() returns (n: nat)
      requires Valid()
      ensures n == |State().pending|
    {
      n := |buf| - off;
    }

    method Reset()
      requires Valid()
      modifies this
      ensures Valid() && State() == ParserState([], old(stats))
    {
      buf, off := [], 0;
    }

    method Next() returns (e: Option<Event<M>>)
      requires Valid()
      modifies this
      ensures Valid() && (State(), e) == Pull(dialect, old(State()))
    {
      hide Judge, IndexMagic, IsMagic;
      var i := FindMagic(buf[off..]);
      if i < 0 {
        stats := stats.(garbage := stats.garbage + |buf[off..]|);
        off := |buf|;
        assert buf[off..] == [];
        return None;
      }
      assert buf[off + i..] == buf[off..][i..];
      if i > 0 {
        stats := stats.(garbage := stats.garbage + i);
        off := off + i;
      }
      e := TakeFrame();
    }

    /** Judges what starts at the magic byte found. */
    method TakeFrame() returns (e: Option<Event<M>>)
      requires Valid() && off < |buf|
      modifies this`off, this`stats
      ensures Valid() && (State(), e) == Judge(dialect, old(buf[off..]), old(stats))
    {
      hide Decode, IsMagic, Complete;
      var b := buf[off..];
      var o := DecodeFrame(dialect, b);
      assert buf[off + o.consumed..] == b[o.consumed..];
      match o {
        case Decoded(frame, consumed) =>
          off := off + consumed;
          stats := stats.(frames := stats.frames + 1);
          return Some(Got(frame));
        case Failed(error, consumed) =>
          if consumed == 0 {
            return None;
          }
          if error == BadCRC {
            stats := stats.(badCRC := stats.badCRC + 1);
          } else {
            stats := stats.(unknown := stats.unknown + 1);
          }
          off := off + consumed;
          return Some(Rejected(error));
      }
    }
  }

  method FindMagic(b: seq<byte>) returns (i: int)
    ensures i == IndexMagic(b)
  {
    for k := 0 to |b|
      invariant forall j :: 0 <= j < k ==> !IsMagic(b[j])
    {
      if b[k] == MAGIC_V2 || b[k] == MAGIC_V1 {
        IndexMagicIs(b, k);
        return k;
      }
    }
    IndexMagicIs(b, |b|);
    return -1;
  }

  // ---------------------------------------------------------------------------
  // The stream's meaning does not depend on how it was cut up
  // ---------------------------------------------------------------------------

  lemma PullLeavesDrained<M>(d: Dialect<M>, ps: ParserState)
    ensures Pull(d, ps).1.None? ==> Drained(Pull(d, ps).0)
  {
  }

  /** Between feeds at most one unfinished frame is kept. */
  lemma {:induction false} LeftoverIsBounded<M>(d: Dialect<M>, ps: ParserState)
    ensures Drained(Drain(d, ps).0) && |Drain(d, ps).0.pending| <= MAX_FRAME - 1
    decreases |ps.pending|
  {
    hide Decode;
    PullLeavesDrained(d, ps);
    var (next, e) := Pull(d, ps);
    if e.Some? { LeftoverIsBounded(d, next); }
  }

  lemma MagicBehindGarbage(g: seq<byte>, s: seq<byte>)
    requires IndexMagic(g) < 0
    ensures IndexMagic(g + s) == if IndexMagic(s) < 0 then -1 else |g| + IndexMagic(s)
  {
    hide IndexMagic, IsMagic;
    NoMagicBefore(g);
    NoMagicBefore(s);
    IndexMagicIs(g + s, |g| + if IndexMagic(s) < 0 then |s| else IndexMagic(s));
  }

  lemma PullSkipsGarbage<M>(d: Dialect<M>, g: seq<byte>, s: seq<byte>, stats: Stats)
    requires IndexMagic(g) < 0
    ensures Pull(d, ParserState(g + s, stats)) == Pull(d, ParserState(s, stats.(garbage := stats.garbage + |g|)))
  {
    hide Pull, Judge, IndexMagic, IsMagic;
    MagicBehindGarbage(g, s);
    PullIs(d, g + s, stats);
    PullIs(d, s, stats.(garbage := stats.garbage + |g|));
    if IndexMagic(s) >= 0 { DropPast(g, s, IndexMagic(s)); }
  }

  lemma PullIs<M>(d: Dialect<M>, pending: seq<byte>, stats: Stats)
    ensures var i := IndexMagic(pending);
            Pull(d, ParserState(pending, stats)) ==
            if i < 0 then (ParserState([], stats.(garbage := stats.garbage + |pending|)), None)
            else Judge(d, pending[i..], stats.(garbage := stats.garbage + i))
  {
    hide Judge, IndexMagic;
  }

  lemma DropPast(g: seq<byte>, s: seq<byte>, i: nat)
    requires i <= |s|
    ensures (g + s)[|g| + i..] == s[i..]
  {
  }

  /** Bytes that cannot start a frame are skipped and counted, and change nothing else. */
  lemma GarbageIsSkipped<M>(d: Dialect<M>, g: seq<byte>, s: seq<byte>, stats: Stats)
    requires IndexMagic(g) < 0
    ensures Drain(d, ParserState(g + s, stats)) == Drain(d, ParserState(s, stats.(garbage := stats.garbage + |g|)))
  {
    hide Pull, IndexMagic;
    PullSkipsGarbage(d, g, s, stats);
  }

  /** An event already decided is not changed by what arrives after it. */
  lemma PullIsLocal<M>(d: Dialect<M>, ps: ParserState, more: seq<byte>)
    requires Pull(d, ps).1.Some?
    ensures Pull(d, Fed(ps, more)) == (Fed(Pull(d, ps).0, more), Pull(d, ps).1)
  {
    hide Decode, IndexMagic;
    var i := IndexMagic(ps.pending);
    var b := ps.pending[i..];
    MagicStays(ps.pending, more);
    assert (ps.pending + more)[i..] == b + more;
    DecodeIsLocal(d, b, more);
    var c := Decode(d, b).consumed;
    assert (b + more)[c..] == b[c..] + more;
  }

  lemma MagicStays(s: seq<byte>, more: seq<byte>)
    requires IndexMagic(s) >= 0
    ensures IndexMagic(s + more) == IndexMagic(s)
  {
    hide IndexMagic, IsMagic;
    NoMagicBefore(s);
    IndexMagicIs(s + more, IndexMagic(s));
  }

  lemma {:induction false} DrainInTwo<M>(d: Dialect<M>, ps: ParserState, more: seq<byte>)
    ensures var (mid, events) := Drain(d, ps);
            var (end, later) := Drain(d, Fed(mid, more));
            Drain(d, Fed(ps, more)) == (end, events + later)
    decreases |ps.pending|
  {
    hide Pull;
    var (next, e) := Pull(d, ps);
    if e.Some? {
      DrainInTwo(d, next, more);
      PullIsLocal(d, ps, more);
      var (mid, events) := Drain(d, next);
      var later := Drain(d, Fed(mid, more)).1;
      assert [e.value] + (events + later) == ([e.value] + events) + later;
    } else {
      StalledInTwo(d, ps, more);
      var later := Drain(d, Fed(next, more)).1;
      assert [] + later == later;
    }
  }

  lemma StalledInTwo<M>(d: Dialect<M>, ps: ParserState, more: seq<byte>)
    requires Pull(d, ps).1.None?
    ensures Drain(d, Fed(ps, more)) == Drain(d, Fed(Pull(d, ps).0, more))
  {
    hide Drain, Decode, IndexMagic;
    var i := IndexMagic(ps.pending);
    if i < 0 {
      GarbageIsSkipped(d, ps.pending, more, ps.stats);
      assert [] + more == more;
    } else {
      var g, b := ps.pending[..i], ps.pending[i..];
      GarbageBefore(ps.pending);
      assert ps.pending + more == g + (b + more);
      GarbageIsSkipped(d, g, b + more, ps.stats);
    }
  }

  lemma GarbageBefore(s: seq<byte>)
    requires IndexMagic(s) >= 0
    ensures IndexMagic(s[..IndexMagic(s)]) < 0
  {
    hide IndexMagic, IsMagic;
    NoMagicBefore(s);
    IndexMagicIs(s[..IndexMagic(s)], IndexMagic(s));
  }

  /**
   * However the stream is cut into reads, the parser that is drained after each one reports the same frames and errors,
   * counts the same, and keeps the same leftover as if it had read the whole stream at once.
   */
  lemma {:induction false} ChunkingDoesNotMatter<M>(d: Dialect<M>, ps: ParserState, chunks: seq<seq<byte>>)
    requires Drained(ps)
    ensures FeedAll(d, ps, chunks) == Drain(d, Fed(ps, Concat(chunks)))
    decreases |chunks|
  {
    hide Pull, Drained;
    if chunks == [] {
      assert ps.pending + [] == ps.pending;
      DrainedStays(d, ps);
    } else {
      var (next, events) := Drain(d, Fed(ps, chunks[0]));
      LeftoverIsBounded(d, Fed(ps, chunks[0]));
      ChunkingDoesNotMatter(d, next, chunks[1..]);
      assert ps.pending + Concat(chunks) == (ps.pending + chunks[0]) + Concat(chunks[1..]);
      DrainInTwo(d, Fed(ps, chunks[0]), Concat(chunks[1..]));
    }
  }

  lemma DrainedStays<M>(d: Dialect<M>, ps: ParserState)
    requires Drained(ps)
    ensures Drain(d, ps) == (ps, [])
  {
    assert ps.pending != [] ==> IndexMagic(ps.pending) == 0 && ps.pending[0..] == ps.pending;
  }

  // ---------------------------------------------------------------------------
  // Round trip of a whole stream
  // ---------------------------------------------------------------------------

  datatype Item<M> = Item(seqno: byte, sysid: byte, compid: byte, msg: M)

  ghost predicate AllEncodable<M>(d: Dialect<M>, items: seq<Item<M>>) {
    forall i :: 0 <= i < |items| ==> Encodable(d, items[i].msg)
  }

  function EncodeAll<M>(d: Dialect<M>, items: seq<Item<M>>): seq<byte>
    requires AllEncodable(d, items)
  {
    if items == [] then []
    else Encoded(d, items[0].seqno, items[0].sysid, items[0].compid, items[0].msg) + EncodeAll(d, items[1..])
  }

  function ExpectAll<M>(d: Dialect<M>, items: seq<Item<M>>): (events: seq<Event<M>>)
    ensures |events| == |items|
    ensures forall i :: 0 <= i < |items| ==>
              events[i] == Got(Expected(d, items[i].seqno, items[i].sysid, items[i].compid, items[i].msg))
  {
    if items == [] then []
    else [Got(Expected(d, items[0].seqno, items[0].sysid, items[0].compid, items[0].msg))] + ExpectAll(d, items[1..])
  }

  /** Messages sent back to back come out as sent, in order, with nothing lost, added, rejected or left over. */
  lemma {:induction false} StreamRoundTrip<M>(d: Dialect<M>, items: seq<Item<M>>, stats: Stats)
    requires AllEncodable(d, items)
    ensures Drain(d, ParserState(EncodeAll(d, items), stats)) ==
            (ParserState([], stats.(frames := stats.frames + |items|)), ExpectAll(d, items))
    decreases |items|
  {
    hide Encoded, Expected, Encodable, Decode, Pull, Drain;
    if items == [] {
      DrainedStays(d, ParserState([], stats));
    } else {
      var x, rest := items[0], EncodeAll(d, items[1..]);
      var frame := Encoded(d, x.seqno, x.sysid, x.compid, x.msg);
      assert Encodable(d, items[0].msg) && AllEncodable(d, items[1..]);
      var counted := stats.(frames := stats.frames + 1);
      PullEncoded(d, x, rest, stats);
      StreamRoundTrip(d, items[1..], counted);
      DrainStep(d, ParserState(frame + rest, stats));
    }
  }

  lemma DrainStep<M>(d: Dialect<M>, ps: ParserState)
    requires Pull(d, ps).1.Some?
    ensures Drain(d, ps).0 == Drain(d, Pull(d, ps).0).0
    ensures Drain(d, ps).1 == [Pull(d, ps).1.value] + Drain(d, Pull(d, ps).0).1
  {
    hide Pull;
  }

  lemma PullEncoded<M>(d: Dialect<M>, x: Item<M>, rest: seq<byte>, stats: Stats)
    requires Encodable(d, x.msg)
    ensures Pull(d, ParserState(Encoded(d, x.seqno, x.sysid, x.compid, x.msg) + rest, stats)) ==
            (ParserState(rest, stats.(frames := stats.frames + 1)),
             Some(Got(Expected(d, x.seqno, x.sysid, x.compid, x.msg))))
  {
    hide Encodable, Decode, Expected;
    var frame := Encoded(d, x.seqno, x.sysid, x.compid, x.msg);
    var b := frame + rest;
    DecodeEncoded(d, x.seqno, x.sysid, x.compid, x.msg, rest);
    assert frame[0] == MAGIC_V2;
    assert b[0] == MAGIC_V2 && IndexMagic(b) == 0;
    assert b[0..] == b && b[|frame|..] == rest;
  }

  /** The same for any cut of the stream, and after any garbage that cannot start a frame. */
  lemma StreamRoundTripInChunks<M>(d: Dialect<M>, items: seq<Item<M>>, garbage: seq<byte>, chunks: seq<seq<byte>>)
    requires AllEncodable(d, items) && IndexMagic(garbage) < 0 && Concat(chunks) == garbage + EncodeAll(d, items)
    ensures FeedAll(d, ParserState([], Stats(0, 0, 0, 0)), chunks) ==
            (ParserState([], Stats(|items|, |garbage|, 0, 0)), ExpectAll(d, items))
  {
    hide Drain, FeedAll, EncodeAll, ExpectAll, IndexMagic;
    var stats := Stats(0, 0, 0, 0);
    ChunkingDoesNotMatter(d, ParserState([], stats), chunks);
    assert [] + Concat(chunks) == garbage + EncodeAll(d, items);
    GarbageIsSkipped(d, garbage, EncodeAll(d, items), stats);
    StreamRoundTrip(d, items, Stats(0, |garbage|, 0, 0));
  }

  // ---------------------------------------------------------------------------
  // Resynchronising, and counting it
  // ---------------------------------------------------------------------------

  datatype Kind = AFrame | ABadChecksum | AnyOtherError

  function KindOf<M>(e: Event<M>): Kind {
    if e.Got? then AFrame else if e.error == BadCRC then ABadChecksum else AnyOtherError
  }

  /** How many events are of a kind. */
  function Count<M>(events: seq<Event<M>>, kind: Kind): nat {
    if events == [] then 0 else (if KindOf(events[0]) == kind then 1 else 0) + Count(events[1..], kind)
  }

  /** The counters move by what is reported: frames, failed checksums, and every other rejected frame. */
  predicate Counted<M>(before: Stats, after: Stats, events: seq<Event<M>>) {
    && after.frames == before.frames + Count(events, AFrame)
    && after.badCRC == before.badCRC + Count(events, ABadChecksum)
    && after.unknown == before.unknown + Count(events, AnyOtherError)
    && after.garbage >= before.garbage
  }

  lemma PullIsCounted<M>(d: Dialect<M>, ps: ParserState)
    ensures var (next, e) := Pull(d, ps);
            Counted(ps.stats, next.stats, if e.Some? then [e.value] else [])
  {
    hide Decode, IndexMagic, Count;
    if Pull(d, ps).1.Some? { OneCounted(Pull(d, ps).1.value); }
    NothingCounted<M>(ps.stats);
  }

  lemma OneCounted<M>(e: Event<M>)
    ensures forall kind :: Count([e], kind) == if KindOf(e) == kind then 1 else 0
  {
    assert [e][1..] == [];
  }

  lemma {:induction false} CountOfParts<M>(a: seq<Event<M>>, b: seq<Event<M>>, kind: Kind)
    ensures Count(a + b, kind) == Count(a, kind) + Count(b, kind)
  {
    if a == [] {
      assert a + b == b;
    } else {
      CountOfParts(a[1..], b, kind);
      assert (a + b)[1..] == a[1..] + b;
    }
  }

  lemma CountedTwice<M>(a: Stats, b: Stats, c: Stats, some: seq<Event<M>>, more: seq<Event<M>>)
    requires Counted(a, b, some) && Counted(b, c, more)
    ensures Counted(a, c, some + more)
  {
    hide Count;
    CountOfParts(some, more, AFrame);
    CountOfParts(some, more, ABadChecksum);
    CountOfParts(some, more, AnyOtherError);
  }

  lemma {:induction false} DrainIsCounted<M>(d: Dialect<M>, ps: ParserState)
    ensures var (end, events) := Drain(d, ps); Counted(ps.stats, end.stats, events)
    decreases |ps.pending|
  {
    hide Pull, Counted;
    PullIsCounted(d, ps);
    var (next, e) := Pull(d, ps);
    if e.Some? {
      DrainIsCounted(d, next);
      CountedTwice(ps.stats, next.stats, Drain(d, next).0.stats, [e.value], Drain(d, next).1);
    }
  }

  /** Over any number of reads the counters say exactly how often each thing was reported. */
  lemma {:induction false} EventsAreCounted<M>(d: Dialect<M>, ps: ParserState, chunks: seq<seq<byte>>)
    ensures var (end, events) := FeedAll(d, ps, chunks); Counted(ps.stats, end.stats, events)
    decreases |chunks|
  {
    hide Drain, Counted;
    if chunks == [] {
      NothingCounted<M>(ps.stats);
    } else {
      var (next, events) := Drain(d, Fed(ps, chunks[0]));
      DrainIsCounted(d, Fed(ps, chunks[0]));
      EventsAreCounted(d, next, chunks[1..]);
      var (end, later) := FeedAll(d, next, chunks[1..]);
      CountedTwice(ps.stats, next.stats, end.stats, events, later);
    }
  }

  lemma NothingCounted<M>(stats: Stats)
    ensures Counted<M>(stats, stats, [])
  {
  }

  /**
   * A frame of a message the dialect does not have is unverified: it is reported, and only its header is passed over,
   * so that what it claims is its payload is searched for frames again. For a MAVLink 1 frame the header is 6 bytes.
   */
  lemma UnknownFramesAreSearched<M>(d: Dialect<M>, incompat: byte, compat: byte, seqno: byte, sysid: byte, compid: byte,
                                    id: nat, payload: seq<byte>, extra: byte, signature: seq<byte>, tail: seq<byte>,
                                    stats: Stats)
    requires |payload| <= MAX_PAYLOAD && id < 0x1000000 && id !in d.known
    requires |signature| == if SaysSigned(incompat) then SIGNATURE_LEN else 0
    ensures var frame := FlaggedFrame(incompat, compat, seqno, sysid, compid, id, payload, extra, signature);
            && |frame| == 12 + |payload| + |signature|
            && Pull(d, ParserState(frame + tail, stats)) ==
               (ParserState(payload + frame[10 + |payload|..] + tail, stats.(unknown := stats.unknown + 1)),
                Some(Rejected(UnknownMessage(id))))
    ensures id < 256 ==>
              var frame := LegacyFrame(seqno, sysid, compid, id, payload, extra);
              && |frame| == 8 + |payload|
              && Pull(d, ParserState(frame + tail, stats)) ==
                 (ParserState(payload + frame[6 + |payload|..] + tail, stats.(unknown := stats.unknown + 1)),
                  Some(Rejected(UnknownMessage(id))))
  {
    hide FrameCRC, ChecksumMatches;
    IDRoundTrip(id);
    var frame := FlaggedFrame(incompat, compat, seqno, sysid, compid, id, payload, extra, signature);
    var b := frame + tail;
    assert IndexMagic(b) == 0 && b[0..] == b;
    assert frame[10..] == payload + frame[10 + |payload|..];
    assert b[10..] == payload + frame[10 + |payload|..] + tail;
    if id < 256 {
      var legacy := LegacyFrame(seqno, sysid, compid, id, payload, extra);
      var c := legacy + tail;
      assert IndexMagic(c) == 0 && c[0..] == c;
      assert legacy[6..] == payload + legacy[6 + |payload|..];
      assert c[6..] == payload + legacy[6 + |payload|..] + tail;
    }
  }

  /** One byte of a frame in the stream altered: its checksum fails, and the search goes on at the very next byte. */
  lemma AlteredFrameCostsOneByte<M>(d: Dialect<M>, b: seq<byte>, i: nat, x: byte, stats: Stats)
    requires b != [] && Decode(d, b).Decoded?
    requires 2 <= i < (if b[0] == MAGIC_V2 then 7 else 5) || HeaderLength(b[0]) <= i < BodyEnd(b) + CRC_LEN
    requires x != b[i] && Complete(b[i := x])
    ensures Pull(d, ParserState(b[i := x], stats)) ==
            (ParserState(b[i := x][1..], stats.(badCRC := stats.badCRC + 1)), Some(Rejected(BadCRC)))
  {
    hide Decode, FrameCRC;
    DecodedIsComplete(d, b);
    AlteredFrameIsRejected(d, b, i, x);
    var c := b[i := x];
    assert IndexMagic(c) == 0 && c[0..] == c;
  }

  lemma DecodedIsComplete<M>(d: Dialect<M>, b: seq<byte>)
    requires b != [] && Decode(d, b).Decoded?
    ensures IsMagic(b[0]) && Complete(b)
  {
  }

  // ---------------------------------------------------------------------------
  // Datagrams and sequence numbers
  // ---------------------------------------------------------------------------

  /** A datagram is a frame from its first byte, or not ours; anything after the frame is ignored. */
  function DecodeDatagram<M>(d: Dialect<M>, b: seq<byte>): Outcome<M> {
    if b == [] then Failed(Truncated, 0)
    else if !IsMagic(b[0]) then Failed(BadMagic, 0)
    else Decode(d, b)
  }

  lemma DatagramRoundTrip<M>(d: Dialect<M>, x: Item<M>, tail: seq<byte>)
    requires Encodable(d, x.msg)
    ensures var o := DecodeDatagram(d, Encoded(d, x.seqno, x.sysid, x.compid, x.msg) + tail);
            o.Decoded? && o.frame == Expected(d, x.seqno, x.sysid, x.compid, x.msg)
  {
    hide Encodable, Decode, Expected;
    DecodeEncoded(d, x.seqno, x.sysid, x.compid, x.msg, tail);
    assert (Encoded(d, x.seqno, x.sysid, x.compid, x.msg) + tail)[0] == MAGIC_V2;
  }

  /** A datagram yields a frame exactly if one stands at its first byte; there is no search, and nothing is skipped. */
  lemma DatagramsAreNotSearched<M>(d: Dialect<M>, b: seq<byte>)
    ensures var o := DecodeDatagram(d, b);
            && (o.Decoded? <==> b != [] && Decode(d, b).Decoded?)
            && (o.Decoded? ==> o == Decode(d, b))
            && (o == Failed(Truncated, 0) <==> b == [] || (IsMagic(b[0]) && !Complete(b)))
            && (b != [] && !IsMagic(b[0]) ==> o == Failed(BadMagic, 0))
  {
    hide Complete;
  }

  type Sender = (byte, byte)

  function CallsBy(history: seq<Sender>, who: Sender): nat {
    if history == [] then 0
    else CallsBy(history[..|history| - 1], who) + if history[|history| - 1] == who then 1 else 0
  }

  class Sequencer {
    var next: map<Sender, byte>
    ghost var history: seq<Sender>

    ghost predicate Valid() reads this {
      && (forall who <- next :: next[who] == CallsBy(history, who) % 256)
      && (forall who :: who !in next ==> CallsBy(history, who) == 0)
    }

    constructor ()
      ensures Valid() && history == []
    {
      next, history := map[], [];
    }

    /** Each sender sees its own calls numbered 0, 1, ..., 255, 0, ... whatever the others do in between. */
    method Next(sysid: byte, compid: byte) returns (seqno: byte)
      requires Valid()
      modifies this
      ensures Valid() && history == old(history) + [(sysid, compid)]
      ensures seqno == CallsBy(old(history), (sysid, compid)) % 256
    {
      hide CallsBy;
      var key := (sysid, compid);
      seqno := if key in next then next[key] else 0;
      next := next[key := (seqno + 1) % 256];
      OneMoreCall(history, key);
      OneMoreWraps(CallsBy(history, key));
      history := history + [key];
    }
  }

  lemma OneMoreCall(history: seq<Sender>, key: Sender)
    ensures forall who :: CallsBy(history + [key], who) == CallsBy(history, who) + if who == key then 1 else 0
  {
    assert (history + [key])[..|history|] == history;
  }

  lemma OneMoreWraps(calls: nat)
    ensures (calls % 256 + 1) % 256 == (calls + 1) % 256
  {
  }
}
