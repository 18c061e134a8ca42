// CRC-16/MCRF4XX as MAVLink uses it, and the errors it is guaranteed to catch.

module Checksum {
  import opened ByteBits
  import opened CrcBits

  const CRC_INIT: bv16 := 0xFFFF

  /** The low byte travels first. */
  function LittleEndian(crc: bv16): (bytes: seq<byte>)
    ensures |bytes| == 2
  {
    [Value(Low(crc)), Value(High(crc))]
  }

  function ReadWord(low: byte, high: byte): bv16 {
    Word(Bits(low), Bits(high))
  }

  lemma ReadWordRoundTrip(crc: bv16)
    ensures ReadWord(LittleEndian(crc)[0], LittleEndian(crc)[1]) == crc
  {
    hide Value, Bits, Word, Low, High;
    BitsOfValue(Low(crc));
    BitsOfValue(High(crc));
    WordRoundTrip(crc, Low(crc), High(crc));
  }

  lemma ReadWordInjective(a: byte, b: byte, c: byte, d: byte)
    ensures ReadWord(a, b) == ReadWord(c, d) <==> a == c && b == d
  {
    hide Value, Bits, Word, Low, High;
    ValueOfBits(a);
    ValueOfBits(b);
    ValueOfBits(c);
    ValueOfBits(d);
    WordRoundTrip(0, Bits(a), Bits(b));
    WordRoundTrip(0, Bits(c), Bits(d));
  }

  function CrcAccumulate(crc: bv16, b: byte): bv16 {
    Mix(crc, Key(crc, Bits(b)))
  }

  function CrcOf(crc: bv16, body: seq<byte>): bv16 {
    if body == [] then crc else CrcAccumulate(CrcOf(crc, body[..|body| - 1]), body[|body| - 1])
  }

  /** The checksum of a frame body; the message's CRC_EXTRA is accumulated last and never transmitted. */
  function FrameCRC(body: seq<byte>, extra: byte): bv16 {
    CrcAccumulate(CrcOf(CRC_INIT, body), extra)
  }

  method ComputeFrameCRC(body: seq<byte>, extra: byte) returns (crc: bv16)
    ensures crc == FrameCRC(body, extra)
  {
    crc := CRC_INIT;
    for i := 0 to |body|
      invariant crc == CrcOf(CRC_INIT, body[..i])
    {
      assert body[..i + 1][..i] == body[..i];
      crc := CrcAccumulate(crc, body[i]);
    }
    assert body[..|body|] == body;
    crc := CrcAccumulate(crc, extra);
  }

  // ---------------------------------------------------------------------------
  // Error detection
  // ---------------------------------------------------------------------------

  /** Different bytes into the same running CRC give different CRCs. */
  lemma DifferentByte(crc: bv16, a: byte, b: byte)
    requires a != b
    ensures CrcAccumulate(crc, a) != CrcAccumulate(crc, b)
  {
    hide Key, Mix, Bits, Value;
    ValueOfBits(a);
    ValueOfBits(b);
    KeyOfByte(crc, Bits(a), Bits(b));
    MixOfKey(crc, crc, Key(crc, Bits(a)), Key(crc, Bits(b)));
  }

  /** The same byte keeps different running CRCs different. */
  lemma DifferentState(c: bv16, d: bv16, b: byte)
    requires c != d
    ensures CrcAccumulate(c, b) != CrcAccumulate(d, b)
  {
    hide Key, Mix, Low, Bits;
    var bits := Bits(b);
    if Key(c, bits) == Key(d, bits) {
      KeyOfState(c, d, bits);
      MixOfState(c, d, Key(c, bits));
    } else {
      MixOfKey(c, d, Key(c, bits), Key(d, bits));
    }
  }

  lemma {:induction false} SuffixKeepsDifference(c: bv16, d: bv16, suffix: seq<byte>)
    requires c != d
    ensures CrcOf(c, suffix) != CrcOf(d, suffix)
  {
    hide CrcAccumulate;
    if suffix != [] {
      var front, b := suffix[..|suffix| - 1], suffix[|suffix| - 1];
      SuffixKeepsDifference(c, d, front);
      DifferentState(CrcOf(c, front), CrcOf(d, front), b);
    }
  }

  lemma {:induction false} CrcOfConcat(crc: bv16, a: seq<byte>, b: seq<byte>)
    ensures CrcOf(crc, a + b) == CrcOf(CrcOf(crc, a), b)
  {
    hide CrcAccumulate;
    if b == [] {
      assert a + b == a;
    } else {
      var front, last := b[..|b| - 1], b[|b| - 1];
      CrcOfConcat(crc, a, front);
      assert (a + b)[..|a + b| - 1] == a + front;
    }
  }

  /** Any one byte changed, in a body of any length: the checksum changes. */
  lemma OneByteIsDetected(body: seq<byte>, i: nat, b: byte, extra: byte)
    requires i < |body| && b != body[i]
    ensures FrameCRC(body[i := b], extra) != FrameCRC(body, extra)
  {
    hide CrcAccumulate, CrcOf;
    var pre, suffix := CrcOf(CRC_INIT, body[..i]), body[i + 1..];
    assert body == body[..i] + ([body[i]] + suffix) && body[i := b] == body[..i] + ([b] + suffix);
    CrcOfConcat(CRC_INIT, body[..i], [body[i]] + suffix);
    CrcOfConcat(CRC_INIT, body[..i], [b] + suffix);
    CrcOfConcat(pre, [body[i]], suffix);
    CrcOfConcat(pre, [b], suffix);
    OneByte(pre, body[i]);
    OneByte(pre, b);
    DifferentByte(pre, body[i], b);
    SuffixKeepsDifference(CrcOf(pre, [body[i]]), CrcOf(pre, [b]), suffix);
    DifferentState(CrcOf(CRC_INIT, body), CrcOf(CRC_INIT, body[i := b]), extra);
  }

  lemma OneByte(crc: bv16, b: byte)
    ensures CrcOf(crc, [b]) == CrcAccumulate(crc, b)
  {
    hide CrcAccumulate;
    assert [b][..0] == [];
  }

  /** Peers that define a message differently (different CRC_EXTRA) accept none of each other's frames of it. */
  lemma DefinitionMismatchIsDetected(body: seq<byte>, mine: byte, theirs: byte)
    ensures FrameCRC(body, mine) == FrameCRC(body, theirs) <==> mine == theirs
  {
    hide CrcAccumulate, CrcOf;
    if mine != theirs {
      DifferentByte(CrcOf(CRC_INIT, body), mine, theirs);
    }
  }
}
