// Bytes as numbers and as bits, and the bit-level steps of the CRC. Kept apart so that arithmetic and bit reasoning do
// not mix.

module ByteBits {

  type byte = x: int | 0 <= x < 256

  lemma Converts(b: byte)
    ensures (b as bv8) as int == b
  {
  }

  function Bits(b: byte): bv8 {
    b as bv8
  }

  function Value(bits: bv8): byte {
    bits as int
  }

  lemma ValueOfBits(b: byte)
    ensures Value(Bits(b)) == b
  {
    Converts(b);
  }

  lemma BitsOfValue(bits: bv8)
    ensures Bits(Value(bits)) == bits
  {
  }
}

module CrcBits {

  function Low(crc: bv16): bv8 {
    (crc & 0xFF) as bv8
  }

  function High(crc: bv16): bv8 {
    (crc >> 8) as bv8
  }

  function Word(low: bv8, high: bv8): bv16 {
    (low as bv16) | ((high as bv16) << 8)
  }

  lemma WordRoundTrip(crc: bv16, low: bv8, high: bv8)
    ensures Word(Low(crc), High(crc)) == crc
    ensures Low(Word(low, high)) == low && High(Word(low, high)) == high
  {
  }

  function Fold(tmp: bv8): bv8 {
    tmp ^ (tmp << 4)
  }

  function Spread(folded: bv8): bv16 {
    ((folded as bv16) << 8) ^ ((folded as bv16) << 3) ^ ((folded as bv16) >> 4)
  }

  function Key(crc: bv16, b: bv8): bv8 {
    Fold(b ^ Low(crc))
  }

  function Mix(crc: bv16, key: bv8): bv16 {
    (crc >> 8) ^ Spread(key)
  }

  /** One bit through the reflected polynomial 0x1021. */
  function ShiftOne(crc: bv16): bv16 {
    if crc & 1 != 0 then (crc >> 1) ^ 0x8408 else crc >> 1
  }

  function ShiftByte(crc: bv16): bv16 {
    ShiftOne(ShiftOne(ShiftOne(ShiftOne(ShiftOne(ShiftOne(ShiftOne(ShiftOne(crc))))))))
  }

  lemma FoldingShifts(x: bv16)
    ensures Mix(x, Key(x, 0)) == ShiftByte(x)
  {
  }

  /** A byte is added to the low half of the CRC, which only the key sees. */
  lemma ByteEntersLow(crc: bv16, b: bv8, key: bv8)
    ensures Key(crc ^ (b as bv16), 0) == Key(crc, b)
    ensures Mix(crc ^ (b as bv16), key) == Mix(crc, key)
  {
  }

  /** The folded form is exactly eight shift-and-xor steps of the polynomial division. */
  lemma FoldedFormIsEightShifts(crc: bv16, b: bv8)
    ensures Mix(crc, Key(crc, b)) == ShiftByte(crc ^ (b as bv16))
  {
    hide ShiftByte, Mix, Key;
    var key := Key(crc, b);
    ByteEntersLow(crc, b, key);
    FoldingShifts(crc ^ (b as bv16));
  }

  // ---------------------------------------------------------------------------
  // Nothing is lost
  // ---------------------------------------------------------------------------

  /** For a given CRC the key is a bijection of the byte. */
  lemma KeyOfByte(crc: bv16, a: bv8, b: bv8)
    ensures Key(crc, a) == Key(crc, b) <==> a == b
  {
  }

  /** For a given byte the key tells the CRC's low half. */
  lemma KeyOfState(c: bv16, d: bv16, b: bv8)
    requires Key(c, b) == Key(d, b)
    ensures Low(c) == Low(d)
  {
  }

  /** Different keys differ in the high half of what they contribute, which the shifted CRC cannot reach. */
  lemma MixOfKey(c: bv16, d: bv16, f: bv8, g: bv8)
    requires f != g
    ensures Mix(c, f) != Mix(d, g)
  {
    assert Spread(f) & 0xFF00 != Spread(g) & 0xFF00;
  }

  lemma MixOfState(c: bv16, d: bv16, key: bv8)
    requires c != d && Low(c) == Low(d)
    ensures Mix(c, key) != Mix(d, key)
  {
    hide Spread;
    var s := Spread(key);
    assert c & 0xFF == d & 0xFF;
    assert c >> 8 != d >> 8;
  }
}
