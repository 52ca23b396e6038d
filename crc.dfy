/**
 * The Modbus RTU checksum: CRC-16 with the reflected polynomial 0xA001,
 * initial value 0xFFFF, transmitted low byte first. The 16-bit register is a
 * number; exclusive or is defined on binary digits.
 */
module ModbusCrc {
  import opened Util

  const CrcInit: U16 := 0xFFFF
  const CrcPoly: U16 := 0xA001

  // ---- bytes as numbers ----

  /** The low byte of a 16-bit value. */
  function Lo(w: U16): byte { w % 0x100 }

  /** The high byte of a 16-bit value. */
  function Hi(w: U16): byte { w / 0x100 }

  /** The 16-bit value whose high byte is `hi` and low byte is `lo`. */
  function Word(hi: byte, lo: byte): (w: U16)
    ensures Hi(w) == hi && Lo(w) == lo
  {
    hi * 0x100 + lo
  }

  lemma WordOfBytes(w: U16)
    ensures Word(Hi(w), Lo(w)) == w
  {
  }

  // ---- exclusive or on binary digits ----

  function Pow2(k: nat): (p: nat)
    ensures p >= 1
  {
    if k == 0 then 1 else 2 * Pow2(k - 1)
  }

  /** The exclusive or of the low `k` binary digits of `a` and `b`. */
  function XorLow(a: nat, b: nat, k: nat): (r: nat)
    ensures r < Pow2(k)
    decreases k
  {
    if k == 0 then 0 else (a + b) % 2 + 2 * XorLow(a / 2, b / 2, k - 1)
  }

  /** `x ^ y` on bytes. */
  function XorByte(x: byte, y: byte): byte {
    assert Pow2(8) == 0x100;
    XorLow(x, y, 8)
  }

  /** `a ^ b` on 16-bit values, byte by byte. */
  function Xor(a: U16, b: U16): U16 {
    Word(XorByte(Hi(a), Hi(b)), XorByte(Lo(a), Lo(b)))
  }

  lemma ParityOfSum(x: nat, y: nat)
    ensures (x + y) % 2 == (if x % 2 == y % 2 then 0 else 1)
  {
    assert x == 2 * (x / 2) + x % 2;
    assert y == 2 * (y / 2) + y % 2;
    assert x + y == 2 * (x / 2 + y / 2) + (x % 2 + y % 2);
  }

  lemma Halves(x: nat)
    ensures x == 2 * (x / 2) + x % 2 && x % 2 < 2
  {
  }

  /** XOR with zero changes nothing. */
  lemma {:induction false} XorLowZero(x: nat, k: nat)
    requires x < Pow2(k)
    ensures XorLow(x, 0, k) == x
    decreases k
  {
    if k > 0 {
      XorLowZero(x / 2, k - 1);
      Halves(x);
    }
  }

  /** A value XORed with itself is zero. */
  lemma {:induction false} XorLowSelf(x: nat, k: nat)
    ensures XorLow(x, x, k) == 0
    decreases k
  {
    if k > 0 {
      XorLowSelf(x / 2, k - 1);
      ParityOfSum(x, x);
    }
  }

  /** XORing the same value in twice gives back the start. */
  lemma {:induction false} XorLowTwice(x: nat, y: nat, k: nat)
    requires x < Pow2(k)
    ensures XorLow(XorLow(x, y, k), y, k) == x
    decreases k
  {
    if k > 0 {
      var r := XorLow(x, y, k);
      Halves(r);
      assert r / 2 == XorLow(x / 2, y / 2, k - 1) && r % 2 == (x + y) % 2;
      XorLowTwice(x / 2, y / 2, k - 1);
      ParityOfSum(x, y);
      ParityOfSum(r, y);
      Halves(x);
    }
  }

  /** When only `y` has the top digit of `k`, so does the exclusive or. */
  lemma {:induction false} XorLowTop(x: nat, y: nat, k: nat)
    requires k >= 1 && x < Pow2(k - 1) <= y < Pow2(k)
    ensures XorLow(x, y, k) >= Pow2(k - 1)
    decreases k
  {
    if k > 1 {
      XorLowTop(x / 2, y / 2, k - 1);
    }
  }

  lemma XorZero(a: U16)
    ensures Xor(a, 0) == a
  {
    assert Pow2(8) == 0x100;
    XorLowZero(Hi(a), 8);
    XorLowZero(Lo(a), 8);
    WordOfBytes(a);
  }

  lemma XorSelf(a: U16)
    ensures Xor(a, a) == 0
  {
    XorLowSelf(Hi(a), 8);
    XorLowSelf(Lo(a), 8);
  }

  lemma XorTwice(a: U16, b: U16)
    ensures Xor(Xor(a, b), b) == a
  {
    assert Pow2(8) == 0x100;
    XorLowTwice(Hi(a), Hi(b), 8);
    XorLowTwice(Lo(a), Lo(b), 8);
    WordOfBytes(a);
  }

  /** For a fixed `b`, XOR with `b` maps distinct values to distinct values. */
  lemma XorInjective(a: U16, c: U16, b: U16)
    ensures Xor(a, b) == Xor(c, b) ==> a == c
  {
    XorTwice(a, b);
    XorTwice(c, b);
  }

  /** XORing the polynomial into a value below 0x8000 sets the top bit. */
  lemma XorPolyHigh(a: U16)
    requires a < 0x8000
    ensures Xor(a, CrcPoly) >= 0x8000
  {
    assert Pow2(7) == 0x80 && Pow2(8) == 0x100;
    XorLowTop(Hi(a), Hi(CrcPoly), 8);
  }

  // ---- the checksum ----

  /** One of the eight shift rounds per byte: shift right, and XOR in the polynomial when a one drops out. */
  function Round(crc: U16): U16 {
    if crc % 2 == 1 then Xor(crc / 2, CrcPoly) else crc / 2
  }

  /** `n` shift rounds in a row. */
  function Rounds(crc: U16, n: nat): U16
    decreases n
  {
    if n == 0 then crc else Rounds(Round(crc), n - 1)
  }

  /** Folding one byte into the running checksum: XOR it into the low byte, then eight rounds. */
  function UpdateByte(crc: U16, b: byte): U16 {
    Rounds(Xor(crc, b), 8)
  }

  /** The running checksum after folding in every byte of `data`, in order. */
  function CrcFrom(crc: U16, data: seq<byte>): U16
    decreases |data|
  {
    if |data| == 0 then crc else CrcFrom(UpdateByte(crc, data[0]), data[1..])
  }

  /** The CRC-16/MODBUS checksum of `data`. */
  function Crc16(data: seq<byte>): U16 {
    CrcFrom(CrcInit, data)
  }

  // ---- the residue of a frame carrying its own checksum ----

  /** Each round is invertible, so distinct register values stay distinct. */
  lemma RoundInjective(a: U16, c: U16)
    ensures Round(a) == Round(c) ==> a == c
  {
    if a % 2 == 1 && c % 2 == 1 {
      XorInjective(a / 2, c / 2, CrcPoly);
    } else if a % 2 == 1 {
      XorPolyHigh(a / 2);
    } else if c % 2 == 1 {
      XorPolyHigh(c / 2);
    }
  }

  lemma {:induction false} RoundsInjective(a: U16, c: U16, n: nat)
    ensures Rounds(a, n) == Rounds(c, n) ==> a == c
    decreases n
  {
    if n > 0 {
      RoundsInjective(Round(a), Round(c), n - 1);
      RoundInjective(a, c);
    }
  }

  /** For a fixed byte, folding it in maps distinct checksums to distinct ones. */
  lemma UpdateInjective(a: U16, c: U16, b: byte)
    ensures UpdateByte(a, b) == UpdateByte(c, b) ==> a == c
  {
    RoundsInjective(Xor(a, b), Xor(c, b), 8);
    XorInjective(a, c, b);
  }

  /** With a zero low byte no round shifts out a one, so eight rounds leave the high byte. */
  lemma RoundsOfHighByte(h: byte)
    ensures Rounds(Word(h, 0), 8) == h
  {
    var w := Word(h, 0);
    assert Round(w) == 0x80 * h;
    assert Round(0x80 * h) == 0x40 * h;
    assert Round(0x40 * h) == 0x20 * h;
    assert Round(0x20 * h) == 0x10 * h;
    assert Round(0x10 * h) == 0x08 * h;
    assert Round(0x08 * h) == 0x04 * h;
    assert Round(0x04 * h) == 0x02 * h;
    assert Round(0x02 * h) == h;
    assert Rounds(h, 0) == h;
    assert Rounds(0x02 * h, 1) == h;
    assert Rounds(0x04 * h, 2) == h;
    assert Rounds(0x08 * h, 3) == h;
    assert Rounds(0x10 * h, 4) == h;
    assert Rounds(0x20 * h, 5) == h;
    assert Rounds(0x40 * h, 6) == h;
    assert Rounds(0x80 * h, 7) == h;
  }

  lemma XorOwnLowByte(c: U16)
    ensures Xor(c, Lo(c)) == Word(Hi(c), 0)
  {
    var l: U16 := Lo(c);
    assert Hi(l) == 0 && Lo(l) == l;
    assert Pow2(8) == 0x100;
    XorLowZero(Hi(c), 8);
    XorLowSelf(l, 8);
    assert XorByte(Hi(c), Hi(l)) == Hi(c);
    assert XorByte(Lo(c), Lo(l)) == 0;
  }

  /** Folding a checksum's own low byte into it leaves its high byte. */
  lemma OwnLowByteLeavesHigh(c: U16)
    ensures UpdateByte(c, Lo(c)) == Hi(c)
  {
    XorOwnLowByte(c);
    RoundsOfHighByte(Hi(c));
  }

  /** Folding a byte into a checksum equal to that byte gives zero. */
  lemma OwnByteGivesZero(h: byte)
    ensures UpdateByte(h, h) == 0
  {
    XorSelf(h);
    RoundsOfZero();
  }

  lemma RoundsOfZero()
    ensures Rounds(0, 8) == 0
  {
    RoundsOfHighByte(0);
    assert Word(0, 0) == 0;
  }

  /** Folding a checksum's own low byte and then its high byte gives zero. */
  lemma OwnTrailerGivesZero(c: U16)
    ensures UpdateByte(UpdateByte(c, Lo(c)), Hi(c)) == 0
  {
    OwnLowByteLeavesHigh(c);
    OwnByteGivesZero(Hi(c));
  }

  /**
   * Folding two bytes, low byte first, into a running checksum gives zero
   * exactly when the two bytes are that checksum.
   */
  lemma TrailerResidue(crc: U16, lo: byte, hi: byte)
    ensures UpdateByte(UpdateByte(crc, lo), hi) == 0 <==> Word(hi, lo) == crc
  {
    var w := Word(hi, lo);
    OwnTrailerGivesZero(w);
    UpdateInjective(UpdateByte(crc, lo), UpdateByte(w, lo), hi);
    UpdateInjective(crc, w, lo);
  }

  // ---- the checksum of a byte sequence ----

  /** The checksum of an empty buffer is the initial value. */
  lemma CrcEmpty()
    ensures Crc16([]) == 0xFFFF
  {
  }

  lemma {:induction false} CrcAppendByte(crc: U16, data: seq<byte>, b: byte)
    ensures CrcFrom(crc, data + [b]) == UpdateByte(CrcFrom(crc, data), b)
    decreases |data|
  {
    if |data| == 0 {
      assert data + [b] == [b];
      assert [b][1..] == [];
    } else {
      assert (data + [b])[1..] == data[1..] + [b];
      CrcAppendByte(UpdateByte(crc, data[0]), data[1..], b);
    }
  }

  /** Checksumming two buffers one after the other is checksumming their concatenation. */
  lemma {:induction false} CrcConcat(crc: U16, s: seq<byte>, t: seq<byte>)
    ensures CrcFrom(crc, s + t) == CrcFrom(CrcFrom(crc, s), t)
    decreases |s|
  {
    if |s| == 0 {
      assert s + t == t;
    } else {
      assert (s + t)[1..] == s[1..] + t;
      CrcConcat(UpdateByte(crc, s[0]), s[1..], t);
    }
  }

  /**
   * A frame ending in a checksum over its preceding bytes, low byte first,
   * is exactly a frame whose checksum over all its bytes is zero.
   */
  lemma CrcCheckIsResidue(frame: seq<byte>)
    requires |frame| >= 2
    ensures var n := |frame|;
            Word(frame[n - 1], frame[n - 2]) == Crc16(frame[..n - 2]) <==> Crc16(frame) == 0
  {
    var n := |frame|;
    var body := frame[..n - 2];
    assert frame == body + [frame[n - 2]] + [frame[n - 1]];
    CrcAppendByte(CrcInit, body + [frame[n - 2]], frame[n - 1]);
    CrcAppendByte(CrcInit, body, frame[n - 2]);
    TrailerResidue(CrcFrom(CrcInit, body), frame[n - 2], frame[n - 1]);
  }

  /** Appending the checksum of a buffer, low byte first, leaves a zero checksum. */
  lemma AppendedCrcLeavesZero(data: seq<byte>)
    ensures Crc16(data + [Lo(Crc16(data)), Hi(Crc16(data))]) == 0
  {
    var frame := data + [Lo(Crc16(data)), Hi(Crc16(data))];
    assert frame[..|frame| - 2] == data;
    WordOfBytes(Crc16(data));
    CrcCheckIsResidue(frame);
  }

  /**
   * The checksum computation of the transport, a nested loop over a mutable
   * 16-bit register, computes Crc16 of the first `length` bytes.
   */
  method CalculateCrc(buffer: array<byte>, length: int) returns (crc: U16)
    requires 0 <= length <= buffer.Length
    ensures crc == Crc16(buffer[..length])
  {
    crc := CrcInit;
    var pos := 0;
    while pos < length
      invariant 0 <= pos <= length
      invariant crc == CrcFrom(CrcInit, buffer[..pos])
    {
      crc := Xor(crc, buffer[pos]);
      ghost var mixed := crc;
      var i := 0;
      while i < 8
        invariant 0 <= i <= 8
        invariant crc == Rounds(mixed, i)
      {
        RoundsThenRound(mixed, i);
        if crc % 2 == 1 {
          crc := crc / 2;
          crc := Xor(crc, CrcPoly);
        } else {
          crc := crc / 2;
        }
        i := i + 1;
      }
      assert buffer[..pos + 1] == buffer[..pos] + [buffer[pos]];
      CrcAppendByte(CrcInit, buffer[..pos], buffer[pos]);
      pos := pos + 1;
    }
  }

  /** One more round after `n` rounds is `n + 1` rounds. */
  lemma {:induction false} RoundsThenRound(c: U16, n: nat)
    ensures Rounds(c, n + 1) == Round(Rounds(c, n))
    decreases n
  {
    if n > 0 {
      RoundsThenRound(Round(c), n - 1);
    }
  }
}
