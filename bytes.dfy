/**
 * Byte-level vocabulary shared by both sensor drivers: the Arduino `byte` /
 * `uint8_t` type, the C++ conversion of an `int` into an `int8_t`, and the
 * most-significant-bit-first order in which both chips shift a byte over
 * their single data line.
 */
module Bytes {

  /** `byte` / `uint8_t`: eight bits, so `&`, `|`, `^`, `<<` and `>>` behave as in C. */
  type Byte = bv8

  /** `int8_t`. */
  type Int8 = x: int | -128 <= x < 128

  /**
   * Storing an `int` into an `int8_t` keeps its low eight bits and reads
   * them as two's complement (the conversion the compiler performs).
   */
  function ToInt8(v: int): (r: Int8)
    ensures (r - v) % 256 == 0
    ensures -128 <= v < 128 ==> r == v
  {
    (v + 128) % 256 - 128
  }

  /** The value `digitalRead` returns for a sampled level, HIGH = 1 and LOW = 0. */
  function BitValue(high: bool): Byte
  {
    if high then 1 else 0
  }

  /** `d >> n`, one place at a time, as the drivers' loops shift their masks. */
  function Shr(d: Byte, n: nat): Byte
  {
    if n == 0 then d else Shr(d, n - 1) >> 1
  }

  /** `d << n`, one place at a time. */
  function Shl(d: Byte, n: nat): Byte
  {
    if n == 0 then d else Shl(d, n - 1) << 1
  }

  /** Whether bit `7 - k` of `d` is set, tested with the mask `0x80 >> k`. */
  function MaskBit(d: Byte, k: nat): bool
  {
    d & Shr(0x80, k) != 0
  }

  /** The eight bits of `d`, most significant first. */
  function MsbBits(d: Byte): (bits: seq<bool>)
    ensures |bits| == 8
  {
    seq(8, k requires 0 <= k < 8 => MaskBit(d, k))
  }

  /**
   * The byte whose bits, most significant first, are `bits`: every new bit
   * enters at the bottom and the earlier ones move up one place.
   */
  function MsbByte(bits: seq<bool>): Byte
  {
    if bits == [] then 0
    else (MsbByte(bits[..|bits| - 1]) << 1) | BitValue(bits[|bits| - 1])
  }

  /**
   * The byte built the other way round: the k-th bit, when set, is or-ed in
   * with the mask `0x80 >> k`, so the bits read so far stay at the top.
   */
  function TopByte(bits: seq<bool>): Byte
  {
    if bits == [] then 0
    else if bits[|bits| - 1] then TopByte(bits[..|bits| - 1]) | Shr(0x80, |bits| - 1)
    else TopByte(bits[..|bits| - 1])
  }

  // ---------------------------------------------------------------------
  // The single-bit masks 0x80 >> k

  /** The mask `0x80 >> k` runs out exactly after eight shifts. */
  lemma ShrTopZero(k: nat)
    requires k <= 8
    ensures (Shr(0x80, k) == 0) == (k == 8)
  {
    if k == 0 {} else if k == 1 {} else if k == 2 {} else if k == 3 {}
    else if k == 4 {} else if k == 5 {} else if k == 6 {} else if k == 7 {} else {}
  }

  /** Above the last mask, bit 0 is clear. */
  lemma ShrLowClear(k: nat)
    requires k < 7
    ensures Shr(0x80, k) & 1 == 0
  {
    if k == 0 {} else if k == 1 {} else if k == 2 {} else if k == 3 {}
    else if k == 4 {} else if k == 5 {} else {}
  }

  /** Below the first mask, bit 7 is clear, and shifting back up gives the previous mask. */
  lemma ShrMaskUp(k: nat)
    requires 1 <= k < 8
    ensures Shr(0x80, k) & 0x80 == 0
    ensures Shr(0x80, k) << 1 == Shr(0x80, k - 1)
  {
    if k == 1 {} else if k == 2 {} else if k == 3 {} else if k == 4 {}
    else if k == 5 {} else if k == 6 {} else {}
  }

  /** The bottom bit moved up m places is the mask `0x80 >> (7 - m)`. */
  lemma ShlLowBit(m: nat)
    requires m <= 7
    ensures Shl(1, m) == Shr(0x80, 7 - m)
  {
    if m == 0 {} else if m == 1 {} else if m == 2 {} else if m == 3 {}
    else if m == 4 {} else if m == 5 {} else if m == 6 {} else {}
  }

  /** `0xFF >> n` keeps bit 0 for fewer than eight shifts. */
  lemma ShrOnesLow(n: nat)
    requires n < 8
    ensures Shr(0xFF, n) & 1 == 1
  {
    if n == 0 {} else if n == 1 {} else if n == 2 {} else if n == 3 {}
    else if n == 4 {} else if n == 5 {} else if n == 6 {} else {}
  }

  // ---------------------------------------------------------------------
  // Testing a bit after shifting

  /** Testing `y << 1` against a mask is testing `y` against the next lower mask. */
  lemma ShiftedLeftTest(y: Byte, m: Byte)
    requires m & 1 == 0
    ensures ((y << 1) & m != 0) == (y & (m >> 1) != 0)
  {
  }

  /** Testing `y >> 1` against a mask is testing `y` against the next higher mask. */
  lemma ShiftedRightTest(y: Byte, m: Byte)
    requires m & 0x80 == 0
    ensures ((y >> 1) & m != 0) == (y & (m << 1) != 0)
  {
  }

  /** After j shifts left, the mask `0x80 >> i` sees bit `7 - (i + j)` of the original. */
  lemma {:induction false} ShlTest(w: Byte, j: nat, i: nat)
    requires i + j <= 7
    ensures (Shl(w, j) & Shr(0x80, i) != 0) == MaskBit(w, i + j)
  {
    if j > 0 {
      ShrLowClear(i);
      ShiftedLeftTest(Shl(w, j - 1), Shr(0x80, i));
      ShlTest(w, j - 1, i + 1);
    }
  }

  /** After j shifts right, the mask `0x80 >> i` sees bit `7 - (i - j)` of the original. */
  lemma {:induction false} ShrTest(d: Byte, j: nat, i: nat)
    requires j <= i <= 7
    ensures (Shr(d, j) & Shr(0x80, i) != 0) == MaskBit(d, i - j)
  {
    if j > 0 {
      ShrMaskUp(i);
      ShiftedRightTest(Shr(d, j - 1), Shr(0x80, i));
      ShrTest(d, j - 1, i - 1);
    }
  }

  /** After j shifts left, the top bit of `w` is bit `7 - j` of the original. */
  lemma ShlTopBit(w: Byte, j: nat)
    requires j < 8
    ensures (Shl(w, j) & 0x80 != 0) == MsbBits(w)[j]
  {
    ShlTest(w, j, 0);
  }

  /** The k-th bit of `MsbBits(d)` is bit `7 - k` of `d`: `(d >> (7 - k)) & 1`. */
  lemma MsbBitsAt(d: Byte, k: nat)
    requires k < 8
    ensures MsbBits(d)[k] == (Shr(d, 7 - k) & 1 == 1)
  {
    ShrTest(d, 7 - k, 7);
  }

  // ---------------------------------------------------------------------
  // Shifting partial bytes

  /** Shifting distributes over `|`. */
  lemma {:induction false} ShlOr(a: Byte, c: Byte, m: nat)
    ensures Shl(a | c, m) == Shl(a, m) | Shl(c, m)
  {
    if m > 0 {
      ShlOr(a, c, m - 1);
    }
  }

  /** A byte shifted once, then m more times, is shifted m + 1 times. */
  lemma {:induction false} ShlOnce(x: Byte, m: nat)
    ensures Shl(x << 1, m) == Shl(x, m + 1)
  {
    if m > 0 {
      ShlOnce(x, m - 1);
    }
  }

  /** Zero stays zero. */
  lemma {:induction false} ShlZero(m: nat)
    ensures Shl(0, m) == 0
  {
    if m > 0 {
      ShlZero(m - 1);
    }
  }

  /** A partial byte with one more bit shifted in, kept in place, gains that bit's mask. */
  lemma ShlSnoc(x: Byte, high: bool, m: nat)
    requires m <= 7
    ensures Shl((x << 1) | BitValue(high), m)
         == if high then Shl(x, m + 1) | Shr(0x80, 7 - m) else Shl(x, m + 1)
  {
    ShlOr(x << 1, BitValue(high), m);
    ShlOnce(x, m);
    if high {
      ShlLowBit(m);
    } else {
      ShlZero(m);
    }
  }

  /** One more bit read, at position |read|, is or-ed in with its mask when set. */
  lemma TopByteSnoc(read: seq<bool>, high: bool)
    ensures TopByte(read + [high]) == if high then TopByte(read) | Shr(0x80, |read|) else TopByte(read)
  {
    assert (read + [high])[..|read|] == read;
  }

  /** Up to eight bits, the top-aligned byte is the bottom-aligned one moved to the top. */
  lemma {:induction false} TopByteShifted(bits: seq<bool>)
    requires |bits| <= 8
    ensures TopByte(bits) == Shl(MsbByte(bits), 8 - |bits|)
  {
    if bits != [] {
      var p, high := bits[..|bits| - 1], bits[|bits| - 1];
      TopByteShifted(p);
      ShlSnoc(MsbByte(p), high, 8 - |bits|);
      assert MsbByte(bits) == (MsbByte(p) << 1) | BitValue(high);
    } else {
      ShlZero(8);
    }
  }

  /** For a whole byte the two ways of collecting bits agree. */
  lemma TopByteIsMsbByte(bits: seq<bool>)
    requires |bits| == 8
    ensures TopByte(bits) == MsbByte(bits)
  {
    TopByteShifted(bits);
  }

  // ---------------------------------------------------------------------
  // Round trips between a byte and its bits

  /** A prefix one bit longer shifts in that bit. */
  lemma MsbBytePrefix(bits: seq<bool>, i: nat)
    requires i < |bits|
    ensures MsbByte(bits[..i + 1]) == (MsbByte(bits[..i]) << 1) | BitValue(bits[i])
  {
    assert bits[..i + 1][..i] == bits[..i];
  }

  /** The first j bits of `d`, collected, are `d` shifted right by the other 8 - j. */
  lemma {:induction false} MsbBytePrefixOfBits(d: Byte, j: nat)
    requires j <= 8
    ensures MsbByte(MsbBits(d)[..j]) == Shr(d, 8 - j)
  {
    if j == 0 {
      assert MsbBits(d)[..0] == [];
      ShrOfZeroMask(d);
    } else {
      MsbBytePrefixOfBits(d, j - 1);
      MsbBytePrefix(MsbBits(d), j - 1);
      MsbBitsAt(d, j - 1);
      ShiftBack(Shr(d, 8 - j));
    }
  }

  /** Shifting right distributes over `&`. */
  lemma {:induction false} ShrAnd(d: Byte, m: Byte, n: nat)
    ensures Shr(d & m, n) == Shr(d, n) & Shr(m, n)
  {
    if n > 0 {
      ShrAnd(d, m, n - 1);
    }
  }

  /** Eight shifts right leave nothing. */
  lemma ShrOfZeroMask(d: Byte)
    ensures Shr(d, 8) == 0
  {
    ShrAnd(d, 0xFF, 8);
    assert Shr(0xFF, 8) == 0;
  }

  /** Shifting right then left and putting bit 0 back gives the byte. */
  lemma ShiftBack(y: Byte)
    ensures ((y >> 1) << 1) | BitValue(y & 1 == 1) == y
  {
  }

  /** Collecting the eight bits of a byte, most significant first, gives the byte back. */
  lemma MsbRoundTrip(d: Byte)
    ensures MsbByte(MsbBits(d)) == d
  {
    MsbBytePrefixOfBits(d, 8);
    assert MsbBits(d)[..8] == MsbBits(d);
  }

  /** Shifting back down a partial byte with one more bit loses just that bit. */
  lemma DropLowBit(x: Byte, high: bool, m: Byte)
    ensures (((x << 1) | BitValue(high)) & m) >> 1 == x & (m >> 1)
  {
  }

  /** Shifting the collected byte right by n drops the last n bits, under the mask `0xFF >> n`. */
  lemma {:induction false} ShrMsbByte(s: seq<bool>, n: nat)
    requires n <= |s|
    ensures Shr(MsbByte(s), n) == MsbByte(s[..|s| - n]) & Shr(0xFF, n)
  {
    if n == 0 {
      assert s[..|s|] == s;
    } else {
      ShrMsbByte(s, n - 1);
      var q := s[..|s| - n + 1];
      assert q[..|q| - 1] == s[..|s| - n];
      DropLowBit(MsbByte(q[..|q| - 1]), q[|q| - 1], Shr(0xFF, n - 1));
    }
  }

  /** Bit 0 of a collected byte is its last bit. */
  lemma MsbByteLowBit(s: seq<bool>)
    requires s != []
    ensures (MsbByte(s) & 1 == 1) == s[|s| - 1]
  {
  }

  /** The k-th sample of an eight-bit read ends up as bit `7 - k` of the byte. */
  lemma MsbByteAt(bits: seq<bool>, k: nat)
    requires |bits| == 8 && k < 8
    ensures MsbBits(MsbByte(bits))[k] == bits[k]
  {
    MsbBitsAt(MsbByte(bits), k);
    ShrMsbByte(bits, 7 - k);
    ShrOnesLow(7 - k);
    var p := bits[..k + 1];
    MsbByteLowBit(p);
  }

  /** Splitting the byte read from eight bits again gives those bits back. */
  lemma MsbBitsOfByte(bits: seq<bool>)
    requires |bits| == 8
    ensures MsbBits(MsbByte(bits)) == bits
  {
    forall k | 0 <= k < 8
      ensures MsbBits(MsbByte(bits))[k] == bits[k]
    {
      MsbByteAt(bits, k);
    }
  }

  /** A first bit in front of t ends up |t| places up. */
  lemma {:induction false} MsbByteCons(x: bool, t: seq<bool>)
    ensures MsbByte([x] + t) == Shl(BitValue(x), |t|) | MsbByte(t)
  {
    if t != [] {
      var p := t[..|t| - 1];
      assert ([x] + t)[..|t|] == [x] + p;
      MsbByteCons(x, p);
    }
  }

  /** Of eight bits, the first is the one a further shift left pushes out. */
  lemma MsbByteShiftDropsFirst(bits: seq<bool>)
    requires |bits| == 8
    ensures MsbByte(bits) << 1 == MsbByte(bits[1..]) << 1
  {
    MsbByteCons(bits[0], bits[1..]);
    assert [bits[0]] + bits[1..] == bits;
    var top := Shl(BitValue(bits[0]), 7);
    if bits[0] {
      assert top == Shl(1, 7) == 0x80;
    } else {
      ShlZero(8);
    }
    assert (top | MsbByte(bits[1..])) << 1 == (top << 1) | (MsbByte(bits[1..]) << 1);
  }
}
