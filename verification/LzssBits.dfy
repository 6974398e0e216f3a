/** The bit operations of the compressor and the decompressor on numbers that are not
    negative, and the arithmetic that they amount to. */
module LzssBits {

  function Power2(n: nat): (p: nat)
    ensures p > 0
  {
    if n == 0 then 1 else 2 * Power2(n - 1)
  }

  function Bit(b: bool): nat {
    if b then 1 else 0
  }

  function And(a: nat, b: nat): nat {
    if a == 0 || b == 0 then 0 else Bit(a % 2 == 1 && b % 2 == 1) + 2 * And(a / 2, b / 2)
  }

  function Or(a: nat, b: nat): nat {
    if a == 0 then b else if b == 0 then a else Bit(a % 2 == 1 || b % 2 == 1) + 2 * Or(a / 2, b / 2)
  }

  function ShiftLeft(a: nat, n: nat): nat {
    if n == 0 then a else 2 * ShiftLeft(a, n - 1)
  }

  function ShiftRight(a: nat, n: nat): nat {
    if n == 0 then a else ShiftRight(a / 2, n - 1)
  }

  lemma SmallPowers()
    ensures Power2(0) == 1 && Power2(1) == 2 && Power2(2) == 4 && Power2(3) == 8 && Power2(4) == 16
    ensures Power2(5) == 32 && Power2(6) == 64 && Power2(7) == 128 && Power2(8) == 256
  {
    assert Power2(4) == 16;
  }

  lemma {:induction false} PowerGrows(m: nat, n: nat)
    requires m <= n
    ensures Power2(m) <= Power2(n)
  {
    if m < n {
      PowerGrows(m, n - 1);
    }
  }

  // ---------------------------------------------------------------------- general laws

  function Ones(n: nat): nat {
    if n == 0 then 0 else 1 + 2 * Ones(n - 1)
  }

  function LowBits(a: nat, n: nat): nat {
    if n == 0 then 0 else a % 2 + 2 * LowBits(a / 2, n - 1)
  }

  lemma {:induction false} NoLowBits(n: nat)
    ensures LowBits(0, n) == 0
  {
    if n > 0 {
      NoLowBits(n - 1);
    }
  }

  lemma {:induction false} AndOnes(a: nat, n: nat)
    ensures And(a, Ones(n)) == LowBits(a, n)
  {
    if a == 0 {
      NoLowBits(n);
    } else if n > 0 {
      AndOnes(a / 2, n - 1);
    }
  }

  /** A mask further up masks what is further up. */
  lemma {:induction false} AndHigher(a: nat, m: nat, n: nat)
    ensures And(a, ShiftLeft(m, n)) == ShiftLeft(And(ShiftRight(a, n), m), n)
  {
    if n > 0 {
      AndHigher(a / 2, m, n - 1);
    }
  }

  /** Numbers with no place in common are added. */
  lemma {:induction false} OrApart(low: nat, high: nat, n: nat)
    requires low < ShiftLeft(1, n)
    ensures Or(low, ShiftLeft(high, n)) == low + ShiftLeft(high, n)
  {
    if n > 0 {
      OrApart(low / 2, high, n - 1);
    }
  }

  lemma {:induction false} OrCommutes(a: nat, b: nat)
    ensures Or(a, b) == Or(b, a)
  {
    if a > 0 && b > 0 {
      OrCommutes(a / 2, b / 2);
    }
  }

  /** A bit goes in where there is none. */
  lemma {:induction false} OrBit(bit: nat, a: nat, n: nat)
    requires bit < 2 && ShiftRight(a, n) % 2 == 0
    ensures Or(ShiftLeft(bit, n), a) == ShiftLeft(bit, n) + a
  {
    if n > 0 {
      OrBit(bit, a / 2, n - 1);
    }
  }

  // ----------------------------------------------------------- the shifts that are used

  lemma {:induction false} RightAgain(a: nat, n: nat)
    ensures ShiftRight(a, n + 1) == ShiftRight(a, n) / 2
  {
    if n > 0 {
      RightAgain(a / 2, n - 1);
    }
  }

  lemma RightBy(a: nat)
    ensures ShiftRight(a, 1) == a / 2 && ShiftRight(a, 2) == a / 4 && ShiftRight(a, 5) == a / 32
    ensures ShiftRight(a, 7) == a / 128 && ShiftRight(a, 8) == a / 256
  {
    RightAgain(a, 0);
    RightAgain(a, 1);
    RightAgain(a, 2);
    RightAgain(a, 3);
    RightAgain(a, 4);
    RightAgain(a, 5);
    RightAgain(a, 6);
    RightAgain(a, 7);
  }

  lemma LeftBy(a: nat)
    ensures ShiftLeft(a, 0) == a && ShiftLeft(a, 1) == 2 * a && ShiftLeft(a, 2) == 4 * a && ShiftLeft(a, 5) == 32 * a
    ensures ShiftLeft(a, 7) == 128 * a && ShiftLeft(a, 8) == 256 * a
  {
    var two := ShiftLeft(a, 2);
    assert two == 2 * ShiftLeft(a, 1);
    assert ShiftLeft(a, 4) == 2 * ShiftLeft(a, 3) == 4 * two;
    assert ShiftLeft(a, 6) == 2 * ShiftLeft(a, 5) == 4 * ShiftLeft(a, 4);
    assert ShiftLeft(a, 8) == 2 * ShiftLeft(a, 7) == 4 * ShiftLeft(a, 6);
  }

  lemma {:induction false} LowAndHigh(a: nat, n: nat)
    ensures a == LowBits(a, n) + ShiftLeft(ShiftRight(a, n), n) && LowBits(a, n) < ShiftLeft(1, n)
  {
    if n > 0 {
      LowAndHigh(a / 2, n - 1);
    }
  }

  lemma LowBitsAre(a: nat, n: nat)
    requires n in {1, 2, 5, 7, 8}
    ensures LowBits(a, n) == a - ShiftLeft(ShiftRight(a, n), n)
    ensures n == 1 ==> LowBits(a, n) == a % 2
    ensures n == 2 ==> LowBits(a, n) == a % 4
    ensures n == 5 ==> LowBits(a, n) == a % 32
    ensures n == 7 ==> LowBits(a, n) == a % 128
    ensures n == 8 ==> LowBits(a, n) == a % 256
  {
    LowAndHigh(a, n);
    RightBy(a);
    LeftBy(ShiftRight(a, n));
    LeftBy(1);
  }

  lemma OnesAre()
    ensures Ones(1) == 1 && Ones(2) == 3 && Ones(5) == 0x1F && Ones(7) == 0x7F && Ones(8) == 0xFF
  {
    assert Ones(4) == 15 && Ones(6) == 63;
  }

  lemma Masked1(a: nat)
    ensures And(a, 1) == a % 2
  {
    OnesAre();
    AndOnes(a, 1);
    LowBitsAre(a, 1);
  }

  lemma Masked2(a: nat)
    ensures And(a, 3) == a % 4
  {
    OnesAre();
    AndOnes(a, 2);
    LowBitsAre(a, 2);
  }

  lemma Masked5(a: nat)
    ensures And(a, 0x1F) == a % 32
  {
    OnesAre();
    AndOnes(a, 5);
    LowBitsAre(a, 5);
  }

  lemma Masked7(a: nat)
    ensures And(a, 0x7F) == a % 128
  {
    OnesAre();
    AndOnes(a, 7);
    LowBitsAre(a, 7);
  }

  lemma Masked8(a: nat)
    ensures And(a, 0xFF) == a % 256
  {
    OnesAre();
    AndOnes(a, 8);
    LowBitsAre(a, 8);
  }

  lemma Right1(a: nat)
    ensures ShiftRight(a, 1) == a / 2
  {
    RightBy(a);
  }

  lemma Right2(a: nat)
    ensures ShiftRight(a, 2) == a / 4
  {
    RightBy(a);
  }

  lemma Right7(a: nat)
    ensures ShiftRight(a, 7) == a / 128
  {
    RightBy(a);
  }

  lemma Right8(a: nat)
    ensures ShiftRight(a, 8) == a / 256
  {
    RightBy(a);
  }

  lemma Left2(a: nat)
    ensures ShiftLeft(a, 2) == 4 * a
  {
    LeftBy(a);
  }

  lemma Left5(a: nat)
    ensures ShiftLeft(a, 5) == 32 * a
  {
    LeftBy(a);
  }

  lemma Left7(a: nat)
    ensures ShiftLeft(a, 7) == 128 * a
  {
    LeftBy(a);
  }

  lemma Left8(a: nat)
    ensures ShiftLeft(a, 8) == 256 * a
  {
    LeftBy(a);
  }

  lemma MaskMedium(a: nat)
    ensures And(a, 0x180) == a / 128 % 4 * 128
  {
    Left7(3);
    AndHigher(a, 3, 7);
    Right7(a);
    Masked2(a / 128);
    Left7(a / 128 % 4);
  }

  lemma OrFive(low: nat, high: nat)
    requires low < 32
    ensures Or(high * 32, low) == high * 32 + low
  {
    Left5(1);
    Left5(high);
    OrApart(low, high, 5);
    OrCommutes(low, high * 32);
  }

  lemma OrSeven(low: nat, high: nat)
    requires low < 128
    ensures Or(high * 128, low) == high * 128 + low && Or(low, high * 128) == high * 128 + low
  {
    Left7(1);
    Left7(high);
    OrApart(low, high, 7);
    OrCommutes(low, high * 128);
  }

  // ------------------------------------------------------------------- the compressor

  lemma OffsetLow(offset: nat)
    ensures Or(And(offset, 0x7F), 0x80) == offset % 128 + 128
  {
    Masked7(offset);
    OrSeven(offset % 128, 1);
  }

  lemma OffsetMedium(offset: nat, lengthBits: nat)
    requires offset < 512 && lengthBits < 32
    ensures Or(ShiftRight(And(offset, 0x180), 2), lengthBits) == offset / 128 * 32 + lengthBits
  {
    var high := QuarterOf(offset);
    MediumFrom(high, lengthBits);
  }

  lemma QuarterOf(offset: nat) returns (high: nat)
    requires offset < 512
    ensures high == offset / 128 < 4 && And(offset, 0x180) == high * 128
  {
    high := offset / 128;
    MaskMedium(offset);
    SmallRemainder(high, 4);
  }

  lemma MediumFrom(high: nat, lengthBits: nat)
    requires high < 4 && lengthBits < 32
    ensures Or(ShiftRight(high * 128, 2), lengthBits) == high * 32 + lengthBits
  {
    Right2(high * 128);
    OrFive(lengthBits, high);
  }

  lemma OffsetHigh(offset: nat)
    requires offset < 0x4000
    ensures Or(And(ShiftRight(offset, 7), 0x7F), 0x80) == offset / 128 + 128
  {
    Right7(offset);
    HighFrom(offset / 128);
  }

  lemma HighFrom(high: nat)
    requires high < 128
    ensures Or(And(high, 0x7F), 0x80) == high + 128
  {
    SmallRemainder(high, 128);
    Masked7(high);
    OrSeven(high, 1);
  }

  lemma SmallRemainder(a: nat, n: nat)
    requires a < n
    ensures a % n == a
  {
  }

  /** A flag moves in from above, where there is no bit. */
  lemma FlagMovesIn(flag: nat, flags: nat)
    requires flag < 2 && flags / 2 % 256 < 128
    ensures Or(ShiftLeft(flag, 7), ShiftRight(flags, 1)) == flag * 128 + flags / 2
  {
    Right1(flags);
    BitSeven(flags / 2);
    OrBit(flag, flags / 2, 7);
    Left7(flag);
  }

  lemma BitSeven(a: nat)
    requires a % 256 < 128
    ensures ShiftRight(a, 7) % 2 == 0
  {
    Right7(a);
  }

  // ----------------------------------------------------------------- the decompressor

  /** The row of ones goes above the flags. */
  lemma FlagsStart(src: nat)
    requires src < 256
    ensures Or(src, 0xFF00) == 0xFF00 + src
  {
    Left8(1);
    Left8(0xFF);
    OrApart(src, 0xFF, 8);
  }

  lemma FlagsRead(flags: nat)
    ensures And(flags, 0x100) != 0 <==> flags / 0x100 % 2 == 1
  {
    Left8(1);
    AndHigher(flags, 1, 8);
    Right8(flags);
    Masked1(flags / 0x100);
    Left8(flags / 0x100 % 2);
  }

  lemma HighBit(byte: nat)
    requires byte < 256
    ensures And(byte, 0x80) == 0 <==> byte < 128
  {
    Left7(1);
    AndHigher(byte, 1, 7);
    Right7(byte);
    Masked1(byte / 128);
    Left7(byte / 128);
  }

  lemma ReadMedium(lo: nat, hi: nat)
    requires hi < 256
    ensures Or(And(ShiftLeft(hi, 2), 0x180), And(lo, 0x7F)) == hi / 32 % 4 * 128 + lo % 128
  {
    Left2(hi);
    MaskMedium(4 * hi);
    assert 4 * hi / 128 == hi / 32;
    Masked7(lo);
    OrSeven(lo % 128, hi / 32 % 4);
  }

  lemma ReadLong(lo: nat, hi: nat)
    ensures Or(ShiftLeft(And(hi, 0x7F), 7), And(lo, 0x7F)) == hi % 128 * 128 + lo % 128
  {
    Masked7(hi);
    Masked7(lo);
    LongFrom(hi % 128, lo % 128);
  }

  lemma LongFrom(high: nat, low: nat)
    requires low < 128
    ensures Or(ShiftLeft(high, 7), low) == high * 128 + low
  {
    Left7(high);
    OrSeven(low, high);
  }
}
