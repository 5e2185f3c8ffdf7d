/** The register-only halves of the 6507 instructions: what each does to a value and the flags. */
module Alu {
  import opened Words
  import opened Bits
  import opened StatusRegister
  import opened SystemState

  predicate Negative(x: u8) { x >= 0x80 }

  /** `(x ^ y) & 0x80 != 0`. */
  predicate SignsDiffer(x: u8, y: u8) { Negative(x) != Negative(y) }

  function And8(a: u8, b: u8): u8 { And(a, b) }

  function Or8(a: u8, b: u8): u8
  {
    assert Pow2(8) == 0x100;
    OrBound(a, b, 8);
    Or(a, b)
  }

  function Xor8(a: u8, b: u8): u8
  {
    assert Pow2(8) == 0x100;
    XorBound(a, b, 8);
    Xor(a, b)
  }

  function SetA(r: Regs, value: u8): Regs { r.(a := value, p := r.p.SetNZ(value)) }

  function SetX(r: Regs, value: u8): Regs { r.(x := value, p := r.p.SetNZ(value)) }

  function SetY(r: Regs, value: u8): Regs { r.(y := value, p := r.p.SetNZ(value)) }

  // ---- Addition and subtraction ----

  /** `x & 0x0F`. */
  function LowNibble(x: u8): u8 { x % 16 }

  /** `x & 0xF0`. */
  function HighNibble(x: u8): u8 { x - x % 16 }

  /** `(ah << 4) | (al & 0x0F)`. */
  function Nibbles(ah: u8, al: u8): u8 { ah % 16 * 16 + al % 16 }

  /** Low-nibble sum of a decimal addition, corrected past 9 by the decimal adjust. */
  function AdjustLow(al: nat): nat
  {
    if al > 9 then (al + 6) % 16 + 16 else al
  }

  function DecimalSumBeforeHigh(a: u8, value: u8, carry: nat): nat
  {
    HighNibble(a) + HighNibble(value) + AdjustLow(LowNibble(a) + LowNibble(value) + carry)
  }

  /** The high-nibble correction of a decimal addition. */
  function AdjustHigh(sum: nat): nat
  {
    if sum >= 0xA0 then sum + 0x60 else sum
  }

  function AdcDecimal(a: u8, p: Status, value: u8): (u8, Status)
  {
    var carry := Bit(p.c);
    var binary := Byte(a + value + carry);
    var sum := DecimalSumBeforeHigh(a, value, carry);
    var intermediate := Byte(sum);
    var result := AdjustHigh(sum);
    (Byte(result),
     p.SetZ(binary == 0).SetN(Negative(intermediate))
      .SetV(SignsDiffer(a, intermediate) && SignsDiffer(value, intermediate))
      .SetC(result >= 0x100))
  }

  function AdcBinary(a: u8, p: Status, value: u8): (u8, Status)
  {
    var sum := a + value + Bit(p.c);
    var result := Byte(sum);
    (result, p.SetC(sum > 0xFF).SetV(SignsDiffer(a, result) && SignsDiffer(value, result)).SetNZ(result))
  }

  /** The accumulator and the flags after `ADC`. */
  function Added(a: u8, p: Status, value: u8): (u8, Status)
  {
    if p.d then AdcDecimal(a, p, value) else AdcBinary(a, p, value)
  }

  function Adc(r: Regs, value: u8): Regs
  {
    var (a, p) := Added(r.a, r.p, value);
    r.(a := a, p := p)
  }

  /** The decimal adjust of a nibble difference that went negative. */
  function BorrowSix(x: u8): u8
  {
    if Negative(x) then Sub8(x, 6) else x
  }

  function SbcDecimal(a: u8, p: Status, value: u8): (u8, Status)
  {
    var carry: int := Bit(p.c);
    var binary := Byte(a + (0xFF - value) + carry);
    var al0 := Sub8(Sub8(LowNibble(a), LowNibble(value)), 1 - carry);
    var ah0 := Sub8(a / 16, value / 16);
    var ah1 := if Negative(al0) then Sub8(ah0, 1) else ah0;
    (Nibbles(BorrowSix(ah1), BorrowSix(al0)),
     p.SetZ(binary == 0).SetN(Negative(binary))
      .SetV(SignsDiffer(a, binary) && SignsDiffer(0xFF - value, binary))
      .SetC(!Negative(ah1)))
  }

  /** The accumulator and the flags after `SBC`: binary mode adds the complement. */
  function Subtracted(a: u8, p: Status, value: u8): (u8, Status)
  {
    if p.d then SbcDecimal(a, p, value) else AdcBinary(a, p, 0xFF - value)
  }

  function Sbc(r: Regs, value: u8): Regs
  {
    var (a, p) := Subtracted(r.a, r.p, value);
    r.(a := a, p := p)
  }

  function Compare(r: Regs, lhs: u8, rhs: u8): Regs
  {
    r.(p := r.p.(c := lhs >= rhs).SetNZ(Sub8(lhs, rhs)))
  }

  function BitTest(r: Regs, value: u8): Regs
  {
    r.(p := r.p.SetZ(And8(r.a, value) == 0).SetN(Negative(value)).SetV(value / 0x40 % 2 == 1))
  }

  // ---- Shifts ----

  /** A shift's result and the flags it leaves. */
  function Asl(p: Status, value: u8): (u8, Status)
  {
    var r: u8 := value * 2 % 0x100;
    (r, p.(c := Negative(value)).SetNZ(r))
  }

  function Lsr(p: Status, value: u8): (u8, Status)
  {
    var r: u8 := value / 2;
    (r, p.(c := value % 2 == 1).SetNZ(r))
  }

  function Rol(p: Status, value: u8): (u8, Status)
  {
    var r: u8 := value * 2 % 0x100 + Bit(p.c);
    (r, p.(c := Negative(value)).SetNZ(r))
  }

  function Ror(p: Status, value: u8): (u8, Status)
  {
    var r: u8 := value / 2 + 0x80 * Bit(p.c);
    (r, p.(c := value % 2 == 1).SetNZ(r))
  }

  // ---- Undocumented immediates ----

  function Anc(r: Regs, value: u8): Regs
  {
    var q := SetA(r, And8(r.a, value));
    q.(p := q.p.(c := Negative(q.a)))
  }

  function Alr(r: Regs, value: u8): Regs
  {
    var (a, p) := Lsr(r.p, And8(r.a, value));
    r.(a := a, p := p)
  }

  /** `(t & 0xF0) + (t & 0x10)` before it is cut to a byte. */
  function ArrHighSum(t: u8): nat
  {
    t - t % 16 + t / 16 % 2 * 16
  }

  function Arr(r: Regs, value: u8): Regs
  {
    var t := And8(r.a, value);
    var ror: u8 := t / 2 + 0x80 * Bit(r.p.c);
    var bit6, bit5 := ror / 0x40 % 2 == 1, ror / 0x20 % 2 == 1;
    var p := r.p.SetNZ(ror).SetV(bit6 != bit5);
    if r.p.d then
      var low: u8 := if t % 16 + t % 2 > 5 then Nibbles(ror / 16, Sum8(ror, 6)) else ror;
      var carry := Byte(ArrHighSum(t)) > 0x50;
      r.(a := if carry then Sum8(low, 0x60) else low, p := p.SetC(carry))
    else
      r.(a := ror, p := p.SetC(bit6))
  }

  function Axs(r: Regs, value: u8): Regs
  {
    var ax := And8(r.a, r.x);
    var res := Sub8(ax, value);
    r.(x := res, p := r.p.(c := ax >= value).SetNZ(res))
  }

  /** The floating-bus constant of the two unstable immediates. */
  const UNSTABLE: u8 := 0xEE

  function Xaa(r: Regs, value: u8): Regs
  {
    SetA(r, And8(And8(Or8(r.a, UNSTABLE), r.x), value))
  }

  function Lxa(r: Regs, value: u8): Regs
  {
    var res := And8(Or8(r.a, UNSTABLE), value);
    r.(a := res, x := res, p := r.p.SetNZ(res))
  }

  function Lax(r: Regs, value: u8): Regs
  {
    r.(a := value, x := value, p := r.p.SetNZ(value))
  }

  function Las(r: Regs, value: u8): Regs
  {
    var res := And8(r.s, value);
    r.(a := res, x := res, s := res, p := r.p.SetNZ(res))
  }
}

/** What ADC and SBC compute: signed, binary and decimal arithmetic, over any number of bytes. */
module AluTheorems {
  import opened Words
  import opened Bits
  import opened StatusRegister
  import opened SystemState
  import opened Alu

  function Signed(x: u8): int { if x >= 0x80 then x - 0x100 else x }

  /** Binary ADC: V is set exactly when the signed sum does not fit, and otherwise A is that sum. */
  lemma BinaryOverflow(r: Regs, value: u8)
    requires !r.p.d
    ensures var q, sum := Adc(r, value), Signed(r.a) + Signed(value) + Bit(r.p.c);
      && (q.p.v <==> !(-0x80 <= sum < 0x80))
      && (!q.p.v ==> Signed(q.a) == sum)
      && q.a + 0x100 * Bit(q.p.c) == r.a + value + Bit(r.p.c)
  {
  }

  /** Binary SBC: likewise for the signed difference, the carry meaning "no borrow". */
  lemma BinaryDifference(r: Regs, value: u8)
    requires !r.p.d
    ensures var q, diff := Sbc(r, value), Signed(r.a) - Signed(value) - (1 - Bit(r.p.c));
      && (q.p.v <==> !(-0x80 <= diff < 0x80))
      && (!q.p.v ==> Signed(q.a) == diff)
      && q.a - 0x100 * (1 - Bit(q.p.c)) == r.a - value - (1 - Bit(r.p.c))
  {
  }

  /** Decimal ARR: the byte-wide sum deciding the carry agrees with the exact sum precisely below $F0. */
  lemma ArrCarryExactness(r: Regs, value: u8)
    requires r.p.d
    ensures var t := And8(r.a, value);
      (Arr(r, value).p.c <==> ArrHighSum(t) > 0x50) <==> t < 0xF0
  {
    ArrHighSumBound(And8(r.a, value));
  }

  /** An input at which the carry is lost: the exact sum is $100. */
  lemma ArrLostCarry(r: Regs)
    requires r.p.d && r.a == 0xF0
    ensures And8(0xF0, 0xFF) == 0xF0 && ArrHighSum(0xF0) > 0x50 && !Arr(r, 0xFF).p.c
  {
    hide Arr, And;
    assert Pow2(8) == 0x100;
    AndMask(0xF0, 8);
    ArrCarryExactness(r, 0xFF);
  }

  lemma ArrHighSumBound(t: u8)
    ensures if t < 0xF0 then ArrHighSum(t) < 0x100 else ArrHighSum(t) == 0x100
  {
  }

  // ---- Decimal digits ----

  predicate IsBcd(x: u8) { x % 16 <= 9 && x / 16 <= 9 }

  function Dec(x: u8): nat { 10 * (x / 16) + x % 16 }

  /** The accumulator, carry and mode of a decimal addition, its other flags aside. */
  lemma AdcDecimalParts(a: u8, p: Status, value: u8)
    ensures var (b, q) := AdcDecimal(a, p, value);
      var result := AdjustHigh(DecimalSumBeforeHigh(a, value, Bit(p.c)));
      b == result % 0x100 && q.c == (result >= 0x100) && q.d == p.d
  {
  }

  lemma SbcDecimalParts(a: u8, p: Status, value: u8)
    ensures var (b, q) := SbcDecimal(a, p, value);
      var al := Sub8(Sub8(a % 16, value % 16), 1 - Bit(p.c));
      var ah0 := Sub8(a / 16, value / 16);
      var ah := if Negative(al) then Sub8(ah0, 1) else ah0;
      b == BorrowSix(ah) % 16 * 16 + BorrowSix(al) % 16 && q.c == !Negative(ah) && q.d == p.d
  {
    hide Sub8, BorrowSix, Negative;
  }

  lemma DecimalSum(r: Regs, value: u8)
    requires r.p.d && IsBcd(r.a) && IsBcd(value)
    ensures var q := Adc(r, value);
      && IsBcd(q.a) && q.p.d
      && Dec(q.a) + 100 * Bit(q.p.c) == Dec(r.a) + Dec(value) + Bit(r.p.c)
  {
    hide DecimalSumBeforeHigh, AdjustHigh, AdcDecimal;
    AdcDecimalParts(r.a, r.p, value);
    var s0 := r.a % 16 + value % 16 + Bit(r.p.c);
    var h := r.a / 16 + value / 16 + (if s0 > 9 then 1 else 0);
    LowDigit(r.a, value, Bit(r.p.c));
    HighDigit(h, AdjustedDigit(s0));
  }

  function AdjustedDigit(s0: nat): (r: nat)
    requires s0 <= 19
    ensures r <= 9
  {
    if s0 > 9 then s0 - 10 else s0
  }

  lemma LowDigit(a: u8, value: u8, carry: nat)
    requires a % 16 <= 9 && value % 16 <= 9 && carry <= 1
    ensures var s0 := a % 16 + value % 16 + carry;
      DecimalSumBeforeHigh(a, value, carry)
      == 16 * (a / 16 + value / 16 + (if s0 > 9 then 1 else 0)) + AdjustedDigit(s0)
  {
  }

  lemma HighDigit(h: nat, n0: nat)
    requires h <= 19 && n0 <= 9
    ensures var result := AdjustHigh(16 * h + n0);
      && result % 0x100 % 16 == n0 && result % 0x100 / 16 == AdjustedDigit(h)
      && (result >= 0x100 <==> h > 9)
  {
    var d := AdjustedDigit(h);
    assert AdjustHigh(16 * h + n0) == if h > 9 then 0x100 + (16 * d + n0) else 16 * d + n0;
    NibblePair(d, n0);
  }

  lemma DecimalDifference(r: Regs, value: u8)
    requires r.p.d && IsBcd(r.a) && IsBcd(value)
    ensures var q := Sbc(r, value);
      && IsBcd(q.a) && q.p.d
      && Dec(q.a) - 100 * (1 - Bit(q.p.c)) == Dec(r.a) - Dec(value) - (1 - Bit(r.p.c))
  {
    hide Sub8, BorrowSix, Negative, SbcDecimal;
    SbcDecimalParts(r.a, r.p, value);
    var d0 := r.a % 16 - value % 16 - (1 - Bit(r.p.c));
    var v0 := value % 16 + (1 - Bit(r.p.c));
    var al0, ah0 := Sub8(r.a % 16, v0), Sub8(r.a / 16, value / 16);
    SubTwice(r.a % 16, value % 16, 1 - Bit(r.p.c));
    var ah1 := if Negative(al0) then Sub8(ah0, 1) else ah0;
    LowBorrow(r.a % 16, v0);
    HighBorrow(r.a / 16, value / 16, d0 < 0);
    NibblePair(BorrowSix(ah1) % 16, BorrowSix(al0) % 16);
  }

  lemma SubTwice(a: u8, b: u8, c: u8)
    requires b + c < 0x100
    ensures Sub8(Sub8(a, b), c) == Sub8(a, b + c)
  {
  }

  lemma NibblePair(x: nat, y: nat)
    requires x < 16 && y < 16
    ensures (x * 16 + y) % 16 == y && (x * 16 + y) / 16 == x
  {
  }

  /** The low nibble after a decimal borrow, in wrapping byte arithmetic. */
  lemma LowBorrow(a0: nat, v0: nat)
    requires a0 <= 9 && v0 <= 10
    ensures var al0 := Sub8(a0, v0);
      && (Negative(al0) <==> a0 < v0)
      && BorrowSix(al0) % 16 == (if a0 < v0 then a0 - v0 + 10 else a0 - v0)
  {
  }

  lemma HighBorrow(a1: nat, v1: nat, borrow: bool)
    requires a1 <= 9 && v1 <= 9
    ensures var ah0 := Sub8(a1, v1);
      var ah1 := if borrow then Sub8(ah0, 1) else ah0;
      var d1 := if borrow then a1 - v1 - 1 else a1 - v1;
      && (Negative(ah1) <==> d1 < 0)
      && BorrowSix(ah1) % 16 == (if d1 < 0 then d1 + 10 else d1)
  {
    hide Sub8, Negative, BorrowSix;
    SubTwice(a1, v1, 1);
    LowBorrow(a1, if borrow then v1 + 1 else v1);
  }

  // ---- Chains of bytes, least significant first ----

  /** `LDA x; ADC y; STA` for each byte in turn: the stored bytes and the final flags. */
  function AddBytes(r: Regs, xs: seq<u8>, ys: seq<u8>): (seq<u8>, Regs)
    requires |xs| == |ys|
    decreases |xs|
  {
    if xs == [] then ([], r) else
    var q := Adc(SetA(r, xs[0]), ys[0]);
    var (rest, last) := AddBytes(q, xs[1..], ys[1..]);
    ([q.a] + rest, last)
  }

  function SubBytes(r: Regs, xs: seq<u8>, ys: seq<u8>): (seq<u8>, Regs)
    requires |xs| == |ys|
    decreases |xs|
  {
    if xs == [] then ([], r) else
    var q := Sbc(SetA(r, xs[0]), ys[0]);
    var (rest, last) := SubBytes(q, xs[1..], ys[1..]);
    ([q.a] + rest, last)
  }

  /** The digit a byte stands for: two decimal digits, or one base-256 digit. */
  function Digit(decimal: bool, x: u8): nat { if decimal then Dec(x) else x }

  function Base(decimal: bool): nat { if decimal then 100 else 256 }

  predicate IsDigit(decimal: bool, x: u8) { decimal ==> IsBcd(x) }

  predicate AllDigits(decimal: bool, xs: seq<u8>)
  {
    forall i | 0 <= i < |xs| :: IsDigit(decimal, xs[i])
  }

  function Value(decimal: bool, xs: seq<u8>): nat
  {
    if xs == [] then 0 else Digit(decimal, xs[0]) + Base(decimal) * Value(decimal, xs[1..])
  }

  function Pow(b: nat, n: nat): nat { if n == 0 then 1 else b * Pow(b, n - 1) }

  lemma OneSum(r: Regs, x: u8, y: u8)
    requires IsDigit(r.p.d, x) && IsDigit(r.p.d, y)
    ensures var q, d := Adc(SetA(r, x), y), r.p.d;
      && q.p.d == d && IsDigit(d, q.a)
      && Digit(d, q.a) + Base(d) * Bit(q.p.c) == Digit(d, x) + Digit(d, y) + Bit(r.p.c)
  {
    if r.p.d {
      DecimalSum(SetA(r, x), y);
    } else {
      BinaryOverflow(SetA(r, x), y);
    }
  }

  lemma OneDifference(r: Regs, x: u8, y: u8)
    requires IsDigit(r.p.d, x) && IsDigit(r.p.d, y)
    ensures var q, d := Sbc(SetA(r, x), y), r.p.d;
      && q.p.d == d && IsDigit(d, q.a)
      && Digit(d, q.a) - Base(d) * (1 - Bit(q.p.c)) == Digit(d, x) - Digit(d, y) - (1 - Bit(r.p.c))
  {
    if r.p.d {
      DecimalDifference(SetA(r, x), y);
    } else {
      BinaryDifference(SetA(r, x), y);
    }
  }

  /** Any number of bytes, binary or valid BCD: the chain is exact addition, carry included. */
  lemma {:induction false} SumExact(r: Regs, xs: seq<u8>, ys: seq<u8>)
    requires |xs| == |ys| && AllDigits(r.p.d, xs) && AllDigits(r.p.d, ys)
    ensures var (zs, q) := AddBytes(r, xs, ys);
      && |zs| == |xs| && AllDigits(r.p.d, zs) && q.p.d == r.p.d
      && Value(r.p.d, zs) + Pow(Base(r.p.d), |xs|) * Bit(q.p.c)
         == Value(r.p.d, xs) + Value(r.p.d, ys) + Bit(r.p.c)
    decreases |xs|
  {
    hide Adc, Digit, IsDigit;
    if xs != [] {
      var d, b := r.p.d, Base(r.p.d);
      OneSum(r, xs[0], ys[0]);
      var q := Adc(SetA(r, xs[0]), ys[0]);
      SumExact(q, xs[1..], ys[1..]);
      var (rest, last) := AddBytes(q, xs[1..], ys[1..]);
      assert ([q.a] + rest)[1..] == rest;
      var p, c := Pow(b, |xs| - 1), Bit(last.p.c);
      assert b * (Value(d, rest) + p * c) == b * Value(d, rest) + Pow(b, |xs|) * c by {
        assert b * (p * c) == (b * p) * c;
      }
    }
  }

  lemma {:induction false} DifferenceExact(r: Regs, xs: seq<u8>, ys: seq<u8>)
    requires |xs| == |ys| && AllDigits(r.p.d, xs) && AllDigits(r.p.d, ys)
    ensures var (zs, q) := SubBytes(r, xs, ys);
      && |zs| == |xs| && AllDigits(r.p.d, zs) && q.p.d == r.p.d
      && Value(r.p.d, zs) - Pow(Base(r.p.d), |xs|) * (1 - Bit(q.p.c))
         == Value(r.p.d, xs) - Value(r.p.d, ys) - (1 - Bit(r.p.c))
    decreases |xs|
  {
    hide Sbc, Digit, IsDigit;
    if xs != [] {
      var d, b := r.p.d, Base(r.p.d);
      OneDifference(r, xs[0], ys[0]);
      var q := Sbc(SetA(r, xs[0]), ys[0]);
      DifferenceExact(q, xs[1..], ys[1..]);
      var (rest, last) := SubBytes(q, xs[1..], ys[1..]);
      assert ([q.a] + rest)[1..] == rest;
      var p, c := Pow(b, |xs| - 1), 1 - Bit(last.p.c);
      assert b * (Value(d, rest) - p * c) == b * Value(d, rest) - Pow(b, |xs|) * c by {
        assert b * (p * c) == (b * p) * c;
      }
    }
  }

  lemma {:induction false} ValueBound(d: bool, xs: seq<u8>)
    requires AllDigits(d, xs)
    ensures Value(d, xs) < Pow(Base(d), |xs|)
  {
    if xs != [] {
      ValueBound(d, xs[1..]);
      assert IsDigit(d, xs[0]) && Digit(d, xs[0]) < Base(d);
      assert Base(d) * (Value(d, xs[1..]) + 1) <= Base(d) * Pow(Base(d), |xs| - 1);
    }
  }

  /** A number has one representation of each length. */
  lemma {:induction false} ValueInjective(d: bool, xs: seq<u8>, ys: seq<u8>)
    requires |xs| == |ys| && AllDigits(d, xs) && AllDigits(d, ys)
    requires Value(d, xs) == Value(d, ys)
    ensures xs == ys
  {
    if xs != [] {
      var b := Base(d);
      assert IsDigit(d, xs[0]) && IsDigit(d, ys[0]);
      ModUnique(Value(d, xs), b, Value(d, xs[1..]), Digit(d, xs[0]));
      ModUnique(Value(d, ys), b, Value(d, ys[1..]), Digit(d, ys[0]));
      DigitInjective(d, xs[0], ys[0]);
      ValueInjective(d, xs[1..], ys[1..]);
      assert xs == [xs[0]] + xs[1..] && ys == [ys[0]] + ys[1..];
    }
  }

  lemma DigitInjective(d: bool, x: u8, y: u8)
    requires IsDigit(d, x) && IsDigit(d, y) && Digit(d, x) == Digit(d, y)
    ensures x == y
  {
  }

  /** SBC undoes ADC: subtracting ys again gives back xs, and the final borrow is the addition's carry. */
  lemma DifferenceUndoesSum(r: Regs, s: Regs, xs: seq<u8>, ys: seq<u8>)
    requires |xs| == |ys| && AllDigits(r.p.d, xs) && AllDigits(r.p.d, ys)
    requires !r.p.c && s.p.c && s.p.d == r.p.d
    ensures var (zs, q) := AddBytes(r, xs, ys);
      |zs| == |ys| && SubBytes(s, zs, ys).0 == xs && SubBytes(s, zs, ys).1.p.c == !q.p.c
  {
    hide AddBytes, SubBytes, Value, Digit, IsDigit;
    var d := r.p.d;
    SumExact(r, xs, ys);
    var (zs, q) := AddBytes(r, xs, ys);
    DifferenceExact(s, zs, ys);
    var (us, t) := SubBytes(s, zs, ys);
    ValueBound(d, us);
    ValueBound(d, xs);
    BorrowIsCarry(Value(d, us), Value(d, xs), Pow(Base(d), |xs|), Bit(q.p.c), 1 - Bit(t.p.c));
    ValueInjective(d, us, xs);
  }

  lemma BorrowIsCarry(u: nat, x: nat, p: nat, carry: nat, borrow: nat)
    requires u < p && x < p && carry <= 1 && borrow <= 1
    requires u - p * borrow == x - p * carry
    ensures u == x && carry == borrow
  {
  }

  // ---- Shifts through the carry ----

  /** `ROL` of each byte in turn, least significant first. */
  function RolBytes(p: Status, xs: seq<u8>): (seq<u8>, Status)
    decreases |xs|
  {
    if xs == [] then ([], p) else
    var (x, q) := Rol(p, xs[0]);
    var (rest, last) := RolBytes(q, xs[1..]);
    ([x] + rest, last)
  }

  lemma OneRol(p: Status, x: u8)
    ensures var (r, q) := Rol(p, x); r + 0x100 * Bit(q.c) == 2 * x + Bit(p.c)
  {
  }

  /** Rotating any number of bytes left through the carry is exact doubling. */
  lemma {:induction false} RolDoubles(p: Status, xs: seq<u8>)
    ensures var (zs, q) := RolBytes(p, xs);
      |zs| == |xs| && Value(false, zs) + Pow(0x100, |xs|) * Bit(q.c) == 2 * Value(false, xs) + Bit(p.c)
    decreases |xs|
  {
    hide Rol;
    if xs != [] {
      OneRol(p, xs[0]);
      var (x, q) := Rol(p, xs[0]);
      RolDoubles(q, xs[1..]);
      var (rest, last) := RolBytes(q, xs[1..]);
      assert ([x] + rest)[1..] == rest;
      var n, c := Pow(0x100, |xs| - 1), Bit(last.c);
      assert 0x100 * (Value(false, rest) + n * c) == 0x100 * Value(false, rest) + Pow(0x100, |xs|) * c by {
        assert 0x100 * (n * c) == (0x100 * n) * c;
      }
    }
  }

  /** `ROR` undoes `ROL` and gives the carry back, and the other way round. */
  lemma RotatesUndo(p: Status, x: u8)
    ensures var (r, q) := Rol(p, x); Ror(q, r).0 == x && Ror(q, r).1.c == p.c
    ensures var (r, q) := Ror(p, x); Rol(q, r).0 == x && Rol(q, r).1.c == p.c
  {
    hide Status.SetNZ;
    SetNZKeepsCarry(p.(c := x >= 0x80), Rol(p, x).0);
    SetNZKeepsCarry(p.(c := x % 2 == 1), Ror(p, x).0);
    SetNZKeepsCarry(Rol(p, x).1.(c := Rol(p, x).0 % 2 == 1), Ror(Rol(p, x).1, Rol(p, x).0).0);
    SetNZKeepsCarry(Ror(p, x).1.(c := Ror(p, x).0 >= 0x80), Rol(Ror(p, x).1, Ror(p, x).0).0);
  }

  lemma SetNZKeepsCarry(p: Status, value: u8)
    ensures p.SetNZ(value).c == p.c
  {
  }
}
