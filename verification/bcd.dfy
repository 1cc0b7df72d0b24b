/**
 * Decimal-mode ADC and SBC. A byte holds two packed BCD digits, high nibble
 * tens and low nibble units. The adder works a nibble at a time and corrects
 * each digit by 6 when it leaves 0..9; this module proves that on valid BCD
 * operands the corrected result is the two-digit decimal sum or difference.
 */
module Bcd {
  import opened Bits
  import opened Alu

  /** Result byte and carry out of a decimal-mode addition or subtraction. */
  datatype DecimalSum = DecimalSum(value: Byte, carry: bool)

  /** Both nibbles are decimal digits. */
  predicate BcdValid(x: Byte)
  {
    x / 16 <= 9 && x % 16 <= 9
  }

  /** The number 0..99 that a valid BCD byte stands for. */
  function BcdValue(x: Byte): (r: nat)
    requires BcdValid(x)
    ensures r < 100
  {
    10 * (x / 16) + x % 16
  }

  /** The packed BCD byte of a number 0..99. */
  function ToBcd(n: nat): (r: Byte)
    requires n < 100
    ensures BcdValid(r) && BcdValue(r) == n
  {
    16 * (n / 10) + n % 10
  }

  /** Reading a valid BCD byte as a number and encoding it again gives the byte back. */
  lemma BcdRoundTrip(x: Byte)
    requires BcdValid(x)
    ensures ToBcd(BcdValue(x)) == x
  {
    var t := x / 16;
    var u := x % 16;
    assert BcdValue(x) == 10 * t + u;
    assert (10 * t + u) / 10 == t;
    assert (10 * t + u) % 10 == u;
  }

  /**
   * Decimal ADC, digit by digit: units = A.lo + M.lo + C, corrected by 6
   * when above 9, which carries into the tens; tens = A.hi + M.hi + that
   * carry, corrected the same way, and its carry is the carry out.
   */
  function DecimalAdd(a: Byte, m: Byte, carryIn: bool): (r: DecimalSum)
  {
    var lo := a % 16 + m % 16 + CarryValue(carryIn);
    var loCarry := lo > 9;
    var hi := a / 16 + m / 16 + (if loCarry then 1 else 0);
    var hiCarry := hi > 9;
    var loDigit := (if loCarry then lo + 6 else lo) % 16;
    var hiDigit := (if hiCarry then hi + 6 else hi) % 16;
    DecimalSum(16 * hiDigit + loDigit, hiCarry)
  }

  /**
   * Decimal SBC, digit by digit: units = A.lo - M.lo - (1 - C), corrected
   * by 6 when it borrows, which borrows from the tens; tens = A.hi - M.hi -
   * that borrow, corrected the same way. C is set when the tens did not borrow.
   * Nibbles are taken modulo 16 as a four-bit mask of a two's-complement value.
   */
  function DecimalSubtract(a: Byte, m: Byte, carryIn: bool): (r: DecimalSum)
  {
    var lo := a % 16 - m % 16 - (1 - CarryValue(carryIn));
    var loBorrow := lo < 0;
    var hi := a / 16 - m / 16 - (if loBorrow then 1 else 0);
    var hiBorrow := hi < 0;
    var loDigit := (if loBorrow then lo - 6 else lo) % 16;
    var hiDigit := (if hiBorrow then hi - 6 else hi) % 16;
    DecimalSum(16 * hiDigit + loDigit, !hiBorrow)
  }

  /** Two digits t, u (each 0..9) as a number and as a BCD byte. */
  lemma Digits(t: int, u: int)
    requires 0 <= t <= 9 && 0 <= u <= 9
    ensures (10 * t + u) / 10 == t && (10 * t + u) % 10 == u
    ensures ToBcd(10 * t + u) == 16 * t + u
  {
  }

  /** The add-6 correction turns a digit sum 10..19 into its units digit (the carry leaves). */
  lemma AddCorrection(x: int)
    requires 10 <= x <= 19
    ensures (x + 6) % 16 == x - 10
  {
    assert x + 6 == 16 + (x - 10);
  }

  /** The subtract-6 correction turns a borrowed digit -10..-1 into its digit 0..9 (the borrow leaves). */
  lemma SubtractCorrection(x: int)
    requires -10 <= x <= -1
    ensures (x - 6) % 16 == x + 10
  {
    assert x - 6 == -16 + (x + 10);
  }

  /** A nibble sum that stays in 0..9 is its own digit. */
  lemma NoCorrection(x: int)
    requires 0 <= x <= 9
    ensures x % 16 == x
  {
  }

  /** Splitting n into a hundreds count k in {-1, 0, 1} and a two-digit rest. */
  lemma Mod100(n: int, k: int, rest: int)
    requires -1 <= k <= 1 && 0 <= rest < 100 && n == 100 * k + rest
    ensures n % 100 == rest
  {
  }

  /**
   * The corrected decimal ADC result, digit by digit: the units digit is the
   * unit sum less 10 when it carried, the tens digit likewise, and C is the
   * carry out of the tens.
   */
  lemma DecimalAddDigits(a: Byte, m: Byte, carryIn: bool)
    requires BcdValid(a) && BcdValid(m)
    ensures var lo := a % 16 + m % 16 + CarryValue(carryIn);
      var hi := a / 16 + m / 16 + (if lo > 9 then 1 else 0);
      && DecimalAdd(a, m, carryIn).value == 16 * (if hi > 9 then hi - 10 else hi) + (if lo > 9 then lo - 10 else lo)
      && (DecimalAdd(a, m, carryIn).carry <==> hi > 9)
  {
    var lo := a % 16 + m % 16 + CarryValue(carryIn);
    var hi := a / 16 + m / 16 + (if lo > 9 then 1 else 0);
    if lo > 9 { AddCorrection(lo); } else { NoCorrection(lo); }
    if hi > 9 { AddCorrection(hi); } else { NoCorrection(hi); }
  }

  /**
   * On BCD operands, decimal ADC yields the BCD encoding of (a + b + c) mod 100
   * and sets C exactly when a + b + c reaches 100.
   */
  lemma DecimalAddCorrect(a: Byte, m: Byte, carryIn: bool)
    requires BcdValid(a) && BcdValid(m)
    ensures var total := BcdValue(a) + BcdValue(m) + CarryValue(carryIn);
      && DecimalAdd(a, m, carryIn).value == ToBcd(total % 100)
      && (DecimalAdd(a, m, carryIn).carry <==> total >= 100)
  {
    var total := BcdValue(a) + BcdValue(m) + CarryValue(carryIn);
    var lo := a % 16 + m % 16 + CarryValue(carryIn);
    var hi := a / 16 + m / 16 + (if lo > 9 then 1 else 0);
    var unit := if lo > 9 then lo - 10 else lo;
    var ten := if hi > 9 then hi - 10 else hi;
    DecimalAddDigits(a, m, carryIn);
    assert total == 100 * (if hi > 9 then 1 else 0) + 10 * ten + unit;
    Mod100(total, if hi > 9 then 1 else 0, 10 * ten + unit);
    Digits(ten, unit);
  }

  /**
   * The corrected decimal SBC result, digit by digit: a digit that borrowed
   * has 10 added back, and C is set when the tens did not borrow.
   */
  lemma DecimalSubtractDigits(a: Byte, m: Byte, carryIn: bool)
    requires BcdValid(a) && BcdValid(m)
    ensures var lo := a % 16 - m % 16 - (1 - CarryValue(carryIn));
      var hi := a / 16 - m / 16 - (if lo < 0 then 1 else 0);
      && DecimalSubtract(a, m, carryIn).value == 16 * (if hi < 0 then hi + 10 else hi) + (if lo < 0 then lo + 10 else lo)
      && (DecimalSubtract(a, m, carryIn).carry <==> hi >= 0)
  {
    var lo := a % 16 - m % 16 - (1 - CarryValue(carryIn));
    var hi := a / 16 - m / 16 - (if lo < 0 then 1 else 0);
    if lo < 0 { SubtractCorrection(lo); } else { NoCorrection(lo); }
    if hi < 0 { SubtractCorrection(hi); } else { NoCorrection(hi); }
  }

  /**
   * On BCD operands, decimal SBC yields the BCD encoding of (a - b - (1 - c)) mod 100
   * and sets C exactly when that difference is not negative (no borrow).
   */
  lemma DecimalSubtractCorrect(a: Byte, m: Byte, carryIn: bool)
    requires BcdValid(a) && BcdValid(m)
    ensures var diff := BcdValue(a) - BcdValue(m) - (1 - CarryValue(carryIn));
      && DecimalSubtract(a, m, carryIn).value == ToBcd(diff % 100)
      && (DecimalSubtract(a, m, carryIn).carry <==> diff >= 0)
  {
    var diff := BcdValue(a) - BcdValue(m) - (1 - CarryValue(carryIn));
    var lo := a % 16 - m % 16 - (1 - CarryValue(carryIn));
    var hi := a / 16 - m / 16 - (if lo < 0 then 1 else 0);
    var unit := if lo < 0 then lo + 10 else lo;
    var ten := if hi < 0 then hi + 10 else hi;
    DecimalSubtractDigits(a, m, carryIn);
    assert diff == -100 * (if hi < 0 then 1 else 0) + 10 * ten + unit;
    Mod100(diff, if hi < 0 then -1 else 0, 10 * ten + unit);
    Digits(ten, unit);
  }

  /** On BCD operands the decimal results are themselves valid BCD. */
  lemma DecimalResultsValid(a: Byte, m: Byte, carryIn: bool)
    requires BcdValid(a) && BcdValid(m)
    ensures BcdValid(DecimalAdd(a, m, carryIn).value)
    ensures BcdValid(DecimalSubtract(a, m, carryIn).value)
  {
    DecimalAddCorrect(a, m, carryIn);
    DecimalSubtractCorrect(a, m, carryIn);
  }
}
