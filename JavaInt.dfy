/**
  The part of Java's integer semantics that the translator's last line uses:
  a shift left, a bitwise or of two non-negative `int` values, and the
  narrowing cast of an `int` to `short`, which keeps the low 16 bits and
  reads them as a two's-complement number.
*/
module JavaInt {

  /** A Java `short`. */
  newtype Short = x: int | -0x8000 <= x < 0x8000

  /** `x << n` for an `x` whose shifted value still fits in an `int`. */
  function ShiftLeft(x: nat, n: nat): (r: nat)
    ensures x <= r
    ensures x < r <==> x > 0 && n > 0
  {
    if n == 0 then x else 2 * ShiftLeft(x, n - 1)
  }

  /** `a | b` on non-negative `int` values, bit by bit from the lowest. */
  function Or(a: nat, b: nat): (r: nat)
    ensures a <= r && b <= r && r <= a + b
    decreases a + b
  {
    if a == 0 then b
    else if b == 0 then a
    else 2 * Or(a / 2, b / 2) + (if a % 2 == 1 || b % 2 == 1 then 1 else 0)
  }

  /** The cast `(short) x`: the one `short` that agrees with `x` modulo 2^16. */
  function NarrowToShort(x: int): (r: Short)
    ensures (r as int - x) % 0x1_0000 == 0
  {
    var low := x % 0x1_0000;
    if low < 0x8000 then low as Short else (low - 0x1_0000) as Short
  }

  /** The 16 bits of a `short` read as an unsigned number, as sent on the wire. */
  function Unsigned16(s: Short): (u: int)
    ensures 0 <= u < 0x1_0000
  {
    if s < 0 then s as int + 0x1_0000 else s as int
  }

  /** Narrowing keeps exactly the low 16 bits. */
  lemma NarrowKeepsLow16(x: int)
    ensures Unsigned16(NarrowToShort(x)) == x % 0x1_0000
  {
  }

  /** A `short` survives the trip through its 16 bits. */
  lemma NarrowUnsigned16(s: Short)
    ensures NarrowToShort(Unsigned16(s)) == s
  {
  }

  /**
    Or-ing a value shifted left by `n` with one below `2^n` is addition: the
    two have no bit in common.
  */
  lemma {:induction false} OrOfDisjointBits(hi: nat, lo: nat, n: nat)
    requires lo < ShiftLeft(1, n)
    ensures Or(ShiftLeft(hi, n), lo) == ShiftLeft(hi, n) + lo
  {
    if hi == 0 || lo == 0 {
      assert hi == 0 ==> ShiftLeft(hi, n) == 0;
    } else {
      assert n != 0;
      var m := ShiftLeft(hi, n - 1);
      assert ShiftLeft(hi, n) == 2 * m && m >= 1;
      assert ShiftLeft(1, n) == 2 * ShiftLeft(1, n - 1);
      OrOfDisjointBits(hi, lo / 2, n - 1);
      assert Or(2 * m, lo) == 2 * Or(m, lo / 2) + lo % 2;
    }
  }
}
