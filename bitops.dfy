/** Unsigned 8- and 16-bit integers and the bitwise operators the hand evaluator
    uses on them (`&`, `|`, `!`, `<<`, `>>`, `leading_zeros`), defined on
    non-negative integers one bit at a time, with the per-bit facts the proofs use. */
module BitOps {

  type u8 = x: int | 0 <= x < 0x100
  type u16 = x: int | 0 <= x < 0x1_0000

  function Pow2(k: nat): (r: nat)
    ensures r >= 1
  {
    if k == 0 then 1 else 2 * Pow2(k - 1)
  }

  /** Bit `i` (counting from the least significant bit 0) of `x` is set. */
  predicate Has(x: nat, i: nat)
  {
    if i == 0 then x % 2 == 1 else Has(x / 2, i - 1)
  }

  /** The positions of the set bits of a 16-bit value. */
  function Bits16(x: u16): (r: set<int>)
    ensures forall i :: i in r ==> 0 <= i < 16
  {
    set i | 0 <= i < 16 && Has(x, i)
  }

  /** Bitwise and. */
  function And(a: nat, b: nat): (r: nat)
    ensures r <= a && r <= b
    decreases a
  {
    if a == 0 || b == 0 then 0
    else 2 * And(a / 2, b / 2) + (if a % 2 == 1 && b % 2 == 1 then 1 else 0)
  }

  /** Bitwise or. */
  function Or(a: nat, b: nat): (r: nat)
    ensures a <= r <= a + b
    decreases a + b
  {
    if a == 0 then b
    else if b == 0 then a
    else 2 * Or(a / 2, b / 2) + (if a % 2 == 1 || b % 2 == 1 then 1 else 0)
  }

  /** Bitwise not of a 16-bit value (`!x` on a `u16`). */
  function Not16(x: u16): u16
  {
    0xFFFF - x
  }

  /** The low `n` bits of `x`: the truncating cast to an `n`-bit integer. */
  function Trunc(x: nat, n: nat): (r: nat)
    ensures r < Pow2(n)
  {
    if n == 0 then 0 else 2 * Trunc(x / 2, n - 1) + x % 2
  }

  /** `x` shifted left by `k` with no loss of bits. */
  function ShiftLeft(x: nat, k: nat): nat
    decreases k
  {
    if k == 0 then x else ShiftLeft(2 * x, k - 1)
  }

  /** `x << k` on a `u8`: bits shifted past bit 7 are lost. */
  function Shl8(x: u8, k: nat): u8
    requires k < 8
  {
    Pow2Values();
    Trunc(ShiftLeft(x, k), 8)
  }

  /** `x << k` on a `u16`: bits shifted past bit 15 are lost. */
  function Shl16(x: u16, k: nat): u16
    requires k < 16
  {
    Pow2Values();
    Trunc(ShiftLeft(x, k), 16)
  }

  /** `x >> k` (logical shift right). */
  function Shr(x: nat, k: nat): (r: nat)
    ensures r <= x
  {
    if k == 0 then x else Shr(x / 2, k - 1)
  }

  /** The number of clear bits above the highest set bit among bits `k-1 .. 0`. */
  function LeadingZerosBelow(x: nat, k: nat): (r: nat)
    ensures r <= k
    ensures r < k ==> Has(x, k - 1 - r)
    ensures forall j :: k - r <= j < k ==> !Has(x, j)
  {
    if k == 0 then 0
    else if Has(x, k - 1) then 0
    else 1 + LeadingZerosBelow(x, k - 1)
  }

  /** `u16::leading_zeros`. */
  function LeadingZeros16(x: u16): (r: nat)
    ensures r <= 16
    ensures x == 0 <==> r == 16
    ensures x != 0 ==> Has(x, 15 - r) && forall j :: 15 - r < j < 16 ==> !Has(x, j)
  {
    var r := LeadingZerosBelow(x, 16);
    if r == 16 then
      Pow2Values();
      ZeroBits(x, 16);
      r
    else
      assert x != 0 by { NoBitsOfZero(15 - r); }
      r
  }

  /** The position of the lowest set bit of a non-zero value. */
  function LowestBit(x: nat): (r: nat)
    requires x > 0
    ensures Has(x, r)
    ensures forall j :: 0 <= j < r ==> !Has(x, j)
    decreases x
  {
    if x % 2 == 1 then 0 else 1 + LowestBit(x / 2)
  }

  /** The value whose bits below `k` are exactly the members of `s` below `k`. */
  function MaskBelow(s: set<int>, k: nat): (r: nat)
    ensures r < Pow2(k)
  {
    if k == 0 then 0
    else
      var low := MaskBelow(s, k - 1);
      var top := if k - 1 in s then Pow2(k - 1) else 0;
      OrBound(low, top, k);
      Or(low, top)
  }

  /** The 16-bit set whose members are the members of `s`. */
  function Mask16(s: set<int>): u16
  {
    Pow2Values();
    MaskBelow(s, 16)
  }

  // ---------------------------------------------------------------------------
  // Per-bit facts

  lemma {:induction false} NoBitsOfZero(i: nat)
    ensures !Has(0, i)
  {
    if i > 0 { NoBitsOfZero(i - 1); }
  }

  lemma {:induction false} HasAnd(a: nat, b: nat, i: nat)
    ensures Has(And(a, b), i) == (Has(a, i) && Has(b, i))
    decreases i
  {
    if a == 0 || b == 0 {
      NoBitsOfZero(i);
    } else if i > 0 {
      HasAnd(a / 2, b / 2, i - 1);
    }
  }

  lemma {:induction false} HasOr(a: nat, b: nat, i: nat)
    ensures Has(Or(a, b), i) == (Has(a, i) || Has(b, i))
    decreases i
  {
    if a == 0 {
      NoBitsOfZero(i);
    } else if b == 0 {
      NoBitsOfZero(i);
    } else if i > 0 {
      HasOr(a / 2, b / 2, i - 1);
    }
  }

  lemma {:induction false} HasAllOnesMinus(n: nat, a: nat, i: nat)
    requires a < Pow2(n)
    ensures Has(Pow2(n) - 1 - a, i) == (i < n && !Has(a, i))
    decreases n
  {
    if n == 0 {
      NoBitsOfZero(i);
    } else {
      var p := Pow2(n - 1);
      assert Pow2(n) - 1 - a == 2 * (p - 1 - a / 2) + (1 - a % 2);
      if i > 0 {
        HasAllOnesMinus(n - 1, a / 2, i - 1);
      }
    }
  }

  lemma HasNot16(a: u16, i: nat)
    ensures Has(Not16(a), i) == (i < 16 && !Has(a, i))
  {
    Pow2Values();
    HasAllOnesMinus(16, a, i);
  }

  lemma {:induction false} HasPow2(k: nat, i: nat)
    ensures Has(Pow2(k), i) == (i == k)
    decreases k
  {
    if k == 0 {
      if i > 0 { NoBitsOfZero(i - 1); }
    } else if i > 0 {
      HasPow2(k - 1, i - 1);
    }
  }

  lemma {:induction false} HasTrunc(x: nat, n: nat, i: nat)
    ensures Has(Trunc(x, n), i) == (i < n && Has(x, i))
    decreases n
  {
    if n == 0 {
      NoBitsOfZero(i);
    } else if i > 0 {
      HasTrunc(x / 2, n - 1, i - 1);
    }
  }

  lemma {:induction false} HasShiftLeft(x: nat, k: nat, i: nat)
    ensures Has(ShiftLeft(x, k), i) == (i >= k && Has(x, i - k))
    decreases k
  {
    if k > 0 {
      HasShiftLeft(2 * x, k - 1, i);
      if i >= 1 {
        assert Has(2 * x, i) == Has(x, i - 1);
      } else {
        assert !Has(2 * x, 0);
      }
      if i >= k - 1 && i < k {
        assert i - (k - 1) == 0;
      }
    }
  }

  lemma HasShl16(x: u16, k: nat, i: nat)
    requires k < 16
    ensures Has(Shl16(x, k), i) == (k <= i < 16 && Has(x, i - k))
  {
    HasTrunc(ShiftLeft(x, k), 16, i);
    HasShiftLeft(x, k, i);
  }

  lemma {:induction false} HasShr(x: nat, k: nat, i: nat)
    ensures Has(Shr(x, k), i) == Has(x, i + k)
    decreases k
  {
    if k > 0 {
      HasShr(x / 2, k - 1, i);
    }
  }

  /** A value below `2^n` has no bit at or above position `n`. */
  lemma {:induction false} NoHighBits(x: nat, n: nat, i: nat)
    requires x < Pow2(n) && i >= n
    ensures !Has(x, i)
    decreases n
  {
    if n == 0 {
      assert x == 0;
      NoBitsOfZero(i);
    } else if i > 0 {
      NoHighBits(x / 2, n - 1, i - 1);
    }
  }

  /** Two values below `2^n` with the same bits are equal. */
  lemma {:induction false} BitsDetermine(a: nat, b: nat, n: nat)
    requires a < Pow2(n) && b < Pow2(n)
    requires forall i :: 0 <= i < n ==> Has(a, i) == Has(b, i)
    ensures a == b
    decreases n
  {
    if n > 0 {
      assert Has(a, 0) == Has(b, 0);
      forall i | 0 <= i < n - 1
        ensures Has(a / 2, i) == Has(b / 2, i)
      {
        assert Has(a, i + 1) == Has(b, i + 1);
      }
      BitsDetermine(a / 2, b / 2, n - 1);
    }
  }

  /** A value below `2^n` whose bits below `n` are all clear is zero. */
  lemma ZeroBits(x: nat, n: nat)
    requires x < Pow2(n)
    requires forall i :: 0 <= i < n ==> !Has(x, i)
    ensures x == 0
  {
    forall i | 0 <= i < n ensures Has(x, i) == Has(0, i) {
      NoBitsOfZero(i);
    }
    BitsDetermine(x, 0, n);
  }

  lemma Pow2Values()
    ensures Pow2(1) == 2 && Pow2(4) == 16 && Pow2(5) == 32
    ensures Pow2(8) == 0x100 && Pow2(16) == 0x1_0000
  {
    assert Pow2(1) == 2 && Pow2(2) == 4 && Pow2(3) == 8 && Pow2(4) == 16;
    assert Pow2(5) == 32 && Pow2(6) == 64 && Pow2(7) == 128 && Pow2(8) == 256;
    assert Pow2(9) == 512 && Pow2(10) == 1024 && Pow2(11) == 2048 && Pow2(12) == 4096;
    assert Pow2(13) == 8192 && Pow2(14) == 16384 && Pow2(15) == 32768;
  }

  /** Two 16-bit values with the same set of bits are equal. */
  lemma Bits16Determine(a: u16, b: u16)
    requires Bits16(a) == Bits16(b)
    ensures a == b
  {
    Pow2Values();
    forall i | 0 <= i < 16 ensures Has(a, i) == Has(b, i) {
      assert Has(a, i) <==> i in Bits16(a);
    }
    BitsDetermine(a, b, 16);
  }

  lemma Bits16Empty(x: u16)
    ensures Bits16(x) == {} <==> x == 0
  {
    if x == 0 {
      forall i | 0 <= i < 16 ensures !Has(x, i) { NoBitsOfZero(i); }
    } else if Bits16(x) == {} {
      Pow2Values();
      forall i | 0 <= i < 16 ensures !Has(x, i) { assert i !in Bits16(x); }
      ZeroBits(x, 16);
    }
  }

  lemma {:induction false} OrBound(a: nat, b: nat, n: nat)
    requires a < Pow2(n) && b < Pow2(n)
    ensures Or(a, b) < Pow2(n)
    decreases a + b
  {
    if a != 0 && b != 0 {
      assert n > 0;
      OrBound(a / 2, b / 2, n - 1);
    }
  }

  /** `x & (x - 1)` clears exactly the lowest set bit. */
  lemma {:induction false} HasClearLowest(x: nat, i: nat)
    requires x > 0
    ensures Has(And(x, x - 1), i) == (Has(x, i) && i != LowestBit(x))
    decreases x
  {
    if x == 1 {
      NoBitsOfZero(i);
      if i > 0 { NoBitsOfZero(i - 1); }
    } else if x % 2 == 1 {
      assert (x - 1) / 2 == x / 2 && (x - 1) % 2 == 0;
      AndSelf(x / 2);
      assert And(x, x - 1) == x - 1;
    } else {
      assert (x - 1) / 2 == x / 2 - 1 && (x - 1) % 2 == 1;
      assert And(x, x - 1) == 2 * And(x / 2, x / 2 - 1);
      if i > 0 {
        HasClearLowest(x / 2, i - 1);
      }
    }
  }

  lemma {:induction false} AndSelf(x: nat)
    ensures And(x, x) == x
    decreases x
  {
    if x > 0 { AndSelf(x / 2); }
  }

  lemma {:induction false} HasMaskBelow(s: set<int>, k: nat, i: nat)
    ensures Has(MaskBelow(s, k), i) == (i < k && i in s)
    decreases k
  {
    if k == 0 {
      NoBitsOfZero(i);
    } else {
      var top := if k - 1 in s then Pow2(k - 1) else 0;
      HasOr(MaskBelow(s, k - 1), top, i);
      HasMaskBelow(s, k - 1, i);
      if k - 1 in s { HasPow2(k - 1, i); } else { NoBitsOfZero(i); }
    }
  }

  /** `x & (2^n - 1)` keeps the low `n` bits. */
  lemma AndLowMask(x: nat, n: nat)
    ensures And(x, Pow2(n) - 1) == Trunc(x, n)
  {
    forall i | 0 <= i < n ensures Has(And(x, Pow2(n) - 1), i) == Has(Trunc(x, n), i) {
      HasAnd(x, Pow2(n) - 1, i);
      HasAllOnesMinus(n, 0, i);
      HasTrunc(x, n, i);
    }
    BitsDetermine(And(x, Pow2(n) - 1), Trunc(x, n), n);
  }

  lemma TruncSmall(x: nat, n: nat)
    requires x < Pow2(n)
    ensures Trunc(x, n) == x
  {
    forall i | 0 <= i < n ensures Has(Trunc(x, n), i) == Has(x, i) {
      HasTrunc(x, n, i);
    }
    BitsDetermine(Trunc(x, n), x, n);
  }

  lemma {:induction false} TruncSplit(x: nat, a: nat, b: nat)
    ensures Trunc(x, a + b) == Trunc(x, a) + Pow2(a) * Trunc(Shr(x, a), b)
    decreases a
  {
    if a > 0 {
      TruncSplit(x / 2, a - 1, b);
      var p, t := Pow2(a - 1), Trunc(Shr(x / 2, a - 1), b);
      assert Trunc(x, a + b) == 2 * Trunc(x / 2, a - 1 + b) + x % 2;
      assert Trunc(x, a) == 2 * Trunc(x / 2, a - 1) + x % 2;
      assert Shr(x, a) == Shr(x / 2, a - 1);
      Double(p, t);
    }
  }

  lemma Double(p: int, t: int)
    ensures 2 * (p * t) == (2 * p) * t
  {
  }

  lemma {:induction false} ShrBound(x: nat, a: nat, b: nat)
    requires x < Pow2(a + b)
    ensures Shr(x, a) < Pow2(b)
    decreases a
  {
    if a > 0 { ShrBound(x / 2, a - 1, b); }
  }

  /** A value below `2^(a+b)` is its high part times `2^a` plus its low `a` bits. */
  lemma SplitAt(x: nat, a: nat, b: nat)
    requires x < Pow2(a + b)
    ensures Shr(x, a) < Pow2(b) && Trunc(x, a) < Pow2(a)
    ensures x == Pow2(a) * Shr(x, a) + Trunc(x, a)
  {
    ShrBound(x, a, b);
    TruncSplit(x, a, b);
    TruncSmall(x, a + b);
    TruncSmall(Shr(x, a), b);
  }

  /** An `or` of two values with no common bit is their sum. */
  lemma {:induction false} OrDisjoint(a: nat, b: nat)
    requires And(a, b) == 0
    ensures Or(a, b) == a + b
    decreases a + b
  {
    if a != 0 && b != 0 {
      OrDisjoint(a / 2, b / 2);
    }
  }

  lemma ShiftLeft4(x: nat)
    ensures ShiftLeft(x, 4) == 16 * x
  {
    assert ShiftLeft(x, 4) == ShiftLeft(2 * x, 3) == ShiftLeft(4 * x, 2) == ShiftLeft(8 * x, 1) == 16 * x;
  }

  // ---------------------------------------------------------------------------
  // The same facts on the sets of bits of 16-bit values

  lemma Bits16And(a: u16, b: u16)
    ensures Bits16(And(a, b)) == Bits16(a) * Bits16(b)
  {
    forall i | 0 <= i < 16 ensures Has(And(a, b), i) == (Has(a, i) && Has(b, i)) {
      HasAnd(a, b, i);
    }
  }

  lemma Bits16Or(a: u16, b: u16)
    ensures Or(a, b) < 0x1_0000
    ensures Bits16(Or(a, b)) == Bits16(a) + Bits16(b)
  {
    Pow2Values();
    OrBound(a, b, 16);
    forall i | 0 <= i < 16 ensures Has(Or(a, b), i) == (Has(a, i) || Has(b, i)) {
      HasOr(a, b, i);
    }
  }

  lemma Bits16Pow2(n: nat)
    requires n < 16
    ensures Pow2(n) < 0x1_0000 && Bits16(Pow2(n)) == {n}
  {
    Pow2Values();
    if Pow2(n) >= 0x1_0000 {
      HasPow2(n, n);
      NoHighBitsBelow(n);
    }
    forall i | 0 <= i < 16 ensures Has(Pow2(n), i) == (i == n) {
      HasPow2(n, i);
    }
  }

  lemma {:induction false} NoHighBitsBelow(n: nat)
    requires n < 16
    ensures Pow2(n) < 0x1_0000
  {
    Pow2Values();
    Pow2Monotone(n, 16);
  }

  lemma {:induction false} Pow2Monotone(a: nat, b: nat)
    requires a < b
    ensures Pow2(a) < Pow2(b)
    decreases b
  {
    if a < b - 1 { Pow2Monotone(a, b - 1); }
  }

  /** `x & !bit` removes one position. */
  lemma Bits16ClearBit(x: u16, n: nat)
    requires n < 16
    requires Pow2(n) < 0x1_0000
    ensures Bits16(And(x, Not16(Pow2(n)))) == Bits16(x) - {n}
  {
    Bits16Pow2(n);
    forall i | 0 <= i < 16 ensures Has(And(x, Not16(Pow2(n))), i) == (Has(x, i) && i != n) {
      HasAnd(x, Not16(Pow2(n)), i);
      HasNot16(Pow2(n), i);
      HasPow2(n, i);
    }
  }

  /** `x & (x - 1)` removes the least member. */
  lemma Bits16ClearLowest(x: u16)
    requires x != 0
    ensures LowestBit(x) in Bits16(x)
    ensures forall j :: j in Bits16(x) ==> LowestBit(x) <= j
    ensures Bits16(And(x, x - 1)) == Bits16(x) - {LowestBit(x)}
  {
    Pow2Values();
    if LowestBit(x) >= 16 {
      NoHighBits(x, 16, LowestBit(x));
    }
    forall i | 0 <= i < 16 ensures Has(And(x, x - 1), i) == (Has(x, i) && i != LowestBit(x)) {
      HasClearLowest(x, i);
    }
  }

  lemma Bits16Mask(s: set<int>)
    ensures Bits16(Mask16(s)) == set i | i in s && 0 <= i < 16
  {
    forall i | 0 <= i < 16 ensures Has(Mask16(s), i) == (i in s) {
      HasMaskBelow(s, 16, i);
    }
  }

  /** Bits16 ranges over positions 0 to 15 and nothing else. */
  lemma Bits16Range(x: u16)
    ensures forall i :: i in Bits16(x) ==> 0 <= i < 16
  {
  }

  /** `(x & (0b11111 << s)) >> s == 0b11111` tests that bits `s .. s+4` of `x`
      are all set. */
  lemma Window(x: u16, s: nat)
    requires s <= 11
    ensures Shr(And(x, Shl16(31, s)), s) == 31
        <==> forall i :: s <= i < s + 5 ==> i in Bits16(x)
  {
    Pow2Values();
    var z := Shr(And(x, Shl16(31, s)), s);
    forall j | 0 <= j < 16 ensures Has(z, j) == (j < 5 && Has(x, j + s)) {
      HasShr(And(x, Shl16(31, s)), s, j);
      HasAnd(x, Shl16(31, s), j + s);
      HasShl16(31, s, j + s);
      HasAllOnesMinus(5, 0, j);
    }
    forall j | 0 <= j < 16 ensures Has(31, j) == (j < 5) {
      HasAllOnesMinus(5, 0, j);
    }
    if forall i :: s <= i < s + 5 ==> i in Bits16(x) {
      forall j | 0 <= j < 16 ensures Has(z, j) == Has(31, j) {
        if j < 5 { assert j + s in Bits16(x); }
      }
      BitsDetermine(z, 31, 16);
    }
    if z == 31 {
      forall i | s <= i < s + 5 ensures i in Bits16(x) {
        assert Has(z, i - s);
      }
    }
  }

  // ---------------------------------------------------------------------------
  // The order of masks: the highest member where two sets differ decides

  /** Each step of `MaskBelow` adds the next bit's value. */
  lemma MaskBelowStep(s: set<int>, k: nat)
    requires k > 0
    ensures MaskBelow(s, k) == MaskBelow(s, k - 1) + if k - 1 in s then Pow2(k - 1) else 0
  {
    var low := MaskBelow(s, k - 1);
    if k - 1 in s {
      var top := Pow2(k - 1);
      forall i | 0 <= i < k ensures !Has(And(low, top), i) {
        HasAnd(low, top, i);
        HasPow2(k - 1, i);
        if i == k - 1 { NoHighBits(low, k - 1, i); }
      }
      ZeroBits(And(low, top), k);
      OrDisjoint(low, top);
    }
  }

  lemma {:induction false} MaskBelowOrder(s: set<int>, t: set<int>, d: int, k: nat)
    requires d in s && d !in t && 0 <= d < k
    requires forall x :: d < x < k ==> (x in s <==> x in t)
    ensures MaskBelow(s, k) > MaskBelow(t, k)
    decreases k
  {
    MaskBelowStep(s, k);
    MaskBelowStep(t, k);
    if k > d + 1 {
      MaskBelowOrder(s, t, d, k - 1);
    }
  }

  /** Of two sets of bit positions, the one holding the highest position
      where they differ has the larger mask. */
  lemma MaskOrder(s: set<int>, t: set<int>, d: int)
    requires d in s && d !in t && 0 <= d < 16
    requires forall x :: d < x < 16 ==> (x in s <==> x in t)
    ensures Mask16(s) > Mask16(t)
  {
    Pow2Values();
    MaskBelowOrder(s, t, d, 16);
  }
}
