/** Alignment by bit mask, as the obstack macros compute it (chapter03/share/obstack.h).

    C's `&` and `~` are modelled on two's-complement integers of unbounded width, so the
    formulas below are the header's own; what they mean in terms of multiples is proved. */
module Align {

  /** `~a` in two's complement. */
  function Not(a: int): int {
    -a - 1
  }

  /** How far `x` is from the two integers whose bits are all equal, 0 and -1. */
  function Magnitude(x: int): nat {
    if x < 0 then -x - 1 else x
  }

  /** `x & y` in two's complement, lowest bit last. */
  function And(x: int, y: int): int
    decreases Magnitude(x) + Magnitude(y)
  {
    if (x == 0 || x == -1) && (y == 0 || y == -1) then
      if x == -1 && y == -1 then -1 else 0
    else
      2 * And(x / 2, y / 2) + (if x % 2 == 1 && y % 2 == 1 then 1 else 0)
  }

  predicate IsPowerOfTwo(n: int) {
    n == 1 || (n > 1 && n % 2 == 0 && IsPowerOfTwo(n / 2))
  }

  /** A mask is one less than a power of two: the header requires it of every `A`. */
  predicate IsMask(a: int) {
    IsPowerOfTwo(a + 1)
  }

  /** None of the address bits that `a` selects is set. */
  predicate Clear(p: int, a: int) {
    And(p, a) == 0
  }

  /** `__BPTR_ALIGN`. */
  function BptrAlign(b: int, p: int, a: int): int {
    b + And(p - b + a, Not(a))
  }

  /** `__PTR_ALIGN` where pointers convert to integers: alignment relative to address 0. */
  function PtrAlign(b: int, p: int, a: int): int {
    BptrAlign(0, p, a)
  }

  /** `__PTR_ALIGN` where `PTR_INT_TYPE` is narrower than a pointer: relative to the base. */
  function PtrAlignNarrow(b: int, p: int, a: int): int {
    BptrAlign(b, p, a)
  }

  // ----- what the bit operations compute -----

  /** Multiplication by a positive number, as a function so that proofs see it linearly. */
  function Times(m: int, k: int): int {
    m * k
  }

  lemma TimesSteps(m: int, j: int, k: int)
    requires m > 0 && j < k
    ensures Times(m, j) + m <= Times(m, k)
  {
    assert Times(m, k) - Times(m, j) == m * (k - j);
    assert m * (k - j) == m * (k - j - 1) + m;
  }

  lemma DivModUnique(x: int, m: int, q: int, r: int)
    requires m > 0 && 0 <= r < m && x == Times(m, q) + r
    ensures x / m == q && x % m == r
  {
    assert x == Times(m, x / m) + x % m;
    if x / m < q {
      TimesSteps(m, x / m, q);
    } else if q < x / m {
      TimesSteps(m, q, x / m);
    }
  }

  lemma ModTwice(x: int, m: int)
    requires m > 0
    ensures x % (2 * m) == 2 * ((x / 2) % m) + x % 2
  {
    var h := x / 2;
    var q, t := h / m, h % m;
    assert h == Times(m, q) + t;
    assert x == Times(2 * m, q) + (2 * t + x % 2);
    DivModUnique(x, 2 * m, q, 2 * t + x % 2);
  }

  lemma {:induction false} AndZero(x: int)
    ensures And(x, 0) == 0
    decreases Magnitude(x)
  {
    if x == 0 || x == -1 {
    } else {
      AndZero(x / 2);
    }
  }

  lemma {:induction false} AndOnes(x: int)
    ensures And(x, -1) == x
    decreases Magnitude(x)
  {
    if x == 0 || x == -1 {
    } else {
      AndOnes(x / 2);
    }
  }

  /** Masking keeps the remainder modulo the power of two. */
  lemma {:induction false} AndMask(x: int, a: int)
    requires IsMask(a)
    ensures And(x, a) == x % (a + 1)
    decreases a
  {
    if a == 0 {
      AndZero(x);
    } else {
      var b := a / 2;
      assert a + 1 == 2 * (b + 1);
      AndMask(x / 2, b);
      ModTwice(x, b + 1);
    }
  }

  /** Masking with the complement drops the remainder. */
  lemma {:induction false} AndNotMask(x: int, a: int)
    requires IsMask(a)
    ensures And(x, Not(a)) == x - x % (a + 1)
    decreases a
  {
    if a == 0 {
      AndOnes(x);
    } else {
      var b := a / 2;
      assert a + 1 == 2 * (b + 1);
      assert Not(a) / 2 == Not(b) && Not(a) % 2 == 0;
      AndNotMask(x / 2, b);
      ModTwice(x, b + 1);
    }
  }

  lemma ModZeroDifference(x: int, y: int, m: int)
    requires m > 0 && x % m == 0 && y % m == 0
    ensures (x - y) % m == 0 && (x + y) % m == 0
  {
    assert x - y == Times(m, x / m - y / m);
    assert x + y == Times(m, x / m + y / m);
    DivModUnique(x - y, m, x / m - y / m, 0);
    DivModUnique(x + y, m, x / m + y / m, 0);
  }

  lemma ClearIsMultiple(p: int, a: int)
    requires IsMask(a)
    ensures Clear(p, a) <==> p % (a + 1) == 0
  {
    AndMask(p, a);
  }

  lemma DropRemainder(x: int, m: int)
    requires m > 0
    ensures (x - x % m) % m == 0 && x - m < x - x % m <= x
  {
    assert x - x % m == Times(m, x / m);
    DivModUnique(x - x % m, m, x / m, 0);
  }

  /** Two multiples less than one step apart are the same. */
  lemma MultipleGap(x: int, y: int, m: int)
    requires m > 0 && x % m == 0 && y % m == 0 && x < y
    ensures x + m <= y
  {
    assert x == Times(m, x / m) && y == Times(m, y / m);
    if y / m < x / m {
      TimesSteps(m, y / m, x / m);
    } else if x / m < y / m {
      TimesSteps(m, x / m, y / m);
    }
  }

  /** `p` lies a whole number of steps of `a + 1` from `b`. */
  predicate OnGrid(b: int, p: int, a: int)
    requires a >= 0
  {
    (p - b) % (a + 1) == 0
  }

  /** `__BPTR_ALIGN` gives the least address at or above `p` a whole number of steps from `b`. */
  lemma BptrAlignLeast(b: int, p: int, a: int)
    requires IsMask(a)
    ensures var r := BptrAlign(b, p, a);
            && p <= r <= p + a
            && OnGrid(b, r, a)
            && forall q :: p <= q && OnGrid(b, q, a) ==> r <= q
  {
    var r := BptrAlign(b, p, a);
    AndNotMask(p - b + a, a);
    DropRemainder(p - b + a, a + 1);
    forall q | p <= q && OnGrid(b, q, a)
      ensures r <= q
    {
      if q < r { MultipleGap(q - b, r - b, a + 1); }
    }
  }

  lemma BptrAlignIdempotent(b: int, p: int, a: int)
    requires IsMask(a)
    ensures BptrAlign(b, BptrAlign(b, p, a), a) == BptrAlign(b, p, a)
  {
    BptrAlignLeast(b, p, a);
    BptrAlignLeast(b, BptrAlign(b, p, a), a);
  }

  lemma BptrAlignMonotone(b: int, p: int, q: int, a: int)
    requires IsMask(a) && p <= q
    ensures BptrAlign(b, p, a) <= BptrAlign(b, q, a)
  {
    BptrAlignLeast(b, p, a);
    BptrAlignLeast(b, q, a);
  }

  lemma GridShift(b: int, p: int, a: int)
    requires a >= 0 && OnGrid(0, b, a)
    ensures OnGrid(b, p, a) <==> OnGrid(0, p, a)
  {
    if OnGrid(b, p, a) { ModZeroDifference(p - b, b, a + 1); }
    if OnGrid(0, p, a) { ModZeroDifference(p, b, a + 1); }
  }

  lemma GridBase(b: int, p: int, a: int)
    requires a >= 0 && OnGrid(0, p, a) && OnGrid(b, p, a)
    ensures OnGrid(0, b, a)
  {
    ModZeroDifference(p, p - b, a + 1);
  }

  lemma ClearIsOnGrid(b: int, a: int)
    requires IsMask(a)
    ensures Clear(b, a) <==> OnGrid(0, b, a)
  {
    ClearIsMultiple(b, a);
    assert b - 0 == b;
  }

  /** The two strategies of `__PTR_ALIGN` agree exactly when the base itself is aligned. */
  lemma PtrAlignFormsAgree(b: int, p: int, a: int)
    requires IsMask(a)
    ensures PtrAlign(b, p, a) == PtrAlignNarrow(b, p, a) <==> Clear(b, a)
  {
    var r0, rb := PtrAlign(b, p, a), PtrAlignNarrow(b, p, a);
    BptrAlignLeast(0, p, a);
    BptrAlignLeast(b, p, a);
    ClearIsOnGrid(b, a);
    if OnGrid(0, b, a) {
      GridShift(b, r0, a);
      GridShift(b, rb, a);
    } else if r0 == rb {
      GridBase(b, r0, a);
    }
  }

  /** What the obstack proofs use: the aligned address is clear in the mask and close by,
      and an address already clear is left alone. */
  lemma PtrAlignFacts(b: int, p: int, a: int)
    requires IsMask(a)
    ensures p <= PtrAlign(b, p, a) <= p + a
    ensures Clear(PtrAlign(b, p, a), a)
    ensures Clear(p, a) ==> PtrAlign(b, p, a) == p
  {
    BptrAlignLeast(0, p, a);
    ClearIsOnGrid(PtrAlign(b, p, a), a);
    ClearIsOnGrid(p, a);
  }
}
