/** The `align_down!` and `align_up!` macros of `src/macros.rs`. */
module Alignment {

  /** `value & !(alignment - 1)`, which for a power of two is the multiple of `alignment` at or below `value`. */
  function AlignDown(value: nat, alignment: nat): (r: nat)
    requires alignment > 0
    ensures r % alignment == 0 && r <= value < r + alignment
  {
    MultipleMod(value / alignment, alignment);
    value / alignment * alignment
  }

  function AlignUp(value: nat, alignment: nat): (r: nat)
    requires alignment > 0
    ensures r % alignment == 0 && value <= r < value + alignment
  {
    AlignDown(value + (alignment - 1), alignment)
  }

  lemma {:induction false} MultipleMod(q: nat, d: nat)
    requires d > 0
    ensures (q * d) % d == 0
  {
    if q > 0 {
      MultipleMod(q - 1, d);
      assert q * d == (q - 1) * d + d;
      AddModulus((q - 1) * d, d);
    }
  }

  lemma AddModulus(a: nat, d: nat)
    requires d > 0
    ensures (a + d) % d == a % d
  {
    var q, r := a / d, a % d;
    assert a + d == (q + 1) * d + r;
    DivUnique(a + d, d, q + 1, r);
  }

  lemma DivUnique(a: nat, d: nat, q: nat, r: nat)
    requires d > 0 && a == q * d + r && r < d
    ensures a / d == q && a % d == r
  {
    assert a == (a / d) * d + a % d;
    MultipleGap(a / d - q, d);
    assert (a / d - q) * d == r - a % d;
  }

  lemma MultipleGap(k: int, d: nat)
    requires d > 0
    ensures k >= 1 ==> k * d >= d
    ensures k <= -1 ==> k * d + d <= 0
  {
  }

  /** Two multiples of `d` that are less than `d` apart are equal. */
  lemma MultiplesApart(a: nat, b: nat, d: nat)
    requires d > 0 && a % d == 0 && b % d == 0 && a <= b
    ensures a < b ==> a + d <= b
  {
    assert a == (a / d) * d && b == (b / d) * d;
    MultipleGap(b / d - a / d, d);
    assert (b / d - a / d) * d == b - a;
  }

  /** `AlignUp` finds the least multiple. */
  lemma AlignUpLeast(value: nat, alignment: nat, p: nat)
    requires alignment > 0 && p % alignment == 0 && value <= p
    ensures AlignUp(value, alignment) <= p
  {
    var r := AlignUp(value, alignment);
    if p < r {
      MultiplesApart(p, r, alignment);
    }
  }

  lemma AlignUpFixed(value: nat, alignment: nat)
    requires alignment > 0
    ensures AlignUp(value, alignment) == value <==> value % alignment == 0
  {
    if value % alignment == 0 {
      AlignUpLeast(value, alignment, value);
    }
  }

  // ----- Powers of two -----

  function Pow2(n: nat): (p: nat)
    ensures p >= 1
  {
    if n == 0 then 1 else 2 * Pow2(n - 1)
  }

  predicate IsPow2(a: nat) {
    exists n :: 0 <= n <= a && a == Pow2(n)
  }

  lemma {:induction false} Pow2Divides(m: nat, n: nat)
    requires m <= n
    ensures Pow2(n) % Pow2(m) == 0
    decreases n
  {
    if m < n {
      Pow2Divides(m, n - 1);
      assert Pow2(n - 1) == Pow2(n - 1) / Pow2(m) * Pow2(m);
      assert Pow2(n) == 2 * (Pow2(n - 1) / Pow2(m)) * Pow2(m);
      MultipleMod(2 * (Pow2(n - 1) / Pow2(m)), Pow2(m));
    } else {
      MultipleMod(1, Pow2(m));
    }
  }

  /** A multiple of a multiple of 8 is a multiple of 8. */
  lemma MultipleOfMultiple(a: nat, b: nat, c: nat)
    requires b > 0 && c > 0 && a % b == 0 && b % c == 0
    ensures a % c == 0
  {
    assert a == a / b * b && b == b / c * c;
    assert a == (a / b * (b / c)) * c;
    MultipleMod(a / b * (b / c), c);
  }
}
