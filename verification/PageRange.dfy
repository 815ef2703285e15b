/** Ranges of pages: `Page::including_address`, `get_page_range` and `PageIter` of `src/arch/x86_64/mm/paging.rs`. */
module PageRange {
  import opened Alignment
  import opened PageEntry
  import opened PageWalk

  const LOWER_END := 0x8000_0000_0000
  const UPPER_START := 0xFFFF_8000_0000_0000

  /** Where slot 511 begins. */
  const SELF_START := 0xFFFF_FF80_0000_0000

  /** `is_valid_address` */
  predicate ValidAddress(va: nat) {
    va < LOWER_END || UPPER_START <= va < WORD
  }

  /** A valid address outside the self-mapped region. */
  predicate Plain(va: nat) {
    va < LOWER_END || UPPER_START <= va < SELF_START
  }

  /** A range that lies in one half of the address space and outside the self-mapped region. */
  predicate PlainRange(first: nat, end: nat) {
    end <= LOWER_END || (UPPER_START <= first && end <= SELF_START)
  }

  lemma PlainIsUsable(va: nat)
    ensures Plain(va) <==> ValidAddress(va) && Usable(va)
  {
  }

  function FirstPage(va: nat, size: nat): nat
    requires size <= 2
  {
    AlignDown(va, Shift(size))
  }

  /** The `i`-th page of a range. */
  function PageAt(va: nat, size: nat, i: nat): nat
    requires size <= 2
  {
    FirstPage(va + i * Shift(size), size)
  }

  function LastPage(va: nat, count: nat, size: nat): nat
    requires size <= 2 && count > 0
  {
    AlignDown(va + (count - 1) * Shift(size), Shift(size))
  }

  lemma LastIsFirst(va: nat, count: nat, size: nat)
    requires size <= 2 && count > 0
    ensures LastPage(va, count, size) + Shift(size) == FirstPage(va, size) + count * Shift(size)
    ensures FirstPage(va, size) <= LastPage(va, count, size)
  {
    var s, n := Shift(size), count - 1;
    var q, r := va / s, va % s;
    hide Shift;
    assert va + n * s == (q + n) * s + r;
    DivUnique(va + n * s, s, q + n, r);
    assert (q + n) * s == q * s + n * s;
    assert n * s + s == count * s;
  }

  /** Valid addresses lie in one page exactly if they take the same way through the tables. */
  lemma SamePage(v: nat, page: nat, size: nat)
    requires ValidAddress(v) && ValidAddress(page) && size <= 2 && page % Shift(size) == 0
    ensures Number(v, size) == Number(page, size) <==> page <= v < page + Shift(size)
    ensures page <= v < page + Shift(size) ==> AlignDown(v, Shift(size)) == page
  {
    var s := Shift(size);
    var c := if size == 0 then 0x10_0000_0000 else if size == 1 then 0x800_0000 else 0x4_0000;
    assert c * s == SPACE;
    var q := page / s;
    SplitSpace(v, size);
    SplitSpace(page, size);
    if page <= v < page + s {
      DivUnique(v, s, q, v - page);
    }
  }

  /** A valid address is its page number, which the upper half shifts by a constant, and an offset. */
  lemma SplitSpace(v: nat, size: nat)
    requires ValidAddress(v) && size <= 2
    ensures var s := Shift(size);
            v / s == Number(v, size) + (if v < LOWER_END then 0 else 65535 * (SPACE / s))
    ensures v < LOWER_END <==> Number(v, size) < LOWER_END / Shift(size)
  {
    var s := Shift(size);
    var c := if size == 0 then 0x10_0000_0000 else if size == 1 then 0x800_0000 else 0x4_0000;
    assert s * c == SPACE && s * (c / 2) == LOWER_END && SPACE / s == c && LOWER_END / s == c / 2;
    var h, r := if v < LOWER_END then 0 else 65535, v % SPACE;
    DivUnique(v, SPACE, h, v - h * SPACE);
    hide Shift;
    QuotientSplit(v, s, c, SPACE, h, r / s, r % s);
    Below(r, s, c / 2);
  }

  lemma Below(r: nat, s: nat, k: nat)
    requires s > 0
    ensures r < s * k <==> r / s < k
  {
    if r / s < k {
      MulMonotone(r / s + 1, k, s);
    } else {
      MulMonotone(k, r / s, s);
    }
  }
}
