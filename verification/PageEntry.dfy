/**
 Page table entries of `src/arch/x86_64/mm/paging.rs`: a 64-bit word that combines a physical address with
 flags (section 4.5 of the Intel SDM, volume 3A) and a protection key in bits 62:59 (section 4.6.2).
 Words are natural numbers below 2^64; masks are written as division and remainder by powers of two.
 */
module PageEntry {
  import opened Alignment

  const KIB4 := 0x1000
  const MIB2 := 0x20_0000
  const GIB1 := 0x4000_0000
  const BIT59 := 0x800_0000_0000_0000
  const BIT63 := 0x8000_0000_0000_0000
  const WORD := 0x1_0000_0000_0000_0000

  /** Physical addresses have at most 52 bits. */
  const PHYS_LIMIT := 0x10_0000_0000_0000

  // ----- Bitwise or -----

  function BitOr(x: nat, y: nat): nat {
    if x == 0 then y
    else if y == 0 then x
    else (if x % 2 == 1 || y % 2 == 1 then 1 else 0) + 2 * BitOr(x / 2, y / 2)
  }

  /** Bits of `x` and `y` that do not meet below a power of two add up. */
  lemma {:induction false} OrLow(x: nat, y: nat, n: nat)
    requires y < Pow2(n)
    ensures BitOr(x * Pow2(n), y) == x * Pow2(n) + y
    ensures BitOr(y, x * Pow2(n)) == x * Pow2(n) + y
    decreases n
  {
    if n > 0 && y > 0 && x > 0 {
      var p := Pow2(n - 1);
      assert x * Pow2(n) == 2 * (x * p);
      assert x * p > 0 by { MulPositive(x, p); }
      assert (x * Pow2(n)) / 2 == x * p && (x * Pow2(n)) % 2 == 0;
      OrLow(x, y / 2, n - 1);
    }
  }

  lemma MulPositive(x: nat, p: nat)
    requires x > 0 && p > 0
    ensures x * p > 0
  {
  }

  lemma {:induction false} OrSymmetric(x: nat, y: nat)
    ensures BitOr(x, y) == BitOr(y, x)
  {
    if x > 0 && y > 0 {
      OrSymmetric(x / 2, y / 2);
    }
  }

  /** Below a shift by `n` bits the lower word is copied, above it the words are combined. */
  lemma {:induction false} OrShift(a: nat, b: nat, low: nat, n: nat)
    requires low < Pow2(n)
    ensures BitOr(a * Pow2(n), b * Pow2(n) + low) == BitOr(a, b) * Pow2(n) + low
    decreases n
  {
    if n > 0 {
      var p := Pow2(n - 1);
      assert Pow2(n) == 2 * p;
      hide *;
      OrShift(a, b, low / 2, n - 1);
      OrDouble(a, b, low, p);
    } else {
      assert a * Pow2(0) == a && b * Pow2(0) + low == b;
    }
  }

  lemma OrUnfold(u: nat, v: nat, r: nat)
    requires r < 2
    ensures BitOr(2 * u, 2 * v + r) == r + 2 * BitOr(u, v)
  {
    DivUnique(2 * u, 2, u, 0);
    DivUnique(2 * v + r, 2, v, r);
  }

  lemma OrDouble(a: nat, b: nat, low: nat, p: nat)
    requires BitOr(a * p, b * p + low / 2) == BitOr(a, b) * p + low / 2
    ensures BitOr(a * (2 * p), b * (2 * p) + low) == BitOr(a, b) * (2 * p) + low
  {
    hide BitOr;
    var c := BitOr(a, b);
    var u, v, w := a * p, b * p, c * p;
    assert a * (2 * p) == 2 * u && b * (2 * p) == 2 * v && c * (2 * p) == 2 * w;
    OrUnfold(u, v + low / 2, low % 2);
  }

  lemma Powers()
    ensures Pow2(12) == KIB4 && Pow2(21) == MIB2 && Pow2(30) == GIB1 && Pow2(59) == BIT59
  {
    assert Pow2(3) == 8 by { assert Pow2(2) == 4; }
    PowerSum(3, 3);
    PowerSum(6, 3);
    PowerSum(9, 3);
    PowerSum(12, 9);
    PowerSum(21, 9);
    PowerSum(30, 30);
    assert Pow2(60) == 2 * Pow2(59);
  }

  lemma {:induction false} PowerSum(m: nat, n: nat)
    ensures Pow2(m + n) == Pow2(m) * Pow2(n)
  {
    if n > 0 {
      PowerSum(m, n - 1);
    }
  }

  // ----- Flags -----

  datatype Flags = Flags(
    present: bool, writable: bool, user: bool, writeThrough: bool, cacheDisable: bool,
    accessed: bool, dirty: bool, huge: bool, global_: bool, executeDisable: bool, pkey: nat)

  function Bit(b: bool): (r: nat)
    ensures r <= 1
  {
    if b then 1 else 0
  }

  /** Bits 6:2. */
  function MiddleFlags(f: Flags): (bits: nat)
    ensures bits < 32
  {
    hide Bit;
    Bit(f.user) + 2 * (Bit(f.writeThrough) + 2 * (Bit(f.cacheDisable) + 2 * (Bit(f.accessed) + 2 * Bit(f.dirty))))
  }

  /** Bits 6:0. */
  function LowerFlags(f: Flags): (bits: nat)
    ensures bits < 128
  {
    hide MiddleFlags;
    Bit(f.present) + 2 * (Bit(f.writable) + 2 * MiddleFlags(f))
  }

  /** Bits 8:0. */
  function LowBits(f: Flags): (low: nat)
    ensures low < 512
  {
    LowerFlags(f) + 128 * (Bit(f.huge) + 2 * Bit(f.global_))
  }

  /** Bits 63:59. */
  function HighBits(f: Flags): nat {
    f.pkey + 16 * Bit(f.executeDisable)
  }

  // ----- Entries -----

  /** `address`: bits 58:12. */
  function Address(e: nat): nat {
    e / KIB4 % (BIT59 / KIB4) * KIB4
  }

  predicate Present(e: nat) {
    e % 2 == 1
  }

  predicate Huge(e: nat) {
    e / 128 % 2 == 1
  }

  function Key(e: nat): nat {
    e / BIT59 % 16
  }

  predicate ExecuteDisable(e: nat) {
    e / BIT63 % 2 == 1
  }

  predicate Writable(e: nat) {
    e / 2 % 2 == 1
  }

  predicate User(e: nat) {
    e / 4 % 2 == 1
  }

  predicate WriteThrough(e: nat) {
    e / 8 % 2 == 1
  }

  predicate CacheDisable(e: nat) {
    e / 16 % 2 == 1
  }

  predicate Accessed(e: nat) {
    e / 32 % 2 == 1
  }

  predicate Dirty(e: nat) {
    e / 64 % 2 == 1
  }

  predicate Global(e: nat) {
    e / 256 % 2 == 1
  }

  /** All flags of an entry. */
  function FlagsOf(e: nat): Flags {
    Flags(Present(e), Writable(e), User(e), WriteThrough(e), CacheDisable(e), Accessed(e), Dirty(e), Huge(e), Global(e),
          ExecuteDisable(e), Key(e))
  }

  /** The flags that `set` really stores. */
  function StoredFlags(f: Flags): Flags {
    f.(present := true, accessed := true, user := true)
  }

  /** The word that `set` stores: address, low flags, key and execute-disable bit, combined by `|`. */
  function Pack(pa: nat, f: Flags): nat {
    BitOr(HighBits(f) * BIT59, BitOr(pa, LowBits(StoredFlags(f))))
  }

  /** The assertions of `set`. */
  predicate CanSet(pa: nat, f: Flags) {
    pa < PHYS_LIMIT && f.pkey < 16 && pa % KIB4 == 0 && (f.huge ==> pa % MIB2 == 0)
  }

  lemma PackIsSum(pa: nat, f: Flags)
    requires pa % KIB4 == 0 && pa < PHYS_LIMIT
    ensures Pack(pa, f) == HighBits(f) * BIT59 + pa + LowBits(StoredFlags(f))
  {
    Powers();
    hide Pow2;
    var low := LowBits(StoredFlags(f));
    hide LowBits;
    OrLow(pa / KIB4, low, 12);
    OrLow(HighBits(f), pa + low, 59);
  }

  /** Field extraction from a word whose fields are given. */
  lemma Fields(e: nat, low: nat, pa: nat, high: nat)
    requires e == high * BIT59 + pa + low && low < KIB4 && pa % KIB4 == 0 && pa < PHYS_LIMIT && high < 32
    ensures e < WORD && Address(e) == pa && e % KIB4 == low && e / BIT59 == high
  {
    assert e / BIT59 == high;
    assert e / KIB4 == high * (BIT59 / KIB4) + pa / KIB4;
    assert e / KIB4 % (BIT59 / KIB4) == pa / KIB4;
  }

  /** What entry `e` says is address `pa` and the flags `f`, and it is present, accessed and for user mode. */
  predicate Says(e: nat, pa: nat, f: Flags) {
    && e < WORD && Address(e) == pa && Present(e) && Accessed(e) && User(e)
    && Writable(e) == f.writable && WriteThrough(e) == f.writeThrough && CacheDisable(e) == f.cacheDisable
    && Dirty(e) == f.dirty && Huge(e) == f.huge && Global(e) == f.global_
    && ExecuteDisable(e) == f.executeDisable && Key(e) == f.pkey
  }

  /** An entry gives back the address and every flag it was set to. */
  lemma PackFields(pa: nat, f: Flags)
    requires CanSet(pa, f)
    ensures Says(Pack(pa, f), pa, f) && FlagsOf(Pack(pa, f)) == StoredFlags(f)
  {
    PackAll(pa, f);
    assert StoredFlags(f) == Flags(true, f.writable, true, f.writeThrough, f.cacheDisable, true, f.dirty, f.huge,
                                   f.global_, f.executeDisable, f.pkey);
    hide Pack, Address, Present, Writable, User, WriteThrough, CacheDisable, Accessed, Dirty, Huge, Global,
      ExecuteDisable, Key, StoredFlags;
  }

  lemma PackAll(pa: nat, f: Flags)
    requires CanSet(pa, f)
    ensures Pack(pa, f) < WORD && Address(Pack(pa, f)) == pa && FlagsOf(Pack(pa, f)) == StoredFlags(f)
  {
    PackIsSum(pa, f);
    var e, low := Pack(pa, f), LowBits(StoredFlags(f));
    Fields(e, low, pa, HighBits(f));
    hide Pack, LowBits, HighBits, Address, StoredFlags;
    LowFlags(e, StoredFlags(f));
    HighFlags(e, StoredFlags(f));
    assert Present(e) == StoredFlags(f).present;
    hide Present, Writable, User, WriteThrough, CacheDisable, Accessed, Dirty, Huge, Global, ExecuteDisable, Key;
  }

  lemma LowFlags(e: nat, f: Flags)
    requires e % KIB4 == LowBits(f)
    ensures Present(e) == f.present && Writable(e) == f.writable && User(e) == f.user
    ensures WriteThrough(e) == f.writeThrough && CacheDisable(e) == f.cacheDisable && Accessed(e) == f.accessed
    ensures Dirty(e) == f.dirty && Huge(e) == f.huge && Global(e) == f.global_
  {
    LowFields(f);
    LowPart(e);
    hide LowBits;
  }

  lemma HighFlags(e: nat, f: Flags)
    requires e / BIT59 == HighBits(f) && f.pkey < 16
    ensures Key(e) == f.pkey && ExecuteDisable(e) == f.executeDisable
  {
    HighPart(e);
  }

  lemma LowFields(f: Flags)
    ensures var low := LowBits(f);
            && low % 2 == Bit(f.present) && low / 2 % 2 == Bit(f.writable) && low / 4 % 2 == Bit(f.user)
            && low / 8 % 2 == Bit(f.writeThrough) && low / 16 % 2 == Bit(f.cacheDisable)
              && low / 32 % 2 == Bit(f.accessed)
            && low / 64 % 2 == Bit(f.dirty) && low / 128 % 2 == Bit(f.huge) && low / 256 % 2 == Bit(f.global_)
  {
    hide Bit;
    Digits(LowBits(f), Bit(f.present), Bit(f.writable), Bit(f.user), Bit(f.writeThrough), Bit(f.cacheDisable),
           Bit(f.accessed), Bit(f.dirty), Bit(f.huge), Bit(f.global_));
  }

  /** The binary digits of a number. */
  lemma Digits(low: nat, p: nat, w: nat, u: nat, t: nat, c: nat, a: nat, d: nat, h: nat, g: nat)
    requires low == p + 2 * w + 4 * u + 8 * t + 16 * c + 32 * a + 64 * d + 128 * h + 256 * g
    requires p <= 1 && w <= 1 && u <= 1 && t <= 1 && c <= 1 && a <= 1 && d <= 1 && h <= 1 && g <= 1
    ensures low % 2 == p && low / 2 % 2 == w && low / 4 % 2 == u && low / 8 % 2 == t && low / 16 % 2 == c
    ensures low / 32 % 2 == a && low / 64 % 2 == d && low / 128 % 2 == h && low / 256 % 2 == g
  {
    Digit(low, 1, 0, p, w + 2 * u + 4 * t + 8 * c + 16 * a + 32 * d + 64 * h + 128 * g);
    Digit(low, 2, p, w, u + 2 * t + 4 * c + 8 * a + 16 * d + 32 * h + 64 * g);
    Digit(low, 4, p + 2 * w, u, t + 2 * c + 4 * a + 8 * d + 16 * h + 32 * g);
    Digit(low, 8, p + 2 * w + 4 * u, t, c + 2 * a + 4 * d + 8 * h + 16 * g);
    Digit(low, 16, p + 2 * w + 4 * u + 8 * t, c, a + 2 * d + 4 * h + 8 * g);
    Digit(low, 32, p + 2 * w + 4 * u + 8 * t + 16 * c, a, d + 2 * h + 4 * g);
    Digit(low, 64, p + 2 * w + 4 * u + 8 * t + 16 * c + 32 * a, d, h + 2 * g);
    Digit(low, 128, p + 2 * w + 4 * u + 8 * t + 16 * c + 32 * a + 64 * d, h, g);
    Digit(low, 256, p + 2 * w + 4 * u + 8 * t + 16 * c + 32 * a + 64 * d + 128 * h, g, 0);
  }

  lemma Digit(low: nat, k: nat, rest: nat, b: nat, top: nat)
    requires low == rest + k * (b + 2 * top) && rest < k && b <= 1
    ensures low / k % 2 == b
  {
    DivUnique(low, k, b + 2 * top, rest);
    DivUnique(b + 2 * top, 2, top, b);
  }

  /** The digits below bit 12 depend on the page offset of the word only. */
  lemma LowPart(e: nat)
    ensures var r := e % KIB4;
            && e % 2 == r % 2 && e / 2 % 2 == r / 2 % 2 && e / 4 % 2 == r / 4 % 2 && e / 8 % 2 == r / 8 % 2
            && e / 16 % 2 == r / 16 % 2 && e / 32 % 2 == r / 32 % 2 && e / 64 % 2 == r / 64 % 2
            && e / 128 % 2 == r / 128 % 2 && e / 256 % 2 == r / 256 % 2
  {
    LowDigit(e, 1, 2048);
    LowDigit(e, 2, 1024);
    LowDigit(e, 4, 512);
    LowDigit(e, 8, 256);
    LowDigit(e, 16, 128);
    LowDigit(e, 32, 64);
    LowDigit(e, 64, 32);
    LowDigit(e, 128, 16);
    LowDigit(e, 256, 8);
  }

  lemma LowDigit(e: nat, k: nat, n: nat)
    requires k > 0 && k * n * 2 == KIB4
    ensures e / k % 2 == e % KIB4 / k % 2
  {
    var q, r := e / KIB4, e % KIB4;
    calc {
      e;
      k * n * 2 * q + r;
      k * (n * 2 * q) + k * (r / k) + r % k;
      k * (n * 2 * q + r / k) + r % k;
    }
    DivUnique(e, k, n * 2 * q + r / k, r % k);
    DivUnique(n * 2 * q + r / k, 2, n * q + r / k / 2, r / k % 2);
  }

  lemma HighPart(e: nat)
    ensures e / BIT63 == e / BIT59 / 16
  {
  }

  // ----- Changing the protection key -----

  /** `e & !(0xF << 59) | key << 59`, with the shift of an 8-bit key truncated to 64 bits. */
  function WithKey(e: nat, key: nat): nat {
    BitOr(key % 32 * BIT59, e - Key(e) * BIT59)
  }

  lemma OrHigh(k: nat, x: nat, low: nat)
    requires low < BIT59
    ensures BitOr(k * BIT59, x * BIT59 + low) == BitOr(k, x) * BIT59 + low
  {
    Powers();
    hide Pow2, BitOr;
    OrShift(k, x, low, 59);
  }

  lemma WithoutKey(e: nat)
    ensures e - Key(e) * BIT59 == e / BIT59 / 16 * 16 * BIT59 + e % BIT59
  {
    var high := e / BIT59;
    assert high == high / 16 * 16 + high % 16;
  }

  lemma WithKeySum(e: nat, key: nat)
    ensures WithKey(e, key) == BitOr(key % 32, e / BIT59 / 16 * 16) * BIT59 + e % BIT59
  {
    hide BitOr, Key;
    WithoutKey(e);
    OrHigh(key % 32, e / BIT59 / 16 * 16, e % BIT59);
  }

  lemma WithKeyLow(e: nat, key: nat)
    ensures WithKey(e, key) % KIB4 == e % KIB4 && Address(WithKey(e, key)) == Address(e)
  {
    WithKeySum(e, key);
    hide WithKey, BitOr, Address;
    SameLow(e, e / BIT59, WithKey(e, key), BitOr(key % 32, e / BIT59 / 16 * 16), e % BIT59);
  }

  /** Changing the key of an entry keeps its address and low flags.  A key of 16 or more also sets the
      execute-disable bit if it is odd as a multiple of 16. */
  lemma WithKeyFields(e: nat, key: nat)
    requires e < WORD
    ensures var e' := WithKey(e, key);
            && e' < WORD && Address(e') == Address(e) && e' % KIB4 == e % KIB4
            && Key(e') == key % 16 && (ExecuteDisable(e') <==> ExecuteDisable(e) || key / 16 % 2 == 1)
  {
    WithKeySum(e, key);
    var x := e / BIT59 / 16;
    assert x <= 1;
    KeyBits(key);
    OrSmall(key % 32, x);
    HighPart(e);
    var high' := if x == 1 || key % 32 >= 16 then key % 16 + 16 else key % 16;
    var e' := WithKey(e, key);
    assert e' == high' * BIT59 + e % BIT59;
    hide WithKey, Address, BitOr;
    SameLow(e, e / BIT59, e', high', e % BIT59);
  }

  lemma KeyBits(key: nat)
    ensures key % 32 % 16 == key % 16 && (key % 32 >= 16 <==> key / 16 % 2 == 1)
  {
    var q, r := key / 32, key % 32;
    DivUnique(key, 16, 2 * q + r / 16, r % 16);
    DivUnique(2 * q + r / 16, 2, q, r / 16);
  }

  /** Words that differ only above bit 58. */
  lemma SameLow(e: nat, high: nat, e': nat, high': nat, low: nat)
    requires low < BIT59 && e == high * BIT59 + low && e' == high' * BIT59 + low
    ensures Address(e') == Address(e) && e' % KIB4 == e % KIB4
    ensures e' / BIT59 == high' && e' / BIT63 == high' / 16
  {
    var c := BIT59 / KIB4;
    var q, r := low / KIB4, low % KIB4;
    DivUnique(e, KIB4, high * c + q, r);
    DivUnique(e', KIB4, high' * c + q, r);
    DivUnique(high * c + q, c, high, q);
    DivUnique(high' * c + q, c, high', q);
    DivUnique(e', BIT59, high', low);
    HighPart(e');
  }

  lemma OrSmall(k: nat, x: nat)
    requires k < 32 && x <= 1
    ensures BitOr(k, x * 16) == if x == 1 || k >= 16 then k % 16 + 16 else k % 16
  {
    hide Pow2, BitOr;
    SmallOrs(k);
    if x == 1 && k < 16 {
      OrLow(1, k, 4);
    } else if x == 1 {
      OrSymmetric(k, 16);
      OrShift(1, 1, k - 16, 4);
    }
  }

  lemma SmallOrs(k: nat)
    ensures BitOr(1, 1) == 1 && BitOr(k, 0) == k && Pow2(4) == 16
  {
    assert Pow2(2) == 4;
  }
}
