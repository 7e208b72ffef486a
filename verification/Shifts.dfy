/** Shifts and masks of machine words as division and remainder. */
module Shifts {
  import opened Isaac

  // ---------------------------------------------------------------- numbers

  lemma TwiceTimes(n: nat, h: nat)
    ensures (2 * n) * h == 2 * (n * h)
  {
  }

  lemma Cancelled(n: nat, p: nat, q: nat)
    requires n > 0 && n * p == n * q
    ensures p == q
  {
    if p < q {
      Scale(p + 1, q, n);
    } else if p > q {
      Scale(q + 1, p, n);
    }
  }

  lemma DividesInto(x: nat, n: nat, q: nat, r: nat)
    requires x == n * q + r && r < n
    ensures x / n == q && x % n == r
  {
    RemainderIs(x, n, q, r);
    assert x == n * (x / n) + x % n;
    Cancelled(n, x / n, q);
  }

  lemma Distributes(n: nat, m: nat, p: nat, s: nat)
    ensures n * (m * p + s) == (m * n) * p + n * s
  {
    assert n * (m * p) == (m * n) * p;
  }

  lemma RestBelow(n: nat, m: nat, s: nat, r: nat)
    requires s < m && r < n
    ensures n * s + r < m * n
  {
    Scale(s + 1, m, n);
  }

  lemma Splits(x: nat, n: nat, q: nat, m: nat, p: nat, s: nat)
    requires q == m * p + s
    ensures n * q == (m * n) * p + n * s
  {
    Distributes(n, m, p, s);
  }

  /** Dividing by n and then by m is dividing by m * n. */
  lemma DividesTwice(x: nat, n: nat, m: nat)
    requires n > 0 && m > 0
    ensures m * n > 0 && x / n / m == x / (m * n)
  {
    var q, r := x / n, x % n;
    var p, s := q / m, q % m;
    Splits(x, n, q, m, p, s);
    RestBelow(n, m, s, r);
    DividesInto(x, m * n, p, n * s + r);
  }

  function Power(k: nat): (p: nat)
    ensures p > 0
  {
    if k == 0 then 1 else 2 * Power(k - 1)
  }

  // ---------------------------------------------------------------- any width

  /** Halving, the last bit, the value, the bits from `k` up and the bits below `k`. */
  datatype Bits<!W> = Bits(half: W -> W, bit: W -> nat, val: W -> nat, high: (W, nat) -> W, low: (W, nat) -> W)

  ghost predicate Halving<W(!new)>(o: Bits<W>) {
    forall x {:trigger o.half(x)} :: o.val(x) == 2 * o.val(o.half(x)) + o.bit(x)
  }

  ghost predicate Shifting<W(!new)>(o: Bits<W>) {
    (forall x {:trigger o.high(x, 0)} :: o.high(x, 0) == x) &&
    (forall x, k: nat {:trigger o.high(o.half(x), k)} :: k < 30 ==> o.high(x, k + 1) == o.high(o.half(x), k))
  }

  ghost predicate Masking<W(!new)>(o: Bits<W>) {
    (forall x {:trigger o.low(x, 0)} :: o.val(o.low(x, 0)) == 0) &&
    (forall x, k: nat {:trigger o.low(o.half(x), k)} :: k < 30 ==>
      o.half(o.low(x, k + 1)) == o.low(o.half(x), k) && o.bit(o.low(x, k + 1)) == o.bit(x))
  }

  lemma {:induction false} Parts<W(!new)>(o: Bits<W>, x: W, k: nat)
    requires Halving(o) && Shifting(o) && Masking(o) && k <= 30 && forall y :: o.bit(y) <= 1
    ensures o.val(x) == Power(k) * o.val(o.high(x, k)) + o.val(o.low(x, k)) && o.val(o.low(x, k)) < Power(k)
    decreases k
  {
    if k > 0 {
      Parts(o, o.half(x), k - 1);
      assert o.high(x, (k - 1) + 1) == o.high(o.half(x), k - 1);
      assert o.half(o.low(x, (k - 1) + 1)) == o.low(o.half(x), k - 1);
      assert o.bit(o.low(x, (k - 1) + 1)) == o.bit(x);
      TwiceTimes(Power(k - 1), o.val(o.high(x, k)));
    }
  }

  /** The bits from `k` up and the bits below are quotient and remainder by 2^k. */
  lemma QuotientIs<W(!new)>(o: Bits<W>, x: W, k: nat)
    requires Halving(o) && Shifting(o) && Masking(o) && k <= 30 && forall y :: o.bit(y) <= 1
    ensures o.val(o.high(x, k)) == o.val(x) / Power(k) && o.val(o.low(x, k)) == o.val(x) % Power(k)
  {
    Parts(o, x, k);
    DividesInto(o.val(x), Power(k), o.val(o.high(x, k)), o.val(o.low(x, k)));
  }

  // ---------------------------------------------------------------- 32-bit words

  function Half32(x: bv32): bv32 {
    x >> 1
  }

  predicate Odd32(x: bv32) {
    x & 1 == 1
  }

  function Bit32(x: bv32): nat {
    if Odd32(x) then 1 else 0
  }

  function Value32(x: bv32): nat {
    x as nat
  }

  /** `k` as the amount of a shift, in as many bits as a shift of such a word takes. */
  function Amount32(k: nat): (b: bv6)
    ensures b <= 30
  {
    if k == 0 then 0 else
    var b := Amount32(k - 1);
    if b < 30 then b + 1 else 30
  }

  lemma Successor32(k: nat)
    requires k < 30
    ensures (k + 1) as bv6 == (k as bv6) + 1 && k as bv6 < 30
  {
  }

  lemma {:induction false} AmountAs32(k: nat)
    requires k <= 30
    ensures Amount32(k) == k as bv6
  {
    if k > 0 {
      AmountAs32(k - 1);
      Successor32(k - 1);
    }
  }

  lemma NextAmount32(k: nat)
    requires k < 30
    ensures Amount32(k + 1) == Amount32(k) + 1 && Amount32(k) < 30
  {
    AmountAs32(k);
    Successor32(k);
  }

  function Shifted32(x: bv32, b: bv6): bv32
    requires b <= 30
  {
    x >> b
  }

  function And32(x: bv32, m: bv32): bv32 {
    x & m
  }

  function High32(x: bv32, k: nat): bv32 {
    Shifted32(x, Amount32(k))
  }

  /** The lowest `k` bits set. */
  function Ones32(k: nat): bv32 {
    (1 << Amount32(k)) - 1
  }

  function Low32(x: bv32, k: nat): bv32 {
    And32(x, Ones32(k))
  }

  function Bits32(): Bits<bv32> {
    Bits(Half32, Bit32, Value32, High32, Low32)
  }

  lemma EvenDouble32(h: bv32, x: bv32)
    requires h < 0x8000_0000 && x == h << 1
    ensures x as nat == 2 * (h as nat)
  {
  }

  lemma OddDouble32(h: bv32, x: bv32)
    requires h < 0x8000_0000 && x == (h << 1) | 1
    ensures x as nat == 2 * (h as nat) + 1
  {
  }

  lemma Doubled32(x: bv32)
    ensures Half32(x) < 0x8000_0000 && x == if Odd32(x) then (Half32(x) << 1) | 1 else Half32(x) << 1
  {
  }

  lemma Halves32(x: bv32)
    ensures x as nat == 2 * (Half32(x) as nat) + (if Odd32(x) then 1 else 0)
  {
    Doubled32(x);
    hide Half32; hide Odd32;
    if Odd32(x) {
      OddDouble32(Half32(x), x);
    } else {
      EvenDouble32(Half32(x), x);
    }
  }

  lemma HalvesValue32(x: bv32)
    ensures Value32(x) == 2 * Value32(Half32(x)) + Bit32(x)
  {
    hide Half32; hide Odd32;
    Halves32(x);
  }

  lemma Halving32()
    ensures Halving(Bits32())
  {
    hide Half32; hide Odd32; hide Value32;
    forall x: bv32
      ensures Value32(x) == 2 * Value32(Half32(x)) + Bit32(x)
    {
      HalvesValue32(x);
    }
  }

  lemma HalfFirst32(x: bv32, b: bv6)
    requires b < 30
    ensures Shifted32(x, b + 1) == Shifted32(Half32(x), b)
  {
  }

  lemma HighNext32(x: bv32, k: nat)
    requires k < 30
    ensures High32(x, k + 1) == High32(Half32(x), k)
  {
    NextAmount32(k);
    hide Amount32; hide Shifted32; hide Half32;
    HalfFirst32(x, Amount32(k));
  }

  lemma NotShifted32(x: bv32)
    ensures High32(x, 0) == x
  {
  }

  lemma Shifting32()
    ensures Shifting(Bits32())
  {
    hide High32; hide Half32;
    forall x: bv32, k: nat | k < 30
      ensures High32(x, k + 1) == High32(Half32(x), k)
    {
      HighNext32(x, k);
    }
    forall x: bv32
      ensures High32(x, 0) == x
    {
      NotShifted32(x);
    }
  }

  predicate Longer32(m: bv32, n: bv32) {
    n == (m << 1) | 1 && m < 0x8000_0000
  }

  lemma OneMore32(b: bv6)
    requires b < 30
    ensures Longer32(((1 as bv32) << b) - 1, ((1 as bv32) << (b + 1)) - 1)
  {
  }

  lemma OnesNext32(k: nat)
    requires k < 30
    ensures Longer32(Ones32(k), Ones32(k + 1))
  {
    NextAmount32(k);
    hide Amount32;
    OneMore32(Amount32(k));
  }

  lemma LowBitsAre32(x: bv32, m: bv32, n: bv32)
    requires n == (m << 1) | 1 && m < 0x8000_0000
    ensures (x & n) >> 1 == (x >> 1) & m && (x & n) & 1 == x & 1
  {
  }

  lemma LowBits32(x: bv32, m: bv32, n: bv32)
    requires Longer32(m, n)
    ensures Half32(And32(x, n)) == And32(Half32(x), m) && Odd32(And32(x, n)) == Odd32(x)
  {
    LowBitsAre32(x, m, n);
  }

  lemma LowNext32(x: bv32, k: nat)
    requires k < 30
    ensures Half32(Low32(x, k + 1)) == Low32(Half32(x), k) && Bit32(Low32(x, k + 1)) == Bit32(x)
  {
    hide Ones32; hide And32; hide Half32; hide Odd32; hide Longer32;
    OnesNext32(k);
    LowBits32(x, Ones32(k), Ones32(k + 1));
  }

  lemma NothingLow32(x: bv32)
    ensures Value32(Low32(x, 0)) == 0
  {
    assert x & 0 == 0 && (0 as bv32) as nat == 0;
  }

  lemma Masking32()
    ensures Masking(Bits32())
  {
    hide Low32; hide Half32; hide Bit32; hide Value32;
    forall x: bv32, k: nat | k < 30
      ensures Half32(Low32(x, k + 1)) == Low32(Half32(x), k) && Bit32(Low32(x, k + 1)) == Bit32(x)
    {
      LowNext32(x, k);
    }
    forall x: bv32
      ensures Value32(Low32(x, 0)) == 0
    {
      NothingLow32(x);
    }
  }

  lemma QuotientIs32(x: bv32, k: nat)
    requires k <= 30
    ensures Value32(High32(x, k)) == Value32(x) / Power(k) && Value32(Low32(x, k)) == Value32(x) % Power(k)
  {
    hide Halving; hide Shifting; hide Masking; hide High32; hide Low32; hide Value32;
    Halving32();
    Shifting32();
    Masking32();
    QuotientIs(Bits32(), x, k);
  }

  lemma AmountIs32(x: bv32, k: nat, b: bv6)
    requires k <= 30 && b == k as bv6
    ensures x >> k == x >> b
  {
  }

  lemma OneUp32(k: nat, b: bv6)
    requires k <= 30 && b == k as bv6
    ensures (1 as bv32) << k == (1 as bv32) << b
  {
  }

  // ---------------------------------------------------------------- 64-bit words

  function Half64(x: bv64): bv64 {
    x >> 1
  }

  predicate Odd64(x: bv64) {
    x & 1 == 1
  }

  function Bit64(x: bv64): nat {
    if Odd64(x) then 1 else 0
  }

  function Value64(x: bv64): nat {
    x as nat
  }

  /** `k` as the amount of a shift, in as many bits as a shift of such a word takes. */
  function Amount64(k: nat): (b: bv7)
    ensures b <= 30
  {
    if k == 0 then 0 else
    var b := Amount64(k - 1);
    if b < 30 then b + 1 else 30
  }

  lemma Successor64(k: nat)
    requires k < 30
    ensures (k + 1) as bv7 == (k as bv7) + 1 && k as bv7 < 30
  {
  }

  lemma {:induction false} AmountAs64(k: nat)
    requires k <= 30
    ensures Amount64(k) == k as bv7
  {
    if k > 0 {
      AmountAs64(k - 1);
      Successor64(k - 1);
    }
  }

  lemma NextAmount64(k: nat)
    requires k < 30
    ensures Amount64(k + 1) == Amount64(k) + 1 && Amount64(k) < 30
  {
    AmountAs64(k);
    Successor64(k);
  }

  function Shifted64(x: bv64, b: bv7): bv64
    requires b <= 30
  {
    x >> b
  }

  function And64(x: bv64, m: bv64): bv64 {
    x & m
  }

  function High64(x: bv64, k: nat): bv64 {
    Shifted64(x, Amount64(k))
  }

  /** The lowest `k` bits set. */
  function Ones64(k: nat): bv64 {
    (1 << Amount64(k)) - 1
  }

  function Low64(x: bv64, k: nat): bv64 {
    And64(x, Ones64(k))
  }

  function Bits64(): Bits<bv64> {
    Bits(Half64, Bit64, Value64, High64, Low64)
  }

  lemma EvenDouble64(h: bv64, x: bv64)
    requires h < 0x8000_0000_0000_0000 && x == h << 1
    ensures x as nat == 2 * (h as nat)
  {
  }

  lemma OddDouble64(h: bv64, x: bv64)
    requires h < 0x8000_0000_0000_0000 && x == (h << 1) | 1
    ensures x as nat == 2 * (h as nat) + 1
  {
  }

  lemma Doubled64(x: bv64)
    ensures Half64(x) < 0x8000_0000_0000_0000 && x == if Odd64(x) then (Half64(x) << 1) | 1 else Half64(x) << 1
  {
  }

  lemma Halves64(x: bv64)
    ensures x as nat == 2 * (Half64(x) as nat) + (if Odd64(x) then 1 else 0)
  {
    Doubled64(x);
    hide Half64; hide Odd64;
    if Odd64(x) {
      OddDouble64(Half64(x), x);
    } else {
      EvenDouble64(Half64(x), x);
    }
  }

  lemma HalvesValue64(x: bv64)
    ensures Value64(x) == 2 * Value64(Half64(x)) + Bit64(x)
  {
    hide Half64; hide Odd64;
    Halves64(x);
  }

  lemma Halving64()
    ensures Halving(Bits64())
  {
    hide Half64; hide Odd64; hide Value64;
    forall x: bv64
      ensures Value64(x) == 2 * Value64(Half64(x)) + Bit64(x)
    {
      HalvesValue64(x);
    }
  }

  lemma HalfFirst64(x: bv64, b: bv7)
    requires b < 8
    ensures Shifted64(x, b + 1) == Shifted64(Half64(x), b)
  {
  }

  lemma HalfFirst64Above8(x: bv64, b: bv7)
    requires 8 <= b < 16
    ensures Shifted64(x, b + 1) == Shifted64(Half64(x), b)
  {
  }

  lemma HalfFirst64Above16(x: bv64, b: bv7)
    requires 16 <= b < 30
    ensures Shifted64(x, b + 1) == Shifted64(Half64(x), b)
  {
  }

  lemma HighNext64(x: bv64, k: nat)
    requires k < 30
    ensures High64(x, k + 1) == High64(Half64(x), k)
  {
    NextAmount64(k);
    hide Amount64; hide Shifted64; hide Half64;
    if Amount64(k) < 8 {
      HalfFirst64(x, Amount64(k));
    } else if Amount64(k) < 16 {
      HalfFirst64Above8(x, Amount64(k));
    } else {
      HalfFirst64Above16(x, Amount64(k));
    }
  }

  lemma NotShifted64(x: bv64)
    ensures High64(x, 0) == x
  {
  }

  lemma Shifting64()
    ensures Shifting(Bits64())
  {
    hide High64; hide Half64;
    forall x: bv64, k: nat | k < 30
      ensures High64(x, k + 1) == High64(Half64(x), k)
    {
      HighNext64(x, k);
    }
    forall x: bv64
      ensures High64(x, 0) == x
    {
      NotShifted64(x);
    }
  }

  predicate Longer64(m: bv64, n: bv64) {
    n == (m << 1) | 1 && m < 0x8000_0000_0000_0000
  }

  lemma OneMore64(b: bv7)
    requires b < 30
    ensures Longer64(((1 as bv64) << b) - 1, ((1 as bv64) << (b + 1)) - 1)
  {
  }

  lemma OnesNext64(k: nat)
    requires k < 30
    ensures Longer64(Ones64(k), Ones64(k + 1))
  {
    NextAmount64(k);
    hide Amount64;
    OneMore64(Amount64(k));
  }

  lemma LowBitsAre64(x: bv64, m: bv64, n: bv64)
    requires n == (m << 1) | 1 && m < 0x8000_0000_0000_0000
    ensures (x & n) >> 1 == (x >> 1) & m && (x & n) & 1 == x & 1
  {
  }

  lemma LowBits64(x: bv64, m: bv64, n: bv64)
    requires Longer64(m, n)
    ensures Half64(And64(x, n)) == And64(Half64(x), m) && Odd64(And64(x, n)) == Odd64(x)
  {
    LowBitsAre64(x, m, n);
  }

  lemma LowNext64(x: bv64, k: nat)
    requires k < 30
    ensures Half64(Low64(x, k + 1)) == Low64(Half64(x), k) && Bit64(Low64(x, k + 1)) == Bit64(x)
  {
    hide Ones64; hide And64; hide Half64; hide Odd64; hide Longer64;
    OnesNext64(k);
    LowBits64(x, Ones64(k), Ones64(k + 1));
  }

  lemma NothingLow64(x: bv64)
    ensures Value64(Low64(x, 0)) == 0
  {
    assert x & 0 == 0 && (0 as bv64) as nat == 0;
  }

  lemma Masking64()
    ensures Masking(Bits64())
  {
    hide Low64; hide Half64; hide Bit64; hide Value64;
    forall x: bv64, k: nat | k < 30
      ensures Half64(Low64(x, k + 1)) == Low64(Half64(x), k) && Bit64(Low64(x, k + 1)) == Bit64(x)
    {
      LowNext64(x, k);
    }
    forall x: bv64
      ensures Value64(Low64(x, 0)) == 0
    {
      NothingLow64(x);
    }
  }

  lemma QuotientIs64(x: bv64, k: nat)
    requires k <= 30
    ensures Value64(High64(x, k)) == Value64(x) / Power(k) && Value64(Low64(x, k)) == Value64(x) % Power(k)
  {
    hide Halving; hide Shifting; hide Masking; hide High64; hide Low64; hide Value64;
    Halving64();
    Shifting64();
    Masking64();
    QuotientIs(Bits64(), x, k);
  }

  lemma AmountIs64(x: bv64, k: nat, b: bv7)
    requires k <= 30 && b == k as bv7
    ensures x >> k == x >> b
  {
  }

  lemma OneUp64(k: nat, b: bv7)
    requires k <= 30 && b == k as bv7
    ensures (1 as bv64) << k == (1 as bv64) << b
  {
  }
}
