/** The two word types of the generator, `uint32_t` and `uint64_t`, and what each of them keeps. */
module Widths {
  import opened Mixing
  import opened Isaac
  import opened Seeding
  import opened Generator

  /** `enum { N = (1 << ALPHA) }`, which an `int` has to hold. */
  function N(alpha: nat): nat
    requires alpha <= 30
  {
    ((1 as bv32) << alpha) as nat
  }

  /** `ALPHA`: at least one group of eight slots, and no more than an `int` can count. */
  predicate Alpha(alpha: nat) {
    3 <= alpha <= 30
  }

  lemma Twice(x: bv32)
    requires x < 0x4000_0000
    ensures (x << 1) as nat == 2 * (x as nat)
  {
  }

  lemma NDoubles(alpha: nat)
    requires alpha < 30
    ensures N(alpha + 1) == 2 * N(alpha)
  {
    assert (1 as bv32) << (alpha + 1) == ((1 as bv32) << alpha) << 1;
    assert (1 as bv32) << alpha < 0x4000_0000;
    Twice((1 as bv32) << alpha);
  }

  lemma N3()
    ensures N(3) == 8
  {
    assert (1 as bv32) << 3 == 8;
  }

  lemma {:induction false} AlphaSlots(alpha: nat)
    requires Alpha(alpha)
    ensures Slots(N(alpha)) && (alpha > 3 ==> N(alpha) >= 16)
  {
    hide N;
    if alpha == 3 {
      N3();
    } else {
      NDoubles(alpha - 1);
      AlphaSlots(alpha - 1);
    }
  }

  // ---------------------------------------------------------------- uint32_t

  /** The mask of `ind`, computed in `int`. */
  function Mask32(alpha: nat): bv32
    requires alpha <= 30
  {
    ((1 << alpha) - 1) << 2
  }

  /** The byte offset at which `ind` reads. */
  function Offset32(x: bv32, alpha: nat): bv32
    requires alpha <= 30
  {
    x & Mask32(alpha)
  }

  /** The word at that offset. */
  function Slot32(x: bv32, alpha: nat): nat
    requires alpha <= 30
  {
    Offset32(x, alpha) as nat / 4
  }

  function Shl2(y: bv32): bv32 {
    y << 2
  }

  lemma Times4(y: bv32)
    requires y < 0x4000_0000
    ensures Shl2(y) as nat == 4 * (y as nat)
  {
    assert (y << 2) as nat == 4 * (y as nat);
  }

  lemma BelowN(y: bv32, alpha: nat)
    requires alpha <= 30 && y < 1 << alpha
    ensures y as nat < N(alpha)
  {
  }

  /** The bits the mask lets through. */
  function Field32(x: bv32, alpha: nat): bv32
    requires alpha <= 30
  {
    (x & Mask32(alpha)) >> 2
  }

  lemma FieldBelow32(x: bv32, alpha: nat)
    requires alpha <= 30
    ensures Field32(x, alpha) as nat < N(alpha)
  {
    assert Field32(x, alpha) < 1 << alpha;
    hide Field32; hide N;
    BelowN(Field32(x, alpha), alpha);
  }

  lemma FieldShifted32(x: bv32, alpha: nat)
    requires alpha <= 30
    ensures Offset32(x, alpha) == Shl2(Field32(x, alpha)) && Field32(x, alpha) < 0x4000_0000
  {
  }

  lemma OffsetIs32(x: bv32, alpha: nat)
    requires alpha <= 30
    ensures Offset32(x, alpha) as nat == 4 * (Field32(x, alpha) as nat)
  {
    FieldShifted32(x, alpha);
    hide Offset32; hide Field32; hide Shl2;
    Times4(Field32(x, alpha));
  }

  /** Every offset is a whole number of words, and the word lies within the memory. */
  lemma ReadsInBounds32(x: bv32, alpha: nat)
    requires alpha <= 30
    ensures Offset32(x, alpha) as nat == 4 * Slot32(x, alpha)
    ensures Slot32(x, alpha) < N(alpha)
  {
    hide Offset32; hide N;
    OffsetIs32(x, alpha);
    FieldBelow32(x, alpha);
    hide Field32;
    var y := Field32(x, alpha) as nat;
    assert 4 * y / 4 == y;
  }

  // a ^ mix for the four lines of the 32-bit `isaac`, and what undoes each.

  function Left13(a: bv32): bv32 {
    a ^ (a << 13)
  }

  function UnLeft13(u: bv32): bv32 {
    u ^ (u << 13) ^ (u << 26)
  }

  lemma Left13Reversible(a: bv32)
    ensures UnLeft13(Left13(a)) == a && Left13(UnLeft13(a)) == a
  {
    assert UnLeft13(a ^ (a << 13)) == a;
    assert Left13(a ^ (a << 13) ^ (a << 26)) == a;
  }

  function Right6(a: bv32): bv32 {
    a ^ (a >> 6)
  }

  function UnRight6(u: bv32): bv32 {
    u ^ (u >> 6) ^ (u >> 12) ^ (u >> 18) ^ (u >> 24) ^ (u >> 30)
  }

  lemma Right6Reversible(a: bv32)
    ensures UnRight6(Right6(a)) == a && Right6(UnRight6(a)) == a
  {
    assert UnRight6(a ^ (a >> 6)) == a;
    assert Right6(a ^ (a >> 6) ^ (a >> 12) ^ (a >> 18) ^ (a >> 24) ^ (a >> 30)) == a;
  }

  function Left2(a: bv32): bv32 {
    a ^ (a << 2)
  }

  function UnLeft2(u: bv32): bv32 {
    u ^ (u << 2) ^ (u << 4) ^ (u << 6) ^ (u << 8) ^ (u << 10) ^ (u << 12) ^ (u << 14) ^
    (u << 16) ^ (u << 18) ^ (u << 20) ^ (u << 22) ^ (u << 24) ^ (u << 26) ^ (u << 28) ^ (u << 30)
  }

  lemma Left2Reversible(a: bv32)
    ensures UnLeft2(Left2(a)) == a && Left2(UnLeft2(a)) == a
  {
    assert UnLeft2(a ^ (a << 2)) == a;
    assert Left2(a ^ (a << 2) ^ (a << 4) ^ (a << 6) ^ (a << 8) ^ (a << 10) ^ (a << 12) ^ (a << 14) ^
    (a << 16) ^ (a << 18) ^ (a << 20) ^ (a << 22) ^ (a << 24) ^ (a << 26) ^ (a << 28) ^ (a << 30)) == a;
  }

  function Right16(a: bv32): bv32 {
    a ^ (a >> 16)
  }

  function UnRight16(u: bv32): bv32 {
    u ^ (u >> 16)
  }

  lemma Right16Reversible(a: bv32)
    ensures UnRight16(Right16(a)) == a && Right16(UnRight16(a)) == a
  {
    assert UnRight16(a ^ (a >> 16)) == a;
    assert Right16(a ^ (a >> 16)) == a;
  }

  function Stir32(k: nat, a: bv32): bv32 {
    match k % 4
    case 0 => Left13(a)
    case 1 => Right6(a)
    case 2 => Left2(a)
    case _ => Right16(a)
  }

  function Unstir32(k: nat, u: bv32): bv32 {
    match k % 4
    case 0 => UnLeft13(u)
    case 1 => UnRight6(u)
    case 2 => UnLeft2(u)
    case _ => UnRight16(u)
  }

  lemma StirReversible32(k: nat, a: bv32)
    requires k < 4
    ensures Unstir32(k, Stir32(k, a)) == a && Stir32(k, Unstir32(k, a)) == a
  {
    hide Left13; hide Right6; hide Left2; hide Right16;
    hide UnLeft13; hide UnRight6; hide UnLeft2; hide UnRight16;
    match k
    case 0 => Left13Reversible(a);
    case 1 => Right6Reversible(a);
    case 2 => Left2Reversible(a);
    case _ => Right16Reversible(a);
  }

  function HighSlot32(y: bv32, alpha: nat): nat
    requires alpha <= 30
  {
    Slot32(y >> alpha, alpha)
  }

  /** `shuffle` on eight words; other lengths do not occur. */
  function Shuffle32(s: seq<bv32>): seq<bv32> {
    if |s| == 8 then Mix32(s, 8) else s
  }

  function Unshuffle32(s: seq<bv32>): seq<bv32> {
    if |s| == 8 then Unmix32(s, 8) else s
  }

  function Ops32(alpha: nat): Ops<bv32>
    requires Alpha(alpha)
  {
    Ops(0, 1, 0x9e3779b9, Plus32, Minus32,
        Stir32, Unstir32,
        x => Slot32(x, alpha), y => HighSlot32(y, alpha),
        Shuffle32, Unshuffle32)
  }

  lemma PlusCommutes32(x: bv32, y: bv32)
    ensures Plus32(x, y) == Plus32(y, x)
  {
  }

  lemma Arithmetic32(alpha: nat)
    requires Alpha(alpha)
    ensures Arithmetic(Ops32(alpha))
  {
    hide Plus32; hide Minus32;
    var ops := Ops32(alpha);
    forall x: bv32, y: bv32
      ensures ops.minus(ops.plus(x, y), y) == x && ops.plus(ops.minus(x, y), y) == x && ops.plus(x, y) == ops.plus(y, x)
    {
      Cancel32(x, y);
      PlusCommutes32(x, y);
    }
  }

  lemma Shuffles32(alpha: nat)
    requires Alpha(alpha)
    ensures Shuffles(Ops32(alpha))
  {
    hide Mix32; hide Unmix32;
    var ops := Ops32(alpha);
    forall s: seq<bv32> | |s| == 8
      ensures |ops.mix(s)| == 8 && |ops.unmix(s)| == 8 && ops.unmix(ops.mix(s)) == s && ops.mix(ops.unmix(s)) == s
    {
      Mix32Reversible(s, 8);
    }
  }

  lemma SlotsInBounds32(alpha: nat)
    requires Alpha(alpha)
    ensures InBounds(Ops32(alpha), N(alpha))
  {
    hide N; hide Slot32;
    forall x: bv32
      ensures Ops32(alpha).slot(x) < N(alpha) && Ops32(alpha).highSlot(x) < N(alpha)
    {
      ReadsInBounds32(x, alpha);
      ReadsInBounds32(x >> alpha, alpha);
    }
  }

  lemma Stirs32(alpha: nat)
    requires Alpha(alpha)
    ensures Stirs(Ops32(alpha))
  {
    hide Stir32; hide Unstir32; hide Shuffle32; hide Unshuffle32;
    var ops := Ops32(alpha);
    forall k: nat, a: bv32 | k < 4
      ensures ops.unstir(k, ops.stir(k, a)) == a && ops.stir(k, ops.unstir(k, a)) == a
    {
      StirReversible32(k, a);
    }
  }

  lemma Lawful32(alpha: nat)
    requires Alpha(alpha)
    ensures Lawful(Ops32(alpha), N(alpha)) && Stirs(Ops32(alpha))
  {
    hide Ops32; hide N; hide Arithmetic; hide InBounds; hide Shuffles; hide Stirs;
    Arithmetic32(alpha);
    SlotsInBounds32(alpha);
    Shuffles32(alpha);
    Stirs32(alpha);
  }

  /** A batch of the 32-bit generator can be undone from any state, for every ALPHA. */
  lemma Isaac32Reversible(alpha: nat, g: Gen<bv32>)
    requires Alpha(alpha) && |g.mem| == N(alpha)
    ensures Slots(|g.mem|) && Lawful(Ops32(alpha), |g.mem|)
    ensures Unbatch(Ops32(alpha), Batch(Ops32(alpha), g)) == g && Batch(Ops32(alpha), Unbatch(Ops32(alpha), g)) == g
  {
    hide Ops32; hide Lawful; hide Stirs; hide Batch; hide Unbatch;
    Lawful32(alpha);
    AlphaSlots(alpha);
    BatchReversible(Ops32(alpha), g);
  }

  /** With ALPHA above 3, seeds of `length` words always give distinct 32-bit states exactly when they fill the buffer. */
  lemma SeedData32Exactly(alpha: nat, before: seq<bv32>, length: nat)
    requires Alpha(alpha) && alpha > 3 && |before| == N(alpha) && length >= 1
    ensures TellsSeedsApart(Ops32(alpha), before, length) <==> length == |before|
  {
    ZeroIsNotOne32(alpha);
    hide Ops32; hide Lawful; hide Stirs; hide TellsSeedsApart; hide N;
    Lawful32(alpha);
    AlphaSlots(alpha);
    SeedLengthExactly(Ops32(alpha), before, length);
  }

  lemma ZeroIsNotOne32(alpha: nat)
    requires Alpha(alpha)
    ensures Ops32(alpha).zero != Ops32(alpha).one
  {
  }

  /** Distinct (a, b, c) give distinct 32-bit states. */
  lemma SeedWords32(alpha: nat, a: bv32, b: bv32, c: bv32, a': bv32, b': bv32, c': bv32)
    requires Alpha(alpha)
    ensures Slots(N(alpha)) && Lawful(Ops32(alpha), N(alpha))
    ensures AfterSeedWords(Ops32(alpha), N(alpha), a, b, c) == AfterSeedWords(Ops32(alpha), N(alpha), a', b', c') ==>
              a == a' && b == b' && c == c'
  {
    hide Ops32; hide Lawful; hide Stirs; hide AfterSeedWords;
    Lawful32(alpha);
    AlphaSlots(alpha);
    var ops, n := Ops32(alpha), N(alpha);
    if AfterSeedWords(ops, n, a, b, c) == AfterSeedWords(ops, n, a', b', c') {
      SeedWordsInjective(ops, n, a, b, c, a', b', c');
    }
  }

  const TOP32: bv32 := 0x8000_0000

  lemma TopsCancel32()
    ensures Plus32(0, 0) == Plus32(TOP32, TOP32) && TOP32 != 0
  {
  }

  lemma TopsDouble32(alpha: nat)
    requires Alpha(alpha)
    ensures Ops32(alpha).plus(0, 0) == Ops32(alpha).plus(TOP32, TOP32) && 0 != TOP32
  {
    TopsCancel32();
    hide Plus32;
  }

  /** The two seeding passes are injective on 32-bit words exactly when there is a second group of slots. */
  lemma Seeding32Exactly(alpha: nat, s: Group<bv32>, groups: nat)
    requires Alpha(alpha) && |s| == 8 && groups >= 1
    ensures Lawful(Ops32(alpha), N(alpha))
    ensures LosesNothing(Ops32(alpha), N(alpha), s, groups) <==> groups >= 2
  {
    hide Ops32; hide Lawful; hide LosesNothing; hide N; hide TOP32;
    Lawful32(alpha);
    TopsDouble32(alpha);
    SeedingExactly(Ops32(alpha), N(alpha), s, 0, TOP32, groups);
  }

  // ---------------------------------------------------------------- uint64_t

  /** The mask of `ind`, computed in `int` and then widened with its sign. */
  function Mask64(alpha: nat): bv64
    requires alpha <= 30
  {
    var m: bv32 := ((1 << alpha) - 1) << 3;
    if m & 0x8000_0000 == 0 then m as bv64 else (m as bv64) | 0xFFFF_FFFF_0000_0000
  }

  function Offset64(x: bv64, alpha: nat): bv64
    requires alpha <= 30
  {
    x & Mask64(alpha)
  }

  function Slot64(x: bv64, alpha: nat): nat
    requires alpha <= 30
  {
    Offset64(x, alpha) as nat / 8
  }

  /** `ALPHA` for which the mask of the 64-bit `ind` fits an `int`. */
  predicate Alpha64(alpha: nat) {
    3 <= alpha <= 28
  }

  lemma Times8(y: bv64, o: bv64)
    requires y < 0x1_0000_0000 && o == y << 3
    ensures o as nat == 8 * (y as nat)
  {
    assert (y << 3) as nat == 8 * (y as nat);
  }

  function Wide(z: bv32): bv64 {
    z as bv64
  }

  lemma WideSame(z: bv32)
    ensures Wide(z) as nat == z as nat
  {
    assert (z as bv64) as nat == z as nat;
  }

  lemma Field64(x: bv64, alpha: nat) returns (z: bv32)
    requires alpha <= 28
    ensures z < 1 << alpha && Wide(z) < 0x1_0000_0000 && Offset64(x, alpha) == Wide(z) << 3
  {
    assert Mask64(alpha) == ((1 << alpha) - 1) << 3;
    z := (((x & (((1 << alpha) - 1) << 3)) >> 3) & 0xFFFF_FFFF) as bv32;
  }

  lemma OffsetIs64(x: bv64, alpha: nat) returns (z: bv32)
    requires alpha <= 28
    ensures z as nat < N(alpha) && Offset64(x, alpha) as nat == 8 * (z as nat)
  {
    hide Offset64; hide N; hide Wide;
    z := Field64(x, alpha);
    Times8(Wide(z), Offset64(x, alpha));
    WideSame(z);
    BelowN(z, alpha);
  }

  lemma ReadsInBounds64(x: bv64, alpha: nat)
    requires alpha <= 28
    ensures Offset64(x, alpha) as nat == 8 * Slot64(x, alpha)
    ensures Slot64(x, alpha) < N(alpha)
  {
    hide Offset64; hide N;
    var z := OffsetIs64(x, alpha);
    assert 8 * (z as nat) / 8 == z as nat;
  }

  /** Beyond that the mask is negative as an `int`, and widening it keeps every high bit of the word. */
  lemma ReadsBeyond64(alpha: nat)
    requires 29 <= alpha <= 30
    ensures Mask64(alpha) == 0xFFFF_FFFF_FFFF_FFF8 && Slot64(0x8000_0000_0000_0000, alpha) >= N(alpha)
  {
    assert Offset64(0x8000_0000_0000_0000, alpha) == 0x8000_0000_0000_0000;
    assert N(alpha) <= 0x4000_0000;
  }

  /** The self-indexed reads of the 64-bit generator stay in its memory exactly while the mask fits an `int`. */
  lemma ReadsInBounds64Exactly(alpha: nat)
    requires Alpha(alpha)
    ensures (forall x :: Slot64(x, alpha) < N(alpha)) <==> Alpha64(alpha)
  {
    hide Slot64; hide N;
    if Alpha64(alpha) {
      forall x: bv64
        ensures Slot64(x, alpha) < N(alpha)
      {
        ReadsInBounds64(x, alpha);
      }
    } else {
      ReadsBeyond64(alpha);
    }
  }

  /** a ^ mix for the four lines of the 64-bit `isaac`, whose mix already contains a. */
  function Stir64(k: nat, a: bv64): bv64 {
    match k % 4
    case 0 => NotLeft21(a)
    case 1 => a ^ (a ^ (a >> 5))
    case 2 => a ^ (a ^ (a << 12))
    case _ => a ^ (a ^ (a >> 33))
  }

  function NotLeft21(a: bv64): bv64 {
    XorNotXor(a, a << 21)
  }

  function XorNotXor(a: bv64, b: bv64): bv64 {
    a ^ !(a ^ b)
  }

  function HighSlot64(y: bv64, alpha: nat): nat
    requires alpha <= 30
  {
    Slot64(y >> alpha, alpha)
  }

  /** `shuffle` on eight words; other lengths do not occur. */
  function Shuffle64(s: seq<bv64>): seq<bv64> {
    if |s| == 8 then Mix(s, 8) else s
  }

  function Unshuffle64(s: seq<bv64>): seq<bv64> {
    if |s| == 8 then Unmix(s, 8) else s
  }

  function Ops64(alpha: nat): Ops<bv64>
    requires Alpha64(alpha)
  {
    Ops(0, 1, 0x9e3779b97f4a7c13, Plus, Minus,
        Stir64, (k, u) => u,
        x => Slot64(x, alpha), y => HighSlot64(y, alpha),
        Shuffle64, Unshuffle64)
  }

  lemma PlusCommutes(x: bv64, y: bv64)
    ensures Plus(x, y) == Plus(y, x)
  {
  }

  lemma Arithmetic64(alpha: nat)
    requires Alpha64(alpha)
    ensures Arithmetic(Ops64(alpha))
  {
    hide Plus; hide Minus;
    var ops := Ops64(alpha);
    forall x: bv64, y: bv64
      ensures ops.minus(ops.plus(x, y), y) == x && ops.plus(ops.minus(x, y), y) == x && ops.plus(x, y) == ops.plus(y, x)
    {
      Cancel(x, y);
      PlusCommutes(x, y);
    }
  }

  lemma Shuffles64(alpha: nat)
    requires Alpha64(alpha)
    ensures Shuffles(Ops64(alpha))
  {
    hide Mix; hide Unmix;
    var ops := Ops64(alpha);
    forall s: seq<bv64> | |s| == 8
      ensures |ops.mix(s)| == 8 && |ops.unmix(s)| == 8 && ops.unmix(ops.mix(s)) == s && ops.mix(ops.unmix(s)) == s
    {
      MixReversible(s, 8);
    }
  }

  lemma SlotsInBounds64(alpha: nat)
    requires Alpha64(alpha)
    ensures InBounds(Ops64(alpha), N(alpha))
  {
    hide N; hide Slot64;
    forall x: bv64
      ensures Ops64(alpha).slot(x) < N(alpha) && Ops64(alpha).highSlot(x) < N(alpha)
    {
      ReadsInBounds64(x, alpha);
      ReadsInBounds64(x >> alpha, alpha);
    }
  }

  lemma Lawful64(alpha: nat)
    requires Alpha64(alpha)
    ensures Lawful(Ops64(alpha), N(alpha))
  {
    hide Ops64; hide N; hide Arithmetic; hide InBounds; hide Shuffles; hide Stirs;
    Arithmetic64(alpha);
    SlotsInBounds64(alpha);
    Shuffles64(alpha);
  }

  const TOP64: bv64 := 0x8000_0000_0000_0000

  lemma TopsCancel64()
    ensures Plus(0, 0) == Plus(TOP64, TOP64) && TOP64 != 0
  {
  }

  lemma TopsDouble64(alpha: nat)
    requires Alpha64(alpha)
    ensures Ops64(alpha).plus(0, 0) == Ops64(alpha).plus(TOP64, TOP64) && 0 != TOP64
  {
    TopsCancel64();
    hide Plus;
  }

  lemma Seeding64Exactly(alpha: nat, s: Group<bv64>, groups: nat)
    requires Alpha64(alpha) && |s| == 8 && groups >= 1
    ensures Lawful(Ops64(alpha), N(alpha))
    ensures LosesNothing(Ops64(alpha), N(alpha), s, groups) <==> groups >= 2
  {
    hide Ops64; hide Lawful; hide LosesNothing; hide N; hide TOP64;
    Lawful64(alpha);
    TopsDouble64(alpha);
    SeedingExactly(Ops64(alpha), N(alpha), s, 0, TOP64, groups);
  }

  /** a meets itself, and what is left of NotLeft21 has lost the bits shifted out. */
  lemma FirstCancels(a: bv64, b: bv64)
    ensures XorNotXor(a, b) == !b
  {
  }

  lemma TopIsShiftedOut(a: bv64)
    ensures (a ^ TOP64) << 21 == a << 21 && a != a ^ TOP64
  {
  }

  lemma NotLeft21Forgets(a: bv64)
    ensures NotLeft21(a) == NotLeft21(a ^ TOP64) && a != a ^ TOP64
  {
    hide XorNotXor;
    FirstCancels(a, a << 21);
    FirstCancels(a ^ TOP64, (a ^ TOP64) << 21);
    TopIsShiftedOut(a);
  }

  lemma FirstLineForgets(alpha: nat, a: bv64)
    requires Alpha64(alpha)
    ensures Ops64(alpha).stir(0, a) == Ops64(alpha).stir(0, a ^ TOP64) && a != a ^ TOP64
  {
    hide NotLeft21;
    NotLeft21Forgets(a);
  }

  /** The 64-bit generator is not reversible: every state has a twin that the next batch merges it with. */
  lemma Isaac64Merges(alpha: nat, g: Gen<bv64>) returns (twin: Gen<bv64>)
    requires Alpha64(alpha) && |g.mem| == N(alpha)
    ensures Slots(|g.mem|) && Lawful(Ops64(alpha), |g.mem|)
    ensures twin != g && |twin.mem| == |g.mem| && Batch(Ops64(alpha), twin) == Batch(Ops64(alpha), g)
  {
    var ops := Ops64(alpha);
    var a := g.a ^ TOP64;
    FirstLineForgets(alpha, g.a);
    hide Ops64; hide Lawful; hide Batch; hide N; hide TOP64;
    Lawful64(alpha);
    AlphaSlots(alpha);
    twin := g.(a := a);
    BatchForgets(ops, g, a);
  }
}
