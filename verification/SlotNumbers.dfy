/** The self-indexed reads of the generator as arithmetic on the word: which slot `ind` and `y >> ALPHA` select. */
module SlotNumbers {
  import opened Shifts
  import opened Widths

  lemma {:induction false} NIsPower(alpha: nat)
    requires alpha <= 30
    ensures N(alpha) == Power(alpha)
  {
    if alpha == 0 {
      assert (1 as bv32) << 0 == 1;
    } else {
      hide N;
      NDoubles(alpha - 1);
      NIsPower(alpha - 1);
    }
  }

  // ---------------------------------------------------------------- 32-bit words

  function Quarter32(x: bv32): bv32 {
    x >> 2
  }

  function Fourfold32(m: bv32): bv32 {
    m << 2
  }

  predicate Small32(m: bv32) {
    m < 0x4000_0000
  }

  lemma Quarter32Halves(x: bv32)
    ensures Quarter32(x) == Half32(Half32(x))
  {
  }

  lemma Quarter32Is(x: bv32)
    ensures Value32(Quarter32(x)) == Value32(x) / 4
  {
    Quarter32Halves(x);
    hide Quarter32; hide Half32; hide Odd32; hide Value32;
    HalvesValue32(x);
    HalvesValue32(Half32(x));
  }

  lemma MaskIs32(alpha: nat)
    requires alpha <= 30
    ensures Mask32(alpha) == Fourfold32(Ones32(alpha)) && Small32(Ones32(alpha))
  {
    AmountAs32(alpha);
    hide Amount32;
    OneUp32(alpha, Amount32(alpha));
  }

  lemma FieldIs32(x: bv32, m: bv32)
    requires Small32(m)
    ensures And32(x, Fourfold32(m)) == Fourfold32(And32(Quarter32(x), m)) && Small32(And32(Quarter32(x), m))
  {
  }

  lemma OffsetMasks32(x: bv32, alpha: nat)
    requires alpha <= 30
    ensures Offset32(x, alpha) == And32(x, Mask32(alpha))
  {
    hide Mask32;
  }

  lemma OffsetLow32(x: bv32, alpha: nat)
    requires alpha <= 30
    ensures Offset32(x, alpha) == Fourfold32(Low32(Quarter32(x), alpha)) && Small32(Low32(Quarter32(x), alpha))
  {
    OffsetMasks32(x, alpha);
    MaskIs32(alpha);
    hide Offset32; hide Ones32; hide Mask32; hide Fourfold32; hide And32; hide Quarter32; hide Small32;
    FieldIs32(x, Ones32(alpha));
  }

  lemma Fourfold32Is(m: bv32)
    requires Small32(m)
    ensures Fourfold32(m) as nat == 4 * Value32(m)
  {
    assert (m << 2) as nat == 4 * (m as nat);
  }

  lemma SlotLow32(x: bv32, alpha: nat)
    requires alpha <= 30
    ensures Slot32(x, alpha) == Value32(Low32(Quarter32(x), alpha))
  {
    OffsetLow32(x, alpha);
    hide Offset32; hide Low32; hide Fourfold32; hide Quarter32; hide Value32; hide Small32;
    Fourfold32Is(Low32(Quarter32(x), alpha));
  }

  /** The slot `ind(mm, x)` reads: the word counts four bytes, and the memory wraps. */
  lemma SlotIs32(x: bv32, alpha: nat)
    requires alpha <= 30
    ensures N(alpha) > 0 && Slot32(x, alpha) == (x as nat / 4) % N(alpha)
  {
    assert Value32(x) == x as nat;
    hide Slot32; hide Low32; hide High32; hide N; hide Quarter32; hide Value32;
    SlotLow32(x, alpha);
    Quarter32Is(x);
    QuotientIs32(Quarter32(x), alpha);
    NIsPower(alpha);
  }

  predicate ShiftedBy32(y: bv32, b: bv6, z: bv32)
    requires b <= 30
  {
    z == y >> b
  }

  predicate DownBy32(y: bv32, alpha: nat, z: bv32)
    requires alpha <= 30
  {
    z == y >> alpha
  }

  lemma HighIs32(y: bv32, b: bv6, z: bv32)
    requires b <= 30 && z == Shifted32(y, b)
    ensures ShiftedBy32(y, b, z)
  {
  }

  lemma ShiftedIsDown32(y: bv32, alpha: nat, b: bv6, z: bv32)
    requires alpha <= 30 && b == alpha as bv6 && b <= 30 && ShiftedBy32(y, b, z)
    ensures DownBy32(y, alpha, z)
  {
    AmountIs32(y, alpha, b);
  }

  lemma HighSlotAt32(y: bv32, alpha: nat, z: bv32)
    requires alpha <= 30 && DownBy32(y, alpha, z)
    ensures HighSlot32(y, alpha) == Slot32(z, alpha)
  {
    hide Slot32;
  }

  lemma HighSlotShifts32(y: bv32, alpha: nat)
    requires alpha <= 30
    ensures HighSlot32(y, alpha) == Slot32(High32(y, alpha), alpha)
  {
    AmountAs32(alpha);
    hide Slot32; hide Amount32; hide Shifted32; hide HighSlot32; hide ShiftedBy32; hide DownBy32;
    HighIs32(y, Amount32(alpha), High32(y, alpha));
    ShiftedIsDown32(y, alpha, Amount32(alpha), High32(y, alpha));
    HighSlotAt32(y, alpha, High32(y, alpha));
  }

  /** The slot `ind(mm, y >> ALPHA)` reads. */
  lemma HighSlotIs32(y: bv32, alpha: nat)
    requires alpha <= 30
    ensures N(alpha) > 0 && HighSlot32(y, alpha) == (y as nat / (4 * N(alpha))) % N(alpha)
  {
    assert Value32(y) == y as nat && Value32(High32(y, alpha)) == High32(y, alpha) as nat;
    hide Slot32; hide HighSlot32; hide High32; hide Low32; hide N; hide Value32;
    HighSlotShifts32(y, alpha);
    SlotIs32(High32(y, alpha), alpha);
    QuotientIs32(y, alpha);
    NIsPower(alpha);
    DividesTwice(y as nat, N(alpha), 4);
  }

  // ---------------------------------------------------------------- 64-bit words

  function Eighth64(x: bv64): bv64 {
    x >> 3
  }

  function Eightfold64(m: bv64): bv64 {
    m << 3
  }

  predicate Small64(m: bv64) {
    m < 0x4000_0000
  }

  lemma Eighth64Halves(x: bv64)
    ensures Eighth64(x) == Half64(Half64(Half64(x)))
  {
  }

  lemma Eighth64Is(x: bv64)
    ensures Value64(Eighth64(x)) == Value64(x) / 8
  {
    Eighth64Halves(x);
    hide Eighth64; hide Half64; hide Odd64; hide Value64;
    HalvesValue64(x);
    HalvesValue64(Half64(x));
    HalvesValue64(Half64(Half64(x)));
  }

  lemma MaskIs64(alpha: nat)
    requires alpha <= 28
    ensures Mask64(alpha) == Eightfold64(Ones64(alpha)) && Small64(Ones64(alpha))
  {
    AmountAs64(alpha);
    hide Amount64;
    OneUp64(alpha, Amount64(alpha));
  }

  lemma FieldIs64(x: bv64, m: bv64)
    requires Small64(m)
    ensures And64(x, Eightfold64(m)) == Eightfold64(And64(Eighth64(x), m)) && Small64(And64(Eighth64(x), m))
  {
  }

  lemma OffsetMasks64(x: bv64, alpha: nat)
    requires alpha <= 28
    ensures Offset64(x, alpha) == And64(x, Mask64(alpha))
  {
    hide Mask64;
  }

  lemma OffsetLow64(x: bv64, alpha: nat)
    requires alpha <= 28
    ensures Offset64(x, alpha) == Eightfold64(Low64(Eighth64(x), alpha)) && Small64(Low64(Eighth64(x), alpha))
  {
    OffsetMasks64(x, alpha);
    MaskIs64(alpha);
    hide Offset64; hide Ones64; hide Mask64; hide Eightfold64; hide And64; hide Eighth64; hide Small64;
    FieldIs64(x, Ones64(alpha));
  }

  lemma Eightfold64Is(m: bv64)
    requires Small64(m)
    ensures Eightfold64(m) as nat == 8 * Value64(m)
  {
    assert (m << 3) as nat == 8 * (m as nat);
  }

  lemma SlotLow64(x: bv64, alpha: nat)
    requires alpha <= 28
    ensures Slot64(x, alpha) == Value64(Low64(Eighth64(x), alpha))
  {
    OffsetLow64(x, alpha);
    hide Offset64; hide Low64; hide Eightfold64; hide Eighth64; hide Value64; hide Small64;
    Eightfold64Is(Low64(Eighth64(x), alpha));
  }

  /** The slot `ind(mm, x)` reads: the word counts eight bytes, and the memory wraps. */
  lemma SlotIs64(x: bv64, alpha: nat)
    requires alpha <= 28
    ensures N(alpha) > 0 && Slot64(x, alpha) == (x as nat / 8) % N(alpha)
  {
    assert Value64(x) == x as nat;
    hide Slot64; hide Low64; hide High64; hide N; hide Eighth64; hide Value64;
    SlotLow64(x, alpha);
    Eighth64Is(x);
    QuotientIs64(Eighth64(x), alpha);
    NIsPower(alpha);
  }

  predicate ShiftedBy64(y: bv64, b: bv7, z: bv64)
    requires b <= 30
  {
    z == y >> b
  }

  predicate DownBy64(y: bv64, alpha: nat, z: bv64)
    requires alpha <= 30
  {
    z == y >> alpha
  }

  lemma HighIs64(y: bv64, b: bv7, z: bv64)
    requires b <= 30 && z == Shifted64(y, b)
    ensures ShiftedBy64(y, b, z)
  {
  }

  lemma ShiftedIsDown64(y: bv64, alpha: nat, b: bv7, z: bv64)
    requires alpha <= 30 && b == alpha as bv7 && b <= 30 && ShiftedBy64(y, b, z)
    ensures DownBy64(y, alpha, z)
  {
    AmountIs64(y, alpha, b);
  }

  lemma HighSlotAt64(y: bv64, alpha: nat, z: bv64)
    requires alpha <= 28 && DownBy64(y, alpha, z)
    ensures HighSlot64(y, alpha) == Slot64(z, alpha)
  {
    hide Slot64;
  }

  lemma HighSlotShifts64(y: bv64, alpha: nat)
    requires alpha <= 28
    ensures HighSlot64(y, alpha) == Slot64(High64(y, alpha), alpha)
  {
    AmountAs64(alpha);
    hide Slot64; hide Amount64; hide Shifted64; hide HighSlot64; hide ShiftedBy64; hide DownBy64;
    HighIs64(y, Amount64(alpha), High64(y, alpha));
    ShiftedIsDown64(y, alpha, Amount64(alpha), High64(y, alpha));
    HighSlotAt64(y, alpha, High64(y, alpha));
  }

  /** The slot `ind(mm, y >> ALPHA)` reads. */
  lemma HighSlotIs64(y: bv64, alpha: nat)
    requires alpha <= 28
    ensures N(alpha) > 0 && HighSlot64(y, alpha) == (y as nat / (8 * N(alpha))) % N(alpha)
  {
    assert Value64(y) == y as nat && Value64(High64(y, alpha)) == High64(y, alpha) as nat;
    hide Slot64; hide HighSlot64; hide High64; hide Low64; hide N; hide Value64;
    HighSlotShifts64(y, alpha);
    SlotIs64(High64(y, alpha), alpha);
    QuotientIs64(y, alpha);
    NIsPower(alpha);
    DividesTwice(y as nat, N(alpha), 8);
  }
}
