/**
 * The mixing of eight words that `cdc512_data::shuffle` and both versions of the generator's
 * `shuffle` are made of, as sequences of reversible lines.
 *
 * Word `i` of a state stands for the i-th of the variables a..h. Every line of the source has the
 * same form as the one before it, with all variables moved on by one.
 */
module Mixing {

  type Words = s: seq<bv64> | |s| == 8 witness [0, 0, 0, 0, 0, 0, 0, 0]

  // The words by name.
  const A: nat := 0
  const B: nat := 1
  const C: nat := 2
  const D: nat := 3
  const E: nat := 4
  const F: nat := 5
  const G: nat := 6
  const H: nat := 7

  type Words32 = s: seq<bv32> | |s| == 8 witness [0, 0, 0, 0, 0, 0, 0, 0]

  // ---------------------------------------------------------------- 64-bit words

  function Plus(x: bv64, y: bv64): bv64 {
    x + y
  }

  function Minus(x: bv64, y: bv64): bv64 {
    x - y
  }

  function Xor(x: bv64, y: bv64): bv64 {
    x ^ y
  }

  lemma PlusMinus(x: bv64, y: bv64)
    ensures Plus(Minus(x, y), y) == x
  {
    assert Plus(x - y, y) == x;
  }

  lemma MinusPlus(x: bv64, y: bv64)
    ensures Minus(Plus(x, y), y) == x
  {
    assert Minus(x + y, y) == x;
  }

  lemma XorXor(x: bv64, y: bv64)
    ensures Xor(Xor(x, y), y) == x
  {
    assert Xor(x ^ y, y) == x;
  }

  /** Nothing but their being each other's inverse matters about these operations from here on. */
  lemma Cancel(x: bv64, y: bv64)
    ensures Plus(Minus(x, y), y) == x
    ensures Minus(Plus(x, y), y) == x
    ensures Xor(Xor(x, y), y) == x
  {
    hide Plus; hide Minus; hide Xor;
    PlusMinus(x, y);
    MinusPlus(x, y);
    XorXor(x, y);
  }

  /** The shift of line `i` of the 64-bit mix. */
  function Shift(i: nat, x: bv64): bv64
    requires i < 8
  {
    match i
    case 0 => x >> 9
    case 1 => x << 9
    case 2 => x >> 23
    case 3 => x << 15
    case 4 => x >> 14
    case 5 => x << 20
    case 6 => x >> 17
    case 7 => x << 14
  }

  /** Line `i` of `shuffle()`: for i = 0, a -= e; f ^= h >> 9; h += a. */
  function Line(s: Words, i: nat): Words
    requires i < 8
  {
    var p, q, r, t := i, (i + 4) % 8, (i + 5) % 8, (i + 7) % 8;
    var s1 := s[p := Minus(s[p], s[q])];
    var s2 := s1[r := Xor(s1[r], Shift(i, s1[t]))];
    s2[t := Plus(s2[t], s2[p])]
  }

  function UndoLine(s: Words, i: nat): Words
    requires i < 8
  {
    var p, q, r, t := i, (i + 4) % 8, (i + 5) % 8, (i + 7) % 8;
    var s1 := s[t := Minus(s[t], s[p])];
    var s2 := s1[r := Xor(s1[r], Shift(i, s1[t]))];
    s2[p := Plus(s2[p], s2[q])]
  }

  lemma LineReversible(s: Words, i: nat)
    requires i < 8
    ensures UndoLine(Line(s, i), i) == s && Line(UndoLine(s, i), i) == s
  {
    LineUndone(s, i);
    LineRedone(s, i);
  }

  lemma LineUndone(s: Words, i: nat)
    requires i < 8
    ensures UndoLine(Line(s, i), i) == s
  {
    hide Plus; hide Minus; hide Xor; hide Shift;
    var p, q, r, t := i, (i + 4) % 8, (i + 5) % 8, (i + 7) % 8;
    var l := Line(s, i);
    assert l[p] == Minus(s[p], s[q]) && l[q] == s[q];
    assert l[r] == Xor(s[r], Shift(i, s[t])) && l[t] == Plus(s[t], l[p]);
    Cancel(s[p], s[q]);
    Cancel(s[r], Shift(i, s[t]));
    Cancel(s[t], l[p]);
    assert UndoLine(l, i) == l[t := s[t]][r := s[r]][p := s[p]];
  }

  lemma LineRedone(s: Words, i: nat)
    requires i < 8
    ensures Line(UndoLine(s, i), i) == s
  {
    hide Plus; hide Minus; hide Xor; hide Shift;
    var p, q, r, t := i, (i + 4) % 8, (i + 5) % 8, (i + 7) % 8;
    var u := UndoLine(s, i);
    assert u[t] == Minus(s[t], s[p]) && u[q] == s[q];
    assert u[r] == Xor(s[r], Shift(i, u[t])) && u[p] == Plus(s[p], s[q]);
    Cancel(s[p], s[q]);
    Cancel(s[t], s[p]);
    Cancel(s[r], Shift(i, u[t]));
    assert Line(u, i) == u[p := s[p]][r := s[r]][t := s[t]];
  }

  /** Line `i` of `shuffle(v)`: for i = 0, a -= v.e; f ^= v.h >> 9; h += v.a. */
  function LineWith(s: Words, v: Words, i: nat): Words
    requires i < 8
  {
    var p, q, r, t := i, (i + 4) % 8, (i + 5) % 8, (i + 7) % 8;
    var s1 := s[p := Minus(s[p], v[q])];
    var s2 := s1[r := Xor(s1[r], Shift(i, v[t]))];
    s2[t := Plus(s2[t], v[p])]
  }

  function UndoLineWith(s: Words, v: Words, i: nat): Words
    requires i < 8
  {
    var p, q, r, t := i, (i + 4) % 8, (i + 5) % 8, (i + 7) % 8;
    var s1 := s[p := Plus(s[p], v[q])];
    var s2 := s1[r := Xor(s1[r], Shift(i, v[t]))];
    s2[t := Minus(s2[t], v[p])]
  }

  lemma LineWithReversible(s: Words, v: Words, i: nat)
    requires i < 8
    ensures UndoLineWith(LineWith(s, v, i), v, i) == s && LineWith(UndoLineWith(s, v, i), v, i) == s
  {
    LineWithUndone(s, v, i);
    LineWithRedone(s, v, i);
  }

  lemma LineWithUndone(s: Words, v: Words, i: nat)
    requires i < 8
    ensures UndoLineWith(LineWith(s, v, i), v, i) == s
  {
    hide Plus; hide Minus; hide Xor; hide Shift;
    var p, q, r, t := i, (i + 4) % 8, (i + 5) % 8, (i + 7) % 8;
    var l := LineWith(s, v, i);
    assert l[p] == Minus(s[p], v[q]) && l[r] == Xor(s[r], Shift(i, v[t])) && l[t] == Plus(s[t], v[p]);
    Cancel(s[p], v[q]);
    Cancel(s[r], Shift(i, v[t]));
    Cancel(s[t], v[p]);
    assert UndoLineWith(l, v, i) == l[p := s[p]][r := s[r]][t := s[t]];
  }

  lemma LineWithRedone(s: Words, v: Words, i: nat)
    requires i < 8
    ensures LineWith(UndoLineWith(s, v, i), v, i) == s
  {
    hide Plus; hide Minus; hide Xor; hide Shift;
    var p, q, r, t := i, (i + 4) % 8, (i + 5) % 8, (i + 7) % 8;
    var u := UndoLineWith(s, v, i);
    assert u[p] == Plus(s[p], v[q]) && u[r] == Xor(s[r], Shift(i, v[t])) && u[t] == Minus(s[t], v[p]);
    Cancel(s[p], v[q]);
    Cancel(s[r], Shift(i, v[t]));
    Cancel(s[t], v[p]);
    assert LineWith(u, v, i) == u[p := s[p]][r := s[r]][t := s[t]];
  }

  /** The first `n` lines of `shuffle()`. */
  function Mix(s: Words, n: nat): Words
    requires n <= 8
  {
    if n == 0 then s else Line(Mix(s, n - 1), n - 1)
  }

  function Unmix(s: Words, n: nat): Words
    requires n <= 8
    decreases n
  {
    if n == 0 then s else Unmix(UndoLine(s, n - 1), n - 1)
  }

  lemma {:induction false} MixReversible(s: Words, n: nat)
    requires n <= 8
    ensures Unmix(Mix(s, n), n) == s && Mix(Unmix(s, n), n) == s
    decreases n
  {
    hide Line; hide UndoLine;
    if n > 0 {
      LineReversible(Mix(s, n - 1), n - 1);
      LineReversible(s, n - 1);
      MixReversible(s, n - 1);
      MixReversible(UndoLine(s, n - 1), n - 1);
    }
  }

  /** The first `n` lines of `shuffle(v)`. */
  function MixWith(s: Words, v: Words, n: nat): Words
    requires n <= 8
  {
    if n == 0 then s else LineWith(MixWith(s, v, n - 1), v, n - 1)
  }

  function UnmixWith(s: Words, v: Words, n: nat): Words
    requires n <= 8
    decreases n
  {
    if n == 0 then s else UnmixWith(UndoLineWith(s, v, n - 1), v, n - 1)
  }

  lemma {:induction false} MixWithReversible(s: Words, v: Words, n: nat)
    requires n <= 8
    ensures UnmixWith(MixWith(s, v, n), v, n) == s && MixWith(UnmixWith(s, v, n), v, n) == s
    decreases n
  {
    hide LineWith; hide UndoLineWith;
    if n > 0 {
      LineWithReversible(MixWith(s, v, n - 1), v, n - 1);
      LineWithReversible(s, v, n - 1);
      MixWithReversible(s, v, n - 1);
      MixWithReversible(UndoLineWith(s, v, n - 1), v, n - 1);
    }
  }

  // ---------------------------------------------------------------- 32-bit words

  function Plus32(x: bv32, y: bv32): bv32 {
    x + y
  }

  function Minus32(x: bv32, y: bv32): bv32 {
    x - y
  }

  function Xor32(x: bv32, y: bv32): bv32 {
    x ^ y
  }

  lemma PlusMinus32(x: bv32, y: bv32)
    ensures Plus32(Minus32(x, y), y) == x
  {
    assert Plus32(x - y, y) == x;
  }

  lemma MinusPlus32(x: bv32, y: bv32)
    ensures Minus32(Plus32(x, y), y) == x
  {
    assert Minus32(x + y, y) == x;
  }

  lemma XorXor32(x: bv32, y: bv32)
    ensures Xor32(Xor32(x, y), y) == x
  {
    assert Xor32(x ^ y, y) == x;
  }

  /** Nothing but their being each other's inverse matters about these operations from here on. */
  lemma Cancel32(x: bv32, y: bv32)
    ensures Plus32(Minus32(x, y), y) == x
    ensures Minus32(Plus32(x, y), y) == x
    ensures Xor32(Xor32(x, y), y) == x
  {
    hide Plus32; hide Minus32; hide Xor32;
    PlusMinus32(x, y);
    MinusPlus32(x, y);
    XorXor32(x, y);
  }

  /** The shift of line `i` of the generator's 32-bit mix. */
  function Shift32(i: nat, x: bv32): bv32
    requires i < 8
  {
    match i
    case 0 => x << 11
    case 1 => x >> 2
    case 2 => x << 8
    case 3 => x >> 16
    case 4 => x << 10
    case 5 => x >> 4
    case 6 => x << 8
    case 7 => x >> 9
  }

  /** Line `i` of the 32-bit `shuffle`: for i = 0, a ^= b << 11; d += a; b += c. */
  function Line32(s: Words32, i: nat): Words32
    requires i < 8
  {
    var p, q, r, t := i, (i + 1) % 8, (i + 2) % 8, (i + 3) % 8;
    var s1 := s[p := Xor32(s[p], Shift32(i, s[q]))];
    var s2 := s1[t := Plus32(s1[t], s1[p])];
    s2[q := Plus32(s2[q], s2[r])]
  }

  function UndoLine32(s: Words32, i: nat): Words32
    requires i < 8
  {
    var p, q, r, t := i, (i + 1) % 8, (i + 2) % 8, (i + 3) % 8;
    var s1 := s[q := Minus32(s[q], s[r])];
    var s2 := s1[t := Minus32(s1[t], s1[p])];
    s2[p := Xor32(s2[p], Shift32(i, s2[q]))]
  }

  lemma Line32Reversible(s: Words32, i: nat)
    requires i < 8
    ensures UndoLine32(Line32(s, i), i) == s && Line32(UndoLine32(s, i), i) == s
  {
    Line32Undone(s, i);
    Line32Redone(s, i);
  }

  lemma Line32Undone(s: Words32, i: nat)
    requires i < 8
    ensures UndoLine32(Line32(s, i), i) == s
  {
    hide Plus32; hide Minus32; hide Xor32; hide Shift32;
    var p, q, r, t := i, (i + 1) % 8, (i + 2) % 8, (i + 3) % 8;
    var l := Line32(s, i);
    assert l[p] == Xor32(s[p], Shift32(i, s[q])) && l[r] == s[r];
    assert l[t] == Plus32(s[t], l[p]) && l[q] == Plus32(s[q], s[r]);
    Cancel32(s[p], Shift32(i, s[q]));
    Cancel32(s[t], l[p]);
    Cancel32(s[q], s[r]);
    assert UndoLine32(l, i) == l[q := s[q]][t := s[t]][p := s[p]];
  }

  lemma Line32Redone(s: Words32, i: nat)
    requires i < 8
    ensures Line32(UndoLine32(s, i), i) == s
  {
    hide Plus32; hide Minus32; hide Xor32; hide Shift32;
    var p, q, r, t := i, (i + 1) % 8, (i + 2) % 8, (i + 3) % 8;
    var u := UndoLine32(s, i);
    assert u[q] == Minus32(s[q], s[r]) && u[r] == s[r];
    assert u[t] == Minus32(s[t], s[p]) && u[p] == Xor32(s[p], Shift32(i, u[q]));
    Cancel32(s[q], s[r]);
    Cancel32(s[t], s[p]);
    Cancel32(s[p], Shift32(i, u[q]));
    assert Line32(u, i) == u[p := s[p]][t := s[t]][q := s[q]];
  }

  function Mix32(s: Words32, n: nat): Words32
    requires n <= 8
  {
    if n == 0 then s else Line32(Mix32(s, n - 1), n - 1)
  }

  function Unmix32(s: Words32, n: nat): Words32
    requires n <= 8
    decreases n
  {
    if n == 0 then s else Unmix32(UndoLine32(s, n - 1), n - 1)
  }

  lemma {:induction false} Mix32Reversible(s: Words32, n: nat)
    requires n <= 8
    ensures Unmix32(Mix32(s, n), n) == s && Mix32(Unmix32(s, n), n) == s
    decreases n
  {
    hide Line32; hide UndoLine32;
    if n > 0 {
      Line32Reversible(Mix32(s, n - 1), n - 1);
      Line32Reversible(s, n - 1);
      Mix32Reversible(s, n - 1);
      Mix32Reversible(UndoLine32(s, n - 1), n - 1);
    }
  }
}
