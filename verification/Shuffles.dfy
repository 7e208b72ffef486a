/**
 * The two mixes of `cdc512_data` and the 32-bit one of the generator as the source writes them: eight
 * words by name, eight lines of assignments. They are what module Mixing composes line by line.
 */
module Shuffles {
  import opened Mixing

  lemma EightLines(s: Words)
    ensures Mix(s, 8) ==
              Line(Line(Line(Line(Line(Line(Line(Line(s, 0), 1), 2), 3), 4), 5), 6), 7)
  {
    hide Line;
    assert Mix(s, 1) == Line(Mix(s, 0), 0);
    assert Mix(s, 2) == Line(Mix(s, 1), 1);
    assert Mix(s, 3) == Line(Mix(s, 2), 2);
    assert Mix(s, 4) == Line(Mix(s, 3), 3);
    assert Mix(s, 5) == Line(Mix(s, 4), 4);
    assert Mix(s, 6) == Line(Mix(s, 5), 5);
    assert Mix(s, 7) == Line(Mix(s, 6), 6);
    assert Mix(s, 8) == Line(Mix(s, 7), 7);
  }

  lemma EightLinesWith(s: Words, v: Words)
    ensures MixWith(s, v, 8) ==
              LineWith(LineWith(LineWith(LineWith(LineWith(LineWith(LineWith(LineWith(s, v, 0), v, 1), v, 2), v, 3), v, 4), v, 5), v, 6), v, 7)
  {
    hide LineWith;
    assert MixWith(s, v, 1) == LineWith(MixWith(s, v, 0), v, 0);
    assert MixWith(s, v, 2) == LineWith(MixWith(s, v, 1), v, 1);
    assert MixWith(s, v, 3) == LineWith(MixWith(s, v, 2), v, 2);
    assert MixWith(s, v, 4) == LineWith(MixWith(s, v, 3), v, 3);
    assert MixWith(s, v, 5) == LineWith(MixWith(s, v, 4), v, 4);
    assert MixWith(s, v, 6) == LineWith(MixWith(s, v, 5), v, 5);
    assert MixWith(s, v, 7) == LineWith(MixWith(s, v, 6), v, 6);
    assert MixWith(s, v, 8) == LineWith(MixWith(s, v, 7), v, 7);
  }

  /** `shuffle()` on words by name. */
  function Shuffled(a: bv64, b: bv64, c: bv64, d: bv64, e: bv64, f: bv64, g: bv64, h: bv64): Words {
    var a, f := Minus(a, e), Xor(f, Shift(0, h)); var h := Plus(h, a);
    var b, g := Minus(b, f), Xor(g, Shift(1, a)); var a := Plus(a, b);
    var c, h := Minus(c, g), Xor(h, Shift(2, b)); var b := Plus(b, c);
    var d, a := Minus(d, h), Xor(a, Shift(3, c)); var c := Plus(c, d);
    var e, b := Minus(e, a), Xor(b, Shift(4, d)); var d := Plus(d, e);
    var f, c := Minus(f, b), Xor(c, Shift(5, e)); var e := Plus(e, f);
    var g, d := Minus(g, c), Xor(d, Shift(6, f)); var f := Plus(f, g);
    var h, e := Minus(h, d), Xor(e, Shift(7, g)); var g := Plus(g, h);
    [a, b, c, d, e, f, g, h]
  }

  lemma Shape0<W>(s: seq<W>, x: W, y: W, z: W)
    requires |s| == 8
    ensures s[0 := x][5 := y][7 := z] == [x, s[1], s[2], s[3], s[4], y, s[6], z]
  {
  }

  lemma Shape1<W>(s: seq<W>, x: W, y: W, z: W)
    requires |s| == 8
    ensures s[1 := x][6 := y][0 := z] == [z, x, s[2], s[3], s[4], s[5], y, s[7]]
  {
  }

  lemma Shape2<W>(s: seq<W>, x: W, y: W, z: W)
    requires |s| == 8
    ensures s[2 := x][7 := y][1 := z] == [s[0], z, x, s[3], s[4], s[5], s[6], y]
  {
  }

  lemma Shape3<W>(s: seq<W>, x: W, y: W, z: W)
    requires |s| == 8
    ensures s[3 := x][0 := y][2 := z] == [y, s[1], z, x, s[4], s[5], s[6], s[7]]
  {
  }

  lemma Shape4<W>(s: seq<W>, x: W, y: W, z: W)
    requires |s| == 8
    ensures s[4 := x][1 := y][3 := z] == [s[0], y, s[2], z, x, s[5], s[6], s[7]]
  {
  }

  lemma Shape5<W>(s: seq<W>, x: W, y: W, z: W)
    requires |s| == 8
    ensures s[5 := x][2 := y][4 := z] == [s[0], s[1], y, s[3], z, x, s[6], s[7]]
  {
  }

  lemma Shape6<W>(s: seq<W>, x: W, y: W, z: W)
    requires |s| == 8
    ensures s[6 := x][3 := y][5 := z] == [s[0], s[1], s[2], y, s[4], z, x, s[7]]
  {
  }

  lemma Shape7<W>(s: seq<W>, x: W, y: W, z: W)
    requires |s| == 8
    ensures s[7 := x][4 := y][6 := z] == [s[0], s[1], s[2], s[3], y, s[5], z, x]
  {
  }

  /** The three words a line writes, from the words before it. */
  lemma LineIs(s: Words, i: nat)
    requires i < 8
    ensures var p, q, r, t := i, (i + 4) % 8, (i + 5) % 8, (i + 7) % 8;
            var x := Minus(s[p], s[q]);
            Line(s, i) == s[p := x][r := Xor(s[r], Shift(i, s[t]))][t := Plus(s[t], x)]
  {
    hide Shift; hide Plus; hide Minus; hide Xor;
  }

  lemma Line0(s: Words)
    ensures Line(s, 0) == [Minus(s[A], s[E]), s[B], s[C], s[D], s[E], Xor(s[F], Shift(0, s[H])), s[G], Plus(s[H], Minus(s[A], s[E]))]
  {
    hide Shift; hide Plus; hide Minus; hide Xor; hide Line;
    LineIs(s, 0);
    Shape0(s, Minus(s[A], s[E]), Xor(s[F], Shift(0, s[H])), Plus(s[H], Minus(s[A], s[E])));
  }

  lemma Line1(s: Words)
    ensures Line(s, 1) == [Plus(s[A], Minus(s[B], s[F])), Minus(s[B], s[F]), s[C], s[D], s[E], s[F], Xor(s[G], Shift(1, s[A])), s[H]]
  {
    hide Shift; hide Plus; hide Minus; hide Xor; hide Line;
    LineIs(s, 1);
    Shape1(s, Minus(s[B], s[F]), Xor(s[G], Shift(1, s[A])), Plus(s[A], Minus(s[B], s[F])));
  }

  lemma Line2(s: Words)
    ensures Line(s, 2) == [s[A], Plus(s[B], Minus(s[C], s[G])), Minus(s[C], s[G]), s[D], s[E], s[F], s[G], Xor(s[H], Shift(2, s[B]))]
  {
    hide Shift; hide Plus; hide Minus; hide Xor; hide Line;
    LineIs(s, 2);
    Shape2(s, Minus(s[C], s[G]), Xor(s[H], Shift(2, s[B])), Plus(s[B], Minus(s[C], s[G])));
  }

  lemma Line3(s: Words)
    ensures Line(s, 3) == [Xor(s[A], Shift(3, s[C])), s[B], Plus(s[C], Minus(s[D], s[H])), Minus(s[D], s[H]), s[E], s[F], s[G], s[H]]
  {
    hide Shift; hide Plus; hide Minus; hide Xor; hide Line;
    LineIs(s, 3);
    Shape3(s, Minus(s[D], s[H]), Xor(s[A], Shift(3, s[C])), Plus(s[C], Minus(s[D], s[H])));
  }

  lemma Line4(s: Words)
    ensures Line(s, 4) == [s[A], Xor(s[B], Shift(4, s[D])), s[C], Plus(s[D], Minus(s[E], s[A])), Minus(s[E], s[A]), s[F], s[G], s[H]]
  {
    hide Shift; hide Plus; hide Minus; hide Xor; hide Line;
    LineIs(s, 4);
    Shape4(s, Minus(s[E], s[A]), Xor(s[B], Shift(4, s[D])), Plus(s[D], Minus(s[E], s[A])));
  }

  lemma Line5(s: Words)
    ensures Line(s, 5) == [s[A], s[B], Xor(s[C], Shift(5, s[E])), s[D], Plus(s[E], Minus(s[F], s[B])), Minus(s[F], s[B]), s[G], s[H]]
  {
    hide Shift; hide Plus; hide Minus; hide Xor; hide Line;
    LineIs(s, 5);
    Shape5(s, Minus(s[F], s[B]), Xor(s[C], Shift(5, s[E])), Plus(s[E], Minus(s[F], s[B])));
  }

  lemma Line6(s: Words)
    ensures Line(s, 6) == [s[A], s[B], s[C], Xor(s[D], Shift(6, s[F])), s[E], Plus(s[F], Minus(s[G], s[C])), Minus(s[G], s[C]), s[H]]
  {
    hide Shift; hide Plus; hide Minus; hide Xor; hide Line;
    LineIs(s, 6);
    Shape6(s, Minus(s[G], s[C]), Xor(s[D], Shift(6, s[F])), Plus(s[F], Minus(s[G], s[C])));
  }

  lemma Line7(s: Words)
    ensures Line(s, 7) == [s[A], s[B], s[C], s[D], Xor(s[E], Shift(7, s[G])), s[F], Plus(s[G], Minus(s[H], s[D])), Minus(s[H], s[D])]
  {
    hide Shift; hide Plus; hide Minus; hide Xor; hide Line;
    LineIs(s, 7);
    Shape7(s, Minus(s[H], s[D]), Xor(s[E], Shift(7, s[G])), Plus(s[G], Minus(s[H], s[D])));
  }

  lemma MixIs(s: Words)
    ensures Mix(s, 8) == Shuffled(s[A], s[B], s[C], s[D], s[E], s[F], s[G], s[H])
  {
    hide Shift; hide Plus; hide Minus; hide Xor; hide Line;
    EightLines(s);
    Line0(s);
    var s1 := Line(s, 0);
    Line1(s1);
    var s2 := Line(s1, 1);
    Line2(s2);
    var s3 := Line(s2, 2);
    Line3(s3);
    var s4 := Line(s3, 3);
    Line4(s4);
    var s5 := Line(s4, 4);
    Line5(s5);
    var s6 := Line(s5, 5);
    Line6(s6);
    var s7 := Line(s6, 6);
    Line7(s7);
  }

  /** `shuffle(v)` on words by name. */
  function ShuffledWith(a: bv64, b: bv64, c: bv64, d: bv64, e: bv64, f: bv64, g: bv64, h: bv64, v: Words): Words {
    var a, f := Minus(a, v[E]), Xor(f, Shift(0, v[H])); var h := Plus(h, v[A]);
    var b, g := Minus(b, v[F]), Xor(g, Shift(1, v[A])); var a := Plus(a, v[B]);
    var c, h := Minus(c, v[G]), Xor(h, Shift(2, v[B])); var b := Plus(b, v[C]);
    var d, a := Minus(d, v[H]), Xor(a, Shift(3, v[C])); var c := Plus(c, v[D]);
    var e, b := Minus(e, v[A]), Xor(b, Shift(4, v[D])); var d := Plus(d, v[E]);
    var f, c := Minus(f, v[B]), Xor(c, Shift(5, v[E])); var e := Plus(e, v[F]);
    var g, d := Minus(g, v[C]), Xor(d, Shift(6, v[F])); var f := Plus(f, v[G]);
    var h, e := Minus(h, v[D]), Xor(e, Shift(7, v[G])); var g := Plus(g, v[H]);
    [a, b, c, d, e, f, g, h]
  }

  /** The three words a line writes, from the words before it. */
  lemma LineWithIs(s: Words, v: Words, i: nat)
    requires i < 8
    ensures var p, q, r, t := i, (i + 4) % 8, (i + 5) % 8, (i + 7) % 8;
            var x := Minus(s[p], v[q]);
            LineWith(s, v, i) == s[p := x][r := Xor(s[r], Shift(i, v[t]))][t := Plus(s[t], v[p])]
  {
    hide Shift; hide Plus; hide Minus; hide Xor;
  }

  lemma LineWith0(s: Words, v: Words)
    ensures LineWith(s, v, 0) == [Minus(s[A], v[E]), s[B], s[C], s[D], s[E], Xor(s[F], Shift(0, v[H])), s[G], Plus(s[H], v[A])]
  {
    hide Shift; hide Plus; hide Minus; hide Xor; hide LineWith;
    LineWithIs(s, v, 0);
    Shape0(s, Minus(s[A], v[E]), Xor(s[F], Shift(0, v[H])), Plus(s[H], v[A]));
  }

  lemma LineWith1(s: Words, v: Words)
    ensures LineWith(s, v, 1) == [Plus(s[A], v[B]), Minus(s[B], v[F]), s[C], s[D], s[E], s[F], Xor(s[G], Shift(1, v[A])), s[H]]
  {
    hide Shift; hide Plus; hide Minus; hide Xor; hide LineWith;
    LineWithIs(s, v, 1);
    Shape1(s, Minus(s[B], v[F]), Xor(s[G], Shift(1, v[A])), Plus(s[A], v[B]));
  }

  lemma LineWith2(s: Words, v: Words)
    ensures LineWith(s, v, 2) == [s[A], Plus(s[B], v[C]), Minus(s[C], v[G]), s[D], s[E], s[F], s[G], Xor(s[H], Shift(2, v[B]))]
  {
    hide Shift; hide Plus; hide Minus; hide Xor; hide LineWith;
    LineWithIs(s, v, 2);
    Shape2(s, Minus(s[C], v[G]), Xor(s[H], Shift(2, v[B])), Plus(s[B], v[C]));
  }

  lemma LineWith3(s: Words, v: Words)
    ensures LineWith(s, v, 3) == [Xor(s[A], Shift(3, v[C])), s[B], Plus(s[C], v[D]), Minus(s[D], v[H]), s[E], s[F], s[G], s[H]]
  {
    hide Shift; hide Plus; hide Minus; hide Xor; hide LineWith;
    LineWithIs(s, v, 3);
    Shape3(s, Minus(s[D], v[H]), Xor(s[A], Shift(3, v[C])), Plus(s[C], v[D]));
  }

  lemma LineWith4(s: Words, v: Words)
    ensures LineWith(s, v, 4) == [s[A], Xor(s[B], Shift(4, v[D])), s[C], Plus(s[D], v[E]), Minus(s[E], v[A]), s[F], s[G], s[H]]
  {
    hide Shift; hide Plus; hide Minus; hide Xor; hide LineWith;
    LineWithIs(s, v, 4);
    Shape4(s, Minus(s[E], v[A]), Xor(s[B], Shift(4, v[D])), Plus(s[D], v[E]));
  }

  lemma LineWith5(s: Words, v: Words)
    ensures LineWith(s, v, 5) == [s[A], s[B], Xor(s[C], Shift(5, v[E])), s[D], Plus(s[E], v[F]), Minus(s[F], v[B]), s[G], s[H]]
  {
    hide Shift; hide Plus; hide Minus; hide Xor; hide LineWith;
    LineWithIs(s, v, 5);
    Shape5(s, Minus(s[F], v[B]), Xor(s[C], Shift(5, v[E])), Plus(s[E], v[F]));
  }

  lemma LineWith6(s: Words, v: Words)
    ensures LineWith(s, v, 6) == [s[A], s[B], s[C], Xor(s[D], Shift(6, v[F])), s[E], Plus(s[F], v[G]), Minus(s[G], v[C]), s[H]]
  {
    hide Shift; hide Plus; hide Minus; hide Xor; hide LineWith;
    LineWithIs(s, v, 6);
    Shape6(s, Minus(s[G], v[C]), Xor(s[D], Shift(6, v[F])), Plus(s[F], v[G]));
  }

  lemma LineWith7(s: Words, v: Words)
    ensures LineWith(s, v, 7) == [s[A], s[B], s[C], s[D], Xor(s[E], Shift(7, v[G])), s[F], Plus(s[G], v[H]), Minus(s[H], v[D])]
  {
    hide Shift; hide Plus; hide Minus; hide Xor; hide LineWith;
    LineWithIs(s, v, 7);
    Shape7(s, Minus(s[H], v[D]), Xor(s[E], Shift(7, v[G])), Plus(s[G], v[H]));
  }

  lemma MixWithIs(s: Words, v: Words)
    ensures MixWith(s, v, 8) == ShuffledWith(s[A], s[B], s[C], s[D], s[E], s[F], s[G], s[H], v)
  {
    hide Shift; hide Plus; hide Minus; hide Xor; hide LineWith;
    EightLinesWith(s, v);
    LineWith0(s, v);
    var s1 := LineWith(s, v, 0);
    LineWith1(s1, v);
    var s2 := LineWith(s1, v, 1);
    LineWith2(s2, v);
    var s3 := LineWith(s2, v, 2);
    LineWith3(s3, v);
    var s4 := LineWith(s3, v, 3);
    LineWith4(s4, v);
    var s5 := LineWith(s4, v, 4);
    LineWith5(s5, v);
    var s6 := LineWith(s5, v, 5);
    LineWith6(s6, v);
    var s7 := LineWith(s6, v, 6);
    LineWith7(s7, v);
  }

  // ---------------------------------------------------------------- 32-bit words

  lemma EightLines32(s: Words32)
    ensures Mix32(s, 8) ==
              Line32(Line32(Line32(Line32(Line32(Line32(Line32(Line32(s, 0), 1), 2), 3), 4), 5), 6), 7)
  {
    hide Line32;
    assert Mix32(s, 1) == Line32(Mix32(s, 0), 0);
    assert Mix32(s, 2) == Line32(Mix32(s, 1), 1);
    assert Mix32(s, 3) == Line32(Mix32(s, 2), 2);
    assert Mix32(s, 4) == Line32(Mix32(s, 3), 3);
    assert Mix32(s, 5) == Line32(Mix32(s, 4), 4);
    assert Mix32(s, 6) == Line32(Mix32(s, 5), 5);
    assert Mix32(s, 7) == Line32(Mix32(s, 6), 6);
    assert Mix32(s, 8) == Line32(Mix32(s, 7), 7);
  }

  /** the 32-bit `shuffle` on words by name. */
  function Shuffled32(a: bv32, b: bv32, c: bv32, d: bv32, e: bv32, f: bv32, g: bv32, h: bv32): Words32 {
    var a := Xor32(a, Shift32(0, b)); var d, b := Plus32(d, a), Plus32(b, c);
    var b := Xor32(b, Shift32(1, c)); var e, c := Plus32(e, b), Plus32(c, d);
    var c := Xor32(c, Shift32(2, d)); var f, d := Plus32(f, c), Plus32(d, e);
    var d := Xor32(d, Shift32(3, e)); var g, e := Plus32(g, d), Plus32(e, f);
    var e := Xor32(e, Shift32(4, f)); var h, f := Plus32(h, e), Plus32(f, g);
    var f := Xor32(f, Shift32(5, g)); var a, g := Plus32(a, f), Plus32(g, h);
    var g := Xor32(g, Shift32(6, h)); var b, h := Plus32(b, g), Plus32(h, a);
    var h := Xor32(h, Shift32(7, a)); var c, a := Plus32(c, h), Plus32(a, b);
    [a, b, c, d, e, f, g, h]
  }

  lemma Shape32_0<W>(s: seq<W>, x: W, y: W, z: W)
    requires |s| == 8
    ensures s[0 := x][3 := y][1 := z] == [x, z, s[2], y, s[4], s[5], s[6], s[7]]
  {
  }

  lemma Shape32_1<W>(s: seq<W>, x: W, y: W, z: W)
    requires |s| == 8
    ensures s[1 := x][4 := y][2 := z] == [s[0], x, z, s[3], y, s[5], s[6], s[7]]
  {
  }

  lemma Shape32_2<W>(s: seq<W>, x: W, y: W, z: W)
    requires |s| == 8
    ensures s[2 := x][5 := y][3 := z] == [s[0], s[1], x, z, s[4], y, s[6], s[7]]
  {
  }

  lemma Shape32_3<W>(s: seq<W>, x: W, y: W, z: W)
    requires |s| == 8
    ensures s[3 := x][6 := y][4 := z] == [s[0], s[1], s[2], x, z, s[5], y, s[7]]
  {
  }

  lemma Shape32_4<W>(s: seq<W>, x: W, y: W, z: W)
    requires |s| == 8
    ensures s[4 := x][7 := y][5 := z] == [s[0], s[1], s[2], s[3], x, z, s[6], y]
  {
  }

  lemma Shape32_5<W>(s: seq<W>, x: W, y: W, z: W)
    requires |s| == 8
    ensures s[5 := x][0 := y][6 := z] == [y, s[1], s[2], s[3], s[4], x, z, s[7]]
  {
  }

  lemma Shape32_6<W>(s: seq<W>, x: W, y: W, z: W)
    requires |s| == 8
    ensures s[6 := x][1 := y][7 := z] == [s[0], y, s[2], s[3], s[4], s[5], x, z]
  {
  }

  lemma Shape32_7<W>(s: seq<W>, x: W, y: W, z: W)
    requires |s| == 8
    ensures s[7 := x][2 := y][0 := z] == [z, s[1], y, s[3], s[4], s[5], s[6], x]
  {
  }

  /** The three words a line writes, from the words before it. */
  lemma Line32Is(s: Words32, i: nat)
    requires i < 8
    ensures var p, q, r, t := i, (i + 1) % 8, (i + 2) % 8, (i + 3) % 8;
            var x := Xor32(s[p], Shift32(i, s[q]));
            Line32(s, i) == s[p := x][t := Plus32(s[t], x)][q := Plus32(s[q], s[r])]
  {
    hide Shift32; hide Plus32; hide Xor32;
  }

  lemma Line32_0(s: Words32)
    ensures Line32(s, 0) == [Xor32(s[A], Shift32(0, s[B])), Plus32(s[B], s[C]), s[C], Plus32(s[D], Xor32(s[A], Shift32(0, s[B]))), s[E], s[F], s[G], s[H]]
  {
    hide Shift32; hide Plus32; hide Xor32; hide Line32;
    Line32Is(s, 0);
    Shape32_0(s, Xor32(s[A], Shift32(0, s[B])), Plus32(s[D], Xor32(s[A], Shift32(0, s[B]))), Plus32(s[B], s[C]));
  }

  lemma Line32_1(s: Words32)
    ensures Line32(s, 1) == [s[A], Xor32(s[B], Shift32(1, s[C])), Plus32(s[C], s[D]), s[D], Plus32(s[E], Xor32(s[B], Shift32(1, s[C]))), s[F], s[G], s[H]]
  {
    hide Shift32; hide Plus32; hide Xor32; hide Line32;
    Line32Is(s, 1);
    Shape32_1(s, Xor32(s[B], Shift32(1, s[C])), Plus32(s[E], Xor32(s[B], Shift32(1, s[C]))), Plus32(s[C], s[D]));
  }

  lemma Line32_2(s: Words32)
    ensures Line32(s, 2) == [s[A], s[B], Xor32(s[C], Shift32(2, s[D])), Plus32(s[D], s[E]), s[E], Plus32(s[F], Xor32(s[C], Shift32(2, s[D]))), s[G], s[H]]
  {
    hide Shift32; hide Plus32; hide Xor32; hide Line32;
    Line32Is(s, 2);
    Shape32_2(s, Xor32(s[C], Shift32(2, s[D])), Plus32(s[F], Xor32(s[C], Shift32(2, s[D]))), Plus32(s[D], s[E]));
  }

  lemma Line32_3(s: Words32)
    ensures Line32(s, 3) == [s[A], s[B], s[C], Xor32(s[D], Shift32(3, s[E])), Plus32(s[E], s[F]), s[F], Plus32(s[G], Xor32(s[D], Shift32(3, s[E]))), s[H]]
  {
    hide Shift32; hide Plus32; hide Xor32; hide Line32;
    Line32Is(s, 3);
    Shape32_3(s, Xor32(s[D], Shift32(3, s[E])), Plus32(s[G], Xor32(s[D], Shift32(3, s[E]))), Plus32(s[E], s[F]));
  }

  lemma Line32_4(s: Words32)
    ensures Line32(s, 4) == [s[A], s[B], s[C], s[D], Xor32(s[E], Shift32(4, s[F])), Plus32(s[F], s[G]), s[G], Plus32(s[H], Xor32(s[E], Shift32(4, s[F])))]
  {
    hide Shift32; hide Plus32; hide Xor32; hide Line32;
    Line32Is(s, 4);
    Shape32_4(s, Xor32(s[E], Shift32(4, s[F])), Plus32(s[H], Xor32(s[E], Shift32(4, s[F]))), Plus32(s[F], s[G]));
  }

  lemma Line32_5(s: Words32)
    ensures Line32(s, 5) == [Plus32(s[A], Xor32(s[F], Shift32(5, s[G]))), s[B], s[C], s[D], s[E], Xor32(s[F], Shift32(5, s[G])), Plus32(s[G], s[H]), s[H]]
  {
    hide Shift32; hide Plus32; hide Xor32; hide Line32;
    Line32Is(s, 5);
    Shape32_5(s, Xor32(s[F], Shift32(5, s[G])), Plus32(s[A], Xor32(s[F], Shift32(5, s[G]))), Plus32(s[G], s[H]));
  }

  lemma Line32_6(s: Words32)
    ensures Line32(s, 6) == [s[A], Plus32(s[B], Xor32(s[G], Shift32(6, s[H]))), s[C], s[D], s[E], s[F], Xor32(s[G], Shift32(6, s[H])), Plus32(s[H], s[A])]
  {
    hide Shift32; hide Plus32; hide Xor32; hide Line32;
    Line32Is(s, 6);
    Shape32_6(s, Xor32(s[G], Shift32(6, s[H])), Plus32(s[B], Xor32(s[G], Shift32(6, s[H]))), Plus32(s[H], s[A]));
  }

  lemma Line32_7(s: Words32)
    ensures Line32(s, 7) == [Plus32(s[A], s[B]), s[B], Plus32(s[C], Xor32(s[H], Shift32(7, s[A]))), s[D], s[E], s[F], s[G], Xor32(s[H], Shift32(7, s[A]))]
  {
    hide Shift32; hide Plus32; hide Xor32; hide Line32;
    Line32Is(s, 7);
    Shape32_7(s, Xor32(s[H], Shift32(7, s[A])), Plus32(s[C], Xor32(s[H], Shift32(7, s[A]))), Plus32(s[A], s[B]));
  }

  lemma Mix32Is(s: Words32)
    ensures Mix32(s, 8) == Shuffled32(s[A], s[B], s[C], s[D], s[E], s[F], s[G], s[H])
  {
    hide Shift32; hide Plus32; hide Xor32; hide Line32;
    EightLines32(s);
    Line32_0(s);
    var s1 := Line32(s, 0);
    Line32_1(s1);
    var s2 := Line32(s1, 1);
    Line32_2(s2);
    var s3 := Line32(s2, 2);
    Line32_3(s3);
    var s4 := Line32(s3, 3);
    Line32_4(s4);
    var s5 := Line32(s4, 4);
    Line32_5(s5);
    var s6 := Line32(s5, 5);
    Line32_6(s6);
    var s7 := Line32(s6, 6);
    Line32_7(s7);
  }
}
