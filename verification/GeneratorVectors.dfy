/**
 * Known answers of the generator with eight slots (ALPHA 3): the first word `get` returns after
 * seeding, worked out from the definitions. They depend on every constant and on every order there is.
 */
module GeneratorVectors {
  import opened Mixing
  import opened Shuffles
  import opened Isaac
  import opened Seeding
  import opened Generator
  import opened Widths
  import opened SlotNumbers

  lemma FourMixes<W(!new)>(ops: Ops<W>, n: nat)
    requires Lawful(ops, n)
    ensures Scrambled(ops, n, 4) == ops.mix(ops.mix(ops.mix(ops.mix(seq(8, _ => ops.golden)))))
  {
    assert Scrambled(ops, n, 1) == ops.mix(Scrambled(ops, n, 0));
    assert Scrambled(ops, n, 2) == ops.mix(Scrambled(ops, n, 1));
    assert Scrambled(ops, n, 3) == ops.mix(Scrambled(ops, n, 2));
  }

  lemma AddedWords<W>(ops: Ops<W>, s: Group<W>, t: Group<W>)
    requires |s| == 8 && |t| == 8
    ensures AddWords(ops, s, t) == [ops.plus(s[0], t[0]), ops.plus(s[1], t[1]), ops.plus(s[2], t[2]), ops.plus(s[3], t[3]),
                                    ops.plus(s[4], t[4]), ops.plus(s[5], t[5]), ops.plus(s[6], t[6]), ops.plus(s[7], t[7])]
  {
  }

  lemma OneGroup<W>(w: Group<W>)
    requires |w| == 8
    ensures Groups(w) == [w] && Ungroup([w]) == w
  {
    UngroupMore([], w);
    assert Groups(w)[0] == w;
    assert [] + [w] == [w];
  }

  lemma PassOfOne<W(!new)>(ops: Ops<W>, s: Group<W>, w: Group<W>)
    requires Lawful(ops, 8) && |s| == 8 && |w| == 8
    ensures var t := ops.mix(AddWords(ops, s, w));
            |t| == 8 && PassOut(ops, 8, s, [w]) == [t] && PassWords(ops, 8, s, [w], 1) == t
  {
    hide AddWords;
    assert PassWords(ops, 8, s, [w], 0) == s;
    assert Written(ops, 8, s, [w], 0) == [];
  }

  /** Both passes over a single group of slots. */
  lemma OneGroupMemory<W(!new)>(ops: Ops<W>, rsl: seq<W>)
    requires |rsl| == 8 && Lawful(ops, 8)
    ensures var once := ops.mix(AddWords(ops, Scrambled(ops, 8, 4), rsl));
            |once| == 8 && SeededMem(ops, rsl) == ops.mix(AddWords(ops, once, once))
  {
    hide AddWords; hide Ungroup; hide Groups; hide Lawful;
    var s := Scrambled(ops, 8, 4);
    OneGroup(rsl);
    PassOfOne(ops, s, rsl);
    var once := ops.mix(AddWords(ops, s, rsl));
    PassOfOne(ops, once, once);
    OneGroup(ops.mix(AddWords(ops, once, once)));
  }

  lemma EightSteps<W(!new)>(ops: Ops<W>, s0: Core<W>, s1: Core<W>, s2: Core<W>, s3: Core<W>, s4: Core<W>, s5: Core<W>, s6: Core<W>, s7: Core<W>, s8: Core<W>)
    requires Lawful(ops, 8) && |s0.mm| == 8
    requires Step(ops, s0, 0) == s1 && Step(ops, s1, 1) == s2 && Step(ops, s2, 2) == s3 && Step(ops, s3, 3) == s4
    requires Step(ops, s4, 4) == s5 && Step(ops, s5, 5) == s6 && Step(ops, s6, 6) == s7 && Step(ops, s7, 7) == s8
    ensures Steps(ops, s0, 8) == s8
  {
    hide Step; hide Lawful;
    assert Steps(ops, s0, 1) == s1;
    assert Steps(ops, s0, 2) == s2;
    assert Steps(ops, s0, 3) == s3;
    assert Steps(ops, s0, 4) == s4;
    assert Steps(ops, s0, 5) == s5;
    assert Steps(ops, s0, 6) == s6;
    assert Steps(ops, s0, 7) == s7;
  }

  /** `get` takes the words of a batch from the end, and the last of them is where its steps have left b. */
  lemma FirstOfBatch<W(!new)>(ops: Ops<W>, g: Gen<W>, t: Core<W>)
    requires |g.mem| == 8 && Lawful(ops, 8) && Steps(ops, Entering(ops, g), 8) == t
    ensures GetValue(ops, 8, FirstSource(ops, g)) == t.b
  {
    hide Step; hide Lawful; hide Steps;
  }

  /** The first word after `srand(a, b, c)`, from the seeded memory and what the eight steps make of it. */
  lemma FirstWord<W(!new)>(ops: Ops<W>, zero: W, a: W, b: W, c: W, sum: W, mem: seq<W>, t: Core<W>)
    requires Lawful(ops, 8) && |mem| == 8
    requires ops.zero == zero && ops.plus(b, ops.plus(c, ops.one)) == sum
    requires SeededMem(ops, [zero, zero, zero, zero, zero, zero, zero, zero]) == mem
    requires Steps(ops, Core(mem, a, sum), 8) == t
    ensures GetValue(ops, 8, SourceOfWords(ops, 8, a, b, c)) == t.b
  {
    hide Lawful; hide Steps; hide SeededMem; hide GetValue;
    assert seq(8, _ => ops.zero) == [ops.zero, ops.zero, ops.zero, ops.zero, ops.zero, ops.zero, ops.zero, ops.zero];
    FirstOfBatch(ops, Primed(ops, seq(8, _ => ops.zero), a, b, c), t);
  }

  /** The first word after seeding from eight words, which the first mixing takes in as the source lists them. */
  lemma FirstWordOfData<W(!new)>(ops: Ops<W>, before: seq<W>, data: seq<W>, p: W, q: W, r: W, s: W, t: W, u: W, v: W, w: W,
                                 a: W, b: W, c: W, i: W, j: W, k: W, l: W, m: W, sum: W, mem: seq<W>, last: Core<W>)
    requires Lawful(ops, 8) && |before| == 8 && |mem| == 8
    requires data == [p, q, r, s, t, u, v, w]
    requires ops.mix([p, q, r, p, q, r, s, t]) == [a, b, c, i, j, k, l, m] && ops.plus(b, ops.plus(c, ops.one)) == sum
    requires SeededMem(ops, [i, j, k, l, m, u, v, w]) == mem
    requires Steps(ops, Core(mem, a, sum), 8) == last
    ensures GetValue(ops, 8, SourceOfData(ops, before, data)) == last.b
  {
    hide Lawful; hide Steps; hide SeededMem; hide GetValue;
    assert Copied(ops, before, data) == data;
    var mixed := [a, b, c, i, j, k, l, m];
    assert Mixed(mixed, data) == [i, j, k, l, m, u, v, w];
    FirstOfBatch(ops, Primed(ops, Mixed(mixed, data), a, b, c), last);
  }

  // ---------------------------------------------------------------- 32-bit words

  lemma Laws32()
    ensures Lawful(Ops32(3), 8)
  {
    hide Ops32; hide Lawful; hide N;
    N3();
    Lawful32(3);
  }

  /** `rngstep` at slot i of eight. */
  function Line32(mm: seq<bv32>, a: bv32, b: bv32, i: nat): Core<bv32>
    requires |mm| == 8 && i < 8
  {
    var x := mm[i];
    var a' := Plus32(Stir32(i, a), mm[(i + 4) % 8]);
    var y := Plus32(Plus32(mm[(x as nat / 4) % 8], a'), b);
    var mm' := mm[i := y];
    Core(mm', a', Plus32(mm'[(y as nat / 32) % 8], x))
  }

  lemma StirIs32(i: nat, a: bv32)
    ensures Stir32(i % 4, a) == Stir32(i, a)
  {
    assert i % 4 % 4 == i % 4;
  }

  lemma LineIs32(mm: seq<bv32>, a: bv32, b: bv32, i: nat)
    requires |mm| == 8 && i < 8
    ensures Lawful(Ops32(3), 8) && Step(Ops32(3), Core(mm, a, b), i) == Line32(mm, a, b, i)
  {
    Laws32();
    hide Lawful; hide Slot32; hide HighSlot32; hide N; hide Plus32; hide Stir32;
    N3();
    PartnerIsModular(i, 8);
    SlotIs32(mm[i], 3);
    var y := Plus32(Plus32(mm[(mm[i] as nat / 4) % 8], Plus32(Stir32(i, a), mm[(i + 4) % 8])), b);
    HighSlotIs32(y, 3);
    StirIs32(i, a);
  }

  lemma EightLines32(s0: Core<bv32>, s1: Core<bv32>, s2: Core<bv32>, s3: Core<bv32>, s4: Core<bv32>,
                    s5: Core<bv32>, s6: Core<bv32>, s7: Core<bv32>, s8: Core<bv32>)
    requires |s0.mm| == 8 && |s1.mm| == 8 && |s2.mm| == 8 && |s3.mm| == 8
    requires |s4.mm| == 8 && |s5.mm| == 8 && |s6.mm| == 8 && |s7.mm| == 8
    requires Line32(s0.mm, s0.a, s0.b, 0) == s1 && Line32(s1.mm, s1.a, s1.b, 1) == s2
    requires Line32(s2.mm, s2.a, s2.b, 2) == s3 && Line32(s3.mm, s3.a, s3.b, 3) == s4
    requires Line32(s4.mm, s4.a, s4.b, 4) == s5 && Line32(s5.mm, s5.a, s5.b, 5) == s6
    requires Line32(s6.mm, s6.a, s6.b, 6) == s7 && Line32(s7.mm, s7.a, s7.b, 7) == s8
    ensures Lawful(Ops32(3), 8) && Steps(Ops32(3), s0, 8) == s8
  {
    Laws32();
    hide Step; hide Lawful; hide Ops32; hide Line32;
    LineIs32(s0.mm, s0.a, s0.b, 0);
    LineIs32(s1.mm, s1.a, s1.b, 1);
    LineIs32(s2.mm, s2.a, s2.b, 2);
    LineIs32(s3.mm, s3.a, s3.b, 3);
    LineIs32(s4.mm, s4.a, s4.b, 4);
    LineIs32(s5.mm, s5.a, s5.b, 5);
    LineIs32(s6.mm, s6.a, s6.b, 6);
    LineIs32(s7.mm, s7.a, s7.b, 7);
    EightSteps(Ops32(3), s0, s1, s2, s3, s4, s5, s6, s7, s8);
  }

  lemma Turned32(a: bv32, b: bv32, c: bv32, d: bv32, e: bv32, f: bv32, g: bv32, h: bv32)
    ensures Ops32(3).mix([a, b, c, d, e, f, g, h]) == Shuffled32(a, b, c, d, e, f, g, h)
  {
    hide Mix32; hide Shuffled32;
    Mix32Is([a, b, c, d, e, f, g, h]);
  }

  lemma Golden32()
    ensures seq(8, _ => Ops32(3).golden) ==
              [0x9E3779B9, 0x9E3779B9, 0x9E3779B9, 0x9E3779B9, 0x9E3779B9, 0x9E3779B9, 0x9E3779B9, 0x9E3779B9]
  {
  }

  lemma Entered32(b: bv32, c: bv32)
    ensures Ops32(3).zero == 0 && Ops32(3).plus(b, Ops32(3).plus(c, Ops32(3).one)) == Plus32(b, Plus32(c, 1))
  {
    hide Plus32;
  }

  lemma Scramble32_0()
    ensures Ops32(3).mix([0x9E3779B9, 0x9E3779B9, 0x9E3779B9, 0x9E3779B9, 0x9E3779B9, 0x9E3779B9, 0x9E3779B9, 0x9E3779B9]) ==
              [0x3F879D38, 0x0E56DEA4, 0x616A0F84, 0x7E4C685D, 0x41D767B9, 0x0B360CDB, 0xF273B188, 0x11273859]
  {
    Turned32(0x9E3779B9, 0x9E3779B9, 0x9E3779B9, 0x9E3779B9, 0x9E3779B9, 0x9E3779B9, 0x9E3779B9, 0x9E3779B9);
    hide Ops32;
    assert Shuffled32(0x9E3779B9, 0x9E3779B9, 0x9E3779B9, 0x9E3779B9, 0x9E3779B9, 0x9E3779B9, 0x9E3779B9, 0x9E3779B9) ==
           [0x3F879D38, 0x0E56DEA4, 0x616A0F84, 0x7E4C685D, 0x41D767B9, 0x0B360CDB, 0xF273B188, 0x11273859];
  }

  lemma Scramble32_1()
    ensures Ops32(3).mix([0x3F879D38, 0x0E56DEA4, 0x616A0F84, 0x7E4C685D, 0x41D767B9, 0x0B360CDB, 0xF273B188, 0x11273859]) ==
              [0x1B427C9A, 0xF1F31F86, 0xA075E066, 0xC1304266, 0x90075276, 0x9FDC9FDC, 0x7A58B1BD, 0xCA69404D]
  {
    Turned32(0x3F879D38, 0x0E56DEA4, 0x616A0F84, 0x7E4C685D, 0x41D767B9, 0x0B360CDB, 0xF273B188, 0x11273859);
    hide Ops32;
    assert Shuffled32(0x3F879D38, 0x0E56DEA4, 0x616A0F84, 0x7E4C685D, 0x41D767B9, 0x0B360CDB, 0xF273B188, 0x11273859) ==
           [0x1B427C9A, 0xF1F31F86, 0xA075E066, 0xC1304266, 0x90075276, 0x9FDC9FDC, 0x7A58B1BD, 0xCA69404D];
  }

  lemma Scramble32_2()
    ensures Ops32(3).mix([0x1B427C9A, 0xF1F31F86, 0xA075E066, 0xC1304266, 0x90075276, 0x9FDC9FDC, 0x7A58B1BD, 0xCA69404D]) ==
              [0x3CD2BAB8, 0x03FC94C3, 0xE5909C63, 0x8F6B2317, 0xD679E1AD, 0xB517D95B, 0x49870CCE, 0xD9A52CFD]
  {
    Turned32(0x1B427C9A, 0xF1F31F86, 0xA075E066, 0xC1304266, 0x90075276, 0x9FDC9FDC, 0x7A58B1BD, 0xCA69404D);
    hide Ops32;
    assert Shuffled32(0x1B427C9A, 0xF1F31F86, 0xA075E066, 0xC1304266, 0x90075276, 0x9FDC9FDC, 0x7A58B1BD, 0xCA69404D) ==
           [0x3CD2BAB8, 0x03FC94C3, 0xE5909C63, 0x8F6B2317, 0xD679E1AD, 0xB517D95B, 0x49870CCE, 0xD9A52CFD];
  }

  lemma Scramble32_3()
    ensures Ops32(3).mix([0x3CD2BAB8, 0x03FC94C3, 0xE5909C63, 0x8F6B2317, 0xD679E1AD, 0xB517D95B, 0x49870CCE, 0xD9A52CFD]) ==
              [0x1367DF5A, 0x95D90059, 0xC3163E4B, 0x0F421AD8, 0xD92A4A78, 0xA51A3C49, 0xC4EFEA1B, 0x30609119]
  {
    Turned32(0x3CD2BAB8, 0x03FC94C3, 0xE5909C63, 0x8F6B2317, 0xD679E1AD, 0xB517D95B, 0x49870CCE, 0xD9A52CFD);
    hide Ops32;
    assert Shuffled32(0x3CD2BAB8, 0x03FC94C3, 0xE5909C63, 0x8F6B2317, 0xD679E1AD, 0xB517D95B, 0x49870CCE, 0xD9A52CFD) ==
           [0x1367DF5A, 0x95D90059, 0xC3163E4B, 0x0F421AD8, 0xD92A4A78, 0xA51A3C49, 0xC4EFEA1B, 0x30609119];
  }

  lemma ScrambledWords32()
    ensures Lawful(Ops32(3), 8) && Scrambled(Ops32(3), 8, 4) ==
              [0x1367DF5A, 0x95D90059, 0xC3163E4B, 0x0F421AD8, 0xD92A4A78, 0xA51A3C49, 0xC4EFEA1B, 0x30609119]
  {
    Golden32();
    Laws32();
    hide Lawful; hide Ops32;
    Scramble32_0();
    Scramble32_1();
    Scramble32_2();
    Scramble32_3();
    FourMixes(Ops32(3), 8);
  }

  lemma Zeros32In()
    ensures AddWords(Ops32(3), [0x1367DF5A, 0x95D90059, 0xC3163E4B, 0x0F421AD8, 0xD92A4A78, 0xA51A3C49, 0xC4EFEA1B, 0x30609119], [0x00000000, 0x00000000, 0x00000000, 0x00000000, 0x00000000, 0x00000000, 0x00000000, 0x00000000]) ==
              [0x1367DF5A, 0x95D90059, 0xC3163E4B, 0x0F421AD8, 0xD92A4A78, 0xA51A3C49, 0xC4EFEA1B, 0x30609119]
  {
    AddedWords(Ops32(3), [0x1367DF5A, 0x95D90059, 0xC3163E4B, 0x0F421AD8, 0xD92A4A78, 0xA51A3C49, 0xC4EFEA1B, 0x30609119], [0x00000000, 0x00000000, 0x00000000, 0x00000000, 0x00000000, 0x00000000, 0x00000000, 0x00000000]);
  }

  lemma Zeros32First()
    ensures Ops32(3).mix([0x1367DF5A, 0x95D90059, 0xC3163E4B, 0x0F421AD8, 0xD92A4A78, 0xA51A3C49, 0xC4EFEA1B, 0x30609119]) ==
              [0x06CCA0E5, 0x7BCC7892, 0x1AB2DE71, 0x2BFC6CB4, 0x55056274, 0xAF9B10F9, 0x13A1C75C, 0x10239BF4]
  {
    Turned32(0x1367DF5A, 0x95D90059, 0xC3163E4B, 0x0F421AD8, 0xD92A4A78, 0xA51A3C49, 0xC4EFEA1B, 0x30609119);
    hide Ops32;
    assert Shuffled32(0x1367DF5A, 0x95D90059, 0xC3163E4B, 0x0F421AD8, 0xD92A4A78, 0xA51A3C49, 0xC4EFEA1B, 0x30609119) ==
           [0x06CCA0E5, 0x7BCC7892, 0x1AB2DE71, 0x2BFC6CB4, 0x55056274, 0xAF9B10F9, 0x13A1C75C, 0x10239BF4];
  }

  lemma Zeros32Twice()
    ensures AddWords(Ops32(3), [0x06CCA0E5, 0x7BCC7892, 0x1AB2DE71, 0x2BFC6CB4, 0x55056274, 0xAF9B10F9, 0x13A1C75C, 0x10239BF4], [0x06CCA0E5, 0x7BCC7892, 0x1AB2DE71, 0x2BFC6CB4, 0x55056274, 0xAF9B10F9, 0x13A1C75C, 0x10239BF4]) ==
              [0x0D9941CA, 0xF798F124, 0x3565BCE2, 0x57F8D968, 0xAA0AC4E8, 0x5F3621F2, 0x27438EB8, 0x204737E8]
  {
    AddedWords(Ops32(3), [0x06CCA0E5, 0x7BCC7892, 0x1AB2DE71, 0x2BFC6CB4, 0x55056274, 0xAF9B10F9, 0x13A1C75C, 0x10239BF4], [0x06CCA0E5, 0x7BCC7892, 0x1AB2DE71, 0x2BFC6CB4, 0x55056274, 0xAF9B10F9, 0x13A1C75C, 0x10239BF4]);
  }

  lemma Zeros32Second()
    ensures Ops32(3).mix([0x0D9941CA, 0xF798F124, 0x3565BCE2, 0x57F8D968, 0xAA0AC4E8, 0x5F3621F2, 0x27438EB8, 0x204737E8]) ==
              [0xCDF3BEF0, 0x301DF0F4, 0xC33B650A, 0xEDBB0AEA, 0xA68E6A2C, 0xD3C56C32, 0x0E762FB6, 0x64E59AF6]
  {
    Turned32(0x0D9941CA, 0xF798F124, 0x3565BCE2, 0x57F8D968, 0xAA0AC4E8, 0x5F3621F2, 0x27438EB8, 0x204737E8);
    hide Ops32;
    assert Shuffled32(0x0D9941CA, 0xF798F124, 0x3565BCE2, 0x57F8D968, 0xAA0AC4E8, 0x5F3621F2, 0x27438EB8, 0x204737E8) ==
           [0xCDF3BEF0, 0x301DF0F4, 0xC33B650A, 0xEDBB0AEA, 0xA68E6A2C, 0xD3C56C32, 0x0E762FB6, 0x64E59AF6];
  }

  lemma Zeros32Memory()
    ensures Lawful(Ops32(3), 8) && SeededMem(Ops32(3), [0x00000000, 0x00000000, 0x00000000, 0x00000000, 0x00000000, 0x00000000, 0x00000000, 0x00000000]) ==
              [0xCDF3BEF0, 0x301DF0F4, 0xC33B650A, 0xEDBB0AEA, 0xA68E6A2C, 0xD3C56C32, 0x0E762FB6, 0x64E59AF6]
  {
    Laws32();
    hide Lawful; hide Ops32; hide AddWords; hide SeededMem;
    ScrambledWords32();
    OneGroupMemory(Ops32(3), [0x00000000, 0x00000000, 0x00000000, 0x00000000, 0x00000000, 0x00000000, 0x00000000, 0x00000000]);
    Zeros32In();
    Zeros32First();
    Zeros32Twice();
    Zeros32Second();
  }

  lemma Srand000Words0()
    ensures Stir32(0, 0x00000000) == 0x00000000 && Plus32(0x00000000, 0xA68E6A2C) == 0xA68E6A2C
    ensures (0xCDF3BEF0 as nat / 4) % 8 == 4 && Plus32(Plus32(0xA68E6A2C, 0xA68E6A2C), 0x00000001) == 0x4D1CD459
    ensures (0x4D1CD459 as nat / 32) % 8 == 2 && Plus32(0xC33B650A, 0xCDF3BEF0) == 0x912F23FA
  {
  }

  lemma Srand000Line0()
    ensures Line32([0xCDF3BEF0, 0x301DF0F4, 0xC33B650A, 0xEDBB0AEA, 0xA68E6A2C, 0xD3C56C32, 0x0E762FB6, 0x64E59AF6], 0x00000000, 0x00000001, 0) ==
              Core([0x4D1CD459, 0x301DF0F4, 0xC33B650A, 0xEDBB0AEA, 0xA68E6A2C, 0xD3C56C32, 0x0E762FB6, 0x64E59AF6], 0xA68E6A2C, 0x912F23FA)
  {
    hide Stir32; hide Plus32;
    Srand000Words0();
  }

  lemma Srand000Words1()
    ensures Stir32(1, 0xA68E6A2C) == 0xA4145384 && Plus32(0xA4145384, 0xD3C56C32) == 0x77D9BFB6
    ensures (0x301DF0F4 as nat / 4) % 8 == 5 && Plus32(Plus32(0xD3C56C32, 0x77D9BFB6), 0x912F23FA) == 0xDCCE4FE2
    ensures (0xDCCE4FE2 as nat / 32) % 8 == 7 && Plus32(0x64E59AF6, 0x301DF0F4) == 0x95038BEA
  {
  }

  lemma Srand000Line1()
    ensures Line32([0x4D1CD459, 0x301DF0F4, 0xC33B650A, 0xEDBB0AEA, 0xA68E6A2C, 0xD3C56C32, 0x0E762FB6, 0x64E59AF6], 0xA68E6A2C, 0x912F23FA, 1) ==
              Core([0x4D1CD459, 0xDCCE4FE2, 0xC33B650A, 0xEDBB0AEA, 0xA68E6A2C, 0xD3C56C32, 0x0E762FB6, 0x64E59AF6], 0x77D9BFB6, 0x95038BEA)
  {
    hide Stir32; hide Plus32;
    Srand000Words1();
  }

  lemma Srand000Words2()
    ensures Stir32(2, 0x77D9BFB6) == 0xA8BF416E && Plus32(0xA8BF416E, 0x0E762FB6) == 0xB7357124
    ensures (0xC33B650A as nat / 4) % 8 == 2 && Plus32(Plus32(0xC33B650A, 0xB7357124), 0x95038BEA) == 0x0F746218
    ensures (0x0F746218 as nat / 32) % 8 == 0 && Plus32(0x4D1CD459, 0xC33B650A) == 0x10583963
  {
  }

  lemma Srand000Line2()
    ensures Line32([0x4D1CD459, 0xDCCE4FE2, 0xC33B650A, 0xEDBB0AEA, 0xA68E6A2C, 0xD3C56C32, 0x0E762FB6, 0x64E59AF6], 0x77D9BFB6, 0x95038BEA, 2) ==
              Core([0x4D1CD459, 0xDCCE4FE2, 0x0F746218, 0xEDBB0AEA, 0xA68E6A2C, 0xD3C56C32, 0x0E762FB6, 0x64E59AF6], 0xB7357124, 0x10583963)
  {
    hide Stir32; hide Plus32;
    Srand000Words2();
  }

  lemma Srand000Words3()
    ensures Stir32(3, 0xB7357124) == 0xB735C611 && Plus32(0xB735C611, 0x64E59AF6) == 0x1C1B6107
    ensures (0xEDBB0AEA as nat / 4) % 8 == 2 && Plus32(Plus32(0x0F746218, 0x1C1B6107), 0x10583963) == 0x3BE7FC82
    ensures (0x3BE7FC82 as nat / 32) % 8 == 4 && Plus32(0xA68E6A2C, 0xEDBB0AEA) == 0x94497516
  {
  }

  lemma Srand000Line3()
    ensures Line32([0x4D1CD459, 0xDCCE4FE2, 0x0F746218, 0xEDBB0AEA, 0xA68E6A2C, 0xD3C56C32, 0x0E762FB6, 0x64E59AF6], 0xB7357124, 0x10583963, 3) ==
              Core([0x4D1CD459, 0xDCCE4FE2, 0x0F746218, 0x3BE7FC82, 0xA68E6A2C, 0xD3C56C32, 0x0E762FB6, 0x64E59AF6], 0x1C1B6107, 0x94497516)
  {
    hide Stir32; hide Plus32;
    Srand000Words3();
  }

  lemma Srand000Words4()
    ensures Stir32(4, 0x1C1B6107) == 0x703B8107 && Plus32(0x703B8107, 0x4D1CD459) == 0xBD585560
    ensures (0xA68E6A2C as nat / 4) % 8 == 3 && Plus32(Plus32(0x3BE7FC82, 0xBD585560), 0x94497516) == 0x8D89C6F8
    ensures (0x8D89C6F8 as nat / 32) % 8 == 7 && Plus32(0x64E59AF6, 0xA68E6A2C) == 0x0B740522
  {
  }

  lemma Srand000Line4()
    ensures Line32([0x4D1CD459, 0xDCCE4FE2, 0x0F746218, 0x3BE7FC82, 0xA68E6A2C, 0xD3C56C32, 0x0E762FB6, 0x64E59AF6], 0x1C1B6107, 0x94497516, 4) ==
              Core([0x4D1CD459, 0xDCCE4FE2, 0x0F746218, 0x3BE7FC82, 0x8D89C6F8, 0xD3C56C32, 0x0E762FB6, 0x64E59AF6], 0xBD585560, 0x0B740522)
  {
    hide Stir32; hide Plus32;
    Srand000Words4();
  }

  lemma Srand000Words5()
    ensures Stir32(5, 0xBD585560) == 0xBFAD3435 && Plus32(0xBFAD3435, 0xDCCE4FE2) == 0x9C7B8417
    ensures (0xD3C56C32 as nat / 4) % 8 == 4 && Plus32(Plus32(0x8D89C6F8, 0x9C7B8417), 0x0B740522) == 0x35795031
    ensures (0x35795031 as nat / 32) % 8 == 1 && Plus32(0xDCCE4FE2, 0xD3C56C32) == 0xB093BC14
  {
  }

  lemma Srand000Line5()
    ensures Line32([0x4D1CD459, 0xDCCE4FE2, 0x0F746218, 0x3BE7FC82, 0x8D89C6F8, 0xD3C56C32, 0x0E762FB6, 0x64E59AF6], 0xBD585560, 0x0B740522, 5) ==
              Core([0x4D1CD459, 0xDCCE4FE2, 0x0F746218, 0x3BE7FC82, 0x8D89C6F8, 0x35795031, 0x0E762FB6, 0x64E59AF6], 0x9C7B8417, 0xB093BC14)
  {
    hide Stir32; hide Plus32;
    Srand000Words5();
  }

  lemma Srand000Words6()
    ensures Stir32(6, 0x9C7B8417) == 0xED95944B && Plus32(0xED95944B, 0x0F746218) == 0xFD09F663
    ensures (0x0E762FB6 as nat / 4) % 8 == 5 && Plus32(Plus32(0x35795031, 0xFD09F663), 0xB093BC14) == 0xE31702A8
    ensures (0xE31702A8 as nat / 32) % 8 == 5 && Plus32(0x35795031, 0x0E762FB6) == 0x43EF7FE7
  {
  }

  lemma Srand000Line6()
    ensures Line32([0x4D1CD459, 0xDCCE4FE2, 0x0F746218, 0x3BE7FC82, 0x8D89C6F8, 0x35795031, 0x0E762FB6, 0x64E59AF6], 0x9C7B8417, 0xB093BC14, 6) ==
              Core([0x4D1CD459, 0xDCCE4FE2, 0x0F746218, 0x3BE7FC82, 0x8D89C6F8, 0x35795031, 0xE31702A8, 0x64E59AF6], 0xFD09F663, 0x43EF7FE7)
  {
    hide Stir32; hide Plus32;
    Srand000Words6();
  }

  lemma Srand000Words7()
    ensures Stir32(7, 0xFD09F663) == 0xFD090B6A && Plus32(0xFD090B6A, 0x3BE7FC82) == 0x38F107EC
    ensures (0x64E59AF6 as nat / 4) % 8 == 5 && Plus32(Plus32(0x35795031, 0x38F107EC), 0x43EF7FE7) == 0xB259D804
    ensures (0xB259D804 as nat / 32) % 8 == 0 && Plus32(0x4D1CD459, 0x64E59AF6) == 0xB2026F4F
  {
  }

  lemma Srand000Line7()
    ensures Line32([0x4D1CD459, 0xDCCE4FE2, 0x0F746218, 0x3BE7FC82, 0x8D89C6F8, 0x35795031, 0xE31702A8, 0x64E59AF6], 0xFD09F663, 0x43EF7FE7, 7) ==
              Core([0x4D1CD459, 0xDCCE4FE2, 0x0F746218, 0x3BE7FC82, 0x8D89C6F8, 0x35795031, 0xE31702A8, 0xB259D804], 0x38F107EC, 0xB2026F4F)
  {
    hide Stir32; hide Plus32;
    Srand000Words7();
  }

  lemma Srand000Steps()
    ensures Lawful(Ops32(3), 8)
    ensures Steps(Ops32(3), Core([0xCDF3BEF0, 0x301DF0F4, 0xC33B650A, 0xEDBB0AEA, 0xA68E6A2C, 0xD3C56C32, 0x0E762FB6, 0x64E59AF6], 0x00000000, 0x00000001), 8) ==
              Core([0x4D1CD459, 0xDCCE4FE2, 0x0F746218, 0x3BE7FC82, 0x8D89C6F8, 0x35795031, 0xE31702A8, 0xB259D804], 0x38F107EC, 0xB2026F4F)
  {
    Laws32();
    hide Lawful; hide Ops32; hide Line32; hide Steps;
    Srand000Line0();
    Srand000Line1();
    Srand000Line2();
    Srand000Line3();
    Srand000Line4();
    Srand000Line5();
    Srand000Line6();
    Srand000Line7();
    EightLines32(Core([0xCDF3BEF0, 0x301DF0F4, 0xC33B650A, 0xEDBB0AEA, 0xA68E6A2C, 0xD3C56C32, 0x0E762FB6, 0x64E59AF6], 0x00000000, 0x00000001),
                Core([0x4D1CD459, 0x301DF0F4, 0xC33B650A, 0xEDBB0AEA, 0xA68E6A2C, 0xD3C56C32, 0x0E762FB6, 0x64E59AF6], 0xA68E6A2C, 0x912F23FA),
                Core([0x4D1CD459, 0xDCCE4FE2, 0xC33B650A, 0xEDBB0AEA, 0xA68E6A2C, 0xD3C56C32, 0x0E762FB6, 0x64E59AF6], 0x77D9BFB6, 0x95038BEA),
                Core([0x4D1CD459, 0xDCCE4FE2, 0x0F746218, 0xEDBB0AEA, 0xA68E6A2C, 0xD3C56C32, 0x0E762FB6, 0x64E59AF6], 0xB7357124, 0x10583963),
                Core([0x4D1CD459, 0xDCCE4FE2, 0x0F746218, 0x3BE7FC82, 0xA68E6A2C, 0xD3C56C32, 0x0E762FB6, 0x64E59AF6], 0x1C1B6107, 0x94497516),
                Core([0x4D1CD459, 0xDCCE4FE2, 0x0F746218, 0x3BE7FC82, 0x8D89C6F8, 0xD3C56C32, 0x0E762FB6, 0x64E59AF6], 0xBD585560, 0x0B740522),
                Core([0x4D1CD459, 0xDCCE4FE2, 0x0F746218, 0x3BE7FC82, 0x8D89C6F8, 0x35795031, 0x0E762FB6, 0x64E59AF6], 0x9C7B8417, 0xB093BC14),
                Core([0x4D1CD459, 0xDCCE4FE2, 0x0F746218, 0x3BE7FC82, 0x8D89C6F8, 0x35795031, 0xE31702A8, 0x64E59AF6], 0xFD09F663, 0x43EF7FE7),
                Core([0x4D1CD459, 0xDCCE4FE2, 0x0F746218, 0x3BE7FC82, 0x8D89C6F8, 0x35795031, 0xE31702A8, 0xB259D804], 0x38F107EC, 0xB2026F4F));
  }

  lemma Srand000Sum()
    ensures Ops32(3).zero == 0 && Ops32(3).plus(0, Ops32(3).plus(0, Ops32(3).one)) == 0x00000001
  {
    Entered32(0, 0);
    hide Ops32;
  }

  /** `srand(0, 0, 0)` */
  lemma Srand000()
    ensures Lawful(Ops32(3), 8) && GetValue(Ops32(3), 8, SourceOfWords(Ops32(3), 8, 0, 0, 0)) == 0xB2026F4F
  {
    Srand000Steps();
    Zeros32Memory();
    Srand000Sum();
    hide Lawful; hide Ops32; hide Steps; hide SeededMem; hide GetValue; hide SourceOfWords;
    FirstWord(Ops32(3), 0, 0, 0, 0, 0x00000001, [0xCDF3BEF0, 0x301DF0F4, 0xC33B650A, 0xEDBB0AEA, 0xA68E6A2C, 0xD3C56C32, 0x0E762FB6, 0x64E59AF6],
              Core([0x4D1CD459, 0xDCCE4FE2, 0x0F746218, 0x3BE7FC82, 0x8D89C6F8, 0x35795031, 0xE31702A8, 0xB259D804], 0x38F107EC, 0xB2026F4F));
  }

  lemma Srand123Words0()
    ensures Stir32(0, 0x00000001) == 0x00002001 && Plus32(0x00002001, 0xA68E6A2C) == 0xA68E8A2D
    ensures (0xCDF3BEF0 as nat / 4) % 8 == 4 && Plus32(Plus32(0xA68E6A2C, 0xA68E8A2D), 0x00000006) == 0x4D1CF45F
    ensures (0x4D1CF45F as nat / 32) % 8 == 2 && Plus32(0xC33B650A, 0xCDF3BEF0) == 0x912F23FA
  {
  }

  lemma Srand123Line0()
    ensures Line32([0xCDF3BEF0, 0x301DF0F4, 0xC33B650A, 0xEDBB0AEA, 0xA68E6A2C, 0xD3C56C32, 0x0E762FB6, 0x64E59AF6], 0x00000001, 0x00000006, 0) ==
              Core([0x4D1CF45F, 0x301DF0F4, 0xC33B650A, 0xEDBB0AEA, 0xA68E6A2C, 0xD3C56C32, 0x0E762FB6, 0x64E59AF6], 0xA68E8A2D, 0x912F23FA)
  {
    hide Stir32; hide Plus32;
    Srand123Words0();
  }

  lemma Srand123Words1()
    ensures Stir32(1, 0xA68E8A2D) == 0xA414B005 && Plus32(0xA414B005, 0xD3C56C32) == 0x77DA1C37
    ensures (0x301DF0F4 as nat / 4) % 8 == 5 && Plus32(Plus32(0xD3C56C32, 0x77DA1C37), 0x912F23FA) == 0xDCCEAC63
    ensures (0xDCCEAC63 as nat / 32) % 8 == 3 && Plus32(0xEDBB0AEA, 0x301DF0F4) == 0x1DD8FBDE
  {
  }

  lemma Srand123Line1()
    ensures Line32([0x4D1CF45F, 0x301DF0F4, 0xC33B650A, 0xEDBB0AEA, 0xA68E6A2C, 0xD3C56C32, 0x0E762FB6, 0x64E59AF6], 0xA68E8A2D, 0x912F23FA, 1) ==
              Core([0x4D1CF45F, 0xDCCEAC63, 0xC33B650A, 0xEDBB0AEA, 0xA68E6A2C, 0xD3C56C32, 0x0E762FB6, 0x64E59AF6], 0x77DA1C37, 0x1DD8FBDE)
  {
    hide Stir32; hide Plus32;
    Srand123Words1();
  }

  lemma Srand123Words2()
    ensures Stir32(2, 0x77DA1C37) == 0xA8B26CEB && Plus32(0xA8B26CEB, 0x0E762FB6) == 0xB7289CA1
    ensures (0xC33B650A as nat / 4) % 8 == 2 && Plus32(Plus32(0xC33B650A, 0xB7289CA1), 0x1DD8FBDE) == 0x983CFD89
    ensures (0x983CFD89 as nat / 32) % 8 == 4 && Plus32(0xA68E6A2C, 0xC33B650A) == 0x69C9CF36
  {
  }

  lemma Srand123Line2()
    ensures Line32([0x4D1CF45F, 0xDCCEAC63, 0xC33B650A, 0xEDBB0AEA, 0xA68E6A2C, 0xD3C56C32, 0x0E762FB6, 0x64E59AF6], 0x77DA1C37, 0x1DD8FBDE, 2) ==
              Core([0x4D1CF45F, 0xDCCEAC63, 0x983CFD89, 0xEDBB0AEA, 0xA68E6A2C, 0xD3C56C32, 0x0E762FB6, 0x64E59AF6], 0xB7289CA1, 0x69C9CF36)
  {
    hide Stir32; hide Plus32;
    Srand123Words2();
  }

  lemma Srand123Words3()
    ensures Stir32(3, 0xB7289CA1) == 0xB7282B89 && Plus32(0xB7282B89, 0x64E59AF6) == 0x1C0DC67F
    ensures (0xEDBB0AEA as nat / 4) % 8 == 2 && Plus32(Plus32(0x983CFD89, 0x1C0DC67F), 0x69C9CF36) == 0x1E14933E
    ensures (0x1E14933E as nat / 32) % 8 == 1 && Plus32(0xDCCEAC63, 0xEDBB0AEA) == 0xCA89B74D
  {
  }

  lemma Srand123Line3()
    ensures Line32([0x4D1CF45F, 0xDCCEAC63, 0x983CFD89, 0xEDBB0AEA, 0xA68E6A2C, 0xD3C56C32, 0x0E762FB6, 0x64E59AF6], 0xB7289CA1, 0x69C9CF36, 3) ==
              Core([0x4D1CF45F, 0xDCCEAC63, 0x983CFD89, 0x1E14933E, 0xA68E6A2C, 0xD3C56C32, 0x0E762FB6, 0x64E59AF6], 0x1C0DC67F, 0xCA89B74D)
  {
    hide Stir32; hide Plus32;
    Srand123Words3();
  }

  lemma Srand123Words4()
    ensures Stir32(4, 0x1C0DC67F) == 0xA4C2267F && Plus32(0xA4C2267F, 0x4D1CF45F) == 0xF1DF1ADE
    ensures (0xA68E6A2C as nat / 4) % 8 == 3 && Plus32(Plus32(0x1E14933E, 0xF1DF1ADE), 0xCA89B74D) == 0xDA7D6569
    ensures (0xDA7D6569 as nat / 32) % 8 == 3 && Plus32(0x1E14933E, 0xA68E6A2C) == 0xC4A2FD6A
  {
  }

  lemma Srand123Line4()
    ensures Line32([0x4D1CF45F, 0xDCCEAC63, 0x983CFD89, 0x1E14933E, 0xA68E6A2C, 0xD3C56C32, 0x0E762FB6, 0x64E59AF6], 0x1C0DC67F, 0xCA89B74D, 4) ==
              Core([0x4D1CF45F, 0xDCCEAC63, 0x983CFD89, 0x1E14933E, 0xDA7D6569, 0xD3C56C32, 0x0E762FB6, 0x64E59AF6], 0xF1DF1ADE, 0xC4A2FD6A)
  {
    hide Stir32; hide Plus32;
    Srand123Words4();
  }

  lemma Srand123Words5()
    ensures Stir32(5, 0xF1DF1ADE) == 0xF21866B5 && Plus32(0xF21866B5, 0xDCCEAC63) == 0xCEE71318
    ensures (0xD3C56C32 as nat / 4) % 8 == 4 && Plus32(Plus32(0xDA7D6569, 0xCEE71318), 0xC4A2FD6A) == 0x6E0775EB
    ensures (0x6E0775EB as nat / 32) % 8 == 7 && Plus32(0x64E59AF6, 0xD3C56C32) == 0x38AB0728
  {
  }

  lemma Srand123Line5()
    ensures Line32([0x4D1CF45F, 0xDCCEAC63, 0x983CFD89, 0x1E14933E, 0xDA7D6569, 0xD3C56C32, 0x0E762FB6, 0x64E59AF6], 0xF1DF1ADE, 0xC4A2FD6A, 5) ==
              Core([0x4D1CF45F, 0xDCCEAC63, 0x983CFD89, 0x1E14933E, 0xDA7D6569, 0x6E0775EB, 0x0E762FB6, 0x64E59AF6], 0xCEE71318, 0x38AB0728)
  {
    hide Stir32; hide Plus32;
    Srand123Words5();
  }

  lemma Srand123Words6()
    ensures Stir32(6, 0xCEE71318) == 0xF57B5F78 && Plus32(0xF57B5F78, 0x983CFD89) == 0x8DB85D01
    ensures (0x0E762FB6 as nat / 4) % 8 == 5 && Plus32(Plus32(0x6E0775EB, 0x8DB85D01), 0x38AB0728) == 0x346ADA14
    ensures (0x346ADA14 as nat / 32) % 8 == 0 && Plus32(0x4D1CF45F, 0x0E762FB6) == 0x5B932415
  {
  }

  lemma Srand123Line6()
    ensures Line32([0x4D1CF45F, 0xDCCEAC63, 0x983CFD89, 0x1E14933E, 0xDA7D6569, 0x6E0775EB, 0x0E762FB6, 0x64E59AF6], 0xCEE71318, 0x38AB0728, 6) ==
              Core([0x4D1CF45F, 0xDCCEAC63, 0x983CFD89, 0x1E14933E, 0xDA7D6569, 0x6E0775EB, 0x346ADA14, 0x64E59AF6], 0x8DB85D01, 0x5B932415)
  {
    hide Stir32; hide Plus32;
    Srand123Words6();
  }

  lemma Srand123Words7()
    ensures Stir32(7, 0x8DB85D01) == 0x8DB8D0B9 && Plus32(0x8DB8D0B9, 0x1E14933E) == 0xABCD63F7
    ensures (0x64E59AF6 as nat / 4) % 8 == 5 && Plus32(Plus32(0x6E0775EB, 0xABCD63F7), 0x5B932415) == 0x7567FDF7
    ensures (0x7567FDF7 as nat / 32) % 8 == 7 && Plus32(0x7567FDF7, 0x64E59AF6) == 0xDA4D98ED
  {
  }

  lemma Srand123Line7()
    ensures Line32([0x4D1CF45F, 0xDCCEAC63, 0x983CFD89, 0x1E14933E, 0xDA7D6569, 0x6E0775EB, 0x346ADA14, 0x64E59AF6], 0x8DB85D01, 0x5B932415, 7) ==
              Core([0x4D1CF45F, 0xDCCEAC63, 0x983CFD89, 0x1E14933E, 0xDA7D6569, 0x6E0775EB, 0x346ADA14, 0x7567FDF7], 0xABCD63F7, 0xDA4D98ED)
  {
    hide Stir32; hide Plus32;
    Srand123Words7();
  }

  lemma Srand123Steps()
    ensures Lawful(Ops32(3), 8)
    ensures Steps(Ops32(3), Core([0xCDF3BEF0, 0x301DF0F4, 0xC33B650A, 0xEDBB0AEA, 0xA68E6A2C, 0xD3C56C32, 0x0E762FB6, 0x64E59AF6], 0x00000001, 0x00000006), 8) ==
              Core([0x4D1CF45F, 0xDCCEAC63, 0x983CFD89, 0x1E14933E, 0xDA7D6569, 0x6E0775EB, 0x346ADA14, 0x7567FDF7], 0xABCD63F7, 0xDA4D98ED)
  {
    Laws32();
    hide Lawful; hide Ops32; hide Line32; hide Steps;
    Srand123Line0();
    Srand123Line1();
    Srand123Line2();
    Srand123Line3();
    Srand123Line4();
    Srand123Line5();
    Srand123Line6();
    Srand123Line7();
    EightLines32(Core([0xCDF3BEF0, 0x301DF0F4, 0xC33B650A, 0xEDBB0AEA, 0xA68E6A2C, 0xD3C56C32, 0x0E762FB6, 0x64E59AF6], 0x00000001, 0x00000006),
                Core([0x4D1CF45F, 0x301DF0F4, 0xC33B650A, 0xEDBB0AEA, 0xA68E6A2C, 0xD3C56C32, 0x0E762FB6, 0x64E59AF6], 0xA68E8A2D, 0x912F23FA),
                Core([0x4D1CF45F, 0xDCCEAC63, 0xC33B650A, 0xEDBB0AEA, 0xA68E6A2C, 0xD3C56C32, 0x0E762FB6, 0x64E59AF6], 0x77DA1C37, 0x1DD8FBDE),
                Core([0x4D1CF45F, 0xDCCEAC63, 0x983CFD89, 0xEDBB0AEA, 0xA68E6A2C, 0xD3C56C32, 0x0E762FB6, 0x64E59AF6], 0xB7289CA1, 0x69C9CF36),
                Core([0x4D1CF45F, 0xDCCEAC63, 0x983CFD89, 0x1E14933E, 0xA68E6A2C, 0xD3C56C32, 0x0E762FB6, 0x64E59AF6], 0x1C0DC67F, 0xCA89B74D),
                Core([0x4D1CF45F, 0xDCCEAC63, 0x983CFD89, 0x1E14933E, 0xDA7D6569, 0xD3C56C32, 0x0E762FB6, 0x64E59AF6], 0xF1DF1ADE, 0xC4A2FD6A),
                Core([0x4D1CF45F, 0xDCCEAC63, 0x983CFD89, 0x1E14933E, 0xDA7D6569, 0x6E0775EB, 0x0E762FB6, 0x64E59AF6], 0xCEE71318, 0x38AB0728),
                Core([0x4D1CF45F, 0xDCCEAC63, 0x983CFD89, 0x1E14933E, 0xDA7D6569, 0x6E0775EB, 0x346ADA14, 0x64E59AF6], 0x8DB85D01, 0x5B932415),
                Core([0x4D1CF45F, 0xDCCEAC63, 0x983CFD89, 0x1E14933E, 0xDA7D6569, 0x6E0775EB, 0x346ADA14, 0x7567FDF7], 0xABCD63F7, 0xDA4D98ED));
  }

  lemma Srand123Sum()
    ensures Ops32(3).zero == 0 && Ops32(3).plus(2, Ops32(3).plus(3, Ops32(3).one)) == 0x00000006
  {
    Entered32(2, 3);
    hide Ops32;
  }

  /** `srand(1, 2, 3)` */
  lemma Srand123()
    ensures Lawful(Ops32(3), 8) && GetValue(Ops32(3), 8, SourceOfWords(Ops32(3), 8, 1, 2, 3)) == 0xDA4D98ED
  {
    Srand123Steps();
    Zeros32Memory();
    Srand123Sum();
    hide Lawful; hide Ops32; hide Steps; hide SeededMem; hide GetValue; hide SourceOfWords;
    FirstWord(Ops32(3), 0, 1, 2, 3, 0x00000006, [0xCDF3BEF0, 0x301DF0F4, 0xC33B650A, 0xEDBB0AEA, 0xA68E6A2C, 0xD3C56C32, 0x0E762FB6, 0x64E59AF6],
              Core([0x4D1CF45F, 0xDCCEAC63, 0x983CFD89, 0x1E14933E, 0xDA7D6569, 0x6E0775EB, 0x346ADA14, 0x7567FDF7], 0xABCD63F7, 0xDA4D98ED));
  }

  lemma DataMixed()
    ensures Ops32(3).mix([0x00000001, 0x00000002, 0x00000003, 0x00000001, 0x00000002, 0x00000003, 0x00000004, 0x00000005]) ==
              [0x187A893C, 0x186A5626, 0x40787F38, 0x00001009, 0x4058320F, 0x00102315, 0x186A5621, 0x40686D33]
  {
    Turned32(0x00000001, 0x00000002, 0x00000003, 0x00000001, 0x00000002, 0x00000003, 0x00000004, 0x00000005);
    hide Ops32;
    assert Shuffled32(0x00000001, 0x00000002, 0x00000003, 0x00000001, 0x00000002, 0x00000003, 0x00000004, 0x00000005) ==
           [0x187A893C, 0x186A5626, 0x40787F38, 0x00001009, 0x4058320F, 0x00102315, 0x186A5621, 0x40686D33];
  }

  lemma Data32In()
    ensures AddWords(Ops32(3), [0x1367DF5A, 0x95D90059, 0xC3163E4B, 0x0F421AD8, 0xD92A4A78, 0xA51A3C49, 0xC4EFEA1B, 0x30609119], [0x00001009, 0x4058320F, 0x00102315, 0x186A5621, 0x40686D33, 0x00000006, 0x00000007, 0x00000008]) ==
              [0x1367EF63, 0xD6313268, 0xC3266160, 0x27AC70F9, 0x1992B7AB, 0xA51A3C4F, 0xC4EFEA22, 0x30609121]
  {
    AddedWords(Ops32(3), [0x1367DF5A, 0x95D90059, 0xC3163E4B, 0x0F421AD8, 0xD92A4A78, 0xA51A3C49, 0xC4EFEA1B, 0x30609119], [0x00001009, 0x4058320F, 0x00102315, 0x186A5621, 0x40686D33, 0x00000006, 0x00000007, 0x00000008]);
  }

  lemma Data32First()
    ensures Ops32(3).mix([0x1367EF63, 0xD6313268, 0xC3266160, 0x27AC70F9, 0x1992B7AB, 0xA51A3C4F, 0xC4EFEA22, 0x30609121]) ==
              [0x1100D99B, 0x659CF5C0, 0x8632B56F, 0x85D120A7, 0x855AF146, 0x106F3478, 0xBBFEEA30, 0x614AD7B3]
  {
    Turned32(0x1367EF63, 0xD6313268, 0xC3266160, 0x27AC70F9, 0x1992B7AB, 0xA51A3C4F, 0xC4EFEA22, 0x30609121);
    hide Ops32;
    assert Shuffled32(0x1367EF63, 0xD6313268, 0xC3266160, 0x27AC70F9, 0x1992B7AB, 0xA51A3C4F, 0xC4EFEA22, 0x30609121) ==
           [0x1100D99B, 0x659CF5C0, 0x8632B56F, 0x85D120A7, 0x855AF146, 0x106F3478, 0xBBFEEA30, 0x614AD7B3];
  }

  lemma Data32Twice()
    ensures AddWords(Ops32(3), [0x1100D99B, 0x659CF5C0, 0x8632B56F, 0x85D120A7, 0x855AF146, 0x106F3478, 0xBBFEEA30, 0x614AD7B3], [0x1100D99B, 0x659CF5C0, 0x8632B56F, 0x85D120A7, 0x855AF146, 0x106F3478, 0xBBFEEA30, 0x614AD7B3]) ==
              [0x2201B336, 0xCB39EB80, 0x0C656ADE, 0x0BA2414E, 0x0AB5E28C, 0x20DE68F0, 0x77FDD460, 0xC295AF66]
  {
    AddedWords(Ops32(3), [0x1100D99B, 0x659CF5C0, 0x8632B56F, 0x85D120A7, 0x855AF146, 0x106F3478, 0xBBFEEA30, 0x614AD7B3], [0x1100D99B, 0x659CF5C0, 0x8632B56F, 0x85D120A7, 0x855AF146, 0x106F3478, 0xBBFEEA30, 0x614AD7B3]);
  }

  lemma Data32Second()
    ensures Ops32(3).mix([0x2201B336, 0xCB39EB80, 0x0C656ADE, 0x0BA2414E, 0x0AB5E28C, 0x20DE68F0, 0x77FDD460, 0xC295AF66]) ==
              [0x4E3595D4, 0xF22D1E38, 0x55078254, 0xD83B3CC2, 0x3BBD7BC7, 0x6EAAC466, 0x1DA7114F, 0x5A75A6F2]
  {
    Turned32(0x2201B336, 0xCB39EB80, 0x0C656ADE, 0x0BA2414E, 0x0AB5E28C, 0x20DE68F0, 0x77FDD460, 0xC295AF66);
    hide Ops32;
    assert Shuffled32(0x2201B336, 0xCB39EB80, 0x0C656ADE, 0x0BA2414E, 0x0AB5E28C, 0x20DE68F0, 0x77FDD460, 0xC295AF66) ==
           [0x4E3595D4, 0xF22D1E38, 0x55078254, 0xD83B3CC2, 0x3BBD7BC7, 0x6EAAC466, 0x1DA7114F, 0x5A75A6F2];
  }

  lemma Data32Memory()
    ensures Lawful(Ops32(3), 8) && SeededMem(Ops32(3), [0x00001009, 0x4058320F, 0x00102315, 0x186A5621, 0x40686D33, 0x00000006, 0x00000007, 0x00000008]) ==
              [0x4E3595D4, 0xF22D1E38, 0x55078254, 0xD83B3CC2, 0x3BBD7BC7, 0x6EAAC466, 0x1DA7114F, 0x5A75A6F2]
  {
    Laws32();
    hide Lawful; hide Ops32; hide AddWords; hide SeededMem;
    ScrambledWords32();
    OneGroupMemory(Ops32(3), [0x00001009, 0x4058320F, 0x00102315, 0x186A5621, 0x40686D33, 0x00000006, 0x00000007, 0x00000008]);
    Data32In();
    Data32First();
    Data32Twice();
    Data32Second();
  }

  lemma SrandDataWords0()
    ensures Stir32(0, 0x187A893C) == 0x495D093C && Plus32(0x495D093C, 0x3BBD7BC7) == 0x851A8503
    ensures (0x4E3595D4 as nat / 4) % 8 == 5 && Plus32(Plus32(0x6EAAC466, 0x851A8503), 0x58E2D55F) == 0x4CA81EC8
    ensures (0x4CA81EC8 as nat / 32) % 8 == 6 && Plus32(0x1DA7114F, 0x4E3595D4) == 0x6BDCA723
  {
  }

  lemma SrandDataLine0()
    ensures Line32([0x4E3595D4, 0xF22D1E38, 0x55078254, 0xD83B3CC2, 0x3BBD7BC7, 0x6EAAC466, 0x1DA7114F, 0x5A75A6F2], 0x187A893C, 0x58E2D55F, 0) ==
              Core([0x4CA81EC8, 0xF22D1E38, 0x55078254, 0xD83B3CC2, 0x3BBD7BC7, 0x6EAAC466, 0x1DA7114F, 0x5A75A6F2], 0x851A8503, 0x6BDCA723)
  {
    hide Stir32; hide Plus32;
    SrandDataWords0();
  }

  lemma SrandDataWords1()
    ensures Stir32(1, 0x851A8503) == 0x870EEF17 && Plus32(0x870EEF17, 0x6EAAC466) == 0xF5B9B37D
    ensures (0xF22D1E38 as nat / 4) % 8 == 6 && Plus32(Plus32(0x1DA7114F, 0xF5B9B37D), 0x6BDCA723) == 0x7F3D6BEF
    ensures (0x7F3D6BEF as nat / 32) % 8 == 7 && Plus32(0x5A75A6F2, 0xF22D1E38) == 0x4CA2C52A
  {
  }

  lemma SrandDataLine1()
    ensures Line32([0x4CA81EC8, 0xF22D1E38, 0x55078254, 0xD83B3CC2, 0x3BBD7BC7, 0x6EAAC466, 0x1DA7114F, 0x5A75A6F2], 0x851A8503, 0x6BDCA723, 1) ==
              Core([0x4CA81EC8, 0x7F3D6BEF, 0x55078254, 0xD83B3CC2, 0x3BBD7BC7, 0x6EAAC466, 0x1DA7114F, 0x5A75A6F2], 0xF5B9B37D, 0x4CA2C52A)
  {
    hide Stir32; hide Plus32;
    SrandDataWords1();
  }

  lemma SrandDataWords2()
    ensures Stir32(2, 0xF5B9B37D) == 0x235F7E89 && Plus32(0x235F7E89, 0x1DA7114F) == 0x41068FD8
    ensures (0x55078254 as nat / 4) % 8 == 5 && Plus32(Plus32(0x6EAAC466, 0x41068FD8), 0x4CA2C52A) == 0xFC541968
    ensures (0xFC541968 as nat / 32) % 8 == 3 && Plus32(0xD83B3CC2, 0x55078254) == 0x2D42BF16
  {
  }

  lemma SrandDataLine2()
    ensures Line32([0x4CA81EC8, 0x7F3D6BEF, 0x55078254, 0xD83B3CC2, 0x3BBD7BC7, 0x6EAAC466, 0x1DA7114F, 0x5A75A6F2], 0xF5B9B37D, 0x4CA2C52A, 2) ==
              Core([0x4CA81EC8, 0x7F3D6BEF, 0xFC541968, 0xD83B3CC2, 0x3BBD7BC7, 0x6EAAC466, 0x1DA7114F, 0x5A75A6F2], 0x41068FD8, 0x2D42BF16)
  {
    hide Stir32; hide Plus32;
    SrandDataWords2();
  }

  lemma SrandDataWords3()
    ensures Stir32(3, 0x41068FD8) == 0x4106CEDE && Plus32(0x4106CEDE, 0x5A75A6F2) == 0x9B7C75D0
    ensures (0xD83B3CC2 as nat / 4) % 8 == 0 && Plus32(Plus32(0x4CA81EC8, 0x9B7C75D0), 0x2D42BF16) == 0x156753AE
    ensures (0x156753AE as nat / 32) % 8 == 5 && Plus32(0x6EAAC466, 0xD83B3CC2) == 0x46E60128
  {
  }

  lemma SrandDataLine3()
    ensures Line32([0x4CA81EC8, 0x7F3D6BEF, 0xFC541968, 0xD83B3CC2, 0x3BBD7BC7, 0x6EAAC466, 0x1DA7114F, 0x5A75A6F2], 0x41068FD8, 0x2D42BF16, 3) ==
              Core([0x4CA81EC8, 0x7F3D6BEF, 0xFC541968, 0x156753AE, 0x3BBD7BC7, 0x6EAAC466, 0x1DA7114F, 0x5A75A6F2], 0x9B7C75D0, 0x46E60128)
  {
    hide Stir32; hide Plus32;
    SrandDataWords3();
  }

  lemma SrandDataWords4()
    ensures Stir32(4, 0x9B7C75D0) == 0x15C675D0 && Plus32(0x15C675D0, 0x4CA81EC8) == 0x626E9498
    ensures (0x3BBD7BC7 as nat / 4) % 8 == 1 && Plus32(Plus32(0x7F3D6BEF, 0x626E9498), 0x46E60128) == 0x289201AF
    ensures (0x289201AF as nat / 32) % 8 == 5 && Plus32(0x6EAAC466, 0x3BBD7BC7) == 0xAA68402D
  {
  }

  lemma SrandDataLine4()
    ensures Line32([0x4CA81EC8, 0x7F3D6BEF, 0xFC541968, 0x156753AE, 0x3BBD7BC7, 0x6EAAC466, 0x1DA7114F, 0x5A75A6F2], 0x9B7C75D0, 0x46E60128, 4) ==
              Core([0x4CA81EC8, 0x7F3D6BEF, 0xFC541968, 0x156753AE, 0x289201AF, 0x6EAAC466, 0x1DA7114F, 0x5A75A6F2], 0x626E9498, 0xAA68402D)
  {
    hide Stir32; hide Plus32;
    SrandDataWords4();
  }

  lemma SrandDataWords5()
    ensures Stir32(5, 0x626E9498) == 0x63E72ECA && Plus32(0x63E72ECA, 0x7F3D6BEF) == 0xE3249AB9
    ensures (0x6EAAC466 as nat / 4) % 8 == 1 && Plus32(Plus32(0x7F3D6BEF, 0xE3249AB9), 0xAA68402D) == 0x0CCA46D5
    ensures (0x0CCA46D5 as nat / 32) % 8 == 6 && Plus32(0x1DA7114F, 0x6EAAC466) == 0x8C51D5B5
  {
  }

  lemma SrandDataLine5()
    ensures Line32([0x4CA81EC8, 0x7F3D6BEF, 0xFC541968, 0x156753AE, 0x289201AF, 0x6EAAC466, 0x1DA7114F, 0x5A75A6F2], 0x626E9498, 0xAA68402D, 5) ==
              Core([0x4CA81EC8, 0x7F3D6BEF, 0xFC541968, 0x156753AE, 0x289201AF, 0x0CCA46D5, 0x1DA7114F, 0x5A75A6F2], 0xE3249AB9, 0x8C51D5B5)
  {
    hide Stir32; hide Plus32;
    SrandDataWords5();
  }

  lemma SrandDataWords6()
    ensures Stir32(6, 0xE3249AB9) == 0x6FB6F05D && Plus32(0x6FB6F05D, 0xFC541968) == 0x6C0B09C5
    ensures (0x1DA7114F as nat / 4) % 8 == 3 && Plus32(Plus32(0x156753AE, 0x6C0B09C5), 0x8C51D5B5) == 0x0DC43328
    ensures (0x0DC43328 as nat / 32) % 8 == 1 && Plus32(0x7F3D6BEF, 0x1DA7114F) == 0x9CE47D3E
  {
  }

  lemma SrandDataLine6()
    ensures Line32([0x4CA81EC8, 0x7F3D6BEF, 0xFC541968, 0x156753AE, 0x289201AF, 0x0CCA46D5, 0x1DA7114F, 0x5A75A6F2], 0xE3249AB9, 0x8C51D5B5, 6) ==
              Core([0x4CA81EC8, 0x7F3D6BEF, 0xFC541968, 0x156753AE, 0x289201AF, 0x0CCA46D5, 0x0DC43328, 0x5A75A6F2], 0x6C0B09C5, 0x9CE47D3E)
  {
    hide Stir32; hide Plus32;
    SrandDataWords6();
  }

  lemma SrandDataWords7()
    ensures Stir32(7, 0x6C0B09C5) == 0x6C0B65CE && Plus32(0x6C0B65CE, 0x156753AE) == 0x8172B97C
    ensures (0x5A75A6F2 as nat / 4) % 8 == 4 && Plus32(Plus32(0x289201AF, 0x8172B97C), 0x9CE47D3E) == 0x46E93869
    ensures (0x46E93869 as nat / 32) % 8 == 3 && Plus32(0x156753AE, 0x5A75A6F2) == 0x6FDCFAA0
  {
  }

  lemma SrandDataLine7()
    ensures Line32([0x4CA81EC8, 0x7F3D6BEF, 0xFC541968, 0x156753AE, 0x289201AF, 0x0CCA46D5, 0x0DC43328, 0x5A75A6F2], 0x6C0B09C5, 0x9CE47D3E, 7) ==
              Core([0x4CA81EC8, 0x7F3D6BEF, 0xFC541968, 0x156753AE, 0x289201AF, 0x0CCA46D5, 0x0DC43328, 0x46E93869], 0x8172B97C, 0x6FDCFAA0)
  {
    hide Stir32; hide Plus32;
    SrandDataWords7();
  }

  lemma SrandDataSteps()
    ensures Lawful(Ops32(3), 8)
    ensures Steps(Ops32(3), Core([0x4E3595D4, 0xF22D1E38, 0x55078254, 0xD83B3CC2, 0x3BBD7BC7, 0x6EAAC466, 0x1DA7114F, 0x5A75A6F2], 0x187A893C, 0x58E2D55F), 8) ==
              Core([0x4CA81EC8, 0x7F3D6BEF, 0xFC541968, 0x156753AE, 0x289201AF, 0x0CCA46D5, 0x0DC43328, 0x46E93869], 0x8172B97C, 0x6FDCFAA0)
  {
    Laws32();
    hide Lawful; hide Ops32; hide Line32; hide Steps;
    SrandDataLine0();
    SrandDataLine1();
    SrandDataLine2();
    SrandDataLine3();
    SrandDataLine4();
    SrandDataLine5();
    SrandDataLine6();
    SrandDataLine7();
    EightLines32(Core([0x4E3595D4, 0xF22D1E38, 0x55078254, 0xD83B3CC2, 0x3BBD7BC7, 0x6EAAC466, 0x1DA7114F, 0x5A75A6F2], 0x187A893C, 0x58E2D55F),
                Core([0x4CA81EC8, 0xF22D1E38, 0x55078254, 0xD83B3CC2, 0x3BBD7BC7, 0x6EAAC466, 0x1DA7114F, 0x5A75A6F2], 0x851A8503, 0x6BDCA723),
                Core([0x4CA81EC8, 0x7F3D6BEF, 0x55078254, 0xD83B3CC2, 0x3BBD7BC7, 0x6EAAC466, 0x1DA7114F, 0x5A75A6F2], 0xF5B9B37D, 0x4CA2C52A),
                Core([0x4CA81EC8, 0x7F3D6BEF, 0xFC541968, 0xD83B3CC2, 0x3BBD7BC7, 0x6EAAC466, 0x1DA7114F, 0x5A75A6F2], 0x41068FD8, 0x2D42BF16),
                Core([0x4CA81EC8, 0x7F3D6BEF, 0xFC541968, 0x156753AE, 0x3BBD7BC7, 0x6EAAC466, 0x1DA7114F, 0x5A75A6F2], 0x9B7C75D0, 0x46E60128),
                Core([0x4CA81EC8, 0x7F3D6BEF, 0xFC541968, 0x156753AE, 0x289201AF, 0x6EAAC466, 0x1DA7114F, 0x5A75A6F2], 0x626E9498, 0xAA68402D),
                Core([0x4CA81EC8, 0x7F3D6BEF, 0xFC541968, 0x156753AE, 0x289201AF, 0x0CCA46D5, 0x1DA7114F, 0x5A75A6F2], 0xE3249AB9, 0x8C51D5B5),
                Core([0x4CA81EC8, 0x7F3D6BEF, 0xFC541968, 0x156753AE, 0x289201AF, 0x0CCA46D5, 0x0DC43328, 0x5A75A6F2], 0x6C0B09C5, 0x9CE47D3E),
                Core([0x4CA81EC8, 0x7F3D6BEF, 0xFC541968, 0x156753AE, 0x289201AF, 0x0CCA46D5, 0x0DC43328, 0x46E93869], 0x8172B97C, 0x6FDCFAA0));
  }

  lemma SrandDataSum()
    ensures Ops32(3).plus(0x186A5626, Ops32(3).plus(0x40787F38, Ops32(3).one)) == 0x58E2D55F
  {
    Entered32(0x186A5626, 0x40787F38);
    hide Ops32;
  }

  /** What `get` returns after seeding from `data`. */
  function WordAfterData(before: seq<bv32>, data: seq<bv32>): bv32
    requires |before| == 8 && Lawful(Ops32(3), 8)
  {
    GetValue(Ops32(3), 8, SourceOfData(Ops32(3), before, data))
  }

  /** `srand` from the words 1 to 8, whatever the buffer held. */
  lemma SrandData(before: seq<bv32>, data: seq<bv32>)
    requires |before| == 8 && data == [1, 2, 3, 4, 5, 6, 7, 8]
    ensures Lawful(Ops32(3), 8) && WordAfterData(before, data) == 0x6FDCFAA0
  {
    SrandDataSteps();
    Data32Memory();
    SrandDataSum();
    DataMixed();
    hide Lawful; hide Ops32; hide Steps; hide SeededMem; hide GetValue; hide SourceOfData;
    FirstWordOfData(Ops32(3), before, data, 1, 2, 3, 4, 5, 6, 7, 8,
                    0x187A893C, 0x186A5626, 0x40787F38, 0x00001009, 0x4058320F, 0x00102315, 0x186A5621, 0x40686D33, 0x58E2D55F,
                    [0x4E3595D4, 0xF22D1E38, 0x55078254, 0xD83B3CC2, 0x3BBD7BC7, 0x6EAAC466, 0x1DA7114F, 0x5A75A6F2],
                    Core([0x4CA81EC8, 0x7F3D6BEF, 0xFC541968, 0x156753AE, 0x289201AF, 0x0CCA46D5, 0x0DC43328, 0x46E93869], 0x8172B97C, 0x6FDCFAA0));
  }

  // ---------------------------------------------------------------- 64-bit words

  lemma Laws64()
    ensures Lawful(Ops64(3), 8)
  {
    hide Ops64; hide Lawful; hide N;
    N3();
    Lawful64(3);
  }

  /** `rngstep` at slot i of eight. */
  function Line64(mm: seq<bv64>, a: bv64, b: bv64, i: nat): Core<bv64>
    requires |mm| == 8 && i < 8
  {
    var x := mm[i];
    var a' := Plus(Stir64(i, a), mm[(i + 4) % 8]);
    var y := Plus(Plus(mm[(x as nat / 8) % 8], a'), b);
    var mm' := mm[i := y];
    Core(mm', a', Plus(mm'[(y as nat / 64) % 8], x))
  }

  lemma StirIs64(i: nat, a: bv64)
    ensures Stir64(i % 4, a) == Stir64(i, a)
  {
    assert i % 4 % 4 == i % 4;
  }

  lemma LineIs64(mm: seq<bv64>, a: bv64, b: bv64, i: nat)
    requires |mm| == 8 && i < 8
    ensures Lawful(Ops64(3), 8) && Step(Ops64(3), Core(mm, a, b), i) == Line64(mm, a, b, i)
  {
    Laws64();
    hide Lawful; hide Slot64; hide HighSlot64; hide N; hide Plus; hide Stir64;
    N3();
    PartnerIsModular(i, 8);
    SlotIs64(mm[i], 3);
    var y := Plus(Plus(mm[(mm[i] as nat / 8) % 8], Plus(Stir64(i, a), mm[(i + 4) % 8])), b);
    HighSlotIs64(y, 3);
    StirIs64(i, a);
  }

  lemma EightLines64(s0: Core<bv64>, s1: Core<bv64>, s2: Core<bv64>, s3: Core<bv64>, s4: Core<bv64>,
                    s5: Core<bv64>, s6: Core<bv64>, s7: Core<bv64>, s8: Core<bv64>)
    requires |s0.mm| == 8 && |s1.mm| == 8 && |s2.mm| == 8 && |s3.mm| == 8
    requires |s4.mm| == 8 && |s5.mm| == 8 && |s6.mm| == 8 && |s7.mm| == 8
    requires Line64(s0.mm, s0.a, s0.b, 0) == s1 && Line64(s1.mm, s1.a, s1.b, 1) == s2
    requires Line64(s2.mm, s2.a, s2.b, 2) == s3 && Line64(s3.mm, s3.a, s3.b, 3) == s4
    requires Line64(s4.mm, s4.a, s4.b, 4) == s5 && Line64(s5.mm, s5.a, s5.b, 5) == s6
    requires Line64(s6.mm, s6.a, s6.b, 6) == s7 && Line64(s7.mm, s7.a, s7.b, 7) == s8
    ensures Lawful(Ops64(3), 8) && Steps(Ops64(3), s0, 8) == s8
  {
    Laws64();
    hide Step; hide Lawful; hide Ops64; hide Line64;
    LineIs64(s0.mm, s0.a, s0.b, 0);
    LineIs64(s1.mm, s1.a, s1.b, 1);
    LineIs64(s2.mm, s2.a, s2.b, 2);
    LineIs64(s3.mm, s3.a, s3.b, 3);
    LineIs64(s4.mm, s4.a, s4.b, 4);
    LineIs64(s5.mm, s5.a, s5.b, 5);
    LineIs64(s6.mm, s6.a, s6.b, 6);
    LineIs64(s7.mm, s7.a, s7.b, 7);
    EightSteps(Ops64(3), s0, s1, s2, s3, s4, s5, s6, s7, s8);
  }

  lemma Turned64(a: bv64, b: bv64, c: bv64, d: bv64, e: bv64, f: bv64, g: bv64, h: bv64)
    ensures Ops64(3).mix([a, b, c, d, e, f, g, h]) == Shuffled(a, b, c, d, e, f, g, h)
  {
    hide Mix; hide Shuffled;
    MixIs([a, b, c, d, e, f, g, h]);
  }

  lemma Golden64()
    ensures seq(8, _ => Ops64(3).golden) ==
              [0x9E3779B97F4A7C13, 0x9E3779B97F4A7C13, 0x9E3779B97F4A7C13, 0x9E3779B97F4A7C13,
               0x9E3779B97F4A7C13, 0x9E3779B97F4A7C13, 0x9E3779B97F4A7C13, 0x9E3779B97F4A7C13]
  {
  }

  lemma Entered64(b: bv64, c: bv64)
    ensures Ops64(3).zero == 0 && Ops64(3).plus(b, Ops64(3).plus(c, Ops64(3).one)) == Plus(b, Plus(c, 1))
  {
    hide Plus;
  }

  lemma Scramble64_0()
    ensures Ops64(3).mix([0x9E3779B97F4A7C13, 0x9E3779B97F4A7C13, 0x9E3779B97F4A7C13, 0x9E3779B97F4A7C13,
                          0x9E3779B97F4A7C13, 0x9E3779B97F4A7C13, 0x9E3779B97F4A7C13, 0x9E3779B97F4A7C13]) ==
              [0xFFBF17B3DB54A2E6, 0xFFBF17B3DE995573, 0x205A3E2EEF35606E, 0x9E782C2584F3DB35,
               0x73D308522FBB1CE7, 0x1C9685DC55719F5F, 0x7D9C87AB0C865C15, 0xFFBF4C207C714070]
  {
    Turned64(0x9E3779B97F4A7C13, 0x9E3779B97F4A7C13, 0x9E3779B97F4A7C13, 0x9E3779B97F4A7C13,
             0x9E3779B97F4A7C13, 0x9E3779B97F4A7C13, 0x9E3779B97F4A7C13, 0x9E3779B97F4A7C13);
    hide Ops64;
    assert Shuffled(0x9E3779B97F4A7C13, 0x9E3779B97F4A7C13, 0x9E3779B97F4A7C13, 0x9E3779B97F4A7C13,
                    0x9E3779B97F4A7C13, 0x9E3779B97F4A7C13, 0x9E3779B97F4A7C13, 0x9E3779B97F4A7C13) ==
           [0xFFBF17B3DB54A2E6, 0xFFBF17B3DE995573, 0x205A3E2EEF35606E, 0x9E782C2584F3DB35,
            0x73D308522FBB1CE7, 0x1C9685DC55719F5F, 0x7D9C87AB0C865C15, 0xFFBF4C207C714070];
  }

  lemma Scramble64_1()
    ensures Ops64(3).mix([0xFFBF17B3DB54A2E6, 0xFFBF17B3DE995573, 0x205A3E2EEF35606E, 0x9E782C2584F3DB35,
                          0x73D308522FBB1CE7, 0x1C9685DC55719F5F, 0x7D9C87AB0C865C15, 0xFFBF4C207C714070]) ==
              [0x92589B489BCFB373, 0x5DADFD5F0F896DC1, 0x5D3DF5A6266AE431, 0xF447617A3BE315AF,
               0xB3604C6C66C8A3B2, 0x077FAC714EE8F822, 0xDFA8482360B05D92, 0x9763F8CD478D9FAE]
  {
    Turned64(0xFFBF17B3DB54A2E6, 0xFFBF17B3DE995573, 0x205A3E2EEF35606E, 0x9E782C2584F3DB35,
             0x73D308522FBB1CE7, 0x1C9685DC55719F5F, 0x7D9C87AB0C865C15, 0xFFBF4C207C714070);
    hide Ops64;
    assert Shuffled(0xFFBF17B3DB54A2E6, 0xFFBF17B3DE995573, 0x205A3E2EEF35606E, 0x9E782C2584F3DB35,
                    0x73D308522FBB1CE7, 0x1C9685DC55719F5F, 0x7D9C87AB0C865C15, 0xFFBF4C207C714070) ==
           [0x92589B489BCFB373, 0x5DADFD5F0F896DC1, 0x5D3DF5A6266AE431, 0xF447617A3BE315AF,
            0xB3604C6C66C8A3B2, 0x077FAC714EE8F822, 0xDFA8482360B05D92, 0x9763F8CD478D9FAE];
  }

  lemma Scramble64_2()
    ensures Ops64(3).mix([0x92589B489BCFB373, 0x5DADFD5F0F896DC1, 0x5D3DF5A6266AE431, 0xF447617A3BE315AF,
                          0xB3604C6C66C8A3B2, 0x077FAC714EE8F822, 0xDFA8482360B05D92, 0x9763F8CD478D9FAE]) ==
              [0x37DC75739E0ABE95, 0x84801282F72B8193, 0xC47F940F35A30DAD, 0xF96EB03770F0F6A4,
               0x69396C41CDA4E277, 0xED6A67446A2C8F3F, 0xE7A3F3085746E7E2, 0x7CED96CE1E3A15FD]
  {
    Turned64(0x92589B489BCFB373, 0x5DADFD5F0F896DC1, 0x5D3DF5A6266AE431, 0xF447617A3BE315AF,
             0xB3604C6C66C8A3B2, 0x077FAC714EE8F822, 0xDFA8482360B05D92, 0x9763F8CD478D9FAE);
    hide Ops64;
    assert Shuffled(0x92589B489BCFB373, 0x5DADFD5F0F896DC1, 0x5D3DF5A6266AE431, 0xF447617A3BE315AF,
                    0xB3604C6C66C8A3B2, 0x077FAC714EE8F822, 0xDFA8482360B05D92, 0x9763F8CD478D9FAE) ==
           [0x37DC75739E0ABE95, 0x84801282F72B8193, 0xC47F940F35A30DAD, 0xF96EB03770F0F6A4,
            0x69396C41CDA4E277, 0xED6A67446A2C8F3F, 0xE7A3F3085746E7E2, 0x7CED96CE1E3A15FD];
  }

  lemma Scramble64_3()
    ensures Ops64(3).mix([0x37DC75739E0ABE95, 0x84801282F72B8193, 0xC47F940F35A30DAD, 0xF96EB03770F0F6A4,
                          0x69396C41CDA4E277, 0xED6A67446A2C8F3F, 0xE7A3F3085746E7E2, 0x7CED96CE1E3A15FD]) ==
              [0x647C4677A2884B7C, 0xB9F8B322C73AC862, 0x8C0EA5053D4712A0, 0xB29B2E824A595524,
               0x82F053DB8355E0CE, 0x48FE4A0FA5A09315, 0xAE985BF2CBFC89ED, 0x98F5704F6C44C0AB]
  {
    Turned64(0x37DC75739E0ABE95, 0x84801282F72B8193, 0xC47F940F35A30DAD, 0xF96EB03770F0F6A4,
             0x69396C41CDA4E277, 0xED6A67446A2C8F3F, 0xE7A3F3085746E7E2, 0x7CED96CE1E3A15FD);
    hide Ops64;
    assert Shuffled(0x37DC75739E0ABE95, 0x84801282F72B8193, 0xC47F940F35A30DAD, 0xF96EB03770F0F6A4,
                    0x69396C41CDA4E277, 0xED6A67446A2C8F3F, 0xE7A3F3085746E7E2, 0x7CED96CE1E3A15FD) ==
           [0x647C4677A2884B7C, 0xB9F8B322C73AC862, 0x8C0EA5053D4712A0, 0xB29B2E824A595524,
            0x82F053DB8355E0CE, 0x48FE4A0FA5A09315, 0xAE985BF2CBFC89ED, 0x98F5704F6C44C0AB];
  }

  lemma ScrambledWords64()
    ensures Lawful(Ops64(3), 8) && Scrambled(Ops64(3), 8, 4) ==
              [0x647C4677A2884B7C, 0xB9F8B322C73AC862, 0x8C0EA5053D4712A0, 0xB29B2E824A595524,
               0x82F053DB8355E0CE, 0x48FE4A0FA5A09315, 0xAE985BF2CBFC89ED, 0x98F5704F6C44C0AB]
  {
    Golden64();
    Laws64();
    hide Lawful; hide Ops64;
    Scramble64_0();
    Scramble64_1();
    Scramble64_2();
    Scramble64_3();
    FourMixes(Ops64(3), 8);
  }

  lemma Zeros64In()
    ensures AddWords(Ops64(3), [0x647C4677A2884B7C, 0xB9F8B322C73AC862, 0x8C0EA5053D4712A0, 0xB29B2E824A595524,
                               0x82F053DB8355E0CE, 0x48FE4A0FA5A09315, 0xAE985BF2CBFC89ED, 0x98F5704F6C44C0AB], [0x0000000000000000, 0x0000000000000000, 0x0000000000000000, 0x0000000000000000,
                                 0x0000000000000000, 0x0000000000000000, 0x0000000000000000, 0x0000000000000000]) ==
              [0x647C4677A2884B7C, 0xB9F8B322C73AC862, 0x8C0EA5053D4712A0, 0xB29B2E824A595524,
               0x82F053DB8355E0CE, 0x48FE4A0FA5A09315, 0xAE985BF2CBFC89ED, 0x98F5704F6C44C0AB]
  {
    AddedWords(Ops64(3), [0x647C4677A2884B7C, 0xB9F8B322C73AC862, 0x8C0EA5053D4712A0, 0xB29B2E824A595524,
                          0x82F053DB8355E0CE, 0x48FE4A0FA5A09315, 0xAE985BF2CBFC89ED, 0x98F5704F6C44C0AB], [0x0000000000000000, 0x0000000000000000, 0x0000000000000000, 0x0000000000000000,
                          0x0000000000000000, 0x0000000000000000, 0x0000000000000000, 0x0000000000000000]);
  }

  lemma Zeros64First()
    ensures Ops64(3).mix([0x647C4677A2884B7C, 0xB9F8B322C73AC862, 0x8C0EA5053D4712A0, 0xB29B2E824A595524,
                          0x82F053DB8355E0CE, 0x48FE4A0FA5A09315, 0xAE985BF2CBFC89ED, 0x98F5704F6C44C0AB]) ==
              [0xF24E3209FA0F019B, 0x43D723C4E2A45C35, 0x17B399DC21329404, 0xC8BBEC274B55793D,
               0xE7010DB9F8C37473, 0xA6A4D6E32D699729, 0x538F3FD24915C67F, 0xB1C575E1BB1E8496]
  {
    Turned64(0x647C4677A2884B7C, 0xB9F8B322C73AC862, 0x8C0EA5053D4712A0, 0xB29B2E824A595524,
             0x82F053DB8355E0CE, 0x48FE4A0FA5A09315, 0xAE985BF2CBFC89ED, 0x98F5704F6C44C0AB);
    hide Ops64;
    assert Shuffled(0x647C4677A2884B7C, 0xB9F8B322C73AC862, 0x8C0EA5053D4712A0, 0xB29B2E824A595524,
                    0x82F053DB8355E0CE, 0x48FE4A0FA5A09315, 0xAE985BF2CBFC89ED, 0x98F5704F6C44C0AB) ==
           [0xF24E3209FA0F019B, 0x43D723C4E2A45C35, 0x17B399DC21329404, 0xC8BBEC274B55793D,
            0xE7010DB9F8C37473, 0xA6A4D6E32D699729, 0x538F3FD24915C67F, 0xB1C575E1BB1E8496];
  }

  lemma Zeros64Twice()
    ensures AddWords(Ops64(3), [0xF24E3209FA0F019B, 0x43D723C4E2A45C35, 0x17B399DC21329404, 0xC8BBEC274B55793D,
                               0xE7010DB9F8C37473, 0xA6A4D6E32D699729, 0x538F3FD24915C67F, 0xB1C575E1BB1E8496], [0xF24E3209FA0F019B, 0x43D723C4E2A45C35, 0x17B399DC21329404, 0xC8BBEC274B55793D,
                                 0xE7010DB9F8C37473, 0xA6A4D6E32D699729, 0x538F3FD24915C67F, 0xB1C575E1BB1E8496]) ==
              [0xE49C6413F41E0336, 0x87AE4789C548B86A, 0x2F6733B842652808, 0x9177D84E96AAF27A,
               0xCE021B73F186E8E6, 0x4D49ADC65AD32E52, 0xA71E7FA4922B8CFE, 0x638AEBC3763D092C]
  {
    AddedWords(Ops64(3), [0xF24E3209FA0F019B, 0x43D723C4E2A45C35, 0x17B399DC21329404, 0xC8BBEC274B55793D,
                          0xE7010DB9F8C37473, 0xA6A4D6E32D699729, 0x538F3FD24915C67F, 0xB1C575E1BB1E8496], [0xF24E3209FA0F019B, 0x43D723C4E2A45C35, 0x17B399DC21329404, 0xC8BBEC274B55793D,
                          0xE7010DB9F8C37473, 0xA6A4D6E32D699729, 0x538F3FD24915C67F, 0xB1C575E1BB1E8496]);
  }

  lemma Zeros64Second()
    ensures Ops64(3).mix([0xE49C6413F41E0336, 0x87AE4789C548B86A, 0x2F6733B842652808, 0x9177D84E96AAF27A,
                          0xCE021B73F186E8E6, 0x4D49ADC65AD32E52, 0xA71E7FA4922B8CFE, 0x638AEBC3763D092C]) ==
              [0xAADB6454F1F2A1E4, 0xD60D8FA600F88F9B, 0xC2C5610A79A75E15, 0x3A7960E3EE53773A,
               0xED3440B149B9A83D, 0x4834B7A4FCE77024, 0x1075B1CA678DE71E, 0x3FABD33325161835]
  {
    Turned64(0xE49C6413F41E0336, 0x87AE4789C548B86A, 0x2F6733B842652808, 0x9177D84E96AAF27A,
             0xCE021B73F186E8E6, 0x4D49ADC65AD32E52, 0xA71E7FA4922B8CFE, 0x638AEBC3763D092C);
    hide Ops64;
    assert Shuffled(0xE49C6413F41E0336, 0x87AE4789C548B86A, 0x2F6733B842652808, 0x9177D84E96AAF27A,
                    0xCE021B73F186E8E6, 0x4D49ADC65AD32E52, 0xA71E7FA4922B8CFE, 0x638AEBC3763D092C) ==
           [0xAADB6454F1F2A1E4, 0xD60D8FA600F88F9B, 0xC2C5610A79A75E15, 0x3A7960E3EE53773A,
            0xED3440B149B9A83D, 0x4834B7A4FCE77024, 0x1075B1CA678DE71E, 0x3FABD33325161835];
  }

  lemma Zeros64Memory()
    ensures Lawful(Ops64(3), 8) && SeededMem(Ops64(3), [0x0000000000000000, 0x0000000000000000, 0x0000000000000000, 0x0000000000000000,
                                             0x0000000000000000, 0x0000000000000000, 0x0000000000000000, 0x0000000000000000]) ==
              [0xAADB6454F1F2A1E4, 0xD60D8FA600F88F9B, 0xC2C5610A79A75E15, 0x3A7960E3EE53773A,
               0xED3440B149B9A83D, 0x4834B7A4FCE77024, 0x1075B1CA678DE71E, 0x3FABD33325161835]
  {
    Laws64();
    hide Lawful; hide Ops64; hide AddWords; hide SeededMem;
    ScrambledWords64();
    OneGroupMemory(Ops64(3), [0x0000000000000000, 0x0000000000000000, 0x0000000000000000, 0x0000000000000000,
                              0x0000000000000000, 0x0000000000000000, 0x0000000000000000, 0x0000000000000000]);
    Zeros64In();
    Zeros64First();
    Zeros64Twice();
    Zeros64Second();
  }

  lemma Wide000Words0()
    ensures Stir64(0, 0x0000000000000000) == 0xFFFFFFFFFFFFFFFF && Plus(0xFFFFFFFFFFFFFFFF, 0xED3440B149B9A83D) == 0xED3440B149B9A83C
    ensures (0xAADB6454F1F2A1E4 as nat / 8) % 8 == 4 && Plus(Plus(0xED3440B149B9A83D, 0xED3440B149B9A83C), 0x0000000000000001) == 0xDA6881629373507A
    ensures (0xDA6881629373507A as nat / 64) % 8 == 1 && Plus(0xD60D8FA600F88F9B, 0xAADB6454F1F2A1E4) == 0x80E8F3FAF2EB317F
  {
  }

  lemma Wide000Line0()
    ensures Line64([0xAADB6454F1F2A1E4, 0xD60D8FA600F88F9B, 0xC2C5610A79A75E15, 0x3A7960E3EE53773A,
                    0xED3440B149B9A83D, 0x4834B7A4FCE77024, 0x1075B1CA678DE71E, 0x3FABD33325161835], 0x0000000000000000, 0x0000000000000001, 0) ==
              Core([0xDA6881629373507A, 0xD60D8FA600F88F9B, 0xC2C5610A79A75E15, 0x3A7960E3EE53773A,
                    0xED3440B149B9A83D, 0x4834B7A4FCE77024, 0x1075B1CA678DE71E, 0x3FABD33325161835], 0xED3440B149B9A83C, 0x80E8F3FAF2EB317F)
  {
    hide Stir64; hide Plus;
    Wide000Words0();
  }

  lemma Wide000Words1()
    ensures Stir64(1, 0xED3440B149B9A83C) == 0x0769A2058A4DCD41 && Plus(0x0769A2058A4DCD41, 0x4834B7A4FCE77024) == 0x4F9E59AA87353D65
    ensures (0xD60D8FA600F88F9B as nat / 8) % 8 == 3 && Plus(Plus(0x3A7960E3EE53773A, 0x4F9E59AA87353D65), 0x80E8F3FAF2EB317F) == 0x0B00AE896873E61E
    ensures (0x0B00AE896873E61E as nat / 64) % 8 == 0 && Plus(0xDA6881629373507A, 0xD60D8FA600F88F9B) == 0xB0761108946BE015
  {
  }

  lemma Wide000Line1()
    ensures Line64([0xDA6881629373507A, 0xD60D8FA600F88F9B, 0xC2C5610A79A75E15, 0x3A7960E3EE53773A,
                    0xED3440B149B9A83D, 0x4834B7A4FCE77024, 0x1075B1CA678DE71E, 0x3FABD33325161835], 0xED3440B149B9A83C, 0x80E8F3FAF2EB317F, 1) ==
              Core([0xDA6881629373507A, 0x0B00AE896873E61E, 0xC2C5610A79A75E15, 0x3A7960E3EE53773A,
                    0xED3440B149B9A83D, 0x4834B7A4FCE77024, 0x1075B1CA678DE71E, 0x3FABD33325161835], 0x4F9E59AA87353D65, 0xB0761108946BE015)
  {
    hide Stir64; hide Plus;
    Wide000Words1();
  }

  lemma Wide000Words2()
    ensures Stir64(2, 0x4F9E59AA87353D65) == 0xE59AA87353D65000 && Plus(0xE59AA87353D65000, 0x1075B1CA678DE71E) == 0xF6105A3DBB64371E
    ensures (0xC2C5610A79A75E15 as nat / 8) % 8 == 2 && Plus(Plus(0xC2C5610A79A75E15, 0xF6105A3DBB64371E), 0xB0761108946BE015) == 0x694BCC50C9777548
    ensures (0x694BCC50C9777548 as nat / 64) % 8 == 5 && Plus(0x4834B7A4FCE77024, 0xC2C5610A79A75E15) == 0x0AFA18AF768ECE39
  {
  }

  lemma Wide000Line2()
    ensures Line64([0xDA6881629373507A, 0x0B00AE896873E61E, 0xC2C5610A79A75E15, 0x3A7960E3EE53773A,
                    0xED3440B149B9A83D, 0x4834B7A4FCE77024, 0x1075B1CA678DE71E, 0x3FABD33325161835], 0x4F9E59AA87353D65, 0xB0761108946BE015, 2) ==
              Core([0xDA6881629373507A, 0x0B00AE896873E61E, 0x694BCC50C9777548, 0x3A7960E3EE53773A,
                    0xED3440B149B9A83D, 0x4834B7A4FCE77024, 0x1075B1CA678DE71E, 0x3FABD33325161835], 0xF6105A3DBB64371E, 0x0AFA18AF768ECE39)
  {
    hide Stir64; hide Plus;
    Wide000Words2();
  }

  lemma Wide000Words3()
    ensures Stir64(3, 0xF6105A3DBB64371E) == 0x000000007B082D1E && Plus(0x000000007B082D1E, 0x3FABD33325161835) == 0x3FABD333A01E4553
    ensures (0x3A7960E3EE53773A as nat / 8) % 8 == 7 && Plus(Plus(0x3FABD33325161835, 0x3FABD333A01E4553), 0x0AFA18AF768ECE39) == 0x8A51BF163BC32BC1
    ensures (0x8A51BF163BC32BC1 as nat / 64) % 8 == 7 && Plus(0x3FABD33325161835, 0x3A7960E3EE53773A) == 0x7A25341713698F6F
  {
  }

  lemma Wide000Line3()
    ensures Line64([0xDA6881629373507A, 0x0B00AE896873E61E, 0x694BCC50C9777548, 0x3A7960E3EE53773A,
                    0xED3440B149B9A83D, 0x4834B7A4FCE77024, 0x1075B1CA678DE71E, 0x3FABD33325161835], 0xF6105A3DBB64371E, 0x0AFA18AF768ECE39, 3) ==
              Core([0xDA6881629373507A, 0x0B00AE896873E61E, 0x694BCC50C9777548, 0x8A51BF163BC32BC1,
                    0xED3440B149B9A83D, 0x4834B7A4FCE77024, 0x1075B1CA678DE71E, 0x3FABD33325161835], 0x3FABD333A01E4553, 0x7A25341713698F6F)
  {
    hide Stir64; hide Plus;
    Wide000Words3();
  }

  lemma Wide000Words4()
    ensures Stir64(4, 0x3FABD333A01E4553) == 0x998BFC37559FFFFF && Plus(0x998BFC37559FFFFF, 0xDA6881629373507A) == 0x73F47D99E9135079
    ensures (0xED3440B149B9A83D as nat / 8) % 8 == 7 && Plus(Plus(0x3FABD33325161835, 0x73F47D99E9135079), 0x7A25341713698F6F) == 0x2DC584E42192F81D
    ensures (0x2DC584E42192F81D as nat / 64) % 8 == 0 && Plus(0xDA6881629373507A, 0xED3440B149B9A83D) == 0xC79CC213DD2CF8B7
  {
  }

  lemma Wide000Line4()
    ensures Line64([0xDA6881629373507A, 0x0B00AE896873E61E, 0x694BCC50C9777548, 0x8A51BF163BC32BC1,
                    0xED3440B149B9A83D, 0x4834B7A4FCE77024, 0x1075B1CA678DE71E, 0x3FABD33325161835], 0x3FABD333A01E4553, 0x7A25341713698F6F, 4) ==
              Core([0xDA6881629373507A, 0x0B00AE896873E61E, 0x694BCC50C9777548, 0x8A51BF163BC32BC1,
                    0x2DC584E42192F81D, 0x4834B7A4FCE77024, 0x1075B1CA678DE71E, 0x3FABD33325161835], 0x73F47D99E9135079, 0xC79CC213DD2CF8B7)
  {
    hide Stir64; hide Plus;
    Wide000Words4();
  }

  lemma Wide000Words5()
    ensures Stir64(5, 0x73F47D99E9135079) == 0x039FA3ECCF489A83 && Plus(0x039FA3ECCF489A83, 0x0B00AE896873E61E) == 0x0EA0527637BC80A1
    ensures (0x4834B7A4FCE77024 as nat / 8) % 8 == 4 && Plus(Plus(0x2DC584E42192F81D, 0x0EA0527637BC80A1), 0xC79CC213DD2CF8B7) == 0x0402996E367C7175
    ensures (0x0402996E367C7175 as nat / 64) % 8 == 5 && Plus(0x0402996E367C7175, 0x4834B7A4FCE77024) == 0x4C3751133363E199
  {
  }

  lemma Wide000Line5()
    ensures Line64([0xDA6881629373507A, 0x0B00AE896873E61E, 0x694BCC50C9777548, 0x8A51BF163BC32BC1,
                    0x2DC584E42192F81D, 0x4834B7A4FCE77024, 0x1075B1CA678DE71E, 0x3FABD33325161835], 0x73F47D99E9135079, 0xC79CC213DD2CF8B7, 5) ==
              Core([0xDA6881629373507A, 0x0B00AE896873E61E, 0x694BCC50C9777548, 0x8A51BF163BC32BC1,
                    0x2DC584E42192F81D, 0x0402996E367C7175, 0x1075B1CA678DE71E, 0x3FABD33325161835], 0x0EA0527637BC80A1, 0x4C3751133363E199)
  {
    hide Stir64; hide Plus;
    Wide000Words5();
  }

  lemma Wide000Words6()
    ensures Stir64(6, 0x0EA0527637BC80A1) == 0x0527637BC80A1000 && Plus(0x0527637BC80A1000, 0x694BCC50C9777548) == 0x6E732FCC91818548
    ensures (0x1075B1CA678DE71E as nat / 8) % 8 == 3 && Plus(Plus(0x8A51BF163BC32BC1, 0x6E732FCC91818548), 0x4C3751133363E199) == 0x44FC3FF600A892A2
    ensures (0x44FC3FF600A892A2 as nat / 64) % 8 == 2 && Plus(0x694BCC50C9777548, 0x1075B1CA678DE71E) == 0x79C17E1B31055C66
  {
  }

  lemma Wide000Line6()
    ensures Line64([0xDA6881629373507A, 0x0B00AE896873E61E, 0x694BCC50C9777548, 0x8A51BF163BC32BC1,
                    0x2DC584E42192F81D, 0x0402996E367C7175, 0x1075B1CA678DE71E, 0x3FABD33325161835], 0x0EA0527637BC80A1, 0x4C3751133363E199, 6) ==
              Core([0xDA6881629373507A, 0x0B00AE896873E61E, 0x694BCC50C9777548, 0x8A51BF163BC32BC1,
                    0x2DC584E42192F81D, 0x0402996E367C7175, 0x44FC3FF600A892A2, 0x3FABD33325161835], 0x6E732FCC91818548, 0x79C17E1B31055C66)
  {
    hide Stir64; hide Plus;
    Wide000Words6();
  }

  lemma Wide000Words7()
    ensures Stir64(7, 0x6E732FCC91818548) == 0x00000000373997E6 && Plus(0x00000000373997E6, 0x8A51BF163BC32BC1) == 0x8A51BF1672FCC3A7
    ensures (0x3FABD33325161835 as nat / 8) % 8 == 6 && Plus(Plus(0x44FC3FF600A892A2, 0x8A51BF1672FCC3A7), 0x79C17E1B31055C66) == 0x490F7D27A4AAB2AF
    ensures (0x490F7D27A4AAB2AF as nat / 64) % 8 == 2 && Plus(0x694BCC50C9777548, 0x3FABD33325161835) == 0xA8F79F83EE8D8D7D
  {
  }

  lemma Wide000Line7()
    ensures Line64([0xDA6881629373507A, 0x0B00AE896873E61E, 0x694BCC50C9777548, 0x8A51BF163BC32BC1,
                    0x2DC584E42192F81D, 0x0402996E367C7175, 0x44FC3FF600A892A2, 0x3FABD33325161835], 0x6E732FCC91818548, 0x79C17E1B31055C66, 7) ==
              Core([0xDA6881629373507A, 0x0B00AE896873E61E, 0x694BCC50C9777548, 0x8A51BF163BC32BC1,
                    0x2DC584E42192F81D, 0x0402996E367C7175, 0x44FC3FF600A892A2, 0x490F7D27A4AAB2AF], 0x8A51BF1672FCC3A7, 0xA8F79F83EE8D8D7D)
  {
    hide Stir64; hide Plus;
    Wide000Words7();
  }

  lemma Wide000Steps()
    ensures Lawful(Ops64(3), 8)
    ensures Steps(Ops64(3), Core([0xAADB6454F1F2A1E4, 0xD60D8FA600F88F9B, 0xC2C5610A79A75E15, 0x3A7960E3EE53773A,
                                 0xED3440B149B9A83D, 0x4834B7A4FCE77024, 0x1075B1CA678DE71E, 0x3FABD33325161835], 0x0000000000000000, 0x0000000000000001), 8) ==
              Core([0xDA6881629373507A, 0x0B00AE896873E61E, 0x694BCC50C9777548, 0x8A51BF163BC32BC1,
                    0x2DC584E42192F81D, 0x0402996E367C7175, 0x44FC3FF600A892A2, 0x490F7D27A4AAB2AF], 0x8A51BF1672FCC3A7, 0xA8F79F83EE8D8D7D)
  {
    Laws64();
    hide Lawful; hide Ops64; hide Line64; hide Steps;
    Wide000Line0();
    Wide000Line1();
    Wide000Line2();
    Wide000Line3();
    Wide000Line4();
    Wide000Line5();
    Wide000Line6();
    Wide000Line7();
    EightLines64(Core([0xAADB6454F1F2A1E4, 0xD60D8FA600F88F9B, 0xC2C5610A79A75E15, 0x3A7960E3EE53773A,
                      0xED3440B149B9A83D, 0x4834B7A4FCE77024, 0x1075B1CA678DE71E, 0x3FABD33325161835], 0x0000000000000000, 0x0000000000000001),
                Core([0xDA6881629373507A, 0xD60D8FA600F88F9B, 0xC2C5610A79A75E15, 0x3A7960E3EE53773A,
                      0xED3440B149B9A83D, 0x4834B7A4FCE77024, 0x1075B1CA678DE71E, 0x3FABD33325161835], 0xED3440B149B9A83C, 0x80E8F3FAF2EB317F),
                Core([0xDA6881629373507A, 0x0B00AE896873E61E, 0xC2C5610A79A75E15, 0x3A7960E3EE53773A,
                      0xED3440B149B9A83D, 0x4834B7A4FCE77024, 0x1075B1CA678DE71E, 0x3FABD33325161835], 0x4F9E59AA87353D65, 0xB0761108946BE015),
                Core([0xDA6881629373507A, 0x0B00AE896873E61E, 0x694BCC50C9777548, 0x3A7960E3EE53773A,
                      0xED3440B149B9A83D, 0x4834B7A4FCE77024, 0x1075B1CA678DE71E, 0x3FABD33325161835], 0xF6105A3DBB64371E, 0x0AFA18AF768ECE39),
                Core([0xDA6881629373507A, 0x0B00AE896873E61E, 0x694BCC50C9777548, 0x8A51BF163BC32BC1,
                      0xED3440B149B9A83D, 0x4834B7A4FCE77024, 0x1075B1CA678DE71E, 0x3FABD33325161835], 0x3FABD333A01E4553, 0x7A25341713698F6F),
                Core([0xDA6881629373507A, 0x0B00AE896873E61E, 0x694BCC50C9777548, 0x8A51BF163BC32BC1,
                      0x2DC584E42192F81D, 0x4834B7A4FCE77024, 0x1075B1CA678DE71E, 0x3FABD33325161835], 0x73F47D99E9135079, 0xC79CC213DD2CF8B7),
                Core([0xDA6881629373507A, 0x0B00AE896873E61E, 0x694BCC50C9777548, 0x8A51BF163BC32BC1,
                      0x2DC584E42192F81D, 0x0402996E367C7175, 0x1075B1CA678DE71E, 0x3FABD33325161835], 0x0EA0527637BC80A1, 0x4C3751133363E199),
                Core([0xDA6881629373507A, 0x0B00AE896873E61E, 0x694BCC50C9777548, 0x8A51BF163BC32BC1,
                      0x2DC584E42192F81D, 0x0402996E367C7175, 0x44FC3FF600A892A2, 0x3FABD33325161835], 0x6E732FCC91818548, 0x79C17E1B31055C66),
                Core([0xDA6881629373507A, 0x0B00AE896873E61E, 0x694BCC50C9777548, 0x8A51BF163BC32BC1,
                      0x2DC584E42192F81D, 0x0402996E367C7175, 0x44FC3FF600A892A2, 0x490F7D27A4AAB2AF], 0x8A51BF1672FCC3A7, 0xA8F79F83EE8D8D7D));
  }

  lemma Wide000Sum()
    ensures Ops64(3).zero == 0 && Ops64(3).plus(0, Ops64(3).plus(0, Ops64(3).one)) == 0x0000000000000001
  {
    Entered64(0, 0);
    hide Ops64;
  }

  /** `srand(0, 0, 0)` of the 64-bit generator */
  lemma Wide000()
    ensures Lawful(Ops64(3), 8) && GetValue(Ops64(3), 8, SourceOfWords(Ops64(3), 8, 0, 0, 0)) == 0xA8F79F83EE8D8D7D
  {
    Wide000Steps();
    Zeros64Memory();
    Wide000Sum();
    hide Lawful; hide Ops64; hide Steps; hide SeededMem; hide GetValue; hide SourceOfWords;
    FirstWord(Ops64(3), 0, 0, 0, 0, 0x0000000000000001, [0xAADB6454F1F2A1E4, 0xD60D8FA600F88F9B, 0xC2C5610A79A75E15, 0x3A7960E3EE53773A,
               0xED3440B149B9A83D, 0x4834B7A4FCE77024, 0x1075B1CA678DE71E, 0x3FABD33325161835],
              Core([0xDA6881629373507A, 0x0B00AE896873E61E, 0x694BCC50C9777548, 0x8A51BF163BC32BC1,
                    0x2DC584E42192F81D, 0x0402996E367C7175, 0x44FC3FF600A892A2, 0x490F7D27A4AAB2AF], 0x8A51BF1672FCC3A7, 0xA8F79F83EE8D8D7D));
  }

}
