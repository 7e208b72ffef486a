/**
 * `rand<ALPHA, T>`: Jenkins' ISAAC over words of any width.
 *
 * One batch as functions on sequences, and how it is undone. The word type and its operations are
 * parameters, as `T` is in the source; module Widths supplies the two instances. The class over
 * in-place arrays is in module Generator.
 */
module Isaac {

  /**
   * The operations of a word type: modular arithmetic, `stir(k, a)` = a ^ mix for the k-th of the four
   * `rngstep` lines, the slot numbers `ind` derives from x and from y >> ALPHA, and `shuffle`.
   */
  datatype Ops<!W> = Ops(zero: W, one: W, golden: W, plus: (W, W) -> W, minus: (W, W) -> W,
                         stir: (nat, W) -> W, unstir: (nat, W) -> W, slot: W -> nat, highSlot: W -> nat,
                         mix: seq<W> -> seq<W>, unmix: seq<W> -> seq<W>)

  ghost predicate Arithmetic<W(!new)>(ops: Ops<W>) {
    && (forall x, y :: ops.minus(ops.plus(x, y), y) == x)
    && (forall x, y :: ops.plus(ops.minus(x, y), y) == x)
    && (forall x, y :: ops.plus(x, y) == ops.plus(y, x))
  }

  ghost predicate InBounds<W(!new)>(ops: Ops<W>, n: nat) {
    forall x :: ops.slot(x) < n && ops.highSlot(x) < n
  }

  ghost predicate Shuffles<W(!new)>(ops: Ops<W>) {
    && (forall s :: |s| == 8 ==> |ops.mix(s)| == 8 && |ops.unmix(s)| == 8)
    && (forall s :: |s| == 8 ==> ops.unmix(ops.mix(s)) == s)
    && (forall s :: |s| == 8 ==> ops.mix(ops.unmix(s)) == s)
  }

  /** What any width provides; `n` is the number of slots. */
  ghost predicate Lawful<W(!new)>(ops: Ops<W>, n: nat) {
    Arithmetic(ops) && InBounds(ops, n) && Shuffles(ops)
  }

  /** What only some widths provide: the line a ^ mix can be undone. */
  ghost predicate Stirs<W(!new)>(ops: Ops<W>) {
    && (forall k, a :: k < 4 ==> ops.unstir(k, ops.stir(k, a)) == a)
    && (forall k, a :: k < 4 ==> ops.stir(k, ops.unstir(k, a)) == a)
  }

  /** The number of slots: whole groups of eight, and at least one, as with every power of two from 8 up. */
  predicate Slots(n: nat) {
    n >= 8 && n % 8 == 0
  }

  // ---------------------------------------------------------------- one batch

  datatype Core<W> = Core(mm: seq<W>, a: W, b: W)

  /** Half way round from slot `i`. */
  function Partner(i: nat, n: nat): (p: nat)
    requires i < n
  {
    if i < n / 2 then i + n / 2 else i - n / 2
  }

  lemma PartnerDiffers(i: nat, n: nat)
    requires Slots(n) && i < n
    ensures Partner(i, n) != i && Partner(i, n) < n && Partner(Partner(i, n), n) == i
  {
  }

  lemma PartnerIsModular(i: nat, n: nat)
    requires Slots(n) && i < n
    ensures Partner(i, n) == (i + n / 2) % n
  {
    TwoHalves(n);
    hide Slots;
    var half := n / 2;
    if i < half {
      RemainderIs(i + half, n, 0, i + half);
    } else {
      RemainderIs(i + half, n, 1, i - half);
    }
  }

  lemma TwoHalves(n: nat)
    requires Slots(n)
    ensures n == n / 2 + n / 2
  {
    var k := n / 8;
    assert n == 8 * k;
    assert n / 2 == 4 * k;
  }

  lemma RemainderIs(x: nat, n: nat, q: nat, r: nat)
    requires r < n && x == q * n + r
    ensures x % n == r
  {
    var p := x / n;
    assert x == p * n + x % n;
    if p < q {
      Scale(p + 1, q, n);
    } else if p > q {
      Scale(q + 1, p, n);
    }
  }

  lemma Scale(a: nat, b: nat, n: nat)
    requires a <= b
    ensures a * n <= b * n
  {
  }

  /** One `rngstep` at slot `i`; the result word is the new `b`. */
  function Step<W(!new)>(ops: Ops<W>, s: Core<W>, i: nat): (t: Core<W>)
    requires Slots(|s.mm|) && Lawful(ops, |s.mm|) && i < |s.mm|
    ensures |t.mm| == |s.mm|
  {
    var x := s.mm[i];
    var a := ops.plus(ops.stir(i % 4, s.a), s.mm[Partner(i, |s.mm|)]);
    var y := ops.plus(ops.plus(s.mm[ops.slot(x)], a), s.b);
    var mm := s.mm[i := y];
    Core(mm, a, ops.plus(mm[ops.highSlot(y)], x))
  }

  /** The step undone, whichever of the two reads hits the slot being rewritten. */
  function Unstep<W(!new)>(ops: Ops<W>, t: Core<W>, i: nat): (s: Core<W>)
    requires Slots(|t.mm|) && Lawful(ops, |t.mm|) && i < |t.mm|
    ensures |s.mm| == |t.mm|
  {
    var y := t.mm[i];
    var x := ops.minus(t.b, t.mm[ops.highSlot(y)]);
    var mm := t.mm[i := x];
    Core(mm, ops.unstir(i % 4, ops.minus(t.a, t.mm[Partner(i, |t.mm|)])), ops.minus(y, ops.plus(mm[ops.slot(x)], t.a)))
  }

  lemma Cancels<W(!new)>(ops: Ops<W>, n: nat, x: W, y: W)
    requires Lawful(ops, n)
    ensures ops.minus(ops.plus(x, y), x) == y && ops.minus(ops.plus(x, y), y) == x
    ensures ops.plus(x, ops.minus(y, x)) == y && ops.plus(ops.minus(y, x), x) == y
  {
    assert ops.plus(x, y) == ops.plus(y, x);
    assert ops.plus(x, ops.minus(y, x)) == ops.plus(ops.minus(y, x), x);
  }

  lemma StepUndone<W(!new)>(ops: Ops<W>, s: Core<W>, i: nat)
    requires Slots(|s.mm|) && Lawful(ops, |s.mm|) && Stirs(ops) && i < |s.mm|
    ensures Unstep(ops, Step(ops, s, i), i) == s
  {
    var n := |s.mm|;
    PartnerDiffers(i, n);
    var x := s.mm[i];
    var a := ops.plus(ops.stir(i % 4, s.a), s.mm[Partner(i, n)]);
    var y := ops.plus(ops.plus(s.mm[ops.slot(x)], a), s.b);
    var mm := s.mm[i := y];
    assert mm[i := x] == s.mm;
    Cancels(ops, n, mm[ops.highSlot(y)], x);
    Cancels(ops, n, ops.plus(s.mm[ops.slot(x)], a), s.b);
    Cancels(ops, n, ops.stir(i % 4, s.a), s.mm[Partner(i, n)]);
  }

  lemma StepRedone<W(!new)>(ops: Ops<W>, t: Core<W>, i: nat)
    requires Slots(|t.mm|) && Lawful(ops, |t.mm|) && Stirs(ops) && i < |t.mm|
    ensures Step(ops, Unstep(ops, t, i), i) == t
  {
    var n := |t.mm|;
    PartnerDiffers(i, n);
    var y := t.mm[i];
    var x := ops.minus(t.b, t.mm[ops.highSlot(y)]);
    var mm := t.mm[i := x];
    assert mm[i := y] == t.mm;
    Cancels(ops, n, t.mm[Partner(i, n)], t.a);
    Cancels(ops, n, ops.plus(mm[ops.slot(x)], t.a), y);
    Cancels(ops, n, t.mm[ops.highSlot(y)], t.b);
  }

  /** The single indexed recurrence: steps 0 to k - 1. */
  function Steps<W(!new)>(ops: Ops<W>, s: Core<W>, k: nat): (t: Core<W>)
    requires Slots(|s.mm|) && Lawful(ops, |s.mm|) && k <= |s.mm|
    ensures |t.mm| == |s.mm|
  {
    if k == 0 then s else Step(ops, Steps(ops, s, k - 1), k - 1)
  }

  /** The words those steps put into `randrsl`. */
  function Results<W(!new)>(ops: Ops<W>, s: Core<W>, k: nat): (r: seq<W>)
    requires Slots(|s.mm|) && Lawful(ops, |s.mm|) && k <= |s.mm|
    ensures |r| == k
  {
    if k == 0 then [] else Results(ops, s, k - 1) + [Steps(ops, s, k).b]
  }

  function Unsteps<W(!new)>(ops: Ops<W>, t: Core<W>, k: nat): (s: Core<W>)
    requires Slots(|t.mm|) && Lawful(ops, |t.mm|) && k <= |t.mm|
    ensures |s.mm| == |t.mm|
    decreases k
  {
    if k == 0 then t else Unsteps(ops, Unstep(ops, t, k - 1), k - 1)
  }

  lemma {:induction false} StepsUndone<W(!new)>(ops: Ops<W>, s: Core<W>, k: nat)
    requires Slots(|s.mm|) && Lawful(ops, |s.mm|) && Stirs(ops) && k <= |s.mm|
    ensures Unsteps(ops, Steps(ops, s, k), k) == s
  {
    hide Step; hide Unstep; hide Stirs; hide Lawful;
    if k > 0 {
      StepUndone(ops, Steps(ops, s, k - 1), k - 1);
      StepsUndone(ops, s, k - 1);
    }
  }

  lemma {:induction false} StepsRedone<W(!new)>(ops: Ops<W>, t: Core<W>, k: nat)
    requires Slots(|t.mm|) && Lawful(ops, |t.mm|) && Stirs(ops) && k <= |t.mm|
    ensures Steps(ops, Unsteps(ops, t, k), k) == t
    decreases k
  {
    hide Step; hide Unstep; hide Stirs; hide Lawful;
    if k > 0 {
      StepsRedone(ops, Unstep(ops, t, k - 1), k - 1);
      StepRedone(ops, t, k - 1);
    }
  }

  /** What a batch works on: `randmem`, `randa`, `randb` and `randc`. */
  datatype Gen<W> = Gen(mem: seq<W>, a: W, b: W, c: W)

  function Entering<W>(ops: Ops<W>, g: Gen<W>): Core<W> {
    Core(g.mem, g.a, ops.plus(g.b, ops.plus(g.c, ops.one)))
  }

  /** `isaac`: one whole batch. */
  function Batch<W(!new)>(ops: Ops<W>, g: Gen<W>): (h: Gen<W>)
    requires Slots(|g.mem|) && Lawful(ops, |g.mem|)
    ensures |h.mem| == |g.mem|
  {
    var t := Steps(ops, Entering(ops, g), |g.mem|);
    Gen(t.mm, t.a, t.b, ops.plus(g.c, ops.one))
  }

  function BatchResults<W(!new)>(ops: Ops<W>, g: Gen<W>): (r: seq<W>)
    requires Slots(|g.mem|) && Lawful(ops, |g.mem|)
    ensures |r| == |g.mem|
  {
    Results(ops, Entering(ops, g), |g.mem|)
  }

  function Unbatch<W(!new)>(ops: Ops<W>, h: Gen<W>): (g: Gen<W>)
    requires Slots(|h.mem|) && Lawful(ops, |h.mem|)
    ensures |g.mem| == |h.mem|
  {
    var s := Unsteps(ops, Core(h.mem, h.a, h.b), |h.mem|);
    Gen(s.mm, s.a, ops.minus(s.b, h.c), ops.minus(h.c, ops.one))
  }

  /** A batch is a bijection on the generator state, so distinct states never merge. */
  lemma BatchReversible<W(!new)>(ops: Ops<W>, g: Gen<W>)
    requires Slots(|g.mem|) && Lawful(ops, |g.mem|) && Stirs(ops)
    ensures Unbatch(ops, Batch(ops, g)) == g && Batch(ops, Unbatch(ops, g)) == g
  {
    hide Steps; hide Unsteps;
    StepsUndone(ops, Entering(ops, g), |g.mem|);
    StepsRedone(ops, Core(g.mem, g.a, g.b), |g.mem|);
  }

  /** Where the first line forgets part of `a`, so does the whole batch. */
  lemma {:induction false} StepsForget<W(!new)>(ops: Ops<W>, s: Core<W>, a: W, k: nat)
    requires Slots(|s.mm|) && Lawful(ops, |s.mm|) && 0 < k <= |s.mm|
    requires ops.stir(0, s.a) == ops.stir(0, a)
    ensures Steps(ops, s, k) == Steps(ops, s.(a := a), k)
  {
    hide Lawful;
    if k > 1 {
      hide Step;
      StepsForget(ops, s, a, k - 1);
    } else {
      assert Steps(ops, s, 1) == Step(ops, Steps(ops, s, 0), 0);
      assert Steps(ops, s.(a := a), 1) == Step(ops, Steps(ops, s.(a := a), 0), 0);
    }
  }

  lemma BatchForgets<W(!new)>(ops: Ops<W>, g: Gen<W>, a: W)
    requires Slots(|g.mem|) && Lawful(ops, |g.mem|) && ops.stir(0, g.a) == ops.stir(0, a)
    ensures Batch(ops, g) == Batch(ops, g.(a := a))
  {
    hide Lawful; hide Steps;
    StepsForget(ops, Entering(ops, g), a, |g.mem|);
  }
}
