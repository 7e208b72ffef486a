/**
 * The two passes of `randinit`, and what they lose: nothing, as long as there are two groups.
 * Seed and memory are taken in groups of eight words, the stride of the source's loops.
 */
module Seeding {
  import opened Isaac

  type Group<W> = seq<W>

  ghost predicate Eights<W>(d: seq<Group<W>>) {
    forall j :: 0 <= j < |d| ==> |d[j]| == 8
  }

  function AddWords<W>(ops: Ops<W>, s: Group<W>, t: Group<W>): (r: Group<W>)
    requires |s| == 8 && |t| == 8
    ensures |r| == 8
  {
    seq(8, j requires 0 <= j < 8 => ops.plus(s[j], t[j]))
  }

  function SubWords<W>(ops: Ops<W>, s: Group<W>, t: Group<W>): (r: Group<W>)
    requires |s| == 8 && |t| == 8
    ensures |r| == 8
  {
    seq(8, j requires 0 <= j < 8 => ops.minus(s[j], t[j]))
  }

  /** The eight words after the first `k` groups of a pass over `d` that starts from `s`. */
  function PassWords<W(!new)>(ops: Ops<W>, n: nat, s: Group<W>, d: seq<Group<W>>, k: nat): (t: Group<W>)
    requires Lawful(ops, n) && |s| == 8 && Eights(d) && k <= |d|
    ensures |t| == 8
  {
    if k == 0 then s else ops.mix(AddWords(ops, PassWords(ops, n, s, d, k - 1), d[k - 1]))
  }

  /** What the pass has written after `k` groups: the words after each. */
  function Written<W(!new)>(ops: Ops<W>, n: nat, s: Group<W>, d: seq<Group<W>>, k: nat): (m: seq<Group<W>>)
    requires Lawful(ops, n) && |s| == 8 && Eights(d) && k <= |d|
    ensures |m| == k && Eights(m)
  {
    if k == 0 then [] else Written(ops, n, s, d, k - 1) + [PassWords(ops, n, s, d, k)]
  }

  function PassOut<W(!new)>(ops: Ops<W>, n: nat, s: Group<W>, d: seq<Group<W>>): (m: seq<Group<W>>)
    requires Lawful(ops, n) && |s| == 8 && Eights(d)
    ensures |m| == |d| && Eights(m)
  {
    Written(ops, n, s, d, |d|)
  }

  lemma {:induction false} WrittenAt<W(!new)>(ops: Ops<W>, n: nat, s: Group<W>, d: seq<Group<W>>, k: nat, j: nat)
    requires Lawful(ops, n) && |s| == 8 && Eights(d) && j < k <= |d|
    ensures Written(ops, n, s, d, k)[j] == PassWords(ops, n, s, d, j + 1)
    decreases k
  {
    hide Lawful; hide PassWords;
    if j < k - 1 {
      WrittenAt(ops, n, s, d, k - 1, j);
    }
  }

  /** `randinit` from a seed: a pass over `randrsl`, then one over what it wrote. */
  function Seeded<W(!new)>(ops: Ops<W>, n: nat, s: Group<W>, rsl: seq<Group<W>>): (mem: seq<Group<W>>)
    requires Lawful(ops, n) && |s| == 8 && Eights(rsl)
    ensures |mem| == |rsl| && Eights(mem)
  {
    PassOut(ops, n, PassWords(ops, n, s, rsl, |rsl|), PassOut(ops, n, s, rsl))
  }

  lemma AddSub<W(!new)>(ops: Ops<W>, n: nat, s: Group<W>, t: Group<W>)
    requires Lawful(ops, n) && |s| == 8 && |t| == 8
    ensures SubWords(ops, AddWords(ops, s, t), s) == t
    ensures AddWords(ops, s, SubWords(ops, t, s)) == t
  {
    assert forall j :: 0 <= j < 8 ==> ops.plus(s[j], t[j]) == ops.plus(t[j], s[j]);
    assert forall j :: 0 <= j < 8 ==> ops.plus(s[j], ops.minus(t[j], s[j])) == ops.plus(ops.minus(t[j], s[j]), s[j]);
  }

  lemma LastWritten<W(!new)>(ops: Ops<W>, n: nat, s: Group<W>, d: seq<Group<W>>)
    requires Lawful(ops, n) && |s| == 8 && Eights(d) && d != []
    ensures PassOut(ops, n, s, d)[|d| - 1] == PassWords(ops, n, s, d, |d|)
  {
    WrittenAt(ops, n, s, d, |d|, |d| - 1);
  }

  /** A group can be recovered from the words before and after it. */
  lemma GroupRecovered<W(!new)>(ops: Ops<W>, n: nat, s: Group<W>, d: seq<Group<W>>, k: nat)
    requires Lawful(ops, n) && |s| == 8 && Eights(d) && k < |d|
    ensures d[k] == SubWords(ops, ops.unmix(PassWords(ops, n, s, d, k + 1)), PassWords(ops, n, s, d, k))
  {
    AddSub(ops, n, PassWords(ops, n, s, d, k), d[k]);
  }

  /** Passes that write the same have read the same group `j`, unless `j` is 0 and they start differently. */
  lemma GroupSame<W(!new)>(ops: Ops<W>, n: nat, s: Group<W>, t: Group<W>, x: seq<Group<W>>, y: seq<Group<W>>, j: nat)
    requires Lawful(ops, n) && |s| == 8 && |t| == 8 && Eights(x) && Eights(y) && |x| == |y| && j < |x|
    requires PassOut(ops, n, s, x) == PassOut(ops, n, t, y)
    requires j == 0 ==> s == t
    ensures x[j] == y[j]
  {
    hide Lawful; hide SubWords; hide Written;
    GroupRecovered(ops, n, s, x, j);
    GroupRecovered(ops, n, t, y, j);
    WrittenAt(ops, n, s, x, |x|, j);
    WrittenAt(ops, n, t, y, |y|, j);
    if j > 0 {
      WrittenAt(ops, n, s, x, |x|, j - 1);
      WrittenAt(ops, n, t, y, |y|, j - 1);
    }
  }

  lemma PassInjective<W(!new)>(ops: Ops<W>, n: nat, s: Group<W>, x: seq<Group<W>>, y: seq<Group<W>>)
    requires Lawful(ops, n) && |s| == 8 && Eights(x) && Eights(y) && |x| == |y|
    requires PassOut(ops, n, s, x) == PassOut(ops, n, s, y)
    ensures x == y
  {
    hide Lawful; hide PassOut;
    forall j | 0 <= j < |x|
      ensures x[j] == y[j]
    {
      GroupSame(ops, n, s, s, x, y, j);
    }
  }

  /**
   * With at least two groups the two passes map `randrsl` to `randmem` injectively: the second
   * pass determines its last group, hence the words it started from, hence all it read.
   */
  lemma SeededInjective<W(!new)>(ops: Ops<W>, n: nat, s: Group<W>, x: seq<Group<W>>, y: seq<Group<W>>)
    requires Lawful(ops, n) && |s| == 8 && Eights(x) && Eights(y) && |x| == |y| >= 2
    requires Seeded(ops, n, s, x) == Seeded(ops, n, s, y)
    ensures x == y
  {
    hide Lawful; hide PassWords; hide PassOut;
    var fx, fy := PassOut(ops, n, s, x), PassOut(ops, n, s, y);
    var wx, wy := PassWords(ops, n, s, x, |x|), PassWords(ops, n, s, y, |y|);
    GroupSame(ops, n, wx, wy, fx, fy, |x| - 1);
    LastWritten(ops, n, s, x);
    LastWritten(ops, n, s, y);
    PassInjective(ops, n, wx, fx, fy);
    PassInjective(ops, n, s, x, y);
  }

  // ---------------------------------------------------------------- a single group

  /** The seed that makes the words after one group be `w`. */
  function SeedFor<W(!new)>(ops: Ops<W>, n: nat, s: Group<W>, w: Group<W>): (x: Group<W>)
    requires Lawful(ops, n) && |s| == 8 && |w| == 8
    ensures |x| == 8
  {
    SubWords(ops, ops.unmix(w), s)
  }

  /** The words a pass starts from, and those after its first group. */
  lemma FirstWords<W(!new)>(ops: Ops<W>, n: nat, s: Group<W>, d: seq<Group<W>>)
    requires Lawful(ops, n) && |s| == 8 && Eights(d)
    ensures PassWords(ops, n, s, d, 0) == s
    ensures d != [] ==> PassWords(ops, n, s, d, 1) == ops.mix(AddWords(ops, s, d[0]))
  {
    assert d != [] ==> PassWords(ops, n, s, d, 1) == ops.mix(AddWords(ops, PassWords(ops, n, s, d, 0), d[0]));
  }

  lemma OneGroup<W(!new)>(ops: Ops<W>, n: nat, s: Group<W>, w: Group<W>)
    requires Lawful(ops, n) && |s| == 8 && |w| == 8
    ensures Seeded(ops, n, s, [SeedFor(ops, n, s, w)]) == [ops.mix(AddWords(ops, w, w))]
  {
    hide PassWords;
    var x := [SeedFor(ops, n, s, w)];
    AddSub(ops, n, s, ops.unmix(w));
    FirstWords(ops, n, s, x);
    LastWritten(ops, n, s, x);
    assert PassOut(ops, n, s, x) == [w];
    FirstWords(ops, n, w, [w]);
    LastWritten(ops, n, w, [w]);
  }

  lemma SeedForInjective<W(!new)>(ops: Ops<W>, n: nat, s: Group<W>, v: Group<W>, w: Group<W>)
    requires Lawful(ops, n) && |s| == 8 && |v| == 8 && |w| == 8
    requires SeedFor(ops, n, s, v) == SeedFor(ops, n, s, w)
    ensures v == w
  {
    AddSub(ops, n, s, ops.unmix(v));
    AddSub(ops, n, s, ops.unmix(w));
    assert ops.mix(ops.unmix(v)) == v && ops.mix(ops.unmix(w)) == w;
  }

  /** With a single group the second pass doubles every word, and two words with the same double collide. */
  lemma OneGroupCollides<W(!new)>(ops: Ops<W>, n: nat, s: Group<W>, u: W, v: W) returns (x: Group<W>, y: Group<W>)
    requires Lawful(ops, n) && |s| == 8 && u != v && ops.plus(u, u) == ops.plus(v, v)
    ensures |x| == 8 && |y| == 8 && x != y && Seeded(ops, n, s, [x]) == Seeded(ops, n, s, [y])
  {
    hide Lawful; hide SeedFor; hide Seeded;
    var wu, wv := [u, u, u, u, u, u, u, u], [v, v, v, v, v, v, v, v];
    x, y := SeedFor(ops, n, s, wu), SeedFor(ops, n, s, wv);
    OneGroup(ops, n, s, wu);
    OneGroup(ops, n, s, wv);
    assert AddWords(ops, wu, wu) == AddWords(ops, wv, wv);
    assert wu[0] != wv[0];
    if x == y {
      SeedForInjective(ops, n, s, wu, wv);
    }
  }

  /** Seeding is lawful, and no two seeds of so many groups lead to the same memory. */
  ghost predicate LosesNothing<W(!new)>(ops: Ops<W>, n: nat, s: Group<W>, groups: nat) {
    Lawful(ops, n) && |s| == 8 &&
    forall x, y :: |x| == |y| == groups && Eights(x) && Eights(y) && Seeded(ops, n, s, x) == Seeded(ops, n, s, y) ==> x == y
  }

  /** Seeding through two passes is injective exactly when there is more than one group. */
  lemma SeedingExactly<W(!new)>(ops: Ops<W>, n: nat, s: Group<W>, u: W, v: W, groups: nat)
    requires groups >= 1 && Lawful(ops, n) && |s| == 8 && u != v && ops.plus(u, u) == ops.plus(v, v)
    ensures LosesNothing(ops, n, s, groups) <==> groups >= 2
  {
    hide Lawful; hide Seeded;
    if groups >= 2 {
      forall x, y | |x| == |y| == groups && Eights(x) && Eights(y) && Seeded(ops, n, s, x) == Seeded(ops, n, s, y)
        ensures x == y
      {
        SeededInjective(ops, n, s, x, y);
      }
    } else {
      var x, y := OneGroupCollides(ops, n, s, u, v);
      assert [x][0] != [y][0];
    }
  }
}
