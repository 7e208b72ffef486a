/** The generator object `rand<ALPHA, T>`: batches, seeding and `get`, over arrays in place. */
module Generator {
  import opened Isaac
  import opened Seeding

  /** The array contents in groups of eight. */
  function Groups<W>(data: seq<W>): (d: seq<Group<W>>)
    requires |data| % 8 == 0
    ensures |d| == |data| / 8 && Eights(d)
  {
    seq(|data| / 8, j requires 0 <= j < |data| / 8 => data[8 * j..8 * j + 8])
  }

  function Ungroup<W>(d: seq<Group<W>>): (data: seq<W>)
    ensures Eights(d) ==> |data| == 8 * |d|
    decreases |d|
  {
    if d == [] then [] else Ungroup(d[..|d| - 1]) + d[|d| - 1]
  }

  lemma {:induction false} UngroupAt<W>(d: seq<Group<W>>, k: nat)
    requires Eights(d) && k < |d|
    ensures Ungroup(d)[8 * k..8 * k + 8] == d[k]
    decreases |d|
  {
    var before := d[..|d| - 1];
    if k < |d| - 1 {
      UngroupAt(before, k);
      assert Ungroup(d)[8 * k..8 * k + 8] == Ungroup(before)[8 * k..8 * k + 8];
    }
  }

  /** The part of the source still to be read begins with group `k`. */
  lemma NextInSource<W>(data: seq<W>, d: seq<Group<W>>, k: nat)
    requires Eights(d) && k < |d| && |data| == 8 * |d| && data[8 * k..] == Ungroup(d)[8 * k..]
    ensures data[8 * k..8 * k + 8] == d[k] && data[8 * k + 8..] == Ungroup(d)[8 * k + 8..]
  {
    hide Ungroup;
    UngroupAt(d, k);
    assert data[8 * k..8 * k + 8] == data[8 * k..][..8] && Ungroup(d)[8 * k..8 * k + 8] == Ungroup(d)[8 * k..][..8];
    assert data[8 * k + 8..] == data[8 * k..][8..] && Ungroup(d)[8 * k + 8..] == Ungroup(d)[8 * k..][8..];
  }

  lemma UngroupMore<W>(d: seq<Group<W>>, w: Group<W>)
    ensures Ungroup(d + [w]) == Ungroup(d) + w
  {
    assert (d + [w])[..|d|] == d;
  }

  function HalfOf(n: nat): (half: nat)
    requires Slots(n)
    ensures half == n / 2 && half + half == n && half % 4 == 0
  {
    n / 2
  }

  /** The golden-ratio words after `k` rounds of mixing. */
  function Scrambled<W(!new)>(ops: Ops<W>, n: nat, k: nat): (s: Group<W>)
    requires Lawful(ops, n)
    ensures |s| == 8
  {
    if k == 0 then seq(8, _ => ops.golden) else ops.mix(Scrambled(ops, n, k - 1))
  }

  /** `randmem` as `randinit` fills it from the seed in `randrsl`. */
  function SeededMem<W(!new)>(ops: Ops<W>, rsl: seq<W>): (mem: seq<W>)
    requires Slots(|rsl|) && Lawful(ops, |rsl|)
    ensures |mem| == |rsl|
  {
    Ungroup(Seeded(ops, |rsl|, Scrambled(ops, |rsl|, 4), Groups(rsl)))
  }

  lemma {:induction false} UngroupInjective<W>(x: seq<Group<W>>, y: seq<Group<W>>)
    requires Eights(x) && Eights(y) && |x| == |y| && Ungroup(x) == Ungroup(y)
    ensures x == y
  {
    forall j | 0 <= j < |x|
      ensures x[j] == y[j]
    {
      UngroupAt(x, j);
      UngroupAt(y, j);
    }
  }

  lemma GroupsOf<W>(x: seq<W>, k: nat)
    requires |x| % 8 == 0 && k <= |x| / 8
    ensures Ungroup(Groups(x)[..k]) == x[..8 * k]
  {
    if k > 0 {
      GroupsOf(x, k - 1);
      assert Groups(x)[..k][..k - 1] == Groups(x)[..k - 1];
      assert x[..8 * k] == x[..8 * (k - 1)] + x[8 * (k - 1)..8 * k];
    }
  }

  lemma UngroupGroups<W>(x: seq<W>)
    requires |x| % 8 == 0
    ensures Ungroup(Groups(x)) == x
  {
    GroupsOf(x, |x| / 8);
    assert Groups(x)[..|x| / 8] == Groups(x);
    assert x[..8 * (|x| / 8)] == x;
  }

  /** Seeding is injective for every width with lawful arithmetic, given at least 16 slots. */
  lemma SeededMemInjective<W(!new)>(ops: Ops<W>, x: seq<W>, y: seq<W>)
    requires |x| == |y| && Slots(|x|) && |x| >= 16 && Lawful(ops, |x|)
    requires SeededMem(ops, x) == SeededMem(ops, y)
    ensures x == y
  {
    hide Lawful; hide Seeded; hide Ungroup; hide Groups;
    var s := Scrambled(ops, |x|, 4);
    UngroupInjective(Seeded(ops, |x|, s, Groups(x)), Seeded(ops, |x|, s, Groups(y)));
    SeededInjective(ops, |x|, s, Groups(x), Groups(y));
    UngroupGroups(x);
    UngroupGroups(y);
  }

  // ---------------------------------------------------------------- the state after seeding

  /** `randinit` from seed words and a, b, c, up to the first batch. */
  function Primed<W(!new)>(ops: Ops<W>, rsl: seq<W>, a: W, b: W, c: W): (g: Gen<W>)
    requires Slots(|rsl|) && Lawful(ops, |rsl|)
    ensures |g.mem| == |rsl|
  {
    Gen(SeededMem(ops, rsl), a, b, c)
  }

  /** `srand(a, b, c)` */
  function AfterSeedWords<W(!new)>(ops: Ops<W>, n: nat, a: W, b: W, c: W): (g: Gen<W>)
    requires Slots(n) && Lawful(ops, n)
    ensures |g.mem| == n
  {
    Batch(ops, Primed(ops, seq(n, _ => ops.zero), a, b, c))
  }

  /**
   * `srand(data, count)`, `data` being `count` in whole words: what `randrsl` holds after the copy
   * and the clearing, which starts at the front and not behind the copy.
   */
  function Copied<W>(ops: Ops<W>, before: seq<W>, data: seq<W>): (rsl: seq<W>)
    ensures |rsl| == |before|
  {
    var n := |before|;
    var l := if |data| < n then |data| else n;
    seq(n, i requires 0 <= i < n => if i < n - l then ops.zero else if i < l then data[i] else before[i])
  }

  /** The words mixed before `randinit`: randa, randb, randc and the first five of `randrsl`. */
  function FirstMix<W(!new)>(ops: Ops<W>, rsl: seq<W>): (m: Group<W>)
    requires Slots(|rsl|) && Lawful(ops, |rsl|)
    ensures |m| == 8
  {
    ops.mix([rsl[0], rsl[1], rsl[2], rsl[0], rsl[1], rsl[2], rsl[3], rsl[4]])
  }

  /** The buffer after the first mixing has replaced its front. */
  function Mixed<W>(m: Group<W>, rsl: seq<W>): (r: seq<W>)
    requires |m| == 8 && |rsl| >= 8
    ensures |r| == |rsl|
  {
    m[3..] + rsl[5..]
  }

  function AfterSeedData<W(!new)>(ops: Ops<W>, before: seq<W>, data: seq<W>): (g: Gen<W>)
    requires Slots(|before|) && Lawful(ops, |before|)
    ensures |g.mem| == |before|
  {
    var rsl := Copied(ops, before, data);
    var m := FirstMix(ops, rsl);
    Batch(ops, Primed(ops, Mixed(m, rsl), m[0], m[1], m[2]))
  }

  lemma BatchInjective<W(!new)>(ops: Ops<W>, g: Gen<W>, h: Gen<W>)
    requires Slots(|g.mem|) && |g.mem| == |h.mem| && Lawful(ops, |g.mem|) && Stirs(ops)
    requires Batch(ops, g) == Batch(ops, h)
    ensures g == h
  {
    hide Batch; hide Unbatch; hide Lawful; hide Stirs;
    BatchReversible(ops, g);
    BatchReversible(ops, h);
  }

  /** Distinct (a, b, c) give distinct generator states. */
  lemma SeedWordsInjective<W(!new)>(ops: Ops<W>, n: nat, a: W, b: W, c: W, a': W, b': W, c': W)
    requires Slots(n) && Lawful(ops, n) && Stirs(ops)
    requires AfterSeedWords(ops, n, a, b, c) == AfterSeedWords(ops, n, a', b', c')
    ensures a == a' && b == b' && c == c'
  {
    hide Batch; hide Lawful; hide Stirs; hide SeededMem;
    var zeros := seq(n, _ => ops.zero);
    BatchInjective(ops, Primed(ops, zeros, a, b, c), Primed(ops, zeros, a', b', c'));
  }

  lemma MixInjective<W(!new)>(ops: Ops<W>, n: nat, s: Group<W>, t: Group<W>)
    requires Lawful(ops, n) && |s| == 8 && |t| == 8 && ops.mix(s) == ops.mix(t)
    ensures s == t
  {
    assert ops.unmix(ops.mix(s)) == s && ops.unmix(ops.mix(t)) == t;
  }

  /** Distinct full-length seeds give distinct generator states. */
  lemma FullSeedInjective<W(!new)>(ops: Ops<W>, before: seq<W>, x: seq<W>, y: seq<W>)
    requires Slots(|before|) && |before| >= 16 && |x| == |y| == |before| && Lawful(ops, |before|) && Stirs(ops)
    requires AfterSeedData(ops, before, x) == AfterSeedData(ops, before, y)
    ensures x == y
  {
    hide Batch; hide Lawful; hide Stirs; hide SeededMem; hide FirstMix;
    assert Copied(ops, before, x) == x && Copied(ops, before, y) == y;
    var mx, my := FirstMix(ops, x), FirstMix(ops, y);
    BatchInjective(ops, Primed(ops, mx[3..] + x[5..], mx[0], mx[1], mx[2]), Primed(ops, my[3..] + y[5..], my[0], my[1], my[2]));
    SeededMemInjective(ops, mx[3..] + x[5..], my[3..] + y[5..]);
    MixedSeedsSame(ops, x, y);
  }

  lemma MixedSeedsSame<W(!new)>(ops: Ops<W>, x: seq<W>, y: seq<W>)
    requires Slots(|x|) && |x| == |y| && Lawful(ops, |x|)
    requires FirstMix(ops, x)[3..] + x[5..] == FirstMix(ops, y)[3..] + y[5..]
    requires FirstMix(ops, x)[..3] == FirstMix(ops, y)[..3]
    ensures x == y
  {
    var mx, my := FirstMix(ops, x), FirstMix(ops, y);
    assert mx[3..] == (mx[3..] + x[5..])[..5] && my[3..] == (my[3..] + y[5..])[..5];
    assert x[5..] == (mx[3..] + x[5..])[5..] && y[5..] == (my[3..] + y[5..])[5..];
    assert mx == mx[..3] + mx[3..] && my == my[..3] + my[3..];
    var fx := [x[0], x[1], x[2], x[0], x[1], x[2], x[3], x[4]];
    var fy := [y[0], y[1], y[2], y[0], y[1], y[2], y[3], y[4]];
    MixInjective(ops, |x|, fx, fy);
    assert fx[0] == fy[0] && fx[1] == fy[1] && fx[2] == fy[2] && fx[6] == fy[6] && fx[7] == fy[7];
    assert x == x[..5] + x[5..] && y == y[..5] + y[5..];
    assert x[..5] == [x[0], x[1], x[2], x[3], x[4]] && y[..5] == [y[0], y[1], y[2], y[3], y[4]];
  }

  /** Seeding is lawful, and no two seeds of so many words lead to the same state. */
  ghost predicate TellsSeedsApart<W(!new)>(ops: Ops<W>, before: seq<W>, length: nat) {
    Slots(|before|) && Lawful(ops, |before|) &&
    forall x, y :: |x| == |y| == length && AfterSeedData(ops, before, x) == AfterSeedData(ops, before, y) ==> x == y
  }

  /** Seeds of `length` words always give distinct states exactly when they fill the buffer. */
  lemma SeedLengthExactly<W(!new)>(ops: Ops<W>, before: seq<W>, length: nat)
    requires Slots(|before|) && |before| >= 16 && Lawful(ops, |before|) && Stirs(ops)
    requires length >= 1 && ops.zero != ops.one
    ensures TellsSeedsApart(ops, before, length) <==> length == |before|
  {
    hide Lawful; hide Stirs; hide Batch; hide Primed; hide FirstMix;
    if length == |before| {
      forall x, y | |x| == |y| == length && AfterSeedData(ops, before, x) == AfterSeedData(ops, before, y)
        ensures x == y
      {
        FullSeedInjective(ops, before, x, y);
      }
    } else {
      // A word that is cleared, or one beyond the buffer.
      var at := if length < |before| then 0 else |before|;
      var x := seq(length, _ => ops.zero);
      var y := x[at := ops.one];
      assert Copied(ops, before, x) == Copied(ops, before, y);
      assert x[at] != y[at];
    }
  }

  // ---------------------------------------------------------------- the stream of results

  /** What `get` works on besides the generator state. */
  datatype Source<W> = Source(gen: Gen<W>, rsl: seq<W>, cnt: nat)

  /** The full buffer of the first batch from `g`. */
  function FirstSource<W(!new)>(ops: Ops<W>, g: Gen<W>): (s: Source<W>)
    requires Slots(|g.mem|) && Lawful(ops, |g.mem|)
    ensures Ready(ops, |g.mem|, s)
  {
    Source(Batch(ops, g), BatchResults(ops, g), |g.mem|)
  }

  /** What `get` starts from after `srand(a, b, c)`. */
  function SourceOfWords<W(!new)>(ops: Ops<W>, n: nat, a: W, b: W, c: W): (s: Source<W>)
    requires Slots(n) && Lawful(ops, n)
    ensures Ready(ops, n, s) && s.gen == AfterSeedWords(ops, n, a, b, c)
  {
    FirstSource(ops, Primed(ops, seq(n, _ => ops.zero), a, b, c))
  }

  /** What `get` starts from after `srand(data, count)`. */
  function SourceOfData<W(!new)>(ops: Ops<W>, before: seq<W>, data: seq<W>): (s: Source<W>)
    requires Slots(|before|) && Lawful(ops, |before|)
    ensures Ready(ops, |before|, s) && s.gen == AfterSeedData(ops, before, data)
  {
    var rsl := Copied(ops, before, data);
    var m := FirstMix(ops, rsl);
    FirstSource(ops, Primed(ops, Mixed(m, rsl), m[0], m[1], m[2]))
  }

  ghost predicate Ready<W(!new)>(ops: Ops<W>, n: nat, s: Source<W>) {
    Slots(n) && Lawful(ops, n) && |s.gen.mem| == n && |s.rsl| == n && s.cnt <= n
  }

  /** `get`: refill when the buffer is used up, then take the last unused word. */
  function Refilled<W(!new)>(ops: Ops<W>, n: nat, s: Source<W>): (t: Source<W>)
    requires Ready(ops, n, s)
    ensures Ready(ops, n, t) && t.cnt > 0
  {
    if s.cnt == 0 then Source(Batch(ops, s.gen), BatchResults(ops, s.gen), n) else s
  }

  function GetNext<W(!new)>(ops: Ops<W>, n: nat, s: Source<W>): (t: Source<W>)
    requires Ready(ops, n, s)
    ensures Ready(ops, n, t)
  {
    var r := Refilled(ops, n, s);
    r.(cnt := r.cnt - 1)
  }

  function GetValue<W(!new)>(ops: Ops<W>, n: nat, s: Source<W>): W
    requires Ready(ops, n, s)
  {
    var r := Refilled(ops, n, s);
    r.rsl[r.cnt - 1]
  }

  /** The source after `k` calls of `get`. */
  function AfterGets<W(!new)>(ops: Ops<W>, n: nat, s: Source<W>, k: nat): (t: Source<W>)
    requires Ready(ops, n, s)
    ensures Ready(ops, n, t)
  {
    if k == 0 then s else GetNext(ops, n, AfterGets(ops, n, s, k - 1))
  }

  /** The generator state and the results of batch `q`, counting the one in the buffer as batch 0. */
  function BatchAt<W(!new)>(ops: Ops<W>, n: nat, s: Source<W>, q: nat): (t: Source<W>)
    requires Ready(ops, n, s) && s.cnt == n
    ensures Ready(ops, n, t) && t.cnt == n
  {
    if q == 0 then s
    else var p := BatchAt(ops, n, s, q - 1); Source(Batch(ops, p.gen), BatchResults(ops, p.gen), n)
  }

  /** The number of calls that make `q` whole batches and `r` further calls. */
  function Calls(n: nat, q: nat, r: nat): nat {
    q * n + r
  }

  lemma CallsStep(n: nat, q: nat, r: nat)
    ensures r > 0 ==> Calls(n, q, r) == Calls(n, q, r - 1) + 1
    ensures q > 0 ==> Calls(n, q, 0) == Calls(n, q - 1, n)
    ensures Calls(n, 0, 0) == 0
  {
    if q > 0 {
      assert (q - 1) * n + n == q * n;
    }
  }

  lemma OneMoreGet<W(!new)>(ops: Ops<W>, n: nat, s: Source<W>, q: nat, r: nat)
    requires Ready(ops, n, s)
    ensures AfterGets(ops, n, s, Calls(n, 0, 0)) == s
    ensures r > 0 ==> AfterGets(ops, n, s, Calls(n, q, r)) == GetNext(ops, n, AfterGets(ops, n, s, Calls(n, q, r - 1)))
  {
    hide Lawful; hide Slots; hide GetNext; hide Calls; hide AfterGets;
    CallsStep(n, 0, 0);
    OneGet(ops, n, s, 0);
    if r > 0 {
      CallsStep(n, q, r);
      OneGet(ops, n, s, Calls(n, q, r - 1));
    }
  }

  lemma OneGet<W(!new)>(ops: Ops<W>, n: nat, s: Source<W>, k: nat)
    requires Ready(ops, n, s)
    ensures AfterGets(ops, n, s, 0) == s && AfterGets(ops, n, s, k + 1) == GetNext(ops, n, AfterGets(ops, n, s, k))
  {
    hide Ready; hide GetNext;
  }

  /** What `get` does at the start of a batch and inside one. */
  lemma GetInBatch<W(!new)>(ops: Ops<W>, n: nat, s: Source<W>, q: nat, r: nat)
    requires Ready(ops, n, s) && s.cnt == n && r < n
    ensures var at := BatchAt(ops, n, s, q);
            && GetNext(ops, n, at.(cnt := n - r)) == at.(cnt := n - r - 1)
            && GetValue(ops, n, at.(cnt := n - r)) == at.rsl[n - 1 - r]
            && (q > 0 ==> GetNext(ops, n, BatchAt(ops, n, s, q - 1).(cnt := 0)) == at.(cnt := n - 1)
                          && GetValue(ops, n, BatchAt(ops, n, s, q - 1).(cnt := 0)) == at.rsl[n - 1])
  {
    hide Lawful; hide Slots; hide Batch; hide BatchResults;
  }

  /** After q whole batches and r further calls, r words of batch q have been taken from its end. */
  lemma {:induction false} BufferPosition<W(!new)>(ops: Ops<W>, n: nat, s: Source<W>, q: nat, r: nat)
    requires Ready(ops, n, s) && s.cnt == n && 0 < r <= n
    ensures AfterGets(ops, n, s, Calls(n, q, r)) == BatchAt(ops, n, s, q).(cnt := n - r)
    decreases q, r
  {
    hide Lawful; hide Slots; hide Calls; hide AfterGets; hide GetNext; hide BatchAt;
    FirstBatch(ops, n, s);
    OneMoreGet(ops, n, s, q, r);
    GetInBatch(ops, n, s, q, r - 1);
    if r > 1 {
      BufferPosition(ops, n, s, q, r - 1);
    } else if q > 0 {
      CallsStep(n, q, 0);
      BufferPosition(ops, n, s, q - 1, n);
    }
  }

  /** Call number q * n + r after seeding returns slot n - 1 - r of batch q. */
  lemma NthGet<W(!new)>(ops: Ops<W>, n: nat, s: Source<W>, q: nat, r: nat)
    requires Ready(ops, n, s) && s.cnt == n && r < n
    ensures GetValue(ops, n, AfterGets(ops, n, s, Calls(n, q, r))) == BatchAt(ops, n, s, q).rsl[n - 1 - r]
  {
    hide Lawful; hide Slots; hide Calls; hide AfterGets; hide GetValue; hide GetNext; hide BatchAt;
    Standing(ops, n, s, q, r);
    GetInBatch(ops, n, s, q, r);
  }

  /** The source before that call: inside batch q, or at the end of the one before. */
  lemma Standing<W(!new)>(ops: Ops<W>, n: nat, s: Source<W>, q: nat, r: nat)
    requires Ready(ops, n, s) && s.cnt == n && r < n
    ensures AfterGets(ops, n, s, Calls(n, q, r)) ==
              if q > 0 && r == 0 then BatchAt(ops, n, s, q - 1).(cnt := 0) else BatchAt(ops, n, s, q).(cnt := n - r)
  {
    hide Lawful; hide Slots; hide Calls; hide AfterGets; hide GetNext; hide BatchAt;
    if r > 0 {
      BufferPosition(ops, n, s, q, r);
    } else if q > 0 {
      CallsStep(n, q, 0);
      BufferPosition(ops, n, s, q - 1, n);
    } else {
      OneMoreGet(ops, n, s, 0, 0);
      FirstBatch(ops, n, s);
    }
  }

  lemma FirstBatch<W(!new)>(ops: Ops<W>, n: nat, s: Source<W>)
    requires Ready(ops, n, s) && s.cnt == n
    ensures BatchAt(ops, n, s, 0).(cnt := n) == s
  {
  }

  lemma MixLength<W(!new)>(ops: Ops<W>, n: nat, s: Group<W>)
    requires Lawful(ops, n) && |s| == 8
    ensures |ops.mix(s)| == 8
  {
  }

  method WriteGroup<W>(mem: array<W>, i: nat, s: Group<W>)
    requires |s| == 8 && i + 8 <= mem.Length
    modifies mem
    ensures mem[..] == old(mem[..i]) + s + old(mem[i + 8..])
  {
    ghost var before := mem[..];
    mem[i], mem[i + 1], mem[i + 2], mem[i + 3] := s[0], s[1], s[2], s[3];
    mem[i + 4], mem[i + 5], mem[i + 6], mem[i + 7] := s[4], s[5], s[6], s[7];
    assert mem[..i] == before[..i] && mem[i + 8..] == before[i + 8..];
    assert mem[i..i + 8] == s;
    assert mem[..] == mem[..i] + mem[i..i + 8] + mem[i + 8..];
  }

  /** Where a round of four lines begins. */
  predicate Quad(m: nat) {
    m % 4 == 0
  }

  lemma HalfIsQuad(n: nat)
    requires Slots(n)
    ensures Quad(n / 2) && Quad(n / 2 + n / 2) && Quad(0)
  {
    var k := n / 8;
    assert n == 8 * k;
    assert n / 2 == 4 * k && n / 2 + n / 2 == 4 * (2 * k);
  }

  lemma QuadLines(m: nat)
    requires Quad(m)
    ensures m % 4 == 0 && (m + 1) % 4 == 1 && (m + 2) % 4 == 2 && (m + 3) % 4 == 3
  {
  }

  lemma NextQuad(m: nat, end: nat)
    requires Quad(m) && Quad(end) && m < end
    ensures Quad(m + 4) && m + 4 <= end
  {
  }

  class Rand<W(!new)> {
    const ops: Ops<W>
    const n: nat
    var randrsl: array<W>
    var randmem: array<W>
    var randa: W
    var randb: W
    var randc: W
    var randcnt: nat

    ghost predicate Valid()
      reads this`randrsl, this`randmem, this`randcnt
    {
      && Slots(n) && Lawful(ops, n)
      && randrsl.Length == n && randmem.Length == n && randrsl != randmem
      && randcnt <= n
    }

    ghost function Value(): Gen<W>
      reads this`randmem, randmem, this`randa, this`randb, this`randc
    {
      Gen(randmem[..], randa, randb, randc)
    }

    constructor (ops: Ops<W>, n: nat)
      requires Slots(n) && Lawful(ops, n)
      ensures Valid() && fresh(randrsl) && fresh(randmem)
    {
      this.ops, this.n := ops, n;
      randrsl := new W[n](_ => ops.zero);
      randmem := new W[n](_ => ops.zero);
      randa, randb, randc, randcnt := ops.zero, ops.zero, ops.zero, 0;
    }

    /** One line of a batch: `m` and `r` stand on the same slot, `m2` on its partner. */
    method RngStep(k: nat, m: nat, m2: nat, a0: W, b0: W) returns (a: W, b: W)
      requires Valid() && m < n && m2 == Partner(m, n) && k == m % 4
      modifies randmem, randrsl
      ensures Core(randmem[..], a, b) == Step(ops, old(Core(randmem[..], a0, b0)), m)
      ensures randrsl[..] == old(randrsl[..])[m := b]
    {
      var x := randmem[m];
      a := ops.plus(ops.stir(k, a0), randmem[m2]);
      var y := ops.plus(ops.plus(randmem[ops.slot(x)], a), b0);
      randmem[m] := y;
      b := ops.plus(randmem[ops.highSlot(y)], x);
      randrsl[m] := b;
      assert randmem[..] == old(randmem[..])[m := y];
    }

    /** `m2` and the three slots after it are the partners of `m` and the three after that. */
    ghost predicate Paired(m: nat, m2: nat) {
      && m + 4 <= n
      && Partner(m, n) == m2 && Partner(m + 1, n) == m2 + 1 && Partner(m + 2, n) == m2 + 2 && Partner(m + 3, n) == m2 + 3
    }

    lemma HalfApart(m: nat)
      requires Slots(n) && Quad(m) && m < n
      ensures m < n / 2 ==> Paired(m, m + n / 2)
      ensures m >= n / 2 ==> Paired(m, m - n / 2)
    {
      assert n / 2 % 4 == 0;
    }

    /** One line of the loop body, as a step of the recurrence from `s`. */
    method NextLine(k: nat, m: nat, m2: nat, a0: W, b0: W, ghost s: Core<W>) returns (a: W, b: W)
      requires Valid() && m < n && m2 == Partner(m, n) && k == m % 4 && |s.mm| == n
      requires Core(randmem[..], a0, b0) == Steps(ops, s, m) && randrsl[..m] == Results(ops, s, m)
      modifies randmem, randrsl
      ensures Core(randmem[..], a, b) == Steps(ops, s, m + 1) && randrsl[..m + 1] == Results(ops, s, m + 1)
    {
      hide Step; hide Lawful; hide Partner;
      a, b := RngStep(k, m, m2, a0, b0);
      assert randrsl[..m + 1] == randrsl[..m] + [b];
    }

    /** Four lines in a row, as the body of both loops of `isaac`. */
    method FourSteps(m: nat, m2: nat, a0: W, b0: W, ghost s: Core<W>) returns (a: W, b: W)
      requires Valid() && Quad(m) && m + 4 <= n && |s.mm| == n
      requires Paired(m, m2)
      requires Core(randmem[..], a0, b0) == Steps(ops, s, m) && randrsl[..m] == Results(ops, s, m)
      modifies randmem, randrsl
      ensures Core(randmem[..], a, b) == Steps(ops, s, m + 4) && randrsl[..m + 4] == Results(ops, s, m + 4)
    {
      hide Step; hide Lawful; hide Partner; hide Steps; hide Results; hide Quad;
      QuadLines(m);
      a, b := NextLine(0, m, m2, a0, b0, s);
      a, b := NextLine(1, m + 1, m2 + 1, a, b, s);
      a, b := NextLine(2, m + 2, m2 + 2, a, b, s);
      a, b := NextLine(3, m + 3, m2 + 3, a, b, s);
    }

    /** One of the two loops of `isaac`: `count` slots from `from`, partners from `from2`. */
    method Half(from: nat, from2: nat, a0: W, b0: W, ghost s: Core<W>) returns (a: W, b: W)
      requires Valid() && |s.mm| == n && ((from == 0 && from2 == n / 2) || (from == n / 2 && from2 == 0))
      requires Core(randmem[..], a0, b0) == Steps(ops, s, from) && randrsl[..from] == Results(ops, s, from)
      modifies randmem, randrsl
      ensures Core(randmem[..], a, b) == Steps(ops, s, from + n / 2)
      ensures randrsl[..from + n / 2] == Results(ops, s, from + n / 2)
    {
      hide Step; hide Lawful; hide Partner; hide Steps; hide Results; hide Paired; hide Quad;
      a, b := a0, b0;
      var m, m2 := from, from2;
      var half := n / 2;
      HalfIsQuad(n);
      while m < from + half
        invariant from <= m <= from + half && Quad(m) && m - from == m2 - from2
        invariant Core(randmem[..], a, b) == Steps(ops, s, m) && randrsl[..m] == Results(ops, s, m)
      {
        HalfApart(m);
        NextQuad(m, from + half);
        a, b := FourSteps(m, m2, a, b, s);
        m, m2 := m + 4, m2 + 4;
      }
    }

    /** Both loops: all slots in order. */
    method BothHalves(a0: W, b0: W, ghost s: Core<W>) returns (a: W, b: W)
      requires Valid() && |s.mm| == n && Core(randmem[..], a0, b0) == s
      modifies randmem, randrsl
      ensures Core(randmem[..], a, b) == Steps(ops, s, n) && randrsl[..] == Results(ops, s, n)
    {
      hide Step; hide Lawful; hide Partner; hide Steps; hide Results;
      StartSteps(s);
      var half := HalfOf(n);
      a, b := Half(0, half, a0, b0, s);
      a, b := Half(half, 0, a, b, s);
      assert randrsl[..n] == randrsl[..];
    }

    lemma StartSteps(s: Core<W>)
      requires Slots(|s.mm|) && Lawful(ops, |s.mm|)
      ensures Steps(ops, s, 0) == s && Results(ops, s, 0) == []
    {
    }

    /** `isaac`: the two pointer loops compute the single indexed recurrence. */
    method Isaac()
      requires Valid()
      modifies randmem, randrsl, this`randa, this`randb, this`randc
      ensures Value() == Batch(ops, old(Value())) && randrsl[..] == BatchResults(ops, old(Value()))
    {
      hide Step; hide Lawful; hide Partner; hide Steps; hide Results;
      ghost var s := Entering(ops, Value());
      randc := ops.plus(randc, ops.one);
      var a, b := randa, ops.plus(randb, randc);
      a, b := BothHalves(a, b, s);
      randb := b;
      randa := a;
    }

    /** One group of a pass: take in eight words, mix, write eight words. */
    method PassGroup(src: array<W>, i: nat, s0: Group<W>) returns (s: Group<W>)
      requires Valid() && src.Length == n && i + 8 <= n && |s0| == 8
      modifies randmem
      ensures |s| == 8 && s == ops.mix(AddWords(ops, s0, old(src[i..i + 8])))
      ensures randmem[..] == old(randmem[..i]) + s + old(randmem[i + 8..])
    {
      hide Lawful; hide AddWords;
      var t := AddWords(ops, s0, src[i..i + 8]);
      MixLength(ops, n, t);
      s := ops.mix(t);
      WriteGroup(randmem, i, s);
    }

    /** What a pass over `d` has reached after `k` groups. */
    ghost predicate PassAt(src: array<W>, s0: Group<W>, d: seq<Group<W>>, s: Group<W>, k: nat)
      requires Valid() && |s0| == 8 && Eights(d)
      reads this`randrsl, this`randmem, this`randcnt, randmem, src
    {
      && src.Length == n && |d| == n / 8 && k <= |d|
      && s == PassWords(ops, n, s0, d, k)
      && randmem[..8 * k] == Ungroup(Written(ops, n, s0, d, k))
      && src[8 * k..] == Ungroup(d)[8 * k..]
    }

    /** One group of a pass: take in eight words, mix, write eight words. */
    method NextGroup(src: array<W>, ghost s0: Group<W>, ghost d: seq<Group<W>>, s: Group<W>, k: nat) returns (t: Group<W>)
      requires Valid() && |s0| == 8 && Eights(d) && PassAt(src, s0, d, s, k) && k < |d|
      modifies randmem
      ensures PassAt(src, s0, d, t, k + 1)
    {
      hide Lawful; hide PassWords; hide Ungroup; hide AddWords; hide Slots;
      NextInSource(src[..], d, k);
      assert src[8 * k..] == src[..][8 * k..] && src[8 * k..8 * k + 8] == src[..][8 * k..8 * k + 8];
      NextWords(s0, d, k);
      ghost var before := Written(ops, n, s0, d, k);
      hide Written;
      t := PassGroup(src, 8 * k, s);
      UngroupMore(before, t);
      assert randmem[..8 * k + 8] == Ungroup(before) + t;
      assert src[8 * k + 8..] == old(src[..][8 * k + 8..]);
    }

    lemma NextWords(s0: Group<W>, d: seq<Group<W>>, k: nat)
      requires Lawful(ops, n) && |s0| == 8 && Eights(d) && k < |d|
      ensures PassWords(ops, n, s0, d, k + 1) == ops.mix(AddWords(ops, PassWords(ops, n, s0, d, k), d[k]))
      ensures Written(ops, n, s0, d, k + 1) == Written(ops, n, s0, d, k) + [PassWords(ops, n, s0, d, k + 1)]
    {
    }

    /** A pass over `src`, which may be the very array that is written. */
    method Pass(src: array<W>, s0: Group<W>, ghost d: seq<Group<W>>) returns (s: Group<W>)
      requires Valid() && src.Length == n && |s0| == 8
      requires |d| == n / 8 && Eights(d) && src[..] == Ungroup(d)
      modifies randmem
      ensures |s| == 8 && s == PassWords(ops, n, s0, d, n / 8)
      ensures randmem[..] == Ungroup(PassOut(ops, n, s0, d))
    {
      hide Lawful; hide Ungroup;
      s := s0;
      var k := 0;
      assert Ungroup(Written(ops, n, s0, d, 0)) == [];
      while 8 * k < n
        invariant k <= |d| && PassAt(src, s0, d, s, k)
      {
        s := NextGroup(src, s0, d, s, k);
        k := k + 1;
      }
      assert randmem[..8 * k] == randmem[..];
    }

    ghost function Now(): Source<W>
      reads this, randmem, randrsl
    {
      Source(Value(), randrsl[..], randcnt)
    }

    /** `randinit` with a seed in `randrsl`. */
    method RandInit()
      requires Valid()
      modifies randmem, randrsl, this`randa, this`randb, this`randc, this`randcnt
      ensures Valid()
      ensures Now() == FirstSource(ops, Primed(ops, old(randrsl[..]), old(randa), old(randb), old(randc)))
    {
      hide Lawful; hide Batch; hide BatchResults; hide PassWords;
      var s := seq(8, _ => ops.golden);
      s := ops.mix(s);
      s := ops.mix(s);
      s := ops.mix(s);
      s := ops.mix(s);
      FourRounds();
      ghost var d := Groups(randrsl[..]);
      UngroupGroups(randrsl[..]);
      s := Pass(randrsl, s, d);
      s := Pass(randmem, s, PassOut(ops, n, Scrambled(ops, n, 4), d));
      Isaac();
      randcnt := n;
    }

    lemma FourRounds()
      requires Lawful(ops, n)
      ensures Scrambled(ops, n, 4) == ops.mix(ops.mix(ops.mix(ops.mix(seq(8, _ => ops.golden)))))
    {
      assert Scrambled(ops, n, 1) == ops.mix(Scrambled(ops, n, 0));
      assert Scrambled(ops, n, 2) == ops.mix(Scrambled(ops, n, 1));
      assert Scrambled(ops, n, 3) == ops.mix(Scrambled(ops, n, 2));
    }

    method SrandWords(a: W, b: W, c: W)
      requires Valid()
      modifies randmem, randrsl, this`randa, this`randb, this`randc, this`randcnt
      ensures Valid() && Now() == SourceOfWords(ops, n, a, b, c)
    {
      hide Lawful; hide Batch; hide BatchResults; hide Primed;
      forall i | 0 <= i < n {
        randrsl[i] := ops.zero;
      }
      assert randrsl[..] == seq(n, _ => ops.zero);
      randa, randb, randc := a, b, c;
      RandInit();
    }

    /** The seed data in whole words; what is not copied over keeps its old contents or is cleared. */
    method SrandData(data: seq<W>)
      requires Valid()
      modifies randmem, randrsl, this`randa, this`randb, this`randc, this`randcnt
      ensures Valid() && Now() == SourceOfData(ops, old(randrsl[..]), data)
    {
      hide Lawful; hide Batch; hide BatchResults; hide Primed;
      ghost var before := randrsl[..];
      var l := if |data| < n then |data| else n;
      forall i | 0 <= i < l {
        randrsl[i] := data[i];
      }
      forall i | 0 <= i < n - l {
        randrsl[i] := ops.zero;
      }
      assert randrsl[..] == Copied(ops, before, data);
      ghost var rsl := randrsl[..];
      var m := ops.mix([randrsl[0], randrsl[1], randrsl[2], randrsl[0], randrsl[1], randrsl[2], randrsl[3], randrsl[4]]);
      assert m == FirstMix(ops, rsl);
      randa, randb, randc := m[0], m[1], m[2];
      randrsl[0], randrsl[1], randrsl[2], randrsl[3], randrsl[4] := m[3], m[4], m[5], m[6], m[7];
      assert randrsl[..] == m[3..] + rsl[5..];
      RandInit();
    }

    method Get() returns (value: W)
      requires Valid()
      modifies randmem, randrsl, this`randa, this`randb, this`randc, this`randcnt
      ensures Valid() && Ready(ops, n, old(Now()))
      ensures Now() == GetNext(ops, n, old(Now())) && value == GetValue(ops, n, old(Now()))
    {
      hide Lawful; hide Batch; hide BatchResults;
      if randcnt == 0 {
        Isaac();
        randcnt := n;
      }
      randcnt := randcnt - 1;
      value := randrsl[randcnt];
    }
  }
}
