/**
 * The cdc512 digest: eight words chained over 64-byte chunks, the last one padded with zeros.
 * Words are little-endian in memory, as on the machines the program is built for.
 */
module Cdc512 {
  import opened Common
  import opened Mixing
  import opened Shuffles

  const CHUNK: nat := 64
  const TWO64: nat := 0x1_0000_0000_0000_0000

  // ---------------------------------------------------------------- words and bytes

  /** The shift-and-mask byte swap (`cbe64toh`, `vbe64toh`, `chtobe64`, `vhtobe64`). */
  function Swap64(x: bv64): bv64 {
    var x := (x << 32) | (x >> 32);
    var x := ((x & 0x0000ffff0000ffff) << 16) | ((x >> 16) & 0x0000ffff0000ffff);
    ((x & 0x00ff00ff00ff00ff) << 8) | ((x >> 8) & 0x00ff00ff00ff00ff)
  }

  /** The 32-bit swap, which combines its halves with `^`. */
  function Swap32(x: bv32): bv32 {
    var x := (x << 16) ^ (x >> 16);
    ((x & 0x00ff00ff) << 8) ^ ((x >> 8) & 0x00ff00ff)
  }

  /** Byte `k` of a word, the least significant one first. */
  function Byte(x: bv64, k: nat): bv8
    requires k < 8
  {
    (match k
     case 0 => x & 0xff
     case 1 => (x >> 8) & 0xff
     case 2 => (x >> 16) & 0xff
     case 3 => (x >> 24) & 0xff
     case 4 => (x >> 32) & 0xff
     case 5 => (x >> 40) & 0xff
     case 6 => (x >> 48) & 0xff
     case 7 => (x >> 56) & 0xff) as bv8
  }

  /** The bytes of a word as it lies in memory. */
  function Store(x: bv64): (b: Bytes)
    ensures |b| == 8
  {
    [Byte(x, 0), Byte(x, 1), Byte(x, 2), Byte(x, 3), Byte(x, 4), Byte(x, 5), Byte(x, 6), Byte(x, 7)]
  }

  function Load(b: Bytes): bv64
    requires |b| == 8
  {
    (b[0] as bv64) | ((b[1] as bv64) << 8) | ((b[2] as bv64) << 16) | ((b[3] as bv64) << 24) |
    ((b[4] as bv64) << 32) | ((b[5] as bv64) << 40) | ((b[6] as bv64) << 48) | ((b[7] as bv64) << 56)
  }

  lemma LoadStore(x: bv64)
    ensures Load(Store(x)) == x
  {
  }

  lemma StoreLoad(b: Bytes)
    requires |b| == 8
    ensures Store(Load(b)) == b
  {
  }

  lemma SwapTwice(x: bv64)
    ensures Swap64(Swap64(x)) == x
  {
  }

  lemma SwapTwice32(x: bv32)
    ensures Swap32(Swap32(x)) == x
    ensures Swap32(x) == (x << 24) | ((x & 0xff00) << 8) | ((x >> 8) & 0xff00) | (x >> 24)
  {
  }

  /** Swapping a word reverses its bytes. */
  lemma SwapReverses(x: bv64, k: nat)
    requires k < 8
    ensures Byte(Swap64(x), k) == Byte(x, 7 - k)
  {
    match k
    case 0 => assert Byte(Swap64(x), 0) == Byte(x, 7);
    case 1 => assert Byte(Swap64(x), 1) == Byte(x, 6);
    case 2 => assert Byte(Swap64(x), 2) == Byte(x, 5);
    case 3 => assert Byte(Swap64(x), 3) == Byte(x, 4);
    case 4 => assert Byte(Swap64(x), 4) == Byte(x, 3);
    case 5 => assert Byte(Swap64(x), 5) == Byte(x, 2);
    case 6 => assert Byte(Swap64(x), 6) == Byte(x, 1);
    case 7 => assert Byte(Swap64(x), 7) == Byte(x, 0);
  }

  function LoadWords(chunk: Bytes): Words
    requires |chunk| == CHUNK
  {
    seq(8, i requires 0 <= i < 8 => Load(chunk[8 * i..8 * i + 8]))
  }

  // ---------------------------------------------------------------- the chaining state

  /** `init()` */
  function InitWords(): Words {
    [Swap64(0xA640524A5B44F1FC), Swap64(0xC535059705F0BB7E), Swap64(0xC8ED76CF6B6EA626), Swap64(0x531D1E8E254EA59E),
     Swap64(0x8C0FE7F3E46E2A80), Swap64(0x1C53F41FD1E3A7F8), Swap64(0x08D4DEAAA1C33335), Swap64(0x4C592980FBE9B011)]
  }

  /** One chunk: `shuffle(v); shuffle();` */
  function Absorb(s: Words, v: Words): Words {
    Mix(MixWith(s, v, 8), 8)
  }

  function Unabsorb(s: Words, v: Words): Words {
    UnmixWith(Unmix(s, 8), v, 8)
  }

  /** `update()`: whole chunks, then what remains padded with zeros. */
  function AbsorbAll(s: Words, data: Bytes): Words
    decreases |data|
  {
    if data == [] then s
    else if |data| < CHUNK then Absorb(s, LoadWords(data + Zeros(CHUNK - |data|)))
    else AbsorbAll(Absorb(s, LoadWords(data[..CHUNK])), data[CHUNK..])
  }

  /** The state from which `data` leads to `s`. */
  function UnabsorbAll(s: Words, data: Bytes): Words
    decreases |data|
  {
    if data == [] then s
    else if |data| < CHUNK then Unabsorb(s, LoadWords(data + Zeros(CHUNK - |data|)))
    else Unabsorb(UnabsorbAll(s, data[CHUNK..]), LoadWords(data[..CHUNK]))
  }

  lemma AbsorbReversible(s: Words, v: Words)
    ensures Unabsorb(Absorb(s, v), v) == s && Absorb(Unabsorb(s, v), v) == s
  {
    hide Mix; hide Unmix; hide MixWith; hide UnmixWith;
    MixWithReversible(s, v, 8);
    MixReversible(MixWith(s, v, 8), 8);
    MixReversible(s, 8);
    MixWithReversible(Unmix(s, 8), v, 8);
  }

  /** For any input, `update` is a bijection on the eight words. */
  lemma {:induction false} UpdateReversible(s: Words, data: Bytes)
    ensures UnabsorbAll(AbsorbAll(s, data), data) == s
    ensures AbsorbAll(UnabsorbAll(s, data), data) == s
    decreases |data|
  {
    hide Absorb; hide Unabsorb; hide LoadWords;
    if data == [] {
    } else if |data| < CHUNK {
      AbsorbReversible(s, LoadWords(data + Zeros(CHUNK - |data|)));
    } else {
      var v := LoadWords(data[..CHUNK]);
      AbsorbReversible(s, v);
      UpdateReversible(Absorb(s, v), data[CHUNK..]);
      UpdateReversible(s, data[CHUNK..]);
      AbsorbReversible(UnabsorbAll(s, data[CHUNK..]), v);
    }
  }

  /** Absorbing can be split after any whole number of chunks. */
  lemma {:induction false} AbsorbSplit(s: Words, x: Bytes, y: Bytes)
    requires |x| % CHUNK == 0
    ensures AbsorbAll(s, x + y) == AbsorbAll(AbsorbAll(s, x), y)
    decreases |x|
  {
    hide Absorb; hide LoadWords;
    if x == [] {
      assert x + y == y;
    } else {
      assert |x| >= CHUNK;
      assert (x + y)[..CHUNK] == x[..CHUNK] && (x + y)[CHUNK..] == x[CHUNK..] + y;
      AbsorbSplit(Absorb(s, LoadWords(x[..CHUNK])), x[CHUNK..], y);
    }
  }

  /** How many zeros complete the last chunk. */
  function Missing(n: nat): (m: nat)
    ensures m < CHUNK && (n + m) % CHUNK == 0
  {
    var r := n % CHUNK;
    assert n == CHUNK * (n / CHUNK) + r;
    if r == 0 then 0 else assert n + (CHUNK - r) == CHUNK * (n / CHUNK + 1); CHUNK - r
  }

  /** A ragged tail changes the words exactly as its zero-padded form does. */
  lemma {:induction false} TailIsPadded(s: Words, data: Bytes)
    ensures AbsorbAll(s, data) == AbsorbAll(s, data + Zeros(Missing(|data|)))
    decreases |data|
  {
    hide Absorb; hide LoadWords;
    if data == [] {
      assert data + Zeros(0) == data;
    } else if |data| < CHUNK {
      var padded := data + Zeros(CHUNK - |data|);
      assert padded[..CHUNK] == padded && padded[CHUNK..] == [];
    } else {
      PaddedRest(data);
      TailIsPadded(Absorb(s, LoadWords(data[..CHUNK])), data[CHUNK..]);
    }
  }

  lemma PaddedRest(data: Bytes)
    requires |data| >= CHUNK
    ensures var padded := data + Zeros(Missing(|data|));
            padded[..CHUNK] == data[..CHUNK] && padded[CHUNK..] == data[CHUNK..] + Zeros(Missing(|data[CHUNK..]|))
  {
    assert Missing(|data|) == Missing(|data| - CHUNK);
  }

  // ---------------------------------------------------------------- a digest

  /** The eight words and the number of bytes taken in, modulo 2^64. */
  datatype State = State(words: Words, p: nat)

  const START: State := State(InitWords(), 0)

  function Updated(st: State, data: Bytes): State {
    State(AbsorbAll(st.words, data), (st.p + |data|) % TWO64)
  }

  /** `pad` of `finish()`: the byte count eight times over. */
  function CountWords(p: nat): Words
    requires p < TWO64
  {
    seq(8, _ => p as bv64)
  }

  /** The counts are the values of a 64-bit word, no more and no fewer. */
  lemma EveryCount(c: bv64)
    ensures c as nat < TWO64 && CountWords(c as nat) == [c, c, c, c, c, c, c, c]
  {
    assert (c as nat) as bv64 == c;
  }

  /** The words after `finish()` has mixed in the byte count. */
  function Finished(st: State): Words
    requires st.p < TWO64
  {
    if st.p != 0 then Absorb(st.words, CountWords(st.p)) else st.words
  }

  /** The digest as it lies in memory: each word swapped, then stored. */
  function DigestOf(words: Words): (d: Bytes)
    ensures |d| == 64
  {
    Store(Swap64(words[0])) + Store(Swap64(words[1])) + Store(Swap64(words[2])) + Store(Swap64(words[3])) +
    Store(Swap64(words[4])) + Store(Swap64(words[5])) + Store(Swap64(words[6])) + Store(Swap64(words[7]))
  }

  function Digest(data: Bytes): Bytes {
    DigestOf(Finished(Updated(START, data)))
  }

  function Concat(pieces: seq<Bytes>): Bytes
    decreases |pieces|
  {
    if pieces == [] then [] else pieces[0] + Concat(pieces[1..])
  }

  function Feed(st: State, pieces: seq<Bytes>): (r: State)
    ensures st.p < TWO64 ==> r.p < TWO64
    decreases |pieces|
  {
    if pieces == [] then st else Feed(Updated(st, pieces[0]), pieces[1..])
  }

  /** Every piece but the last is a whole number of chunks. */
  predicate WholeChunks(pieces: seq<Bytes>) {
    forall i :: 0 <= i < |pieces| - 1 ==> |pieces[i]| % CHUNK == 0
  }

  /** Feeding the pieces is feeding their concatenation, words and byte count alike. */
  lemma {:induction false} SplitIndependent(st: State, pieces: seq<Bytes>)
    requires WholeChunks(pieces) && st.p < TWO64
    ensures Feed(st, pieces) == Updated(st, Concat(pieces))
    decreases |pieces|
  {
    hide Absorb; hide AbsorbAll;
    if pieces == [] {
      NothingAbsorbed(st.words);
    } else if |pieces| == 1 {
      assert pieces[0] + Concat(pieces[1..]) == pieces[0];
    } else {
      var rest := Concat(pieces[1..]);
      SplitIndependent(Updated(st, pieces[0]), pieces[1..]);
      AbsorbSplit(st.words, pieces[0], rest);
      CountSplit(st.p, |pieces[0]|, |rest|);
    }
  }

  lemma CountSplit(p: nat, a: nat, b: nat)
    ensures ((p + a) % TWO64 + b) % TWO64 == (p + (a + b)) % TWO64
  {
  }

  lemma NothingAbsorbed(s: Words)
    ensures AbsorbAll(s, []) == s
  {
  }

  /** Word `i` of the digest is in big-endian order. */
  lemma DigestIsBigEndian(words: Words, i: nat, k: nat)
    requires i < 8 && k < 8
    ensures DigestOf(words)[8 * i + k] == Byte(words[i], 7 - k)
  {
    hide Swap64; hide Byte; hide DigestOf;
    SwapReverses(words[i], k);
    StoredAt(words, i);
    assert DigestOf(words)[8 * i..8 * i + 8][k] == DigestOf(words)[8 * i + k];
  }

  lemma StoredAt(words: Words, i: nat)
    requires i < 8
    ensures DigestOf(words)[8 * i..8 * i + 8] == Store(Swap64(words[i]))
  {
    hide Swap64; hide Store;
  }

  lemma DigestInjective(v: Words, w: Words)
    requires DigestOf(v) == DigestOf(w)
    ensures v == w
  {
    hide Swap64; hide Store; hide Load; hide DigestOf;
    forall i | 0 <= i < 8
      ensures v[i] == w[i]
    {
      StoredAt(v, i);
      StoredAt(w, i);
      LoadStore(Swap64(v[i]));
      LoadStore(Swap64(w[i]));
      SwapTwice(v[i]);
      SwapTwice(w[i]);
    }
  }

  lemma FinishedInjective(p: nat, v: Words, w: Words)
    requires p < TWO64 && Finished(State(v, p)) == Finished(State(w, p))
    ensures v == w
  {
    hide Absorb; hide Unabsorb; hide CountWords;
    if p != 0 {
      AbsorbReversible(v, CountWords(p));
      AbsorbReversible(w, CountWords(p));
    }
  }

  /** Streams of one length have the same digest exactly when they lead to the same words. */
  lemma DigestTellsWords(x: Bytes, y: Bytes)
    requires |x| == |y|
    ensures Digest(x) == Digest(y) <==> AbsorbAll(InitWords(), x) == AbsorbAll(InitWords(), y)
  {
    hide Absorb; hide AbsorbAll; hide InitWords; hide DigestOf; hide Finished;
    var v, w := AbsorbAll(InitWords(), x), AbsorbAll(InitWords(), y);
    var p := |x| % TWO64;
    if Digest(x) == Digest(y) {
      DigestInjective(Finished(State(v, p)), Finished(State(w, p)));
      FinishedInjective(p, v, w);
    }
  }

  /**
   * Same suffix, no new collisions: two streams of one length that agree after a chunk boundary
   * have the same digest if and only if the words at that boundary were the same.
   */
  lemma SameSuffix(x: Bytes, y: Bytes, suffix: Bytes)
    requires |x| == |y| && |x| % CHUNK == 0
    ensures Digest(x + suffix) == Digest(y + suffix) <==> AbsorbAll(InitWords(), x) == AbsorbAll(InitWords(), y)
  {
    hide Absorb; hide AbsorbAll; hide UnabsorbAll; hide InitWords; hide Digest;
    AbsorbSplit(InitWords(), x, suffix);
    AbsorbSplit(InitWords(), y, suffix);
    DigestTellsWords(x + suffix, y + suffix);
    UpdateReversible(AbsorbAll(InitWords(), x), suffix);
    UpdateReversible(AbsorbAll(InitWords(), y), suffix);
  }

  // ---------------------------------------------------------------- printing

  const HEX: string := "0123456789ABCDEF"

  function HexByte(b: bv8): (t: string)
    ensures |t| == 2
  {
    [HEX[b as nat / 16], HEX[b as nat % 16]]
  }

  /** The first `n` bytes, with a dash after every second one. */
  function HexUpTo(d: Bytes, n: nat): string
    requires n <= |d|
  {
    if n == 0 then ""
    else HexUpTo(d, n - 1) + HexByte(d[n - 1]) + (if n % 2 == 0 then "-" else "")
  }

  function HexString(d: Bytes): string
    requires |d| == 64
  {
    HexUpTo(d, 63) + HexByte(d[63])
  }

  function HexValue(c: char): (v: nat)
    ensures v < 16
  {
    if '0' <= c <= '9' then (c as int - '0' as int) else if 'A' <= c <= 'F' then (c as int - 'A' as int + 10) else 0
  }

  /** The byte printed at position `at`. */
  function ByteAt(t: string, at: nat): bv8
    requires at + 1 < |t|
  {
    (16 * HexValue(t[at]) + HexValue(t[at + 1])) as bv8
  }

  lemma HexDigitRead(k: nat)
    requires k < 16
    ensures HexValue(HEX[k]) == k
  {
  }

  lemma HexByteRead(b: bv8)
    ensures ByteAt(HexByte(b), 0) == b
  {
    hide HexValue; hide HEX;
    var hi, lo := b as nat / 16, b as nat % 16;
    HexDigitRead(hi);
    HexDigitRead(lo);
    assert 16 * hi + lo == b as nat;
  }

  lemma ByteAtPrefix(t: string, u: string, at: nat)
    requires at + 1 < |t|
    ensures ByteAt(t + u, at) == ByteAt(t, at)
  {
    assert (t + u)[at] == t[at] && (t + u)[at + 1] == t[at + 1];
  }

  lemma ByteAtEnd(t: string, b: bv8, u: string)
    ensures ByteAt(t + HexByte(b) + u, |t|) == b
  {
    HexByteRead(b);
    var h := HexByte(b);
    assert (t + h + u)[|t|] == h[0] && (t + h + u)[|t| + 1] == h[1];
  }

  lemma {:induction false} HexUpToLength(d: Bytes, n: nat)
    requires n <= |d|
    ensures |HexUpTo(d, n)| == 2 * n + n / 2
  {
    if n > 0 {
      HexUpToLength(d, n - 1);
    }
  }

  /** Byte `i` is found at position 2 * i + i / 2. */
  lemma {:induction false} HexUpToRead(d: Bytes, n: nat, i: nat)
    requires i < n <= |d|
    ensures |HexUpTo(d, n)| == 2 * n + n / 2
    ensures ByteAt(HexUpTo(d, n), 2 * i + i / 2) == d[i]
    decreases n
  {
    hide ByteAt; hide HexByte;
    var t := HexUpTo(d, n - 1);
    var dash := if n % 2 == 0 then "-" else "";
    HexUpToLength(d, n - 1);
    HexUpToLength(d, n);
    if i < n - 1 {
      HexUpToRead(d, n - 1, i);
      assert HexUpTo(d, n) == t + (HexByte(d[n - 1]) + dash);
      ByteAtPrefix(t, HexByte(d[n - 1]) + dash, 2 * i + i / 2);
    } else {
      ByteAtEnd(t, d[i], dash);
    }
  }

  function ReadHex(t: string): Bytes
    requires |t| == 159
  {
    seq(64, i requires 0 <= i < 64 => ByteAt(t, 2 * i + i / 2))
  }

  /** `to_string` is an invertible form of 159 characters. */
  lemma HexRoundTrip(d: Bytes)
    requires |d| == 64
    ensures |HexString(d)| == 159 && ReadHex(HexString(d)) == d
  {
    hide ByteAt; hide HexByte; hide HexUpTo;
    HexUpToLength(d, 63);
    forall i | 0 <= i < 64
      ensures ByteAt(HexString(d), 2 * i + i / 2) == d[i]
    {
      if i < 63 {
        HexUpToRead(d, 63, i);
        ByteAtPrefix(HexUpTo(d, 63), HexByte(d[63]), 2 * i + i / 2);
      } else {
        ByteAtEnd(HexUpTo(d, 63), d[63], "");
        assert HexUpTo(d, 63) + HexByte(d[63]) + "" == HexString(d);
      }
    }
  }

  const MARKS: string := "._,=~!@#$%^&-+"
  const ABC: string := MARKS + "0123456789" + "abcdefghijklmnopqrstuvwxyz"
  const BASE: nat := 50

  /** The digits of `a` in base 50, least significant first; none for zero. */
  function Digits(a: nat): string
    decreases a
  {
    if a == 0 then "" else [ABC[a % BASE]] + Digits(a / BASE)
  }

  function MarkValue(c: char): (v: nat)
    ensures v < |MARKS|
  {
    match c
    case '.' => 0 case '_' => 1 case ',' => 2 case '=' => 3 case '~' => 4 case '!' => 5 case '@' => 6
    case '#' => 7 case '$' => 8 case '%' => 9 case '^' => 10 case '&' => 11 case '-' => 12 case _ => 13
  }

  function DigitValue(c: char): nat {
    if '0' <= c <= '9' then 14 + (c as int - '0' as int)
    else if 'a' <= c <= 'z' then 24 + (c as int - 'a' as int)
    else MarkValue(c)
  }

  function Number(t: string): nat {
    if t == "" then 0 else DigitValue(t[0]) + BASE * Number(t[1..])
  }

  lemma DigitRead(k: nat)
    requires k < BASE
    ensures DigitValue(ABC[k]) == k
  {
    if k < 14 {
      MarkRead(k);
    } else if k < 24 {
      assert ABC[k] == "0123456789"[k - 14];
      assert forall m :: 0 <= m < 10 ==> "0123456789"[m] as int == '0' as int + m;
    } else {
      assert ABC[k] == "abcdefghijklmnopqrstuvwxyz"[k - 24];
      assert forall m :: 0 <= m < 26 ==> "abcdefghijklmnopqrstuvwxyz"[m] as int == 'a' as int + m;
    }
  }

  lemma MarkRead(k: nat)
    requires k < 14
    ensures DigitValue(MARKS[k]) == k
  {
    assert forall m :: 0 <= m < 14 ==> DigitValue(MARKS[m]) == m;
  }

  function Power(b: nat, e: nat): nat {
    if e == 0 then 1 else b * Power(b, e - 1)
  }

  /** The digits of a number decode to it, and a number below 50^n has at most n of them. */
  lemma {:induction false} DigitsRead(a: nat, n: nat)
    ensures Number(Digits(a)) == a
    ensures a < Power(BASE, n) ==> |Digits(a)| <= n
    decreases a
  {
    if a > 0 {
      DigitRead(a % BASE);
      assert Digits(a)[1..] == Digits(a / BASE);
      if n > 0 {
        assert a < BASE * Power(BASE, n - 1) ==> a / BASE < Power(BASE, n - 1);
        DigitsRead(a / BASE, n - 1);
      } else {
        DigitsRead(a / BASE, 0);
      }
    }
  }

  /** `to_short_string` spends at most 12 characters on a word, and each run of them is invertible. */
  lemma WordDigits(w: bv64)
    ensures Number(Digits(w as nat)) == w as nat && |Digits(w as nat)| <= 12
  {
    PowersOfFifty();
    DigitsRead(w as nat, 12);
  }

  lemma PowersOfFifty()
    ensures Power(BASE, 12) == 244140625000000000000
  {
    assert Power(BASE, 3) == 125000;
    assert Power(BASE, 6) == 15625000000;
    assert Power(BASE, 9) == 1953125000000000;
  }

  /** The digit runs of the words in memory order `n - 1` down to 0. */
  function ShortRuns(words: Words, n: nat): string
    requires n <= 8
  {
    if n == 0 then "" else Digits(words[n - 1] as nat) + ShortRuns(words, n - 1)
  }

  // ---------------------------------------------------------------- the object

  /** `cdc512`: the words a..h, the count `p`, and the union of `digest64` with `digest`. */
  class Hash {
    var words: Words
    var p: nat
    var digest64: Words

    ghost predicate Valid()
      reads this`p
    {
      p < TWO64
    }

    function Value(): State
      reads this`words, this`p
    {
      State(words, p)
    }

    /** The `digest` view of the union: its words as they lie in memory. */
    function DigestBytes(): (d: Bytes)
      ensures |d| == 64
      reads this`digest64
    {
      Store(digest64[0]) + Store(digest64[1]) + Store(digest64[2]) + Store(digest64[3]) +
      Store(digest64[4]) + Store(digest64[5]) + Store(digest64[6]) + Store(digest64[7])
    }

    constructor ()
      ensures Valid() && Value() == START
    {
      words, p := InitWords(), 0;
      digest64 := [0, 0, 0, 0, 0, 0, 0, 0];
    }

    method Init()
      modifies this`words, this`p
      ensures Valid() && Value() == START
    {
      words := InitWords();
      p := 0;
    }

    method Shuffle()
      modifies this`words
      ensures words == Mix(old(words), 8)
    {
      hide Mix; hide Shift; hide Plus; hide Minus; hide Xor;
      var a, b, c, d, e, f, g, h := words[A], words[B], words[C], words[D], words[E], words[F], words[G], words[H];
      a, f := Minus(a, e), Xor(f, Shift(0, h)); h := Plus(h, a);
      b, g := Minus(b, f), Xor(g, Shift(1, a)); a := Plus(a, b);
      c, h := Minus(c, g), Xor(h, Shift(2, b)); b := Plus(b, c);
      d, a := Minus(d, h), Xor(a, Shift(3, c)); c := Plus(c, d);
      e, b := Minus(e, a), Xor(b, Shift(4, d)); d := Plus(d, e);
      f, c := Minus(f, b), Xor(c, Shift(5, e)); e := Plus(e, f);
      g, d := Minus(g, c), Xor(d, Shift(6, f)); f := Plus(f, g);
      h, e := Minus(h, d), Xor(e, Shift(7, g)); g := Plus(g, h);
      MixIs(words);
      words := [a, b, c, d, e, f, g, h];
    }

    method ShuffleWith(v: Words)
      modifies this`words
      ensures words == MixWith(old(words), v, 8)
    {
      hide MixWith; hide Shift; hide Plus; hide Minus; hide Xor;
      var a, b, c, d, e, f, g, h := words[A], words[B], words[C], words[D], words[E], words[F], words[G], words[H];
      a, f := Minus(a, v[E]), Xor(f, Shift(0, v[H])); h := Plus(h, v[A]);
      b, g := Minus(b, v[F]), Xor(g, Shift(1, v[A])); a := Plus(a, v[B]);
      c, h := Minus(c, v[G]), Xor(h, Shift(2, v[B])); b := Plus(b, v[C]);
      d, a := Minus(d, v[H]), Xor(a, Shift(3, v[C])); c := Plus(c, v[D]);
      e, b := Minus(e, v[A]), Xor(b, Shift(4, v[D])); d := Plus(d, v[E]);
      f, c := Minus(f, v[B]), Xor(c, Shift(5, v[E])); e := Plus(e, v[F]);
      g, d := Minus(g, v[C]), Xor(d, Shift(6, v[F])); f := Plus(f, v[G]);
      h, e := Minus(h, v[D]), Xor(e, Shift(7, v[G])); g := Plus(g, v[H]);
      MixWithIs(words, v);
      words := [a, b, c, d, e, f, g, h];
    }

    method Update(data: Bytes)
      requires Valid()
      modifies this`words, this`p
      ensures Valid() && Value() == Updated(old(Value()), data)
    {
      hide Mix; hide MixWith; hide LoadWords;
      p := (p + |data|) % TWO64;
      var from := 0;
      while |data| - from >= CHUNK
        invariant from <= |data|
        invariant p == (old(p) + |data|) % TWO64
        invariant AbsorbAll(words, data[from..]) == AbsorbAll(old(words), data)
        decreases |data| - from
      {
        assert data[from..][..CHUNK] == data[from..from + CHUNK] && data[from..][CHUNK..] == data[from + CHUNK..];
        ShuffleWith(LoadWords(data[from..from + CHUNK]));
        Shuffle();
        from := from + CHUNK;
      }
      if from < |data| {
        var pad := data[from..] + Zeros(CHUNK - (|data| - from));
        ShuffleWith(LoadWords(pad));
        Shuffle();
      }
    }

    method Finish()
      requires Valid()
      modifies this`words, this`digest64
      ensures words == Finished(old(Value()))
      ensures DigestBytes() == DigestOf(words)
    {
      hide Mix; hide MixWith; hide Swap64; hide Store;
      if p != 0 {
        ShuffleWith(CountWords(p));
        Shuffle();
      }
      digest64 := [Swap64(words[A]), Swap64(words[B]), Swap64(words[C]), Swap64(words[D]),
                   Swap64(words[E]), Swap64(words[F]), Swap64(words[G]), Swap64(words[H])];
    }

    /** `update`, `finish` and the copy of the digest, as the constructor from a range does them. */
    method Flush(data: Bytes) returns (digest: Bytes)
      requires Valid()
      modifies this`words, this`p, this`digest64
      ensures digest == DigestOf(Finished(Updated(old(Value()), data)))
    {
      hide Updated; hide Finished; hide DigestOf;
      Update(data);
      Finish();
      digest := DigestBytes();
    }

    method ToString() returns (t: string)
      ensures t == HexString(DigestBytes())
      ensures |t| == 159 && ReadHex(t) == DigestBytes()
    {
      hide HexByte; hide ByteAt; hide ReadHex; hide Store; hide DigestBytes;
      var digest := DigestBytes();
      t := "";
      var i := 0;
      while i < 63
        invariant i <= 63 && t == HexUpTo(digest, i)
      {
        var dash := if i % 2 != 0 then "-" else "";
        t := t + HexByte(digest[i]) + dash;
        i := i + 1;
      }
      t := t + HexByte(digest[i]);
      assert t == HexString(digest);
      HexRoundTrip(digest);
    }

    method ToShortString() returns (t: string)
      ensures t == ShortRuns(digest64, 8)
    {
      hide Digits;
      t := "";
      var i := 8;
      while i > 0
        invariant i <= 8 && t + ShortRuns(digest64, i) == ShortRuns(digest64, 8)
      {
        i := i - 1;
        ghost var before := t;
        t := PushDigits(t, digest64[i] as nat);
        ConcatAssoc(before, Digits(digest64[i] as nat), ShortRuns(digest64, i));
      }
    }
  }

  method PushDigits(s: string, number: nat) returns (t: string)
    ensures t == s + Digits(number)
  {
    t := s;
    var a: nat := number;
    while a > 0
      invariant t + Digits(a) == s + Digits(number)
    {
      ConcatAssoc(t, [ABC[a % BASE]], Digits(a / BASE));
      t := t + [ABC[a % BASE]];
      a := a / BASE;
    }
    assert t + Digits(0) == t;
  }

  lemma ConcatAssoc(a: string, b: string, c: string)
    ensures a + (b + c) == a + b + c
  {
  }
}
