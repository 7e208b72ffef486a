/** `str_replace`: a search-and-splice loop, and the split of the subject it stands for. */
module StrReplace {

  predicate MatchAt<T(==)>(s: seq<T>, p: seq<T>, at: nat) {
    at + |p| <= |s| && s[at..at + |p|] == p
  }

  /** What `std::search` promises: the leftmost match from `from` on, or the end if there is none. */
  ghost predicate Leftmost<T>(s: seq<T>, p: seq<T>, from: nat, at: nat) {
    && from <= at <= |s|
    && (forall k :: from <= k < at ==> !MatchAt(s, p, k))
    && (at < |s| ==> MatchAt(s, p, at))
  }

  /** The leftmost match, searched from the left. */
  function FirstMatch<T(==)>(s: seq<T>, p: seq<T>, from: nat): (at: nat)
    requires from <= |s|
    ensures Leftmost(s, p, from, at)
    decreases |s| - from
  {
    if from == |s| || MatchAt(s, p, from) then from else FirstMatch(s, p, from + 1)
  }

  lemma LeftmostIsOne<T>(s: seq<T>, p: seq<T>, from: nat, i: nat, j: nat)
    requires Leftmost(s, p, from, i) && Leftmost(s, p, from, j)
    ensures i == j
  {
  }

  /** The parts of the subject between the matches, taken from the left without overlap. */
  function Pieces<T(==)>(s: seq<T>, p: seq<T>, from: nat): (ps: seq<seq<T>>)
    requires from <= |s| && (p != [] || s == [])
    ensures ps != []
    decreases |s| - from
  {
    var at := FirstMatch(s, p, from);
    if at == |s| then [s[from..]] else [s[from..at]] + Pieces(s, p, at + |p|)
  }

  function Join<T>(ps: seq<seq<T>>, glue: seq<T>): seq<T>
    requires ps != []
  {
    if |ps| == 1 then ps[0] else ps[0] + glue + Join(ps[1..], glue)
  }

  // ---------------------------------------------------------------- the loops

  method Search<T(==)>(s: seq<T>, p: seq<T>, from: nat) returns (at: nat)
    requires from <= |s|
    ensures Leftmost(s, p, from, at)
  {
    at := from;
    while at < |s| && !MatchAt(s, p, at)
      invariant from <= at <= |s|
      invariant forall k :: from <= k < at ==> !MatchAt(s, p, k)
    {
      at := at + 1;
    }
  }

  /** An empty pattern makes the loop endless, unless there is nothing to search. */
  method Replace<T(==)>(subject: seq<T>, search: seq<T>, replace: seq<T>) returns (s: seq<T>)
    requires search != [] || subject == []
    ensures s == Join(Pieces(subject, search, 0), replace)
  {
    hide MatchAt; hide FirstMatch; hide Pieces; hide Join;
    s := [];
    var b, i := 0, 0;
    while true
      invariant b <= |subject|
      invariant s + Join(Pieces(subject, search, b), replace) == Join(Pieces(subject, search, 0), replace)
      decreases |subject| - b
    {
      i := Search(subject, search, b);
      NextPiece(subject, search, replace, b, i);
      if i == |subject| {
        break;
      }
      Spliced(s, subject[b..i], replace, Join(Pieces(subject, search, i + |search|), replace));
      s := s + subject[b..i] + replace;
      b := i + |search|;
    }
    s := s + subject[b..i];
  }

  /** One iteration takes off one piece. */
  lemma NextPiece<T>(s: seq<T>, p: seq<T>, glue: seq<T>, b: nat, i: nat)
    requires Leftmost(s, p, b, i) && (p != [] || s == [])
    ensures i < |s| ==> p != [] && i + |p| <= |s|
    ensures Join(Pieces(s, p, b), glue) == if i == |s| then s[b..i] else s[b..i] + glue + Join(Pieces(s, p, i + |p|), glue)
  {
    hide FirstMatch; hide Leftmost; hide MatchAt; hide Pieces;
    MatchBounds(s, p, b, i);
    PiecesFrom(s, p, b, i);
    if i < |s| {
      var rest := Pieces(s, p, i + |p|);
      assert ([s[b..i]] + rest)[1..] == rest;
    } else {
      assert s[b..i] == s[b..];
    }
  }

  lemma PiecesFrom<T>(s: seq<T>, p: seq<T>, b: nat, i: nat)
    requires Leftmost(s, p, b, i) && (p != [] || s == []) && (i < |s| ==> i + |p| <= |s|)
    ensures Pieces(s, p, b) == if i == |s| then [s[b..]] else [s[b..i]] + Pieces(s, p, i + |p|)
  {
    LeftmostIsOne(s, p, b, i, FirstMatch(s, p, b));
    hide FirstMatch; hide Leftmost; hide MatchAt;
  }

  lemma Spliced<T>(s: seq<T>, piece: seq<T>, glue: seq<T>, rest: seq<T>)
    ensures s + (piece + glue + rest) == s + piece + glue + rest
  {
  }

  /** With an empty pattern and a subject left, an iteration finds the match where it stands and advances by nothing. */
  lemma EmptyPatternStays<T>(s: seq<T>, p: seq<T>, b: nat, i: nat)
    requires p == [] && b < |s| && Leftmost(s, p, b, i)
    ensures i != |s| && i + |p| == b
  {
    assert MatchAt(s, p, b);
  }

  // ---------------------------------------------------------------- what it means

  /** No match begins in the piece: neither inside it nor reaching into the match that follows. */
  ghost predicate NoneBefore<T>(piece: seq<T>, p: seq<T>) {
    forall k :: 0 <= k < |piece| ==> !MatchAt(piece + p, p, k)
  }

  ghost predicate NoneIn<T>(piece: seq<T>, p: seq<T>) {
    forall k :: 0 <= k < |piece| ==> !MatchAt(piece, p, k)
  }

  /** `ps` is the leftmost non-overlapping split of `s` at `p`. */
  ghost predicate LeftmostSplit<T>(ps: seq<seq<T>>, p: seq<T>, s: seq<T>) {
    && ps != [] && Join(ps, p) == s
    && (forall j :: 0 <= j < |ps| - 1 ==> NoneBefore(ps[j], p))
    && NoneIn(ps[|ps| - 1], p)
  }

  /** A match is decided by the elements it covers. */
  lemma MatchInPart<T>(s: seq<T>, p: seq<T>, lo: nat, hi: nat, k: nat)
    requires lo <= hi <= |s| && k + |p| <= hi - lo
    ensures MatchAt(s[lo..hi], p, k) <==> MatchAt(s, p, lo + k)
  {
    var t, u := s[lo..hi][k..k + |p|], s[lo + k..lo + k + |p|];
    assert |t| == |u| && forall j :: 0 <= j < |t| ==> t[j] == s[lo + k + j] == u[j];
    assert t == u;
  }

  lemma FirstPiece<T>(s: seq<T>, p: seq<T>, from: nat, at: nat)
    requires Leftmost(s, p, from, at) && at < |s|
    ensures NoneBefore(s[from..at], p)
  {
    assert s[from..at] + p == s[from..at + |p|];
    forall k | 0 <= k < |s[from..at]|
      ensures !MatchAt(s[from..at] + p, p, k)
    {
      MatchInPart(s, p, from, at + |p|, k);
    }
  }

  lemma {:induction false} PiecesAreLeftmostSplit<T>(s: seq<T>, p: seq<T>, from: nat)
    requires from <= |s| && p != []
    ensures LeftmostSplit(Pieces(s, p, from), p, s[from..])
    decreases |s| - from
  {
    hide NoneBefore; hide NoneIn; hide FirstMatch; hide Leftmost;
    var at := FirstMatch(s, p, from);
    MatchBounds(s, p, from, at);
    if at == |s| {
      LastPiece(s, p, from);
    } else {
      var rest := Pieces(s, p, at + |p|);
      PiecesAreLeftmostSplit(s, p, at + |p|);
      FirstPiece(s, p, from, at);
      assert ([s[from..at]] + rest)[1..] == rest;
      hide MatchAt;
    }
  }

  lemma MatchBounds<T>(s: seq<T>, p: seq<T>, from: nat, at: nat)
    requires Leftmost(s, p, from, at)
    ensures from <= at <= |s|
    ensures at < |s| ==> at + |p| <= |s| && s[from..] == s[from..at] + p + s[at + |p|..]
  {
  }

  /** Nothing is found in the last piece. */
  lemma LastPiece<T>(s: seq<T>, p: seq<T>, from: nat)
    requires Leftmost(s, p, from, |s|)
    ensures NoneIn(s[from..], p)
  {
    forall k | 0 <= k < |s[from..]|
      ensures !MatchAt(s[from..], p, k)
    {
      if k + |p| <= |s| - from {
        MatchInPart(s, p, from, |s|, k);
      }
    }
  }

  lemma JoinHead<T>(ps: seq<seq<T>>, p: seq<T>)
    requires |ps| > 1
    ensures MatchAt(Join(ps, p), p, |ps[0]|)
    ensures Join(ps, p)[..|ps[0]|] == ps[0] && Join(ps, p)[|ps[0]| + |p|..] == Join(ps[1..], p)
  {
  }

  /** The first piece of a leftmost split ends at the leftmost match. */
  lemma HeadEndsAtFirst<T>(ps: seq<seq<T>>, p: seq<T>, s: seq<T>)
    requires LeftmostSplit(ps, p, s) && p != []
    ensures Leftmost(s, p, 0, |ps[0]|)
    ensures |ps| > 1 <==> |ps[0]| < |s|
  {
    if |ps| > 1 {
      JoinHead(ps, p);
      forall k | 0 <= k < |ps[0]|
        ensures !MatchAt(s, p, k)
      {
        assert NoneBefore(ps[0], p);
        assert s[..|ps[0]| + |p|] == ps[0] + p;
        MatchInPart(s, p, 0, |ps[0]| + |p|, k);
      }
    }
  }

  lemma TailSplit<T>(ps: seq<seq<T>>, p: seq<T>, s: seq<T>)
    requires LeftmostSplit(ps, p, s) && |ps| > 1
    ensures |ps[0]| + |p| <= |s| && LeftmostSplit(ps[1..], p, s[|ps[0]| + |p|..])
  {
    JoinHead(ps, p);
    forall j | 0 <= j < |ps[1..]| - 1
      ensures NoneBefore(ps[1..][j], p)
    {
      assert ps[1..][j] == ps[j + 1];
    }
  }

  /** There is one leftmost split, so `Replace` has no choice. */
  lemma {:induction false} LeftmostSplitIsOne<T>(a: seq<seq<T>>, b: seq<seq<T>>, p: seq<T>, s: seq<T>)
    requires LeftmostSplit(a, p, s) && LeftmostSplit(b, p, s) && p != []
    ensures a == b
    decreases |a|
  {
    hide MatchAt; hide NoneBefore;
    HeadEndsAtFirst(a, p, s);
    HeadEndsAtFirst(b, p, s);
    LeftmostIsOne(s, p, 0, |a[0]|, |b[0]|);
    if |a| > 1 {
      JoinHead(a, p);
      JoinHead(b, p);
      TailSplit(a, p, s);
      TailSplit(b, p, s);
      LeftmostSplitIsOne(a[1..], b[1..], p, s[|a[0]| + |p|..]);
      assert a == [a[0]] + a[1..] && b == [b[0]] + b[1..];
    } else {
      assert a == [a[0]] && b == [b[0]];
    }
  }

  /** Any leftmost split of the subject tells what `Replace` returns. */
  lemma ReplaceJoinsTheSplit<T>(subject: seq<T>, search: seq<T>, replace: seq<T>, ps: seq<seq<T>>)
    requires search != [] && LeftmostSplit(ps, search, subject)
    ensures Join(Pieces(subject, search, 0), replace) == Join(ps, replace)
  {
    PiecesAreLeftmostSplit(subject, search, 0);
    assert subject[0..] == subject;
    LeftmostSplitIsOne(Pieces(subject, search, 0), ps, search, subject);
  }

  /** Replacing a pattern by itself changes nothing. */
  lemma ReplaceBySelf<T>(subject: seq<T>, search: seq<T>)
    requires search != []
    ensures Join(Pieces(subject, search, 0), search) == subject
  {
    PiecesAreLeftmostSplit(subject, search, 0);
    assert subject[0..] == subject;
  }

  lemma {:induction false} JoinLength<T>(ps: seq<seq<T>>, a: seq<T>, b: seq<T>)
    requires ps != []
    ensures |Join(ps, b)| == |Join(ps, a)| + (|ps| - 1) * (|b| - |a|)
  {
    if |ps| > 1 {
      JoinLength(ps[1..], a, b);
      Factor(|ps| - 2, |b| - |a|);
    }
  }

  lemma Factor(n: int, d: int)
    ensures (n + 1) * d == n * d + d
  {
  }

  /** The length changes by the difference of the two lengths for every match. */
  lemma ReplaceLength<T>(subject: seq<T>, search: seq<T>, replace: seq<T>)
    requires search != []
    ensures var matches := |Pieces(subject, search, 0)| - 1;
            |Join(Pieces(subject, search, 0), replace)| == |subject| + matches * (|replace| - |search|)
  {
    ReplaceBySelf(subject, search);
    JoinLength(Pieces(subject, search, 0), search, replace);
  }
}
