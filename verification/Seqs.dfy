/** Sequence operations the loops are proved against. */
module Seqs {

  /** The elements satisfying p, in order. */
  function Keep<T>(s: seq<T>, p: T -> bool): seq<T> {
    if s == [] then [] else Keep(s[..|s| - 1], p) + (if p(s[|s| - 1]) then [s[|s| - 1]] else [])
  }

  lemma {:induction false} KeepIn<T(!new)>(s: seq<T>, p: T -> bool)
    ensures forall x :: x in Keep(s, p) <==> x in s && p(x)
    ensures |Keep(s, p)| <= |s|
  {
    if s != [] {
      KeepIn(s[..|s| - 1], p);
      assert s == s[..|s| - 1] + [s[|s| - 1]];
    }
  }

  lemma KeepStep<T>(s: seq<T>, p: T -> bool, i: nat)
    requires i < |s|
    ensures Keep(s[..i + 1], p) == Keep(s[..i], p) + (if p(s[i]) then [s[i]] else [])
  {
    assert s[..i + 1][..i] == s[..i];
  }

  lemma {:induction false} KeepConcat<T>(a: seq<T>, b: seq<T>, p: T -> bool)
    ensures Keep(a + b, p) == Keep(a, p) + Keep(b, p)
  {
    if b == [] {
      assert a + b == a;
    } else {
      var front, last := b[..|b| - 1], b[|b| - 1];
      KeepConcat(a, front, p);
      assert (a + b)[..|a + b| - 1] == a + front;
      assert (a + b)[|a + b| - 1] == last;
    }
  }

  lemma {:induction false} KeepAll<T>(s: seq<T>, p: T -> bool)
    requires forall i :: 0 <= i < |s| ==> p(s[i])
    ensures Keep(s, p) == s
  {
    if s != [] {
      KeepAll(s[..|s| - 1], p);
    }
  }

  lemma {:induction false} KeepNone<T>(s: seq<T>, p: T -> bool)
    requires forall i :: 0 <= i < |s| ==> !p(s[i])
    ensures Keep(s, p) == []
  {
    if s != [] {
      KeepNone(s[..|s| - 1], p);
    }
  }

  /** What is kept, by position: the k-th is the element at at[k]. */
  ghost predicate KeptAt<T(!new)>(s: seq<T>, p: T -> bool, kept: seq<T>, at: seq<nat>) {
    && |at| == |kept| && (forall k, l :: 0 <= k < l < |at| ==> at[k] < at[l])
    && (forall k :: 0 <= k < |at| ==> at[k] < |s| && p(s[at[k]]) && kept[k] == s[at[k]])
    && (forall i :: 0 <= i < |s| && p(s[i]) ==> i in at)
  }

  lemma KeptEnd<T(!new)>(s: seq<T>, x: T, p: T -> bool, kept: seq<T>, at: seq<nat>)
    requires KeptAt(s, p, kept, at)
    ensures if p(x) then KeptAt(s + [x], p, kept + [x], at + [|s|]) else KeptAt(s + [x], p, kept, at)
  {
    forall i | 0 <= i < |s + [x]| && p((s + [x])[i]) ensures i in at + [|s|] && (i < |s| ==> i in at) {
      assert i < |s| ==> (s + [x])[i] == s[i];
    }
  }

  lemma {:induction false} KeepAt<T(!new)>(s: seq<T>, p: T -> bool) returns (at: seq<nat>)
    ensures KeptAt(s, p, Keep(s, p), at)
  {
    at := [];
    if s != [] {
      var front, last := s[..|s| - 1], s[|s| - 1];
      at := KeepAt(front, p);
      KeptEnd(front, last, p, Keep(front, p), at);
      FrontLast(s);
      if p(last) {
        at := at + [|front|];
      } else {
        assert Keep(front, p) + [] == Keep(front, p);
      }
    }
  }

  lemma Associative<T>(a: seq<T>, b: seq<T>, c: seq<T>)
    ensures a + b + c == a + (b + c)
  {
  }

  lemma FrontLast<T>(s: seq<T>)
    requires s != []
    ensures s == s[..|s| - 1] + [s[|s| - 1]]
  {
  }

  /** What comes before the first separator. */
  function Before<T(==)>(s: seq<T>, separator: T): seq<T> {
    if s == [] || s[0] == separator then [] else [s[0]] + Before(s[1..], separator)
  }

  lemma {:induction false} BeforeSeparator<T>(a: seq<T>, separator: T, x: seq<T>)
    requires separator !in a
    ensures Before(a + [separator] + x, separator) == a
  {
    if a != [] {
      BeforeSeparator(a[1..], separator, x);
      assert (a + [separator] + x)[1..] == a[1..] + [separator] + x;
    }
  }

  function FoldLeft<S, T>(f: (S, T) -> S, s: S, xs: seq<T>): S {
    if xs == [] then s else f(FoldLeft(f, s, xs[..|xs| - 1]), xs[|xs| - 1])
  }

  lemma {:induction false} FoldLeftConcat<S, T>(f: (S, T) -> S, s: S, a: seq<T>, b: seq<T>)
    ensures FoldLeft(f, s, a + b) == FoldLeft(f, FoldLeft(f, s, a), b)
  {
    if b == [] {
      assert a + b == a;
    } else {
      FoldLeftConcat(f, s, a, b[..|b| - 1]);
      assert (a + b)[..|a + b| - 1] == a + b[..|b| - 1];
    }
  }

  function Reversed<T(!new)>(s: seq<T>): (r: seq<T>)
    ensures |r| == |s| && forall i :: 0 <= i < |s| ==> r[i] == s[|s| - 1 - i]
    ensures forall x :: x in r <==> x in s
  {
    var r := seq(|s|, i requires 0 <= i < |s| => s[|s| - 1 - i]);
    assert forall x :: x in s ==> x in r by {
      forall x | x in s ensures x in r {
        var i :| 0 <= i < |s| && s[i] == x;
        assert r[|s| - 1 - i] == x;
      }
    }
    r
  }

  lemma {:induction false} KeepReversed<T(!new)>(s: seq<T>, p: T -> bool)
    ensures Keep(Reversed(s), p) == Reversed(Keep(s, p))
  {
    if s != [] {
      var front, last := s[..|s| - 1], s[|s| - 1];
      KeepReversed(front, p);
      assert Reversed(s) == [last] + Reversed(front);
      KeepConcat([last], Reversed(front), p);
      assert Keep([last], p) == if p(last) then [last] else [];
    }
  }

  /** Swapping the ends inwards, as the code reverses a slice in place. */
  method ReverseInPlace<T(!new)>(s: seq<T>) returns (r: seq<T>)
    ensures r == Reversed(s)
  {
    r := s;
    var i, j := 0, |s| - 1;
    while i < j
      invariant 0 <= i && j == |s| - 1 - i && i <= j + 2 && |r| == |s|
      invariant forall k :: 0 <= k < |s| && (k < i || k > j) ==> r[k] == s[|s| - 1 - k]
      invariant forall k :: i <= k <= j ==> r[k] == s[k]
    {
      r := r[i := r[j]][j := r[i]];
      i, j := i + 1, j - 1;
    }
    assert forall k :: 0 <= k < |s| ==> r[k] == s[|s| - 1 - k];
  }

  /** limit <= 0 is no limit, offset <= 0 is none. */
  function Page<T>(s: seq<T>, limit: int, offset: int): (r: seq<T>) {
    var rest := if offset > 0 then (if offset >= |s| then [] else s[offset..]) else s;
    if 0 < limit < |rest| then rest[..limit] else rest
  }

  function Max(a: int, b: int): int {
    if a < b then b else a
  }

  /** A page starts at its offset, if there is that much, and runs to its limit or to the end. */
  lemma PageIs<T>(s: seq<T>, limit: int, offset: int)
    ensures var start := Max(offset, 0);
      var p := Page(s, limit, offset);
      && (forall i :: 0 <= i < |p| ==> start + i < |s| && p[i] == s[start + i])
      && (start + |p| >= |s| || (limit > 0 && |p| == limit)) && (limit > 0 ==> |p| <= limit)
  {
  }
}
