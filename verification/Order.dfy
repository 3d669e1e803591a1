/** Sorting rows newest first, ties by id, as the listings do. */
module Order {

  /** Byte-wise string order. */
  predicate Less(a: string, b: string) {
    b != [] && (a == [] || a[0] < b[0] || (a[0] == b[0] && Less(a[1..], b[1..])))
  }

  lemma {:induction false} LessTotal(a: string, b: string)
    ensures a != b ==> Less(a, b) || Less(b, a)
    ensures !(Less(a, b) && Less(b, a)) && !Less(a, a)
  {
    if a != [] && b != [] && a[0] == b[0] {
      LessTotal(a[1..], b[1..]);
      if a != b {
        assert a == [a[0]] + a[1..] && b == [b[0]] + b[1..];
      }
    }
    if a != [] {
      LessIrreflexive(a);
    }
  }

  lemma {:induction false} LessIrreflexive(a: string)
    ensures !Less(a, a)
  {
    if a != [] {
      LessIrreflexive(a[1..]);
    }
  }

  lemma {:induction false} LessTransitive(a: string, b: string, c: string)
    requires Less(a, b) && Less(b, c)
    ensures Less(a, c)
  {
    if a != [] && a[0] == b[0] && b[0] == c[0] {
      LessTransitive(a[1..], b[1..], c[1..]);
    }
  }

  /** a comes before b exactly when it is a proper prefix of b, or smaller where they first differ. */
  lemma {:induction false} LessIff(a: string, b: string)
    ensures Less(a, b) <==> a < b || exists i :: 0 <= i < |a| && i < |b| && a[..i] == b[..i] && a[i] < b[i]
  {
    if a != [] && b != [] && a[0] == b[0] {
      LessIff(a[1..], b[1..]);
      assert a == [a[0]] + a[1..] && b == [b[0]] + b[1..];
      if i :| 0 <= i < |a[1..]| && i < |b[1..]| && a[1..][..i] == b[1..][..i] && a[1..][i] < b[1..][i] {
        assert a[..i + 1] == [a[0]] + a[1..][..i] && b[..i + 1] == [b[0]] + b[1..][..i];
      }
      if i :| 0 <= i < |a| && i < |b| && a[..i] == b[..i] && a[i] < b[i] {
        assert a[1..][..i - 1] == a[..i][1..] && b[1..][..i - 1] == b[..i][1..];
        assert a[1..][i - 1] < b[1..][i - 1];
      }
    } else if a != [] && b != [] {
      assert a[..0] == b[..0];
      forall i | 0 < i < |a| && i < |b| ensures a[..i] != b[..i] {
        assert a[..i][0] != b[..i][0];
      }
    }
  }

  datatype Rank = Rank(mtime: int, id: string)

  predicate Above(a: Rank, b: Rank) {
    a.mtime > b.mtime || (a.mtime == b.mtime && Less(a.id, b.id))
  }

  lemma AboveTotal(a: Rank, b: Rank)
    ensures a != b ==> Above(a, b) || Above(b, a)
    ensures !(Above(a, b) && Above(b, a)) && !Above(a, a)
  {
    LessTotal(a.id, b.id);
    LessIrreflexive(a.id);
  }

  lemma AboveTransitive(a: Rank, b: Rank, c: Rank)
    requires Above(a, b) && Above(b, c)
    ensures Above(a, c)
  {
    if a.mtime == b.mtime == c.mtime {
      LessTransitive(a.id, b.id, c.id);
    }
  }

  /** x goes after everything it is not above. */
  function Insert<T>(s: seq<T>, x: T, rank: T -> Rank): (r: seq<T>)
    ensures multiset(r) == multiset(s) + multiset{x}
  {
    if s == [] || !Above(rank(x), rank(s[|s| - 1])) then s + [x]
    else
      var front, last := s[..|s| - 1], s[|s| - 1];
      assert s == front + [last];
      Insert(front, x, rank) + [last]
  }

  /** A stable sort. */
  function Sort<T>(s: seq<T>, rank: T -> Rank): (r: seq<T>)
    ensures multiset(r) == multiset(s)
  {
    if s == [] then []
    else
      assert s == s[..|s| - 1] + [s[|s| - 1]];
      Insert(Sort(s[..|s| - 1], rank), s[|s| - 1], rank)
  }

  ghost predicate Ranked<T>(s: seq<T>, rank: T -> Rank) {
    forall i, j :: 0 <= i < j < |s| ==> Above(rank(s[i]), rank(s[j]))
  }

  ghost predicate Distinct<T>(s: seq<T>, rank: T -> Rank) {
    forall i, j :: 0 <= i < j < |s| ==> rank(s[i]) != rank(s[j])
  }

  lemma InMultiset<T>(s: seq<T>, t: seq<T>)
    requires multiset(s) == multiset(t)
    ensures |s| == |t| && forall x :: x in s <==> x in t
  {
    assert |s| == |multiset(s)| && |t| == |multiset(t)|;
    assert forall x :: x in s <==> x in multiset(s);
    assert forall x :: x in t <==> x in multiset(t);
  }

  lemma {:induction false} InsertRanks<T(!new)>(s: seq<T>, x: T, rank: T -> Rank)
    requires Ranked(s, rank) && forall i :: 0 <= i < |s| ==> rank(s[i]) != rank(x)
    ensures Ranked(Insert(s, x, rank), rank)
    ensures forall y :: y in Insert(s, x, rank) <==> y in s || y == x
  {
    forall y ensures y in Insert(s, x, rank) <==> y in s || y == x {
      InsertIn(s, x, rank, y);
    }
    if s == [] {
    } else {
      var front, last := s[..|s| - 1], s[|s| - 1];
      AboveTotal(rank(x), rank(last));
      if Above(rank(x), rank(last)) {
        InsertRanks(front, x, rank);
        var r := Insert(front, x, rank);
        forall i | 0 <= i < |r| ensures Above(rank(r[i]), rank(last)) {
          assert r[i] in r;
          if r[i] != x {
            var k :| 0 <= k < |front| && front[k] == r[i];
          }
        }
      } else {
        forall i | 0 <= i < |s| ensures Above(rank(s[i]), rank(x)) {
          if i < |s| - 1 {
            AboveTransitive(rank(s[i]), rank(last), rank(x));
          }
        }
      }
    }
  }

  lemma InsertIn<T>(s: seq<T>, x: T, rank: T -> Rank, y: T)
    ensures y in Insert(s, x, rank) <==> y in s || y == x
  {
    InMultiset(Insert(s, x, rank), s + [x]);
  }

  lemma {:induction false} SortRanks<T(!new)>(s: seq<T>, rank: T -> Rank)
    requires Distinct(s, rank)
    ensures Ranked(Sort(s, rank), rank) && |Sort(s, rank)| == |s| && forall x :: x in Sort(s, rank) <==> x in s
  {
    InMultiset(Sort(s, rank), s);
    if s != [] {
      var front, last := s[..|s| - 1], s[|s| - 1];
      SortRanks(front, rank);
      var r := Sort(front, rank);
      forall i | 0 <= i < |r| ensures rank(r[i]) != rank(last) {
        assert r[i] in front;
      }
      InsertRanks(r, last, rank);
    }
  }

  /** There is one ranked sequence of given rows. */
  lemma {:induction false} RankedUnique<T(!new)>(s: seq<T>, t: seq<T>, rank: T -> Rank)
    requires Ranked(s, rank) && Ranked(t, rank) && forall x :: x in s <==> x in t
    ensures s == t
  {
    SubsetNonEmpty(s, t);
    SubsetNonEmpty(t, s);
    if s != [] {
      assert s[0] in s && t[0] in t;
      HeadsAgree(s, t, rank);
      forall x ensures x in s[1..] <==> x in t[1..] {
        NotInTail(s, rank);
        NotInTail(t, rank);
        assert x in s <==> x == s[0] || x in s[1..];
        assert x in t <==> x == t[0] || x in t[1..];
      }
      RankedUnique(s[1..], t[1..], rank);
      assert s == [s[0]] + s[1..] && t == [t[0]] + t[1..];
    }
  }

  lemma SubsetNonEmpty<T(!new)>(s: seq<T>, t: seq<T>)
    requires forall x :: x in s ==> x in t
    ensures s != [] ==> t != []
  {
    if s != [] {
      assert s[0] in s;
    }
  }

  lemma NotInTail<T>(s: seq<T>, rank: T -> Rank)
    requires Ranked(s, rank) && s != []
    ensures s[0] !in s[1..]
  {
    AboveTotal(rank(s[0]), rank(s[0]));
  }

  lemma HeadsAgree<T>(s: seq<T>, t: seq<T>, rank: T -> Rank)
    requires Ranked(s, rank) && Ranked(t, rank) && s != [] && t != [] && s[0] in t && t[0] in s
    ensures s[0] == t[0]
  {
    AboveTotal(rank(s[0]), rank(t[0]));
  }
}
