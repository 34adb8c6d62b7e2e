/** A stable sort by a total preorder, and the code-point order on strings. */
module Sorting {
  ghost predicate Preorder<T(!new)>(le: (T, T) -> bool) {
    && (forall x, y :: le(x, y) || le(y, x))
    && (forall x, y, z :: le(x, y) && le(y, z) ==> le(x, z))
  }

  ghost predicate Ordered<T>(s: seq<T>, le: (T, T) -> bool) {
    forall i, j :: 0 <= i < j < |s| ==> le(s[i], s[j])
  }

  /** Insert after every element that is not greater: equal elements keep their order. */
  function Insert<T>(s: seq<T>, x: T, le: (T, T) -> bool): (r: seq<T>)
    ensures multiset(r) == multiset(s) + multiset{x}
    ensures |r| == |s| + 1
  {
    if s == [] || le(s[|s| - 1], x) then s + [x]
    else
      assert s == s[..|s| - 1] + [s[|s| - 1]];
      Insert(s[..|s| - 1], x, le) + [s[|s| - 1]]
  }

  function SortBy<T>(s: seq<T>, le: (T, T) -> bool): (r: seq<T>)
    ensures multiset(r) == multiset(s)
    ensures |r| == |s|
  {
    if s == [] then []
    else
      assert s == s[..|s| - 1] + [s[|s| - 1]];
      Insert(SortBy(s[..|s| - 1], le), s[|s| - 1], le)
  }

  lemma {:induction false} InsertOrdered<T(!new)>(s: seq<T>, x: T, le: (T, T) -> bool)
    requires Preorder(le) && Ordered(s, le)
    ensures Ordered(Insert(s, x, le), le)
  {
    if s != [] && !le(s[|s| - 1], x) {
      var last := s[|s| - 1];
      var rest := s[..|s| - 1];
      InsertOrdered(rest, x, le);
      var r := Insert(rest, x, le);
      forall i | 0 <= i < |r| ensures le(r[i], last) {
        assert r[i] in multiset(r);
        assert r[i] == x || r[i] in multiset(rest);
        assert r[i] == x || r[i] in rest;
      }
    } else if s != [] {
      forall i | 0 <= i < |s| ensures le(s[i], x) {
        assert i < |s| - 1 ==> le(s[i], s[|s| - 1]);
      }
    }
  }

  lemma {:induction false} SortOrdered<T(!new)>(s: seq<T>, le: (T, T) -> bool)
    requires Preorder(le)
    ensures Ordered(SortBy(s, le), le)
  {
    if s != [] {
      SortOrdered(s[..|s| - 1], le);
      InsertOrdered(SortBy(s[..|s| - 1], le), s[|s| - 1], le);
    }
  }

  // ----- filtering a sorted list -----

  function Filter<T>(s: seq<T>, keep: T -> bool): seq<T> {
    if s == [] then [] else Filter(s[..|s| - 1], keep) + if keep(s[|s| - 1]) then [s[|s| - 1]] else []
  }

  lemma {:induction false} FilterMembers<T(!new)>(s: seq<T>, keep: T -> bool)
    ensures |Filter(s, keep)| <= |s|
    ensures forall x :: x in Filter(s, keep) <==> x in s && keep(x)
  {
    if s != [] {
      FilterMembers(s[..|s| - 1], keep);
      assert forall x :: x in s <==> x in s[..|s| - 1] || x == s[|s| - 1];
    }
  }

  lemma {:induction false} FilterConcat<T>(a: seq<T>, b: seq<T>, keep: T -> bool)
    ensures Filter(a + b, keep) == Filter(a, keep) + Filter(b, keep)
  {
    if b == [] {
      assert a + b == a;
    } else {
      assert (a + b)[..|a + b| - 1] == a + b[..|b| - 1];
      FilterConcat(a, b[..|b| - 1], keep);
    }
  }

  lemma {:induction false} FilterOfInsert<T>(s: seq<T>, x: T, le: (T, T) -> bool, keep: T -> bool)
    ensures multiset(Filter(Insert(s, x, le), keep))
         == multiset(Filter(s, keep)) + multiset(if keep(x) then [x] else [])
  {
    if s == [] || le(s[|s| - 1], x) {
      assert (s + [x])[..|s|] == s;
    } else {
      var last := s[|s| - 1];
      var r := Insert(s[..|s| - 1], x, le);
      FilterOfInsert(s[..|s| - 1], x, le, keep);
      assert (r + [last])[..|r|] == r;
    }
  }

  /** Sorting permutes each filtered part among itself. */
  lemma {:induction false} FilterOfSort<T>(s: seq<T>, le: (T, T) -> bool, keep: T -> bool)
    ensures multiset(Filter(SortBy(s, le), keep)) == multiset(Filter(s, keep))
  {
    if s != [] {
      FilterOfSort(s[..|s| - 1], le, keep);
      FilterOfInsert(SortBy(s[..|s| - 1], le), s[|s| - 1], le, keep);
    }
  }

  function Kept<T>(x: T, keep: T -> bool): seq<T> {
    if keep(x) then [x] else []
  }

  lemma {:induction false} InsertLastOfEqual<T(!new)>(s: seq<T>, x: T, le: (T, T) -> bool, keep: T -> bool)
    requires forall a, b :: keep(a) && keep(b) ==> le(a, b)
    ensures Filter(Insert(s, x, le), keep) == Filter(s, keep) + Kept(x, keep)
  {
    if s == [] || le(s[|s| - 1], x) {
      FilterAppend(s, x, keep);
    } else {
      InsertLastOfEqual(s[..|s| - 1], x, le, keep);
      InsertBefore(s[..|s| - 1], s[|s| - 1], x, le, keep);
      assert s == s[..|s| - 1] + [s[|s| - 1]];
    }
  }

  lemma InsertBefore<T>(rest: seq<T>, last: T, x: T, le: (T, T) -> bool, keep: T -> bool)
    requires !keep(last) || !keep(x)
    requires Filter(Insert(rest, x, le), keep) == Filter(rest, keep) + Kept(x, keep)
    ensures Filter(Insert(rest, x, le) + [last], keep) == Filter(rest + [last], keep) + Kept(x, keep)
  {
    FilterAppend(Insert(rest, x, le), last, keep);
    FilterAppend(rest, last, keep);
    EmptyMoves(Filter(rest, keep), Kept(x, keep), Kept(last, keep));
  }

  lemma EmptyMoves<T>(a: seq<T>, b: seq<T>, c: seq<T>)
    requires b == [] || c == []
    ensures a + b + c == a + c + b
  {
  }

  lemma FilterAppend<T>(s: seq<T>, x: T, keep: T -> bool)
    ensures Filter(s + [x], keep) == Filter(s, keep) + Kept(x, keep)
  {
    assert (s + [x])[..|s|] == s;
  }

  /** The sort is stable: elements that are equal to each other stay in the order they had. */
  lemma {:induction false} SortIsStable<T(!new)>(s: seq<T>, le: (T, T) -> bool, keep: T -> bool)
    requires forall a, b :: keep(a) && keep(b) ==> le(a, b)
    ensures Filter(SortBy(s, le), keep) == Filter(s, keep)
  {
    if s != [] {
      SortIsStable(s[..|s| - 1], le, keep);
      InsertLastOfEqual(SortBy(s[..|s| - 1], le), s[|s| - 1], le, keep);
    }
  }

  // ----- strings -----

  predicate AtMost(a: string, b: string) {
    a == "" || (b != "" && (a[0] < b[0] || (a[0] == b[0] && AtMost(a[1..], b[1..]))))
  }

  lemma {:induction false} AtMostTotal(a: string, b: string)
    ensures AtMost(a, b) || AtMost(b, a)
    ensures AtMost(a, b) && AtMost(b, a) ==> a == b
  {
    if a != "" && b != "" && a[0] == b[0] {
      AtMostTotal(a[1..], b[1..]);
      assert a == [a[0]] + a[1..] && b == [b[0]] + b[1..];
    }
  }

  lemma {:induction false} AtMostTransitive(a: string, b: string, c: string)
    requires AtMost(a, b) && AtMost(b, c)
    ensures AtMost(a, c)
  {
    if a != "" && a[0] == b[0] && b[0] == c[0] {
      AtMostTransitive(a[1..], b[1..], c[1..]);
    }
  }
}
