/** Finite-set facts used by several modules. */
module Sets {
  lemma Within<T>(a: set<T>, b: set<T>)
    requires a <= b
    ensures |a| <= |b|
  {
    if a != {} {
      var x :| x in a;
      Within(a - {x}, b - {x});
    }
  }

  /** The element of a one-element set. */
  function Only<T(==)>(s: set<T>): (x: T)
    requires |s| == 1
    ensures s == {x}
  {
    OnlyOne(s);
    var x :| x in s;
    assert forall y :: y in s ==> y == x;
    x
  }

  lemma OnlyOne<T>(s: set<T>)
    requires |s| == 1
    ensures exists x :: x in s
    ensures forall x, y :: x in s && y in s ==> x == y
  {
    var x :| x in s;
    assert |s - {x}| == 0;
    assert forall y :: y in s ==> y in s - {x} || y == x;
  }
}
