/** Option, and the few facts about sequences and finite sets that the controllers rely on. */
module Collections {

  datatype Option<+T> = None | Some(value: T)

  function SetOf<T>(s: seq<T>): set<T> {
    set x | x in s
  }

  ghost predicate NoDuplicates<T>(s: seq<T>) {
    forall i, j :: 0 <= i < j < |s| ==> s[i] != s[j]
  }

  /** `order` enumerates the set `s`: what a list call returns, in an order nobody promises. */
  ghost predicate Lists<T>(order: seq<T>, s: set<T>) {
    NoDuplicates(order) && SetOf(order) == s
  }

  /** `s` without the elements equal to `x`, order kept. */
  function Without<T(==,!new)>(s: seq<T>, x: T): (r: seq<T>)
    ensures forall y :: y in r <==> y in s && y != x
  {
    if s == [] then []
    else
      assert s == [s[0]] + s[1..];
      if s[0] == x then Without(s[1..], x) else [s[0]] + Without(s[1..], x)
  }

  lemma {:induction false} WithoutSplits<T(!new)>(a: seq<T>, b: seq<T>, x: T)
    ensures Without(a + b, x) == Without(a, x) + Without(b, x)
    decreases |a|
  {
    if a == [] {
      assert a + b == b;
    } else {
      WithoutSplits(a[1..], b, x);
      assert (a + b)[1..] == a[1..] + b;
    }
  }

  lemma {:induction false} WithoutNothingLeft<T(!new)>(s: seq<T>, x: T)
    requires SetOf(s) <= {x}
    ensures Without(s, x) == []
  {
    if s != [] {
      assert s[0] in SetOf(s);
      assert forall y :: y in s[1..] ==> y in SetOf(s);
      WithoutNothingLeft(s[1..], x);
    }
  }

  lemma {:induction false} WithoutKeepsNoDuplicates<T(!new)>(s: seq<T>, x: T)
    requires NoDuplicates(s)
    ensures NoDuplicates(Without(s, x))
  {
    if s != [] {
      WithoutKeepsNoDuplicates(s[1..], x);
      assert s[0] !in s[1..];
    }
  }

  /** Every finite set can be listed. */
  lemma {:induction false} ListingExists<T(!new)>(s: set<T>) returns (order: seq<T>)
    ensures Lists(order, s)
    decreases s
  {
    order := [];
    if s != {} {
      var x :| x in s;
      order := ListingExists(s - {x});
      assert x in SetOf(order) <==> x in order;
      assert SetOf(order + [x]) == SetOf(order) + {x};
      order := order + [x];
    }
  }

  /** Any enumeration of a finite set, chosen freely. */
  method Enumerate<T(==)>(s: set<T>) returns (order: seq<T>)
    ensures Lists(order, s)
  {
    order := [];
    var rest := s;
    while rest != {}
      invariant rest !! SetOf(order)
      invariant SetOf(order) + rest == s
      invariant NoDuplicates(order)
      decreases rest
    {
      var x :| x in rest;
      assert x in SetOf(order) <==> x in order;
      order := order + [x];
      rest := rest - {x};
    }
  }
}
