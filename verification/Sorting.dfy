/** Array.prototype.sort with a comparison: a stable sort. */
module Sorting {

  ghost predicate TotalPreorder<T(!new)>(leq: (T, T) -> bool) {
    && (forall x, y :: leq(x, y) || leq(y, x))
    && (forall x, y, z :: leq(x, y) && leq(y, z) ==> leq(x, z))
  }

  ghost predicate SortedBy<T>(xs: seq<T>, leq: (T, T) -> bool) {
    forall i, j :: 0 <= i < j < |xs| ==> leq(xs[i], xs[j])
  }

  /** Different elements never tie. */
  ghost predicate Strict<T>(xs: seq<T>, leq: (T, T) -> bool) {
    forall x, y :: x in xs && y in xs && leq(x, y) && leq(y, x) ==> x == y
  }

  function Insert<T>(x: T, xs: seq<T>, leq: (T, T) -> bool): seq<T> {
    if xs == [] || leq(x, xs[0]) then [x] + xs else [xs[0]] + Insert(x, xs[1..], leq)
  }

  function Sort<T>(xs: seq<T>, leq: (T, T) -> bool): seq<T> {
    if xs == [] then [] else Insert(xs[0], Sort(xs[1..], leq), leq)
  }

  lemma {:induction false} InsertContents<T>(x: T, xs: seq<T>, leq: (T, T) -> bool)
    ensures multiset(Insert(x, xs, leq)) == multiset(xs) + multiset{x}
  {
    if !(xs == [] || leq(x, xs[0])) {
      InsertContents(x, xs[1..], leq);
      assert xs == [xs[0]] + xs[1..];
    }
  }

  lemma {:induction false} SortContents<T>(xs: seq<T>, leq: (T, T) -> bool)
    ensures multiset(Sort(xs, leq)) == multiset(xs)
    ensures |Sort(xs, leq)| == |xs|
  {
    if xs != [] {
      SortContents(xs[1..], leq);
      InsertContents(xs[0], Sort(xs[1..], leq), leq);
      assert xs == [xs[0]] + xs[1..];
    }
    assert |multiset(Sort(xs, leq))| == |Sort(xs, leq)|;
  }

  lemma SameMembers<T>(xs: seq<T>, ys: seq<T>)
    requires multiset(xs) == multiset(ys)
    ensures forall x :: x in xs <==> x in ys
    ensures |xs| == |ys|
  {
    forall x ensures x in xs <==> x in ys {
      assert x in xs <==> x in multiset(xs);
      assert x in ys <==> x in multiset(ys);
    }
    assert |multiset(xs)| == |xs| && |multiset(ys)| == |ys|;
  }

  lemma {:induction false} InsertSorts<T(!new)>(x: T, xs: seq<T>, leq: (T, T) -> bool)
    requires TotalPreorder(leq) && SortedBy(xs, leq)
    ensures SortedBy(Insert(x, xs, leq), leq)
  {
    if xs == [] || leq(x, xs[0]) {
      forall i | 0 <= i < |xs| ensures leq(x, xs[i]) {
        assert i == 0 || leq(xs[0], xs[i]);
      }
    } else {
      var rest := Insert(x, xs[1..], leq);
      InsertSorts(x, xs[1..], leq);
      InsertContents(x, xs[1..], leq);
      forall i | 0 <= i < |rest| ensures leq(xs[0], rest[i]) {
        assert rest[i] in multiset(rest);
        assert rest[i] in multiset(xs[1..]) + multiset{x};
        if rest[i] in xs[1..] {
          var j :| 0 <= j < |xs[1..]| && xs[1..][j] == rest[i];
          assert leq(xs[0], xs[j + 1]);
        }
      }
    }
  }

  lemma {:induction false} SortSorts<T(!new)>(xs: seq<T>, leq: (T, T) -> bool)
    requires TotalPreorder(leq)
    ensures SortedBy(Sort(xs, leq), leq)
  {
    if xs != [] {
      SortSorts(xs[1..], leq);
      InsertSorts(xs[0], Sort(xs[1..], leq), leq);
    }
  }

  /** Sorting what is sorted changes nothing, not even the order of ties. */
  lemma {:induction false} SortOfSorted<T>(xs: seq<T>, leq: (T, T) -> bool)
    requires SortedBy(xs, leq)
    ensures Sort(xs, leq) == xs
  {
    if xs != [] {
      SortOfSorted(xs[1..], leq);
      if |xs| > 1 {
        assert leq(xs[0], xs[1]);
      }
    }
  }

  /** Without ties a collection has only one sorted order. */
  lemma {:induction false} OneOrder<T>(xs: seq<T>, ys: seq<T>, leq: (T, T) -> bool)
    requires SortedBy(xs, leq) && SortedBy(ys, leq) && Strict(xs, leq) && multiset(xs) == multiset(ys)
    ensures xs == ys
  {
    hide SortedBy, Strict;
    SameLength(xs, ys);
    if xs != [] {
      Heads(xs, ys, leq);
      Tails(xs, ys);
      TailOrdered(xs, leq);
      TailOrdered(ys, leq);
      TailStrict(xs, leq);
      OneOrder(xs[1..], ys[1..], leq);
      HeadAndTail(xs, ys);
    }
  }

  lemma Tails<T>(xs: seq<T>, ys: seq<T>)
    requires multiset(xs) == multiset(ys) && xs != [] && ys != [] && xs[0] == ys[0]
    ensures multiset(xs[1..]) == multiset(ys[1..])
  {
    Tail(xs);
    Tail(ys);
  }

  lemma HeadAndTail<T>(xs: seq<T>, ys: seq<T>)
    requires xs != [] && ys != [] && xs[0] == ys[0] && xs[1..] == ys[1..]
    ensures xs == ys
  {
    assert xs == [xs[0]] + xs[1..] && ys == [ys[0]] + ys[1..];
  }

  lemma SameLength<T>(xs: seq<T>, ys: seq<T>)
    requires multiset(xs) == multiset(ys)
    ensures |xs| == |ys|
  {
    SameMembers(xs, ys);
  }

  lemma TailOrdered<T>(xs: seq<T>, leq: (T, T) -> bool)
    requires xs != [] && SortedBy(xs, leq)
    ensures SortedBy(xs[1..], leq)
  {
  }

  lemma TailStrict<T>(xs: seq<T>, leq: (T, T) -> bool)
    requires xs != [] && Strict(xs, leq)
    ensures Strict(xs[1..], leq)
  {
    assert forall x :: x in xs[1..] ==> x in xs;
  }

  lemma Tail<T>(xs: seq<T>)
    requires xs != []
    ensures multiset(xs[1..]) == multiset(xs) - multiset{xs[0]}
  {
    assert xs == [xs[0]] + xs[1..];
  }

  lemma Heads<T>(xs: seq<T>, ys: seq<T>, leq: (T, T) -> bool)
    requires SortedBy(xs, leq) && SortedBy(ys, leq) && Strict(xs, leq) && xs != [] && ys != []
    requires multiset(xs) == multiset(ys)
    ensures xs[0] == ys[0]
  {
    SameMembers(xs, ys);
    assert xs[0] in ys && ys[0] in xs;
    var i :| 0 <= i < |ys| && ys[i] == xs[0];
    var j :| 0 <= j < |xs| && xs[j] == ys[0];
    assert i == 0 || leq(ys[0], ys[i]);
    assert j == 0 || leq(xs[0], xs[j]);
  }

  /** Without ties, every permutation sorts to the same list. */
  lemma SortOfPermutation<T(!new)>(xs: seq<T>, ys: seq<T>, leq: (T, T) -> bool)
    requires TotalPreorder(leq) && Strict(xs, leq) && multiset(xs) == multiset(ys)
    ensures Sort(xs, leq) == Sort(ys, leq)
  {
    SortContents(xs, leq);
    SortContents(ys, leq);
    SortSorts(xs, leq);
    SortSorts(ys, leq);
    SameMembers(xs, Sort(xs, leq));
    OneOrder(Sort(xs, leq), Sort(ys, leq), leq);
  }

  // ------------------------------------------------------------------ strings

  /** The default order of sort(): by code units. */
  predicate StringLeq(a: string, b: string) {
    if a == "" then true
    else if b == "" then false
    else if a[0] != b[0] then a[0] < b[0]
    else StringLeq(a[1..], b[1..])
  }

  lemma {:induction false} StringTotal(a: string, b: string)
    ensures StringLeq(a, b) || StringLeq(b, a)
    ensures StringLeq(a, b) && StringLeq(b, a) ==> a == b
  {
    if a != "" && b != "" && a[0] == b[0] {
      StringTotal(a[1..], b[1..]);
      assert a == [a[0]] + a[1..] && b == [b[0]] + b[1..];
    }
  }

  lemma {:induction false} StringTransitive(a: string, b: string, c: string)
    requires StringLeq(a, b) && StringLeq(b, c)
    ensures StringLeq(a, c)
  {
    if a != "" && b != "" && c != "" && a[0] == b[0] == c[0] {
      StringTransitive(a[1..], b[1..], c[1..]);
    }
  }

  function ByCodeUnits(): (string, string) -> bool { (a: string, b: string) => StringLeq(a, b) }

  lemma StringsOrdered()
    ensures TotalPreorder(ByCodeUnits()) && forall xs :: Strict(xs, ByCodeUnits())
  {
    forall a, b ensures ByCodeUnits()(a, b) || ByCodeUnits()(b, a) { StringTotal(a, b); }
    forall a, b, c | ByCodeUnits()(a, b) && ByCodeUnits()(b, c) ensures ByCodeUnits()(a, c) { StringTransitive(a, b, c); }
    forall a, b ensures ByCodeUnits()(a, b) && ByCodeUnits()(b, a) ==> a == b { StringTotal(a, b); }
  }
}
