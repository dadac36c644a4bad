/** The two orderings the code base sorts by (Go's `sort.Ints` and `sort.Strings`), an insertion
    sort standing for the library sort, and the fact every use of it relies on: a sorted sequence
    is determined by its elements. */
module Sorting {

  ghost predicate TotalOrder<T(!new)>(le: (T, T) -> bool) {
    && (forall x :: le(x, x))
    && (forall x, y :: le(x, y) || le(y, x))
    && (forall x, y :: le(x, y) && le(y, x) ==> x == y)
    && (forall x, y, z :: le(x, y) && le(y, z) ==> le(x, z))
  }

  ghost predicate Sorted<T>(le: (T, T) -> bool, s: seq<T>) {
    forall i, j :: 0 <= i < j < |s| ==> le(s[i], s[j])
  }

  function Insert<T>(le: (T, T) -> bool, x: T, s: seq<T>): (r: seq<T>) {
    if s == [] then [x]
    else if le(x, s[0]) then [x] + s
    else [s[0]] + Insert(le, x, s[1..])
  }

  function Sort<T>(le: (T, T) -> bool, s: seq<T>): (r: seq<T>) {
    if s == [] then [] else Insert(le, s[0], Sort(le, s[1..]))
  }

  lemma {:induction false} InsertElements<T>(le: (T, T) -> bool, x: T, s: seq<T>)
    ensures multiset(Insert(le, x, s)) == multiset{x} + multiset(s)
  {
    if s != [] && !le(x, s[0]) {
      InsertElements(le, x, s[1..]);
      assert s == [s[0]] + s[1..];
    }
  }

  lemma {:induction false} InsertCorrect<T(!new)>(le: (T, T) -> bool, x: T, s: seq<T>)
    requires TotalOrder(le) && Sorted(le, s)
    ensures Sorted(le, Insert(le, x, s))
    ensures multiset(Insert(le, x, s)) == multiset{x} + multiset(s)
  {
    InsertElements(le, x, s);
    if s != [] && !le(x, s[0]) {
      var t := Insert(le, x, s[1..]);
      InsertCorrect(le, x, s[1..]);
      forall i | 0 <= i < |t|
        ensures le(s[0], t[i])
      {
        assert t[i] in multiset(t);
        assert t[i] == x || t[i] in s[1..];
      }
    }
  }

  /** The sort returns its argument's elements, in order. */
  lemma {:induction false} SortCorrect<T(!new)>(le: (T, T) -> bool, s: seq<T>)
    requires TotalOrder(le)
    ensures Sorted(le, Sort(le, s))
    ensures multiset(Sort(le, s)) == multiset(s)
  {
    if s != [] {
      SortCorrect(le, s[1..]);
      InsertCorrect(le, s[0], Sort(le, s[1..]));
      assert s == [s[0]] + s[1..];
    }
  }

  lemma SortedHead<T(!new)>(le: (T, T) -> bool, a: seq<T>, b: seq<T>)
    requires TotalOrder(le) && Sorted(le, a) && Sorted(le, b) && a != [] && multiset(a) == multiset(b)
    ensures b != [] && a[0] == b[0]
  {
    assert a[0] in multiset(b);
    assert b[0] in multiset(a);
    assert le(b[0], a[0]) && le(a[0], b[0]);
  }

  lemma {:induction false} SortedIsCanonical<T(!new)>(le: (T, T) -> bool, a: seq<T>, b: seq<T>)
    requires TotalOrder(le) && Sorted(le, a) && Sorted(le, b)
    requires multiset(a) == multiset(b)
    ensures a == b
  {
    if a == [] {
      assert |multiset(b)| == |b|;
    } else {
      SortedHead(le, a, b);
      hide TotalOrder;
      assert a == [a[0]] + a[1..] && b == [b[0]] + b[1..];
      assert multiset(a[1..]) == multiset(a) - multiset{a[0]};
      assert multiset(b[1..]) == multiset(b) - multiset{b[0]};
      SortedIsCanonical(le, a[1..], b[1..]);
    }
  }

  /** Sorting forgets the order its argument came in, and nothing else. */
  lemma SortEqual<T(!new)>(le: (T, T) -> bool, a: seq<T>, b: seq<T>)
    requires TotalOrder(le)
    ensures Sort(le, a) == Sort(le, b) <==> multiset(a) == multiset(b)
  {
    SortCorrect(le, a);
    SortCorrect(le, b);
    if multiset(a) == multiset(b) {
      SortedIsCanonical(le, Sort(le, a), Sort(le, b));
    }
  }

  // Sorted lists without repetition: what `sets.String.List` returns.

  ghost predicate Distinct<T(!new)>(s: seq<T>) {
    forall x :: multiset(s)[x] <= 1
  }

  function Elements<T>(s: seq<T>): set<T> { set x | x in s }

  /** The distinct elements of `s`, in order. */
  function SortedSet<T(==)>(le: (T, T) -> bool, s: seq<T>): (r: seq<T>) {
    if s == [] then []
    else
      var rest := SortedSet(le, s[1..]);
      if s[0] in rest then rest else Insert(le, s[0], rest)
  }

  lemma {:induction false} SortedSetCorrect<T(!new)>(le: (T, T) -> bool, s: seq<T>)
    requires TotalOrder(le)
    ensures Sorted(le, SortedSet(le, s)) && Distinct(SortedSet(le, s))
    ensures Elements(SortedSet(le, s)) == Elements(s)
  {
    if s != [] {
      var rest, r := SortedSet(le, s[1..]), SortedSet(le, s);
      SortedSetCorrect(le, s[1..]);
      assert s == [s[0]] + s[1..];
      InsertCorrect(le, s[0], rest);
      assert Elements(s) == Elements(rest) + {s[0]};
      forall x
        ensures x in r <==> x in Elements(s)
      {
        assert x in multiset(r) <==> x in multiset(rest) || x == s[0];
        assert x in rest <==> x in Elements(rest);
      }
    }
  }

  /** Two lists have the same sorted set exactly when they have the same elements. */
  lemma SortedSetEqual<T(!new)>(le: (T, T) -> bool, a: seq<T>, b: seq<T>)
    requires TotalOrder(le)
    ensures SortedSet(le, a) == SortedSet(le, b) <==> Elements(a) == Elements(b)
  {
    SortedSetCorrect(le, a);
    SortedSetCorrect(le, b);
    if Elements(a) == Elements(b) {
      var x, y := SortedSet(le, a), SortedSet(le, b);
      forall e
        ensures multiset(x)[e] == multiset(y)[e]
      {
        assert e in x <==> e in Elements(x);
        assert e in y <==> e in Elements(y);
      }
      SortedIsCanonical(le, x, y);
    }
  }

  // The orders in use.

  predicate IntLe(x: int, y: int) { x <= y }

  predicate StringLe(a: string, b: string) {
    a == [] || (b != [] && (a[0] < b[0] || (a[0] == b[0] && StringLe(a[1..], b[1..]))))
  }

  lemma IntLeTotal()
    ensures TotalOrder(IntLe)
  {}

  lemma {:induction false} StringLeLaws(a: string, b: string, c: string)
    ensures StringLe(a, a)
    ensures StringLe(a, b) || StringLe(b, a)
    ensures StringLe(a, b) && StringLe(b, a) ==> a == b
    ensures StringLe(a, b) && StringLe(b, c) ==> StringLe(a, c)
    decreases |a| + |b| + |c|
  {
    if a != [] {
      StringLeLaws(a[1..], if b == [] then [] else b[1..], if c == [] then [] else c[1..]);
      if b != [] && a[0] == b[0] && a[1..] == b[1..] {
        assert a == [a[0]] + a[1..] && b == [b[0]] + b[1..];
      }
    }
  }

  lemma StringLeTotal()
    ensures TotalOrder(StringLe)
  {
    forall a: string, b: string, c: string
      ensures StringLe(a, a) && (StringLe(a, b) || StringLe(b, a))
      ensures StringLe(a, b) && StringLe(b, a) ==> a == b
      ensures StringLe(a, b) && StringLe(b, c) ==> StringLe(a, c)
    {
      StringLeLaws(a, b, c);
    }
  }
}
