/** Sorting by insertion under a linear order, and why the result is determined by its elements. */
module Sorting {
  import opened Prelude

  type Order<!T> = (T, T) -> bool

  ghost predicate Linear<T(!new)>(le: Order<T>) {
    && (forall a, b :: le(a, b) || le(b, a))
    && (forall a, b | le(a, b) && le(b, a) :: a == b)
    && (forall a, b, c | le(a, b) && le(b, c) :: le(a, c))
  }

  ghost predicate Ordered<T>(le: Order<T>, s: seq<T>) { forall i, j | 0 <= i < j < |s| :: le(s[i], s[j]) }

  function Insert<T>(le: Order<T>, s: seq<T>, x: T): seq<T> {
    if s == [] then [x] else if le(x, s[0]) then [x] + s else [s[0]] + Insert(le, s[1..], x)
  }

  function Sort<T>(le: Order<T>, s: seq<T>): seq<T> {
    if s == [] then [] else Insert(le, Sort(le, s[..|s| - 1]), s[|s| - 1])
  }

  lemma {:induction false} InsertHolds<T>(le: Order<T>, s: seq<T>, x: T)
    ensures multiset(Insert(le, s, x)) == multiset(s) + multiset{x}
    decreases |s|
  {
    if s != [] {
      assert s == [s[0]] + s[1..];
      if !le(x, s[0]) {
        InsertHolds(le, s[1..], x);
      }
    }
  }

  lemma {:induction false} InsertAbove<T>(le: Order<T>, s: seq<T>, x: T, low: T)
    requires le(low, x) && forall i | 0 <= i < |s| :: le(low, s[i])
    ensures forall i | 0 <= i < |Insert(le, s, x)| :: le(low, Insert(le, s, x)[i])
    decreases |s|
  {
    if s != [] && !le(x, s[0]) {
      InsertAbove(le, s[1..], x, low);
    }
  }

  lemma {:induction false} InsertOrdered<T(!new)>(le: Order<T>, s: seq<T>, x: T)
    requires Linear(le) && Ordered(le, s)
    ensures Ordered(le, Insert(le, s, x))
    decreases |s|
  {
    if s != [] && !le(x, s[0]) {
      InsertOrdered(le, s[1..], x);
      InsertAbove(le, s[1..], x, s[0]);
    }
  }

  /** Sorting keeps how often each element occurs and puts the elements in order. */
  lemma {:induction false} SortMeans<T(!new)>(le: Order<T>, s: seq<T>)
    requires Linear(le)
    ensures multiset(Sort(le, s)) == multiset(s) && Ordered(le, Sort(le, s))
    decreases |s|
  {
    if s != [] {
      var n := |s| - 1;
      hide Linear, Ordered;
      SortMeans(le, s[..n]);
      InsertHolds(le, Sort(le, s[..n]), s[n]);
      InsertOrdered(le, Sort(le, s[..n]), s[n]);
      assert s == s[..n] + [s[n]];
    } else {
      assert Ordered(le, []);
    }
  }

  lemma LeastFirst<T(!new)>(le: Order<T>, a: seq<T>, b: seq<T>)
    requires Linear(le) && Ordered(le, b) && multiset(a) == multiset(b) && a != [] && b != []
    ensures le(b[0], a[0])
  {
    assert a[0] in multiset(a);
    assert a[0] in b;
  }

  lemma SameFirst<T(!new)>(le: Order<T>, a: seq<T>, b: seq<T>)
    requires Linear(le) && Ordered(le, a) && Ordered(le, b) && multiset(a) == multiset(b) && a != [] && b != []
    ensures a[0] == b[0] && Ordered(le, a[1..]) && Ordered(le, b[1..])
  {
    LeastFirst(le, a, b);
    LeastFirst(le, b, a);
  }

  lemma DropFirst<T>(a: seq<T>)
    requires a != []
    ensures multiset(a[1..]) == multiset(a) - multiset{a[0]}
  {
    assert a == [a[0]] + a[1..];
  }

  lemma SameLength<T>(a: seq<T>, b: seq<T>)
    requires multiset(a) == multiset(b)
    ensures |a| == |b|
  {
    assert |multiset(a)| == |a| && |multiset(b)| == |b|;
  }

  lemma SameSplit<T>(a: seq<T>, b: seq<T>)
    requires a != [] && b != [] && a[0] == b[0] && a[1..] == b[1..]
    ensures a == b
  {
    assert a == [a[0]] + a[1..] && b == [b[0]] + b[1..];
  }

  /** An ordered list is determined by how often each element occurs in it. */
  lemma {:induction false} OrderedUnique<T(!new)>(le: Order<T>, a: seq<T>, b: seq<T>)
    requires Linear(le) && Ordered(le, a) && Ordered(le, b)
    ensures a == b <==> multiset(a) == multiset(b)
    decreases |a|
  {
    hide Linear, Ordered;
    if multiset(a) == multiset(b) {
      SameLength(a, b);
      if a != [] {
        SameFirst(le, a, b);
        DropFirst(a);
        DropFirst(b);
        OrderedUnique(le, a[1..], b[1..]);
        SameSplit(a, b);
      }
    }
  }

  /** Elements that occur once each are counted like the set they form. */
  lemma {:induction false} CountedAsSet<T(!new)>(s: seq<T>)
    requires Distinct(s)
    ensures multiset(s) == multiset(Elements(s))
    decreases |s|
  {
    if s == [] {
      assert Elements(s) == {};
    } else {
      var n := |s| - 1;
      CountedAsSet(s[..n]);
      assert s == s[..n] + [s[n]];
      assert s[n] !in s[..n];
      assert Elements(s) == Elements(s[..n]) + {s[n]};
    }
  }

  // ------------------------------------------------------------------ two orders

  function CharOrder(): Order<char> { (a: char, b: char) => a <= b }

  /** Strict lexicographic order by code point. */
  predicate Before(a: string, b: string) {
    b != "" && (a == "" || a[0] < b[0] || (a[0] == b[0] && Before(a[1..], b[1..])))
  }

  function NameOrder(): Order<string> { (a: string, b: string) => a == b || Before(a, b) }

  lemma {:induction false} Trichotomy(a: string, b: string)
    ensures a == b || Before(a, b) || Before(b, a)
    ensures !(Before(a, b) && Before(b, a)) && !Before(a, a)
    decreases |a|
  {
    if a != "" {
      Trichotomy(a[1..], a[1..]);
      if b != "" && a[0] == b[0] {
        Trichotomy(a[1..], b[1..]);
        assert a == [a[0]] + a[1..] && b == [b[0]] + b[1..];
      }
    }
  }

  lemma {:induction false} Transitive(a: string, b: string, c: string)
    requires Before(a, b) && Before(b, c)
    ensures Before(a, c)
    decreases |a|
  {
    if a != "" && a[0] == b[0] && b[0] == c[0] {
      Transitive(a[1..], b[1..], c[1..]);
    }
  }

  lemma NameOrderLinear()
    ensures Linear(NameOrder())
  {
    hide Before;
    var le := NameOrder();
    forall a: string, b: string ensures le(a, b) || le(b, a) {
      Trichotomy(a, b);
    }
    forall a: string, b: string | le(a, b) && le(b, a) ensures a == b {
      Trichotomy(a, b);
    }
    forall a: string, b: string, c: string | le(a, b) && le(b, c) ensures le(a, c) {
      if a != b && b != c {
        Transitive(a, b, c);
      }
    }
  }
}
