/** The order of Python's `sorted` on strings, sorting by a key, and the one sorted listing of a set. */
module Ordering {

  /** Code-point order on strings. */
  predicate Leq(a: string, b: string) {
    a == [] || (b != [] && (a[0] < b[0] || (a[0] == b[0] && Leq(a[1..], b[1..]))))
  }

  lemma {:induction false} LeqTotal(a: string, b: string)
    ensures Leq(a, b) || Leq(b, a)
  {
    if a != [] && b != [] {
      LeqTotal(a[1..], b[1..]);
    }
  }

  lemma {:induction false} LeqAntisymmetric(a: string, b: string)
    requires Leq(a, b) && Leq(b, a)
    ensures a == b
  {
    if a != [] {
      LeqAntisymmetric(a[1..], b[1..]);
      assert a == [a[0]] + a[1..] && b == [b[0]] + b[1..];
    }
  }

  lemma {:induction false} LeqTransitive(a: string, b: string, c: string)
    requires Leq(a, b) && Leq(b, c)
    ensures Leq(a, c)
  {
    if a != [] && a[0] == b[0] == c[0] {
      LeqTransitive(a[1..], b[1..], c[1..]);
    }
  }

  ghost predicate Sorted<T(!new)>(xs: seq<T>, key: T -> string) {
    forall i, j :: 0 <= i < j < |xs| ==> Leq(key(xs[i]), key(xs[j]))
  }

  /** No two elements of `s` have the same key. */
  ghost predicate Injective<T(!new)>(s: set<T>, key: T -> string) {
    forall x, y :: x in s && y in s && key(x) == key(y) ==> x == y
  }

  ghost predicate Distinct<T>(xs: seq<T>) {
    forall i, j :: 0 <= i < j < |xs| ==> xs[i] != xs[j]
  }

  function ToSet<T>(xs: seq<T>): set<T> {
    set x | x in xs
  }

  function Keys<T(==), K(==)>(xs: seq<T>, key: T -> K): set<K> {
    set x | x in xs :: key(x)
  }

  /** Stable insertion: `x` goes before the first element whose key is larger. */
  function Insert<T>(x: T, xs: seq<T>, key: T -> string): seq<T> {
    if xs == [] then [x]
    else if Leq(key(x), key(xs[0])) then [x] + xs
    else [xs[0]] + Insert(x, xs[1..], key)
  }

  /** Python's `sorted(xs, key=key)`. */
  function SortBy<T>(xs: seq<T>, key: T -> string): seq<T> {
    if xs == [] then [] else Insert(xs[0], SortBy(xs[1..], key), key)
  }

  lemma {:induction false} InsertKeeps<T(!new)>(x: T, xs: seq<T>, key: T -> string)
    ensures multiset(Insert(x, xs, key)) == multiset{x} + multiset(xs)
    ensures Sorted(xs, key) ==> Sorted(Insert(x, xs, key), key)
  {
    if xs == [] {
    } else if Leq(key(x), key(xs[0])) {
      if Sorted(xs, key) {
        forall j | 0 < j < |xs| ensures Leq(key(x), key(xs[j])) {
          LeqTransitive(key(x), key(xs[0]), key(xs[j]));
        }
      }
    } else {
      var rest := Insert(x, xs[1..], key);
      InsertKeeps(x, xs[1..], key);
      assert xs == [xs[0]] + xs[1..];
      if Sorted(xs, key) {
        LeqTotal(key(x), key(xs[0]));
        forall j | 0 <= j < |rest| ensures Leq(key(xs[0]), key(rest[j])) {
          assert rest[j] in multiset(rest);
          assert rest[j] == x || rest[j] in xs[1..];
        }
      }
    }
  }

  lemma {:induction false} SortBySorts<T(!new)>(xs: seq<T>, key: T -> string)
    ensures multiset(SortBy(xs, key)) == multiset(xs)
    ensures Sorted(SortBy(xs, key), key)
  {
    if xs != [] {
      SortBySorts(xs[1..], key);
      InsertKeeps(xs[0], SortBy(xs[1..], key), key);
      assert xs == [xs[0]] + xs[1..];
    }
  }

  lemma SameElements<T>(xs: seq<T>, ys: seq<T>)
    requires multiset(xs) == multiset(ys)
    ensures |xs| == |ys| && ToSet(xs) == ToSet(ys)
  {
    assert |multiset(xs)| == |multiset(ys)|;
    forall x ensures x in xs <==> x in ys {
      assert x in xs <==> x in multiset(xs);
      assert x in ys <==> x in multiset(ys);
    }
  }

  lemma HeadIsLeast<T(!new)>(xs: seq<T>, x: T, key: T -> string)
    requires Sorted(xs, key) && x in xs
    ensures Leq(key(xs[0]), key(x))
  {
    var i :| 0 <= i < |xs| && xs[i] == x;
    LeqTotal(key(x), key(x));
  }

  /** Sorting leaves no choice when equal keys mean equal elements. */
  lemma {:induction false} SortedUnique<T(!new)>(xs: seq<T>, ys: seq<T>, key: T -> string)
    requires Sorted(xs, key) && Sorted(ys, key)
    requires multiset(xs) == multiset(ys)
    requires Injective(ToSet(xs), key)
    ensures xs == ys
  {
    SameElements(xs, ys);
    if xs != [] {
      var x, y := xs[0], ys[0];
      assert x in ToSet(ys) && y in ToSet(xs);
      HeadIsLeast(ys, x, key);
      HeadIsLeast(xs, y, key);
      LeqAntisymmetric(key(x), key(y));
      TailsAgree(xs, ys, key);
      SortedUnique(xs[1..], ys[1..], key);
    }
  }

  lemma TailsAgree<T(!new)>(xs: seq<T>, ys: seq<T>, key: T -> string)
    requires xs != [] && ys != [] && xs[0] == ys[0]
    requires multiset(xs) == multiset(ys)
    requires Sorted(xs, key) && Sorted(ys, key) && Injective(ToSet(xs), key)
    ensures xs == [xs[0]] + xs[1..] && ys == [xs[0]] + ys[1..]
    ensures multiset(xs[1..]) == multiset(ys[1..])
    ensures Sorted(xs[1..], key) && Sorted(ys[1..], key) && Injective(ToSet(xs[1..]), key)
  {
    assert xs == [xs[0]] + xs[1..] && ys == [xs[0]] + ys[1..];
    assert multiset(xs[1..]) == multiset(xs) - multiset{xs[0]};
    assert multiset(ys[1..]) == multiset(ys) - multiset{xs[0]};
  }

  /** `xs` lists the elements of `s`, each once, in key order. */
  ghost predicate IsListing<T(!new)>(xs: seq<T>, s: set<T>, key: T -> string) {
    Sorted(xs, key) && Distinct(xs) && ToSet(xs) == s
  }

  lemma {:induction false} DistinctMultiset<T>(xs: seq<T>)
    requires Distinct(xs)
    ensures multiset(xs) == multiset(ToSet(xs))
  {
    if xs != [] {
      assert xs == [xs[0]] + xs[1..];
      assert xs[0] !in xs[1..];
      DistinctMultiset(xs[1..]);
      assert ToSet(xs) == {xs[0]} + ToSet(xs[1..]);
    }
  }

  lemma ListingUnique<T(!new)>(xs: seq<T>, ys: seq<T>, s: set<T>, key: T -> string)
    requires IsListing(xs, s, key) && IsListing(ys, s, key) && Injective(s, key)
    ensures xs == ys
  {
    DistinctMultiset(xs);
    DistinctMultiset(ys);
    SortedUnique(xs, ys, key);
  }

  lemma RepeatedTwice<T>(xs: seq<T>, i: nat, j: nat)
    requires i < j < |xs| && xs[i] == xs[j]
    ensures multiset(xs)[xs[i]] >= 2
  {
    assert xs == xs[..j] + xs[j..];
    assert xs[i] in xs[..j] && xs[j] in xs[j..];
  }

  lemma MultisetDistinct<T>(xs: seq<T>)
    requires multiset(xs) == multiset(ToSet(xs))
    ensures Distinct(xs)
  {
    forall i, j | 0 <= i < j < |xs| && xs[i] == xs[j] ensures false {
      RepeatedTwice(xs, i, j);
    }
  }

  lemma SortByIsListing<T(!new)>(xs: seq<T>, key: T -> string)
    requires Distinct(xs)
    ensures IsListing(SortBy(xs, key), ToSet(xs), key)
  {
    SortBySorts(xs, key);
    DistinctMultiset(xs);
    SameElements(xs, SortBy(xs, key));
    MultisetDistinct(SortBy(xs, key));
  }

  lemma {:induction false} ListingExists<T(!new)>(s: set<T>, key: T -> string) returns (xs: seq<T>)
    ensures IsListing(xs, s, key)
  {
    if s == {} {
      xs := [];
    } else {
      var x :| x in s;
      var rest := ListingExists(s - {x}, key);
      assert forall y :: y in rest <==> y in ToSet(rest);
      assert x !in rest;
      assert ToSet([x] + rest) == {x} + ToSet(rest) == s;
      SortByIsListing([x] + rest, key);
      xs := SortBy([x] + rest, key);
    }
  }

  /** The elements of `s` in key order; the list is determined when keys are injective on `s`. */
  ghost function Listing<T(!new)>(s: set<T>, key: T -> string): (xs: seq<T>)
    ensures IsListing(xs, s, key)
  {
    assert exists xs :: IsListing(xs, s, key) by {
      var xs := ListingExists(s, key);
    }
    var xs :| IsListing(xs, s, key);
    xs
  }

  lemma ListingIs<T(!new)>(xs: seq<T>, s: set<T>, key: T -> string)
    requires IsListing(xs, s, key) && Injective(s, key)
    ensures Listing(s, key) == xs
  {
    ListingUnique(Listing(s, key), xs, s, key);
  }

  lemma ListingEmpty<T(!new)>(s: set<T>, key: T -> string)
    ensures Listing(s, key) == [] <==> s == {}
    ensures forall x :: x in Listing(s, key) <==> x in s
  {
    var xs := Listing(s, key);
    assert forall x :: x in xs <==> x in ToSet(xs);
    if xs != [] {
      assert xs[0] in xs;
    }
  }

  /** A list comprehension `[x for x in xs if keep(x)]`. */
  function Filter<T(!new)>(xs: seq<T>, keep: T -> bool): (r: seq<T>)
    ensures forall x :: x in r <==> x in xs && keep(x)
  {
    if xs == [] then [] else (if keep(xs[0]) then [xs[0]] else []) + Filter(xs[1..], keep)
  }

  lemma {:induction false} FilterDistinct<T(!new)>(xs: seq<T>, keep: T -> bool)
    requires Distinct(xs)
    ensures Distinct(Filter(xs, keep))
  {
    if xs != [] {
      FilterDistinct(xs[1..], keep);
      assert xs[0] !in xs[1..];
    }
  }

  /** Filtering and then sorting lists the kept elements of the set. */
  lemma SortFilterIs<T(!new)>(xs: seq<T>, keep: T -> bool, key: T -> string, kept: set<T>)
    requires Distinct(xs) && Injective(kept, key)
    requires forall x :: x in kept <==> x in xs && keep(x)
    ensures SortBy(Filter(xs, keep), key) == Listing(kept, key)
  {
    FilterDistinct(xs, keep);
    SortByIsListing(Filter(xs, keep), key);
    assert ToSet(Filter(xs, keep)) == kept;
    ListingIs(SortBy(Filter(xs, keep), key), kept, key);
  }

  lemma {:induction false} FilterSorted<T(!new)>(xs: seq<T>, keep: T -> bool, key: T -> string)
    requires Sorted(xs, key)
    ensures Sorted(Filter(xs, keep), key)
  {
    if xs != [] {
      FilterSorted(xs[1..], keep, key);
      var rest := Filter(xs[1..], keep);
      forall j | 0 <= j < |rest| ensures Leq(key(xs[0]), key(rest[j])) {
        assert rest[j] in xs[1..];
      }
    }
  }

  /** Filtering the listing of a set lists the kept elements. */
  lemma FilterListing<T(!new)>(s: set<T>, keep: T -> bool, key: T -> string, kept: set<T>)
    requires Injective(s, key)
    requires forall x :: x in kept <==> x in s && keep(x)
    ensures Filter(Listing(s, key), keep) == Listing(kept, key)
  {
    var xs := Listing(s, key);
    FilterSorted(xs, keep, key);
    FilterDistinct(xs, keep);
    assert forall x :: x in xs <==> x in ToSet(xs);
    assert ToSet(Filter(xs, keep)) == kept;
    ListingIs(Filter(xs, keep), kept, key);
  }
}
