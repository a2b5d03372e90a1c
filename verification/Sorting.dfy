/** Sorting by a comparison: the sorted form of a list depends only on which elements it holds. */
module Sorting {
  import opened Common
  import opened SeqSums

  ghost predicate IsOrder<T(!new)>(le: (T, T) -> bool) {
    && (forall x, y :: le(x, y) || le(y, x))
    && (forall x, y, z :: le(x, y) && le(y, z) ==> le(x, z))
  }

  predicate IsSorted<T>(s: seq<T>, le: (T, T) -> bool) {
    forall i, j :: 0 <= i < j < |s| ==> le(s[i], s[j])
  }

  /** The order tells the elements of a list apart. */
  ghost predicate Distinguishes<T(!new)>(le: (T, T) -> bool, s: seq<T>) {
    forall x, y :: x in s && y in s && le(x, y) && le(y, x) ==> x == y
  }

  function Insert<T>(x: T, s: seq<T>, le: (T, T) -> bool): (r: seq<T>)
    ensures multiset(r) == multiset{x} + multiset(s)
  {
    if s == [] || le(x, s[0]) then
      assert [x] + s == [x] + s;
      [x] + s
    else
      assert s == [s[0]] + s[1..];
      [s[0]] + Insert(x, s[1..], le)
  }

  function Sort<T>(s: seq<T>, le: (T, T) -> bool): (r: seq<T>)
    ensures multiset(r) == multiset(s) && |r| == |s|
  {
    if s == [] then []
    else
      assert s == [s[0]] + s[1..];
      assert |multiset(Insert(s[0], Sort(s[1..], le), le))| == |multiset(s)|;
      Insert(s[0], Sort(s[1..], le), le)
  }

  function Mapped<T, U>(s: seq<T>, f: T -> U): (r: seq<U>)
    ensures |r| == |s| && forall i :: 0 <= i < |s| ==> r[i] == f(s[i])
  {
    seq(|s|, i requires 0 <= i < |s| => f(s[i]))
  }

  lemma MappedWithout<T, U>(s: seq<T>, i: nat, f: T -> U)
    requires i < |s|
    ensures multiset(Mapped(s, f)) == multiset(Mapped(s[..i] + s[i + 1..], f)) + multiset{f(s[i])}
  {
    var m := Mapped(s, f);
    WithoutOne(m, i);
    assert m[..i] + m[i + 1..] == Mapped(s[..i] + s[i + 1..], f);
  }

  /** Mapping two lists of the same elements gives lists of the same elements. */
  lemma {:induction false} MappedForgetsOrder<T, U>(a: seq<T>, b: seq<T>, f: T -> U)
    requires multiset(a) == multiset(b)
    ensures multiset(Mapped(a, f)) == multiset(Mapped(b, f))
    decreases |a|
  {
    assert |multiset(a)| == |multiset(b)|;
    if a != [] {
      assert a[0] in multiset(b);
      var i :| 0 <= i < |b| && b[i] == a[0];
      WithoutOne(b, i);
      TailHolds(a);
      MappedForgetsOrder(a[1..], b[..i] + b[i + 1..], f);
      MappedWithout(a, 0, f);
      assert a[..0] + a[1..] == a[1..];
      MappedWithout(b, i, f);
    }
  }

  lemma SameElements<T>(a: seq<T>, b: seq<T>)
    requires multiset(a) == multiset(b)
    ensures forall x :: x in a <==> x in b
  {
    forall x ensures x in a <==> x in b {
      assert x in a <==> x in multiset(a);
      assert x in b <==> x in multiset(b);
    }
  }

  lemma {:induction false} InsertKeepsSorted<T(!new)>(x: T, s: seq<T>, le: (T, T) -> bool)
    requires IsOrder(le) && IsSorted(s, le)
    ensures IsSorted(Insert(x, s, le), le)
  {
    if s != [] && !le(x, s[0]) {
      InsertKeepsSorted(x, s[1..], le);
      var rest := Insert(x, s[1..], le);
      forall y | y in rest ensures le(s[0], y) {
        assert y in multiset(rest);
        if y != x {
          assert y in s[1..];
        }
      }
    }
  }

  lemma {:induction false} SortSorts<T(!new)>(s: seq<T>, le: (T, T) -> bool)
    requires IsOrder(le)
    ensures IsSorted(Sort(s, le), le)
  {
    if s != [] {
      SortSorts(s[1..], le);
      InsertKeepsSorted(s[0], Sort(s[1..], le), le);
    }
  }

  /** Two sorted lists of the same elements are equal when the order tells those elements apart. */
  lemma {:induction false} SortedIsUnique<T(!new)>(a: seq<T>, b: seq<T>, le: (T, T) -> bool)
    requires IsSorted(a, le) && IsSorted(b, le) && multiset(a) == multiset(b)
    requires Distinguishes(le, a)
    ensures a == b
  {
    if a == [] {
      assert |multiset(b)| == 0;
    } else {
      assert |multiset(a)| == |multiset(b)|;
      HeadsAgree(a, b, le);
      TailHolds(a);
      TailHolds(b);
      TailIsSorted(a, le);
      TailIsSorted(b, le);
      SortedIsUnique(a[1..], b[1..], le);
    }
  }

  lemma TailHolds<T>(s: seq<T>)
    requires s != []
    ensures s == [s[0]] + s[1..] && multiset(s[1..]) == multiset(s) - multiset{s[0]}
  {
    assert s == [s[0]] + s[1..];
    assert multiset(s) == multiset{s[0]} + multiset(s[1..]);
  }

  lemma TailIsSorted<T(!new)>(s: seq<T>, le: (T, T) -> bool)
    requires s != [] && IsSorted(s, le)
    ensures IsSorted(s[1..], le)
    ensures Distinguishes(le, s) ==> Distinguishes(le, s[1..])
  {
  }

  lemma HeadsAgree<T(!new)>(a: seq<T>, b: seq<T>, le: (T, T) -> bool)
    requires IsSorted(a, le) && IsSorted(b, le) && multiset(a) == multiset(b) && a != [] && b != []
    requires Distinguishes(le, a)
    ensures a[0] == b[0]
  {
    SameElements(a, b);
    assert a[0] in a && b[0] in b;
    var i :| 0 <= i < |b| && b[i] == a[0];
    var j :| 0 <= j < |a| && a[j] == b[0];
    if i > 0 && j > 0 {
      assert le(a[0], a[j]) && le(b[0], b[i]);
    }
  }

  /** So the order in which elements arrive does not matter to the sorted list. */
  lemma SortForgetsOrder<T(!new)>(a: seq<T>, b: seq<T>, le: (T, T) -> bool)
    requires IsOrder(le) && multiset(a) == multiset(b)
    requires Distinguishes(le, a)
    ensures Sort(a, le) == Sort(b, le)
  {
    SortSorts(a, le);
    SortSorts(b, le);
    SameElements(a, Sort(a, le));
    assert Distinguishes(le, Sort(a, le));
    SortedIsUnique(Sort(a, le), Sort(b, le), le);
  }

  /** Leaving elements out keeps a list sorted. */
  lemma {:induction false} FilteredSorted<T(!new)>(s: seq<T>, keep: T -> bool, le: (T, T) -> bool)
    requires IsSorted(s, le)
    ensures IsSorted(Filtered(s, keep), le)
    ensures multiset(Filtered(s, keep)) <= multiset(s)
  {
    if s != [] {
      var n := |s| - 1;
      FilteredSorted(s[..n], keep, le);
      FilteredKept(s[..n], keep);
      assert s == s[..n] + [s[n]];
      forall x | x in Filtered(s[..n], keep) ensures le(x, s[n]) {
        var i :| 0 <= i < n && s[i] == x;
      }
    }
  }
}
