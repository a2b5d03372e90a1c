/** Datatypes shared by every module: optional values, results, row identifiers. */
module Common {
  datatype Option<+T> = None | Some(value: T)

  datatype Result<+T, +E> = Ok(value: T) | Err(error: E) {
    predicate IsFailure() {
      Err?
    }

    function PropagateFailure<U>(): Result<U, E>
      requires Err?
    {
      Err(error)
    }

    function Extract(): T
      requires Ok?
    {
      value
    }
  }

  /** A database identifier. Collision-free generation makes identifiers plain naturals here. */
  type Id = nat

  /** Taking one element out of a list takes one occurrence of it out of the multiset. */
  lemma WithoutOne<T>(s: seq<T>, i: int)
    requires 0 <= i < |s|
    ensures multiset(s[..i] + s[i + 1..]) == multiset(s) - multiset{s[i]}
  {
    assert s == s[..i] + [s[i]] + s[i + 1..];
  }
}

/** Sums over lists, as the reports and the audit take them. */
module SeqSums {
  import opened Common

  function SumOf<T>(s: seq<T>, f: T -> int): int {
    if s == [] then 0 else SumOf(s[..|s| - 1], f) + f(s[|s| - 1])
  }

  lemma {:induction false} SumOfConcat<T>(a: seq<T>, b: seq<T>, f: T -> int)
    ensures SumOf(a + b, f) == SumOf(a, f) + SumOf(b, f)
    decreases |b|
  {
    if b == [] {
      assert a + b == a;
    } else {
      var n := |b| - 1;
      assert (a + b)[..|a + b| - 1] == a + b[..n];
      SumOfConcat(a, b[..n], f);
    }
  }

  /** One element's share can be taken out wherever the element stands. */
  lemma SumOfExtract<T>(s: seq<T>, i: int, f: T -> int)
    requires 0 <= i < |s|
    ensures SumOf(s, f) == f(s[i]) + SumOf(s[..i] + s[i + 1..], f)
  {
    assert s == s[..i + 1] + s[i + 1..];
    SumOfConcat(s[..i + 1], s[i + 1..], f);
    assert s[..i + 1][..i] == s[..i];
    SumOfConcat(s[..i], s[i + 1..], f);
  }

  /** The order of a list does not matter to its sum: only which elements it holds. */
  lemma {:induction false} SumOfReorder<T>(a: seq<T>, b: seq<T>, f: T -> int)
    requires multiset(a) == multiset(b)
    ensures SumOf(a, f) == SumOf(b, f)
    decreases |a|
  {
    if a == [] {
      assert |multiset(b)| == 0;
    } else {
      var n := |a| - 1;
      assert a[n] in multiset(b);
      var i :| 0 <= i < |b| && b[i] == a[n];
      WithoutOne(a, n);
      WithoutOne(b, i);
      assert a[..n] + a[n + 1..] == a[..n];
      SumOfExtract(b, i, f);
      SumOfReorder(a[..n], b[..i] + b[i + 1..], f);
    }
  }

  lemma SumOfOne<T>(x: T, f: T -> int)
    ensures SumOf([x], f) == f(x)
  {
    assert SumOf([x][..0], f) == 0;
  }

  /** Sums of pointwise equal shares are equal. */
  lemma {:induction false} SumOfAgree<T>(s: seq<T>, f: T -> int, g: T -> int)
    requires forall x :: x in s ==> f(x) == g(x)
    ensures SumOf(s, f) == SumOf(s, g)
  {
    if s != [] {
      SumOfAgree(s[..|s| - 1], f, g);
    }
  }

  /** Sums add up share by share. */
  lemma {:induction false} SumOfSplit<T>(s: seq<T>, f: T -> int, g: T -> int, h: T -> int)
    requires forall x :: x in s ==> f(x) == g(x) + h(x)
    ensures SumOf(s, f) == SumOf(s, g) + SumOf(s, h)
  {
    if s != [] {
      SumOfSplit(s[..|s| - 1], f, g, h);
    }
  }

  function Filtered<T>(s: seq<T>, keep: T -> bool): seq<T> {
    if s == [] then []
    else
      var rest := Filtered(s[..|s| - 1], keep);
      if keep(s[|s| - 1]) then rest + [s[|s| - 1]] else rest
  }

  lemma {:induction false} FilteredKept<T>(s: seq<T>, keep: T -> bool)
    ensures forall x :: x in Filtered(s, keep) <==> x in s && keep(x)
  {
    if s != [] {
      FilteredKept(s[..|s| - 1], keep);
      assert s == s[..|s| - 1] + [s[|s| - 1]];
    }
  }

  /** Elements without a share may be left out. */
  lemma {:induction false} SumOfFiltered<T>(s: seq<T>, keep: T -> bool, f: T -> int)
    requires forall x :: x in s && !keep(x) ==> f(x) == 0
    ensures SumOf(Filtered(s, keep), f) == SumOf(s, f)
  {
    if s != [] {
      var n := |s| - 1;
      SumOfFiltered(s[..n], keep, f);
      if keep(s[n]) {
        var rest := Filtered(s[..n], keep);
        assert (rest + [s[n]])[..|rest|] == rest;
      }
    }
  }
}

/** Sums of integer-valued maps, the shape every balance and every report total takes. */
module Sums {
  ghost function Total(m: map<nat, int>): int
    decreases m.Keys
  {
    if m == map[] then 0
    else
      var k :| k in m;
      assert (m - {k}).Keys == m.Keys - {k};
      m[k] + Total(m - {k})
  }

  /** The order in which entries are picked does not matter. */
  lemma {:induction false} TotalRemove(m: map<nat, int>, k: nat)
    requires k in m
    ensures Total(m) == m[k] + Total(m - {k})
    decreases m.Keys
  {
    var j :| j in m && Total(m) == m[j] + Total(m - {j});
    if j != k {
      assert (m - {j}).Keys == m.Keys - {j} && (m - {k}).Keys == m.Keys - {k};
      TotalRemove(m - {j}, k);
      TotalRemove(m - {k}, j);
      assert m - {j} - {k} == m - {k} - {j};
    }
  }

  lemma TotalInsert(m: map<nat, int>, k: nat, v: int)
    requires k !in m
    ensures Total(m[k := v]) == Total(m) + v
  {
    TotalRemove(m[k := v], k);
    assert m[k := v] - {k} == m;
  }

  lemma TotalUpdate(m: map<nat, int>, k: nat, v: int)
    requires k in m
    ensures Total(m[k := v]) == Total(m) - m[k] + v
  {
    TotalRemove(m, k);
    TotalRemove(m[k := v], k);
    assert m[k := v] - {k} == m - {k};
  }

  /** Entries that contribute nothing may be dropped together. */
  lemma {:induction false} TotalDropZeros(m: map<nat, int>, ks: set<nat>)
    requires forall k :: k in ks && k in m ==> m[k] == 0
    ensures Total(m - ks) == Total(m)
    decreases ks
  {
    if ks == {} {
      assert m - ks == m;
    } else {
      var k :| k in ks;
      TotalDropZeros(m, ks - {k});
      var rest := m - (ks - {k});
      if k in rest {
        TotalRemove(rest, k);
        assert rest - {k} == m - ks;
      } else {
        assert rest == m - ks;
      }
    }
  }

  ghost function Restrict(m: map<nat, int>, ks: set<nat>): map<nat, int> {
    map k | k in m && k in ks :: m[k]
  }

  /** A sum splits over any choice of keys. */
  lemma {:induction false} TotalSplit(m: map<nat, int>, ks: set<nat>)
    ensures Total(m) == Total(m - ks) + Total(Restrict(m, ks))
    decreases ks
  {
    if ks == {} {
      assert m - ks == m && Restrict(m, ks) == map[];
    } else {
      var j :| j in ks;
      var fewer := ks - {j};
      TotalSplit(m, fewer);
      if j in m {
        TotalRemove(m - fewer, j);
        assert m - fewer - {j} == m - ks;
        TotalInsert(Restrict(m, fewer), j, m[j]);
        assert Restrict(m, ks) == Restrict(m, fewer)[j := m[j]];
      } else {
        assert m - fewer == m - ks && Restrict(m, ks) == Restrict(m, fewer);
      }
    }
  }

  /** A sum of entries that are never negative is zero only if all entries are. */
  lemma {:induction false} TotalNonNegative(m: map<nat, int>)
    requires forall k :: k in m ==> m[k] >= 0
    ensures Total(m) >= 0
    ensures Total(m) == 0 <==> forall k :: k in m ==> m[k] == 0
    decreases m.Keys
  {
    if m != map[] {
      var k :| k in m;
      TotalRemove(m, k);
      assert (m - {k}).Keys == m.Keys - {k};
      TotalNonNegative(m - {k});
      if Total(m) == 0 {
        forall j | j in m ensures m[j] == 0 {
          assert j == k || j in m - {k};
        }
      }
    }
  }

  /** Dropping non-negative entries changes the sum unless they are all zero. */
  lemma DroppingIsNeutral(m: map<nat, int>, ks: set<nat>)
    requires ks <= m.Keys && forall k :: k in ks ==> m[k] >= 0
    ensures Total(m) == Total(m - ks) <==> forall k :: k in ks ==> m[k] == 0
  {
    TotalSplit(m, ks);
    TotalNonNegative(Restrict(m, ks));
    assert forall k :: k in ks ==> k in Restrict(m, ks) && Restrict(m, ks)[k] == m[k];
  }
}
