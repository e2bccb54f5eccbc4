/** Sets in order: the one ascending list of a finite set under a strict total order. */
module Orders {

  ghost predicate IsOrder<T(!new)>(less: (T, T) -> bool) {
    && (forall a, b :: a == b || less(a, b) || less(b, a))
    && (forall a, b :: !(less(a, b) && less(b, a)))
    && (forall a, b, c :: less(a, b) && less(b, c) ==> less(a, c))
  }

  ghost predicate InOrder<T>(less: (T, T) -> bool, r: seq<T>) {
    forall i, j | 0 <= i < j < |r| :: less(r[i], r[j])
  }

  ghost predicate Sorts<T(!new)>(less: (T, T) -> bool, r: seq<T>, s: set<T>) {
    InOrder(less, r) && forall x :: x in r <==> x in s
  }

  predicate IsGreatest<T>(less: (T, T) -> bool, m: T, s: set<T>) {
    m in s && forall x | x in s :: x == m || less(x, m)
  }

  lemma {:induction false} HasGreatest<T(!new)>(less: (T, T) -> bool, s: set<T>) returns (m: T)
    requires IsOrder(less) && s != {}
    ensures IsGreatest(less, m, s)
    decreases s
  {
    var x :| x in s;
    m := x;
    var rest := s - {x};
    if rest == {} {
      assert s == {x};
    } else {
      var n := HasGreatest(less, rest);
      m := if less(x, n) then n else x;
      assert forall y | y in s :: y == x || y in rest;
    }
  }

  ghost function Greatest<T(!new)>(less: (T, T) -> bool, s: set<T>): (m: T)
    requires IsOrder(less) && s != {}
    ensures IsGreatest(less, m, s)
  {
    assert exists m :: IsGreatest(less, m, s) by { var m := HasGreatest(less, s); }
    var m :| IsGreatest(less, m, s);
    m
  }

  /** The elements of a set in ascending order. */
  ghost function SortedBy<T(!new)>(less: (T, T) -> bool, s: set<T>): (r: seq<T>)
    requires IsOrder(less)
    ensures Sorts(less, r, s)
    decreases s
  {
    if s == {} then []
    else
      var m := Greatest(less, s);
      SortedBy(less, s - {m}) + [m]
  }

  lemma NothingToSort<T(!new)>(less: (T, T) -> bool)
    requires IsOrder(less)
    ensures SortedBy(less, {}) == []
  {
  }

  lemma SortedBeforeGreatest<T(!new)>(less: (T, T) -> bool, m: T, s: set<T>)
    requires IsOrder(less) && IsGreatest(less, m, s)
    ensures SortedBy(less, s) == SortedBy(less, s - {m}) + [m]
  {
    assert Greatest(less, s) == m;
  }

  /** Sorts a set, the greatest element first picked. */
  method SortSet<T(==, !new)>(less: (T, T) -> bool, s: set<T>) returns (r: seq<T>)
    requires IsOrder(less)
    ensures r == SortedBy(less, s)
  {
    hide SortedBy, IsOrder;
    var rest := s;
    r := [];
    NothingToSort(less);
    while rest != {}
      invariant SortedBy(less, s) == SortedBy(less, rest) + r
      decreases rest
    {
      assert IsGreatest(less, Greatest(less, rest), rest);
      var m :| m in rest && IsGreatest(less, m, rest);
      SortedBeforeGreatest(less, m, rest);
      assert SortedBy(less, rest - {m}) + [m] + r == SortedBy(less, rest - {m}) + ([m] + r);
      r := [m] + r;
      rest := rest - {m};
    }
  }

  // ---- there is only one such list ----

  lemma EmptyWhenNothing<T(!new)>(less: (T, T) -> bool, a: seq<T>, s: set<T>)
    requires Sorts(less, a, s)
    ensures a == [] <==> s == {}
  {
    if s != {} {
      var x :| x in s;
      assert x in a;
    }
    assert a != [] ==> a[|a| - 1] in a;
  }

  lemma LastIsGreatest<T(!new)>(less: (T, T) -> bool, a: seq<T>, s: set<T>)
    requires Sorts(less, a, s) && a != []
    ensures IsGreatest(less, a[|a| - 1], s)
  {
    forall x | x in s ensures x == a[|a| - 1] || less(x, a[|a| - 1]) {
      assert x in a;
    }
  }

  lemma SortsPrefix<T(!new)>(less: (T, T) -> bool, a: seq<T>, s: set<T>)
    requires IsOrder(less) && Sorts(less, a, s) && a != []
    ensures Sorts(less, a[..|a| - 1], s - {a[|a| - 1]})
  {
    var b, m := a[..|a| - 1], a[|a| - 1];
    assert a == b + [m];
    forall x ensures x in b <==> x in s - {m} {
      if x in b {
        var i :| 0 <= i < |b| && b[i] == x;
        assert less(a[i], a[|a| - 1]);
      }
    }
  }

  /** Two ascending lists of one set are the same. */
  lemma {:induction false} SortingIsUnique<T(!new)>(less: (T, T) -> bool, a: seq<T>, b: seq<T>, s: set<T>)
    requires IsOrder(less) && Sorts(less, a, s) && Sorts(less, b, s)
    ensures a == b
    decreases s
  {
    EmptyWhenNothing(less, a, s);
    EmptyWhenNothing(less, b, s);
    if s != {} {
      var m, n := a[|a| - 1], b[|b| - 1];
      LastIsGreatest(less, a, s);
      LastIsGreatest(less, b, s);
      assert m == n;
      SortsPrefix(less, a, s);
      SortsPrefix(less, b, s);
      SortingIsUnique(less, a[..|a| - 1], b[..|b| - 1], s - {m});
      assert a == a[..|a| - 1] + [m] && b == b[..|b| - 1] + [m];
    }
  }
}
