/** Options, map lookups with a default, and the ascending enumeration of a finite set of numbers. */
module Collections {
  import opened Orders

  datatype Option<+T> = None | Some(value: T)

  function Get<K, V>(m: map<K, V>, k: K, default: V): V {
    if k in m then m[k] else default
  }

  lemma OverwriteTwice<K, V>(m: map<K, V>, k: K, v: V, w: V)
    ensures m[k := v][k := w] == m[k := w]
  {
  }

  function Max(a: nat, b: nat): nat {
    if a < b then b else a
  }

  ghost predicate Ascending(s: seq<nat>) {
    forall i, j :: 0 <= i < j < |s| ==> s[i] < s[j]
  }

  function Elements(s: seq<nat>): set<nat> {
    set x | x in s
  }

  ghost predicate Enumerates(r: seq<nat>, s: set<nat>) {
    Ascending(r) && forall x :: x in r <==> x in s
  }

  lemma PrefixElements(s: seq<nat>, i: nat)
    requires Ascending(s) && i < |s|
    ensures s[..i + 1] == s[..i] + [s[i]]
    ensures s[i] !in Elements(s[..i])
    ensures Elements(s[..i + 1]) == Elements(s[..i]) + {s[i]}
  {
    assert s[..i + 1] == s[..i] + [s[i]];
  }

  lemma SplitLast(s: seq<nat>)
    requires s != []
    ensures s == s[..|s| - 1] + [s[|s| - 1]]
    ensures Elements(s) == Elements(s[..|s| - 1]) + {s[|s| - 1]}
  {
    assert s == s[..|s| - 1] + [s[|s| - 1]];
  }

  predicate Below(a: nat, b: nat) {
    a < b
  }

  lemma BelowIsOrder()
    ensures IsOrder(Below)
  {
  }

  lemma SortedByBelow(s: set<nat>) returns (r: seq<nat>)
    ensures Enumerates(r, s)
  {
    BelowIsOrder();
    r := SortedBy(Below, s);
    assert InOrder(Below, r);
  }

  /** The elements of a set in ascending order: the iteration order of a BTreeSet. */
  ghost function Sorted(s: set<nat>): (r: seq<nat>)
    ensures Enumerates(r, s)
  {
    assert exists r :: Enumerates(r, s) by { var r := SortedByBelow(s); }
    var r :| Enumerates(r, s);
    r
  }

  lemma SortedOfNothing()
    ensures Sorted({}) == []
  {
    EmptyWhenNothing(Below, Sorted({}), {});
  }

  /** Collects a set into an ascending vector. */
  method SortedVec(s: set<nat>) returns (v: seq<nat>)
    ensures v == Sorted(s)
  {
    BelowIsOrder();
    v := SortSet(Below, s);
    SortingIsUnique(Below, v, Sorted(s), s);
  }
}
