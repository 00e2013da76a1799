/** The query operators the controllers apply to the store's collections (Where, FirstOrDefault,
    Any, OrderBy, Take), as functions on sequences. The store keeps its rows in a sequence, so
    "store order" is sequence order. */
module Linq {
  import opened Wrappers

  /** s can be obtained from t by deleting elements: same elements, same relative order. */
  predicate IsSubsequence<T(==,!new)>(s: seq<T>, t: seq<T>)
    decreases |t|
  {
    s == [] || (t != [] && ((s[0] == t[0] && IsSubsequence(s[1..], t[1..])) || IsSubsequence(s, t[1..])))
  }

  /** Where(p): the rows that satisfy p, each as often as it occurs, in their original order. */
  function Where<T(==,!new)>(s: seq<T>, p: T -> bool): (r: seq<T>)
    ensures |r| <= |s|
    ensures forall i :: 0 <= i < |r| ==> p(r[i])
    ensures forall x :: x in r <==> x in s && p(x)
    ensures forall x :: multiset(r)[x] == if p(x) then multiset(s)[x] else 0
    ensures IsSubsequence(r, s)
  {
    if s == [] then []
    else
      assert s == [s[0]] + s[1..];
      var rest := Where(s[1..], p);
      if p(s[0]) then
        assert ([s[0]] + rest)[1..] == rest;
        [s[0]] + rest
      else rest
  }

  /** Applying two Where clauses one after the other keeps what their conjunction keeps. */
  lemma {:induction false} WhereWhere<T(!new)>(s: seq<T>, p: T -> bool, q: T -> bool, pq: T -> bool)
    requires forall x :: pq(x) == (p(x) && q(x))
    ensures Where(Where(s, p), q) == Where(s, pq)
  {
    if s != [] {
      WhereWhere(s[1..], p, q, pq);
      if p(s[0]) {
        assert Where(s, p) == [s[0]] + Where(s[1..], p);
        assert Where(s, p)[1..] == Where(s[1..], p);
      }
    }
  }

  /** A Where clause that every row satisfies keeps the whole sequence. */
  lemma {:induction false} WhereKeepsAll<T(!new)>(s: seq<T>, p: T -> bool)
    requires forall i :: 0 <= i < |s| ==> p(s[i])
    ensures Where(s, p) == s
  {
    if s != [] {
      WhereKeepsAll(s[1..], p);
    }
  }

  /** FirstOrDefault(p): the position of the first row that satisfies p, or None when no row does. */
  function FirstIndex<T>(s: seq<T>, p: T -> bool): (r: Option<nat>)
    ensures r.None? <==> forall i :: 0 <= i < |s| ==> !p(s[i])
    ensures r.Some? ==> r.value < |s| && p(s[r.value]) && forall j :: 0 <= j < r.value ==> !p(s[j])
  {
    if s == [] then None
    else if p(s[0]) then Some(0)
    else match FirstIndex(s[1..], p)
      case None => None
      case Some(k) => Some(k + 1)
  }

  /** Ascending by key: no row has a larger key than a row after it. */
  ghost predicate SortedBy<T>(s: seq<T>, key: T -> int)
  {
    forall i, j :: 0 <= i < j < |s| ==> key(s[i]) <= key(s[j])
  }

  /** Inserts x into an ascending sequence, before the first row whose key is not smaller. */
  function InsertBy<T(==,!new)>(x: T, s: seq<T>, key: T -> int): (r: seq<T>)
    requires SortedBy(s, key)
    ensures |r| == |s| + 1
    ensures multiset(r) == multiset(s) + multiset{x}
    ensures SortedBy(r, key)
    ensures r[0] == x || (|s| > 0 && r[0] == s[0])
  {
    if s == [] then [x]
    else if key(x) <= key(s[0]) then ConsSorted(x, s, key); [x] + s
    else
      var rest := InsertBy(x, s[1..], key);
      assert s == [s[0]] + s[1..];
      ConsSorted(s[0], rest, key);
      [s[0]] + rest
  }

  /** A row whose key does not exceed the first key of a sorted sequence can go in front of it. */
  lemma ConsSorted<T>(a: T, s: seq<T>, key: T -> int)
    requires SortedBy(s, key) && (|s| > 0 ==> key(a) <= key(s[0]))
    ensures SortedBy([a] + s, key)
  {
  }

  /** OrderBy(key): the same rows, rearranged so that their keys ascend. */
  function OrderBy<T(==,!new)>(s: seq<T>, key: T -> int): (r: seq<T>)
    ensures |r| == |s|
    ensures multiset(r) == multiset(s)
    ensures SortedBy(r, key)
  {
    if s == [] then []
    else
      assert s == [s[0]] + s[1..];
      InsertBy(s[0], OrderBy(s[1..], key), key)
  }

  /** Take(n): the first n rows, or all of them when there are fewer. */
  function Take<T>(s: seq<T>, n: nat): (r: seq<T>)
    ensures |r| == if |s| < n then |s| else n
    ensures forall i :: 0 <= i < |r| ==> r[i] == s[i]
  {
    if |s| < n then s else s[..n]
  }

  /** Take(n) keeps no row more often than the input holds it. */
  lemma TakeMultiset<T>(s: seq<T>, n: nat)
    ensures multiset(Take(s, n)) <= multiset(s)
  {
    var r := Take(s, n);
    assert s == r + s[|r|..];
  }

  /** OrderBy(key).Take(n) keeps the earliest rows: a row it leaves out comes no earlier than
      every row it keeps, and it leaves rows out only when it already holds n of them. */
  lemma TakeOrderedKeepsEarliest<T(!new)>(s: seq<T>, key: T -> int, n: nat, x: T)
    requires x in s
    ensures var r := Take(OrderBy(s, key), n);
      x in r || (|r| == n && forall i :: 0 <= i < |r| ==> key(r[i]) <= key(x))
  {
    var sorted := OrderBy(s, key);
    var r := Take(sorted, n);
    assert x in multiset(s);
    assert x in multiset(sorted);
    var j :| 0 <= j < |sorted| && sorted[j] == x;
    if j < |r| {
      assert r[j] == x;
    }
  }

  /** TakeOrderedKeepsEarliest for every row at once. */
  lemma TakeOrderedKeepsEarliestAll<T(!new)>(s: seq<T>, key: T -> int, n: nat)
    ensures var r := Take(OrderBy(s, key), n);
      forall x :: x in s ==> x in r || (|r| == n && forall i :: 0 <= i < |r| ==> key(r[i]) <= key(x))
  {
    forall x | x in s
      ensures var r := Take(OrderBy(s, key), n);
        x in r || (|r| == n && forall i :: 0 <= i < |r| ==> key(r[i]) <= key(x))
    {
      TakeOrderedKeepsEarliest(s, key, n, x);
    }
  }

  /** Where(keep).OrderBy(key).Take(n): at most n rows that satisfy keep, in ascending key order,
      none kept more often than the input holds it; a satisfying row is left out only when n rows
      are kept, none with a larger key. */
  function TopBy<T(==,!new)>(s: seq<T>, keep: T -> bool, key: T -> int, n: nat): (r: seq<T>)
    ensures |r| <= n
    ensures forall i :: 0 <= i < |r| ==> keep(r[i]) && r[i] in s
    ensures SortedBy(r, key)
    ensures forall x :: x in s && keep(x) && x !in r ==> |r| == n && forall i :: 0 <= i < |r| ==> key(r[i]) <= key(x)
    ensures multiset(r) <= multiset(Where(s, keep))
    ensures |r| == if |Where(s, keep)| < n then |Where(s, keep)| else n
  {
    var candidates := Where(s, keep);
    var sorted := OrderBy(candidates, key);
    TakeOfSortedFacts(candidates, key, n);
    Take(sorted, n)
  }

  /** What TopBy needs of OrderBy(key).Take(n), over the already filtered rows. */
  lemma TakeOfSortedFacts<T(!new)>(s: seq<T>, key: T -> int, n: nat)
    ensures var r := Take(OrderBy(s, key), n);
      && |r| <= n
      && SortedBy(r, key)
      && (forall i :: 0 <= i < |r| ==> r[i] in s)
      && (forall x :: x in s ==> x in r || (|r| == n && forall i :: 0 <= i < |r| ==> key(r[i]) <= key(x)))
      && multiset(r) <= multiset(s)
  {
    var sorted := OrderBy(s, key);
    TakeMultiset(sorted, n);
    TakeOrderedKeepsEarliestAll(s, key, n);
    TakeOfSortedIsFrom(s, key, n);
  }

  /** Every row OrderBy(key).Take(n) keeps is a row of the input. */
  lemma TakeOfSortedIsFrom<T(!new)>(s: seq<T>, key: T -> int, n: nat)
    ensures var r := Take(OrderBy(s, key), n);
      forall i :: 0 <= i < |r| ==> r[i] in s
  {
    var sorted := OrderBy(s, key);
    var r := Take(sorted, n);
    forall i | 0 <= i < |r| ensures r[i] in s {
      assert r[i] == sorted[i];
      assert sorted[i] in multiset(sorted);
    }
  }
}
