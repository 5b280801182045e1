/**
  The document store's query pipeline over an in-memory sequence:
  `find(filter)` is `Filter`, `.sort({key: ±1})` is `SortBy` and
  `.limit(n)` is `Limit`. The store returns unsorted results in their
  stored ("natural") order, which is the order of the sequence.
 */
module Sequences {

  /** `find(filter)`: the elements satisfying `p`, in stored order. */
  function Filter<T(!new)>(s: seq<T>, p: T -> bool): (r: seq<T>)
    ensures |r| <= |s|
    ensures forall x :: x in r <==> x in s && p(x)
    ensures forall x :: multiset(r)[x] == if p(x) then multiset(s)[x] else 0
  {
    if |s| == 0 then []
    else
      assert s == [s[0]] + s[1..];
      (if p(s[0]) then [s[0]] else []) + Filter(s[1..], p)
  }

  /** `Filter` decides the first element, then filters the rest. */
  lemma FilterFirst<T(!new)>(s: seq<T>, p: T -> bool)
    requires |s| > 0
    ensures Filter(s, p) == (if p(s[0]) then [s[0]] else []) + Filter(s[1..], p)
  {
  }

  lemma {:induction false} FilterAppend<T(!new)>(a: seq<T>, b: seq<T>, p: T -> bool)
    ensures Filter(a + b, p) == Filter(a, p) + Filter(b, p)
  {
    if |a| == 0 {
      assert a + b == b;
    } else {
      assert (a + b)[1..] == a[1..] + b;
      FilterAppend(a[1..], b, p);
    }
  }

  /** How many elements `.limit(limit)` keeps of `available`: all of them
      when the limit is 0 (the store's "no limit") or not reached. */
  function Capped(available: nat, limit: nat): nat {
    if limit == 0 || available < limit then available else limit
  }

  /** `.limit(n)`: at most `n` leading elements; the store reads a limit of 0
      as "no limit". */
  function Limit<T>(s: seq<T>, n: nat): (r: seq<T>)
    ensures n == 0 ==> r == s
    ensures |r| == Capped(|s|, n)
    ensures r <= s
  {
    if n == 0 || |s| <= n then s else s[..n]
  }

  /** A sort key as the store compares it: a missing or `null` field orders
      before every number. */
  datatype Key = Low | Num(n: int)

  predicate KeyLe(a: Key, b: Key) {
    a.Low? || (b.Num? && a.n <= b.n)
  }

  /** Whether `a` may precede `b` in an ascending (`desc` false, sort value 1)
      or descending (`desc` true, sort value -1) sort. */
  predicate InOrder(a: Key, b: Key, desc: bool) {
    if desc then KeyLe(b, a) else KeyLe(a, b)
  }

  ghost predicate Sorted<T>(s: seq<T>, key: T -> Key, desc: bool) {
    forall i, j :: 0 <= i < j < |s| ==> InOrder(key(s[i]), key(s[j]), desc)
  }

  lemma InOrderTotal(a: Key, b: Key, desc: bool)
    ensures InOrder(a, b, desc) || InOrder(b, a, desc)
  {
  }

  lemma InOrderTransitive(a: Key, b: Key, c: Key, desc: bool)
    requires InOrder(a, b, desc) && InOrder(b, c, desc)
    ensures InOrder(a, c, desc)
  {
  }

  /** Inserts `x` before the first element it may precede. */
  function Insert<T>(x: T, s: seq<T>, key: T -> Key, desc: bool): (r: seq<T>)
    ensures multiset(r) == multiset(s) + multiset{x}
    ensures |r| == |s| + 1
  {
    if |s| == 0 then [x]
    else if InOrder(key(x), key(s[0]), desc) then [x] + s
    else
      assert s == [s[0]] + s[1..];
      [s[0]] + Insert(x, s[1..], key, desc)
  }

  lemma {:induction false} InsertSorted<T>(x: T, s: seq<T>, key: T -> Key, desc: bool)
    requires Sorted(s, key, desc)
    ensures Sorted(Insert(x, s, key, desc), key, desc)
  {
    if |s| == 0 {
    } else if InOrder(key(x), key(s[0]), desc) {
      var r := Insert(x, s, key, desc);
      forall i, j | 0 <= i < j < |r|
        ensures InOrder(key(r[i]), key(r[j]), desc)
      {
        if i == 0 && j > 1 {
          InOrderTransitive(key(x), key(s[0]), key(s[j - 1]), desc);
        }
      }
    } else {
      var t := Insert(x, s[1..], key, desc);
      InsertSorted(x, s[1..], key, desc);
      var r := [s[0]] + t;
      assert r == Insert(x, s, key, desc);
      InOrderTotal(key(x), key(s[0]), desc);
      forall i, j | 0 <= i < j < |r|
        ensures InOrder(key(r[i]), key(r[j]), desc)
      {
        if i == 0 {
          assert r[j] in multiset(t);
          assert r[j] == x || r[j] in multiset(s[1..]);
          if r[j] != x {
            var k :| 0 <= k < |s[1..]| && s[1..][k] == r[j];
            assert s[k + 1] == r[j];
          }
        } else {
          assert r[i] == t[i - 1] && r[j] == t[j - 1];
        }
      }
    }
  }

  /** `.sort({key: desc ? -1 : 1})`: a permutation of `s` ordered by `key`. */
  function SortBy<T>(s: seq<T>, key: T -> Key, desc: bool): (r: seq<T>)
    ensures Sorted(r, key, desc)
    ensures multiset(r) == multiset(s)
    ensures |r| == |s|
  {
    if |s| == 0 then []
    else
      assert s == [s[0]] + s[1..];
      var t := SortBy(s[1..], key, desc);
      InsertSorted(s[0], t, key, desc);
      Insert(s[0], t, key, desc)
  }

  /** A prefix of a sorted sequence is sorted, and every element the prefix
      leaves out ranks no higher than any element it keeps. */
  lemma {:induction false} PrefixOfSorted<T>(t: seq<T>, m: nat, key: T -> Key, desc: bool)
    requires Sorted(t, key, desc) && m <= |t|
    ensures Sorted(t[..m], key, desc)
    ensures multiset(t) == multiset(t[..m]) + multiset(t[m..])
    ensures forall x, y :: x in t[..m] && y in multiset(t[m..]) ==> InOrder(key(x), key(y), desc)
  {
    assert t == t[..m] + t[m..];
    forall x, y | x in t[..m] && y in multiset(t[m..])
      ensures InOrder(key(x), key(y), desc)
    {
      var i :| 0 <= i < m && t[..m][i] == x;
      var j :| 0 <= j < |t[m..]| && t[m..][j] == y;
      assert t[i] == x && t[m + j] == y;
    }
  }

  /** `find(p).sort(key).limit(n)`: only matching records, ordered by the key,
      as many as match up to the limit, and never one ranked strictly below a
      matching record it leaves out. */
  function Select<T(!new)>(s: seq<T>, p: T -> bool, key: T -> Key, desc: bool, n: nat): (r: seq<T>)
    ensures Sorted(r, key, desc)
    ensures forall x :: x in r ==> x in s && p(x)
    ensures multiset(r) <= multiset(Filter(s, p))
    ensures |r| == Capped(|Filter(s, p)|, n)
    ensures forall x, y :: x in r && y in multiset(Filter(s, p)) - multiset(r) ==>
              InOrder(key(x), key(y), desc)
  {
    var t := SortBy(Filter(s, p), key, desc);
    var r := Limit(t, n);
    assert |t| == |Filter(s, p)| && |r| == Capped(|t|, n);
    PrefixOfSorted(t, |r|, key, desc);
    assert r == t[..|r|];
    assert forall x :: x in r ==> x in multiset(t);
    r
  }
}
