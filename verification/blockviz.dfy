/**
  The block visualisation (src/views.js `blockviz`): the records of the last
  seven days, in 112 consecutive windows of 5400 seconds (a sixteenth of a
  day), each record reduced to the three fields the timeline draws.
 */
module Blockviz {
  import opened Sequences
  import opened Records

  /** Width of one window in seconds: 86400 / 16. */
  const Interval: int := 5400

  /** Number of windows. */
  const BucketCount: int := 112

  /** The time span the windows cover. */
  const Span: int := Interval * BucketCount

  /** What a bucket keeps of a record: `mined`, `power` (the length of the
      magic number) and `txid`. */
  datatype Cell = Cell(mined: bool, power: nat, txid: string)

  function ToCell(r: Record): Cell {
    Cell(r.mined, |r.magicNumber|, r.txid)
  }

  function Cells(s: seq<Record>): (c: seq<Cell>)
    ensures |c| == |s|
    ensures forall i :: 0 <= i < |s| ==> c[i] == ToCell(s[i])
  {
    seq(|s|, i requires 0 <= i < |s| => ToCell(s[i]))
  }

  lemma CellsAppend(a: seq<Record>, b: seq<Record>)
    ensures Cells(a + b) == Cells(a) + Cells(b)
  {
    assert forall i :: 0 <= i < |a + b| ==> Cells(a + b)[i] == (Cells(a) + Cells(b))[i];
  }

  /** Start of window `i` for a view computed at `now`. */
  function WindowStart(now: int, i: int): int {
    now - Span + i * Interval
  }

  /** The records created in `[lo, hi)`, in order. */
  function Between(s: seq<Record>, lo: int, hi: int): (r: seq<Record>)
    ensures |r| <= |s|
  {
    if |s| == 0 then []
    else (if lo <= s[0].createdAt < hi then [s[0]] else []) + Between(s[1..], lo, hi)
  }

  /** `Between` keeps, with multiplicity, exactly the records of the window. */
  lemma {:induction false} BetweenCount(s: seq<Record>, lo: int, hi: int)
    ensures forall x :: multiset(Between(s, lo, hi))[x] == if lo <= x.createdAt < hi then multiset(s)[x] else 0
    decreases |s|
  {
    if |s| > 0 {
      assert s == [s[0]] + s[1..];
      BetweenCount(s[1..], lo, hi);
    }
  }

  lemma {:induction false} BetweenAppend(a: seq<Record>, b: seq<Record>, lo: int, hi: int)
    ensures Between(a + b, lo, hi) == Between(a, lo, hi) + Between(b, lo, hi)
    decreases |a|
  {
    if |a| == 0 {
      assert a + b == b;
    } else {
      assert (a + b)[1..] == a[1..] + b;
      BetweenAppend(a[1..], b, lo, hi);
    }
  }

  lemma {:induction false} BetweenAll(s: seq<Record>, lo: int, hi: int, inside: bool)
    requires forall j :: 0 <= j < |s| ==> (lo <= s[j].createdAt < hi) == inside
    ensures Between(s, lo, hi) == if inside then s else []
    decreases |s|
  {
    if |s| > 0 {
      assert forall j :: 0 <= j < |s[1..]| ==> s[1..][j] == s[j + 1];
      BetweenAll(s[1..], lo, hi, inside);
    }
  }

  /** In a sequence cut into records before `lo`, records in `[lo, hi)` and
      records from `hi` on, the middle part is exactly the window. */
  lemma BetweenOfPartition(s: seq<Record>, a: nat, b: nat, lo: int, hi: int)
    requires a <= b <= |s|
    requires forall j :: 0 <= j < a ==> s[j].createdAt < lo
    requires forall j :: a <= j < b ==> lo <= s[j].createdAt < hi
    requires forall j :: b <= j < |s| ==> hi <= s[j].createdAt
    ensures Between(s, lo, hi) == s[a..b]
  {
    var front, middle, back := s[..a], s[a..b], s[b..];
    assert s == front + (middle + back);
    BetweenAppend(front, middle + back, lo, hi);
    BetweenAppend(middle, back, lo, hi);
    assert forall j :: 0 <= j < |front| ==> front[j] == s[j];
    BetweenAll(front, lo, hi, false);
    assert forall j :: 0 <= j < |middle| ==> middle[j] == s[a + j];
    BetweenAll(middle, lo, hi, true);
    assert forall j :: 0 <= j < |back| ==> back[j] == s[b + j];
    BetweenAll(back, lo, hi, false);
  }

  /** The buckets laid end to end. */
  function Concat(bs: seq<seq<Cell>>): seq<Cell> {
    if |bs| == 0 then [] else Concat(bs[..|bs| - 1]) + bs[|bs| - 1]
  }

  /** Ascending by creation time, as the query's `.sort({created_at: 1})`
      leaves its result. */
  ghost predicate CreatedInOrder(s: seq<Record>) {
    forall i, j :: 0 <= i < j < |s| ==> s[i].createdAt <= s[j].createdAt
  }

  lemma SortedByCreation(s: seq<Record>)
    requires Sorted(s, CreatedAtKey, false)
    ensures CreatedInOrder(s)
  {
    forall i, j | 0 <= i < j < |s|
      ensures s[i].createdAt <= s[j].createdAt
    {
      assert InOrder(CreatedAtKey(s[i]), CreatedAtKey(s[j]), false);
    }
  }

  /** The inner loop of `blockviz`: shifts the records created before `after`
      off the front of what is left (`txs[k..]`) into one bucket. */
  method FillBucket(txs: seq<Record>, k: nat, after: int) returns (bucket: seq<Cell>, next: nat)
    requires k <= |txs| && CreatedInOrder(txs)
    ensures k <= next <= |txs|
    ensures forall j :: k <= j < next ==> txs[j].createdAt < after
    ensures forall j :: next <= j < |txs| ==> after <= txs[j].createdAt
    ensures bucket == Cells(txs[k..next])
  {
    bucket := [];
    next := k;
    while next < |txs| && txs[next].createdAt < after
      invariant k <= next <= |txs|
      invariant forall j :: k <= j < next ==> txs[j].createdAt < after
      invariant bucket == Cells(txs[k..next])
    {
      assert txs[k..next + 1] == txs[k..next] + [txs[next]];
      CellsAppend(txs[k..next], [txs[next]]);
      bucket := bucket + [ToCell(txs[next])];
      next := next + 1;
    }
  }

  /** The outer loop of `blockviz` over the query result `txs`, which is
      sorted by creation time and starts no earlier than the first window.
      Window `i` receives exactly the records created in it, in order, and
      together the windows receive exactly the records created before `now`. */
  method Bucketize(txs: seq<Record>, now: int) returns (buckets: seq<seq<Cell>>)
    requires CreatedInOrder(txs)
    requires forall r :: r in txs ==> now - Span <= r.createdAt
    ensures |buckets| == BucketCount
    ensures forall i :: 0 <= i < |buckets| ==>
              buckets[i] == Cells(Between(txs, WindowStart(now, i), WindowStart(now, i + 1)))
    ensures Concat(buckets) == Cells(Between(txs, now - Span, now))
  {
    var before := now - Span;
    var k := 0;
    buckets := [];
    while before < now
      invariant 0 <= |buckets| <= BucketCount
      invariant before == WindowStart(now, |buckets|)
      invariant 0 <= k <= |txs|
      invariant forall j :: 0 <= j < k ==> txs[j].createdAt < before
      invariant forall j :: k <= j < |txs| ==> before <= txs[j].createdAt
      invariant forall i :: 0 <= i < |buckets| ==>
                  buckets[i] == Cells(Between(txs, WindowStart(now, i), WindowStart(now, i + 1)))
      decreases now - before
    {
      var after := before + Interval;
      var bucket, next := FillBucket(txs, k, after);
      BetweenOfPartition(txs, k, next, before, after);
      buckets := buckets + [bucket];
      before := after;
      k := next;
    }
    ConcatWindows(txs, now, buckets);
  }

  /** Adjacent windows together hold the records of their union. */
  lemma {:induction false} BetweenSplit(s: seq<Record>, lo: int, mid: int, hi: int)
    requires lo <= mid <= hi && CreatedInOrder(s)
    ensures Between(s, lo, hi) == Between(s, lo, mid) + Between(s, mid, hi)
    decreases |s|
  {
    if |s| > 0 {
      var rest := s[1..];
      assert forall j :: 0 <= j < |rest| ==> rest[j] == s[j + 1];
      BetweenSplit(rest, lo, mid, hi);
      if mid <= s[0].createdAt {
        BetweenAll(rest, lo, mid, false);
      }
    }
  }

  /** The first `|buckets|` windows laid end to end hold the records from the
      start of the first window to the end of the last. */
  lemma {:induction false} ConcatWindows(txs: seq<Record>, now: int, buckets: seq<seq<Cell>>)
    requires CreatedInOrder(txs)
    requires forall i :: 0 <= i < |buckets| ==>
               buckets[i] == Cells(Between(txs, WindowStart(now, i), WindowStart(now, i + 1)))
    ensures Concat(buckets) == Cells(Between(txs, now - Span, WindowStart(now, |buckets|)))
    decreases |buckets|
  {
    var n := |buckets|;
    if n == 0 {
      BetweenAll(txs, now - Span, now - Span, false);
    } else {
      ConcatWindows(txs, now, buckets[..n - 1]);
      BetweenSplit(txs, now - Span, WindowStart(now, n - 1), WindowStart(now, n));
      CellsAppend(Between(txs, now - Span, WindowStart(now, n - 1)), Between(txs, WindowStart(now, n - 1), WindowStart(now, n)));
    }
  }

  /** The store query of `blockviz`: records created no earlier than the first
      window, ascending by creation time. */
  function Since(t: int): Record -> bool {
    (x: Record) => t <= x.createdAt
  }

  function Query(store: seq<Record>, now: int): (r: seq<Record>)
    ensures CreatedInOrder(r)
    ensures forall x :: x in r ==> now - Span <= x.createdAt
    ensures multiset(r) == multiset(Filter(store, Since(now - Span)))
  {
    var f := Filter(store, Since(now - Span));
    var r := SortBy(f, CreatedAtKey, false);
    SortedByCreation(r);
    assert forall x :: x in r ==> x in multiset(f);
    r
  }

  /** `blockviz(view)` with the clock reading `now` passed in. */
  method BlockvizView(db: Db, now: int) returns (r: Result<seq<seq<Cell>>>)
    ensures db.NoDb? <==> r.Err?
    ensures r.Err? ==> r.error == ExpectedDb
    ensures r.Ok? ==> |r.value| == BucketCount
    ensures r.Ok? ==> forall i :: 0 <= i < BucketCount ==>
              r.value[i] == Cells(Between(Query(db.records, now), WindowStart(now, i), WindowStart(now, i + 1)))
    ensures r.Ok? ==> Concat(r.value) == Cells(Between(Query(db.records, now), now - Span, now))
  {
    if db.NoDb? {
      return Err(ExpectedDb);
    }
    var buckets := Bucketize(Query(db.records, now), now);
    return Ok(buckets);
  }

  /** Each window of the query result holds, with multiplicity, exactly the
      stored records created in that window. */
  lemma WindowHoldsStoredRecords(store: seq<Record>, now: int, lo: int, hi: int)
    requires now - Span <= lo
    ensures forall x :: multiset(Between(Query(store, now), lo, hi))[x]
                     == if lo <= x.createdAt < hi then multiset(store)[x] else 0
  {
    BetweenCount(Query(store, now), lo, hi);
  }
}
