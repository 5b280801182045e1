/**
  The list views (src/views.js `all`, `mined`, `unmined`) and the counts of
  `dashboard`: each is a store query (filter, sort, limit) followed by
  enrichment of every record found, priced at the view's rate.
 */
module Lists {
  import opened JsValues
  import opened Sequences
  import opened Records
  import opened Enrich

  /** The default `limit` argument of the list views. */
  const DefaultLimit: nat := 10000

  /** `if (!view.bsvusd) view.bsvusd = await helpers.bsvusd()`: a rate already
      on the view is kept, otherwise the freshly fetched one is used as it
      comes (the list views do not check it). */
  function ResolveRate(viewRate: Field<real>, fetched: Field<real>): (r: Field<real>)
    ensures Truthy(viewRate, 0.0) ==> r == viewRate
    ensures !Truthy(viewRate, 0.0) ==> r == fetched
  {
    if Truthy(viewRate, 0.0) then viewRate else fetched
  }

  /** A view carrying the resolved rate and an enriched list. */
  datatype ListView = ListView(bsvusd: Field<real>, items: seq<Shown>)

  /** `found.map(m => processMagicNumber(m, view))`. */
  function EnrichAll(found: seq<Record>, rate: Field<real>, h: Helpers): (r: seq<Shown>)
    ensures |r| == |found|
    ensures forall i :: 0 <= i < |found| ==> r[i] == ProcessMagicNumber(found[i], rate, h)
  {
    seq(|found|, i requires 0 <= i < |found| => ProcessMagicNumber(found[i], rate, h))
  }

  /** The stored records behind an enriched list. */
  function Recs(items: seq<Shown>): (r: seq<Record>)
    ensures |r| == |items|
    ensures forall i :: 0 <= i < |items| ==> r[i] == items[i].rec
  {
    seq(|items|, i requires 0 <= i < |items| => items[i].rec)
  }

  lemma RecsOfEnrichAll(found: seq<Record>, rate: Field<real>, h: Helpers)
    ensures Recs(EnrichAll(found, rate, h)) == found
  {
  }

  /** The empty filter `{}`. */
  predicate Everything(r: Record) { true }

  lemma {:induction false} FilterEverything(s: seq<Record>)
    ensures Filter(s, Everything) == s
  {
    if |s| > 0 {
      FilterEverything(s[1..]);
      assert s == [s[0]] + s[1..];
    }
  }

  lemma NewestFirst(found: seq<Record>, pool: seq<Record>)
    requires forall x, y :: x in found && y in multiset(pool) - multiset(found) ==>
               InOrder(CreatedAtKey(x), CreatedAtKey(y), true)
    ensures forall x, y :: x in found && y in multiset(pool) - multiset(found) ==> y.createdAt <= x.createdAt
  {
    forall x, y | x in found && y in multiset(pool) - multiset(found)
      ensures y.createdAt <= x.createdAt
    {
      assert InOrder(CreatedAtKey(x), CreatedAtKey(y), true);
    }
  }

  lemma MostValuableFirst(found: seq<Record>, pool: seq<Record>)
    requires forall x, y :: x in found && y in multiset(pool) - multiset(found) ==>
               InOrder(ValueKey(x), ValueKey(y), true)
    ensures forall x, y :: x in found && y in multiset(pool) - multiset(found) ==> y.value <= x.value
  {
    forall x, y | x in found && y in multiset(pool) - multiset(found)
      ensures y.value <= x.value
    {
      assert InOrder(ValueKey(x), ValueKey(y), true);
    }
  }

  /** `all(view, limit)`: every record, newest first. */
  function All(db: Db, viewRate: Field<real>, fetched: Field<real>, limit: nat, h: Helpers): (r: Result<ListView>)
    ensures db.NoDb? <==> r.Err?
    ensures r.Err? ==> r.error == ExpectedDb
    ensures r.Ok? ==> r.value.bsvusd == ResolveRate(viewRate, fetched)
    ensures r.Ok? ==> forall s :: s in r.value.items ==> s == ProcessMagicNumber(s.rec, r.value.bsvusd, h)
    ensures r.Ok? ==> |r.value.items| == Capped(|db.records|, limit)
    ensures r.Ok? ==> forall x :: x in Recs(r.value.items) ==> x in db.records
    ensures r.Ok? ==> multiset(Recs(r.value.items)) <= multiset(db.records)
    ensures r.Ok? ==> Sorted(Recs(r.value.items), CreatedAtKey, true)
    ensures r.Ok? ==> forall x, y :: x in Recs(r.value.items) && y in multiset(db.records) - multiset(Recs(r.value.items)) ==>
              y.createdAt <= x.createdAt
  {
    if db.NoDb? then Err(ExpectedDb)
    else
      var rate := ResolveRate(viewRate, fetched);
      var found := Select(db.records, Everything, CreatedAtKey, true, limit);
      FilterEverything(db.records);
      NewestFirst(found, db.records);
      RecsOfEnrichAll(found, rate, h);
      Ok(ListView(rate, EnrichAll(found, rate, h)))
  }

  /** `mined(view, limit)`: mined records, most recently mined first. This view
      has no `expected db` guard, so an unset handle fails on dereference. */
  function Mined(db: Db, viewRate: Field<real>, fetched: Field<real>, limit: nat, h: Helpers): (r: Result<ListView>)
    ensures db.NoDb? <==> r.Err?
    ensures r.Err? ==> r.error == DbTypeError
    ensures r.Ok? ==> r.value.bsvusd == ResolveRate(viewRate, fetched)
    ensures r.Ok? ==> forall s :: s in r.value.items ==> s == ProcessMagicNumber(s.rec, r.value.bsvusd, h)
    ensures r.Ok? ==> |r.value.items| == Capped(|Filter(db.records, IsMined)|, limit)
    ensures r.Ok? ==> forall x :: x in Recs(r.value.items) ==> x in db.records && x.mined
    ensures r.Ok? ==> multiset(Recs(r.value.items)) <= multiset(Filter(db.records, IsMined))
    ensures r.Ok? ==> Sorted(Recs(r.value.items), MinedAtKey, true)
    ensures r.Ok? ==> forall x, y :: x in Recs(r.value.items) && y in multiset(Filter(db.records, IsMined)) - multiset(Recs(r.value.items)) ==>
              KeyLe(MinedAtKey(y), MinedAtKey(x))
  {
    if db.NoDb? then Err(DbTypeError)
    else
      var rate := ResolveRate(viewRate, fetched);
      var found := Select(db.records, IsMined, MinedAtKey, true, limit);
      RecsOfEnrichAll(found, rate, h);
      Ok(ListView(rate, EnrichAll(found, rate, h)))
  }

  /** The sort of `unmined`: by value for `sortby === "profitable"`, by creation
      time for anything else. */
  function UnminedKey(sortby: Field<string>): Record -> Key {
    if sortby == Val("profitable") then ValueKey else CreatedAtKey
  }

  lemma UnminedRanked(found: seq<Record>, pool: seq<Record>, sortby: Field<string>)
    requires forall x, y :: x in found && y in multiset(pool) - multiset(found) ==>
               InOrder(UnminedKey(sortby)(x), UnminedKey(sortby)(y), true)
    ensures forall x, y :: x in found && y in multiset(pool) - multiset(found) ==>
              if sortby == Val("profitable") then y.value <= x.value else y.createdAt <= x.createdAt
  {
    if sortby == Val("profitable") {
      MostValuableFirst(found, pool);
    } else {
      NewestFirst(found, pool);
    }
  }

  /** `unmined(view, limit, sortby)`: unmined records, most valuable or newest
      first. */
  function Unmined(db: Db, viewRate: Field<real>, fetched: Field<real>, limit: nat, sortby: Field<string>, h: Helpers): (r: Result<ListView>)
    ensures db.NoDb? <==> r.Err?
    ensures r.Err? ==> r.error == ExpectedDb
    ensures r.Ok? ==> r.value.bsvusd == ResolveRate(viewRate, fetched)
    ensures r.Ok? ==> forall s :: s in r.value.items ==> s == ProcessMagicNumber(s.rec, r.value.bsvusd, h)
    ensures r.Ok? ==> |r.value.items| == Capped(|Filter(db.records, IsUnmined)|, limit)
    ensures r.Ok? ==> forall x :: x in Recs(r.value.items) ==> x in db.records && !x.mined
    ensures r.Ok? ==> multiset(Recs(r.value.items)) <= multiset(Filter(db.records, IsUnmined))
    ensures r.Ok? && sortby == Val("profitable") ==> Sorted(Recs(r.value.items), ValueKey, true)
    ensures r.Ok? && sortby != Val("profitable") ==> Sorted(Recs(r.value.items), CreatedAtKey, true)
    ensures r.Ok? ==> forall x, y :: x in Recs(r.value.items) && y in multiset(Filter(db.records, IsUnmined)) - multiset(Recs(r.value.items)) ==>
              if sortby == Val("profitable") then y.value <= x.value else y.createdAt <= x.createdAt
  {
    if db.NoDb? then Err(ExpectedDb)
    else
      var rate := ResolveRate(viewRate, fetched);
      var found := Select(db.records, IsUnmined, UnminedKey(sortby), true, limit);
      UnminedRanked(found, Filter(db.records, IsUnmined), sortby);
      RecsOfEnrichAll(found, rate, h);
      Ok(ListView(rate, EnrichAll(found, rate, h)))
  }

  /** The sum of the `value` fields. */
  function SumValues(s: seq<Record>): int {
    if |s| == 0 then 0 else s[0].value + SumValues(s[1..])
  }

  /** Splitting the store into mined and unmined records splits both the
      record count and the satoshi total. */
  lemma {:induction false} MinedUnminedPartition(s: seq<Record>)
    ensures |Filter(s, IsMined)| + |Filter(s, IsUnmined)| == |s|
    ensures SumValues(Filter(s, IsMined)) + SumValues(Filter(s, IsUnmined)) == SumValues(s)
  {
    if |s| > 0 {
      MinedUnminedPartition(s[1..]);
      if s[0].mined {
        assert Filter(s, IsMined) == [s[0]] + Filter(s[1..], IsMined);
        assert Filter(s, IsUnmined) == Filter(s[1..], IsUnmined);
      } else {
        assert Filter(s, IsMined) == Filter(s[1..], IsMined);
        assert Filter(s, IsUnmined) == [s[0]] + Filter(s[1..], IsUnmined);
      }
    }
  }

  /** The `$group` aggregation summing unmined values, read through `[0].amount`:
      it yields no row, and the read throws, when nothing is unmined. */
  function UnminedSatoshis(store: seq<Record>): (r: Result<int>)
    ensures r.Err? <==> forall x :: x in store ==> x.mined
    ensures r.Err? ==> r.error == EmptyAggregate
    ensures r.Ok? ==> r.value == SumValues(store) - SumValues(Filter(store, IsMined))
    ensures r.Ok? ==> r.value == SumValues(Filter(store, IsUnmined))
  {
    var unmined := Filter(store, IsUnmined);
    MinedUnminedPartition(store);
    if |unmined| == 0 then
      Err(EmptyAggregate)
    else
      assert unmined[0] in store && !unmined[0].mined;
      Ok(SumValues(unmined))
  }

  /** The `dashboard` object; the summed dollar earnings of mined records are
      not part of this model. */
  datatype Dashboard = Dashboard(bsvusd: Field<real>, minedNum: string, unminedNum: string, unminedEarnings: string)

  /** `dashboard(view)`: the mined and unmined counts and the live dollar value
      of everything not yet mined. */
  function DashboardView(db: Db, viewRate: Field<real>, fetched: Field<real>, h: Helpers): (r: Result<Dashboard>)
    ensures db.NoDb? ==> r == Err(ExpectedDb)
    ensures db.Db? ==> (r.Err? <==> forall x :: x in db.records ==> x.mined)
    ensures r.Err? && db.Db? ==> r.error == EmptyAggregate
    ensures r.Ok? ==> r.value.bsvusd == ResolveRate(viewRate, fetched)
    ensures r.Ok? ==> r.value.minedNum == h.numberWithCommas(|Filter(db.records, IsMined)|)
    ensures r.Ok? ==> r.value.unminedNum == h.numberWithCommas(|db.records| - |Filter(db.records, IsMined)|)
    ensures r.Ok? ==>
              r.value.unminedEarnings == h.satoshisToDollars(SumValues(Filter(db.records, IsUnmined)), r.value.bsvusd)
  {
    if db.NoDb? then Err(ExpectedDb)
    else
      var rate := ResolveRate(viewRate, fetched);
      var unminedNum := |Filter(db.records, IsUnmined)|;
      var minedNum := |Filter(db.records, IsMined)|;
      MinedUnminedPartition(db.records);
      var satoshis := UnminedSatoshis(db.records);
      if satoshis.Err? then Err(satoshis.error)
      else
        Ok(Dashboard(rate, h.numberWithCommas(minedNum), h.numberWithCommas(unminedNum), h.satoshisToDollars(satoshis.value, rate)))
  }

  /** An empty store makes `dashboard` throw rather than report zero counts. */
  lemma EmptyStoreDashboardThrows(viewRate: Field<real>, fetched: Field<real>, h: Helpers)
    ensures DashboardView(Db([]), viewRate, fetched, h) == Err(EmptyAggregate)
  {
  }
}
