/**
  The homepage (src/views.js `homepage`): one price fetch, then the block
  visualisation, the dashboard and the mined and unmined lists, all priced
  at that one rate.
 */
module Homepage {
  import opened JsValues
  import opened Sequences
  import opened Records
  import opened Enrich
  import opened Lists
  import opened Blockviz

  /** How many mined and unmined records the homepage means to show
      (`view.num`). */
  const HomeMinedCount: nat := 20

  const HomeUnminedCount: nat := 10

  datatype Home = Home(
    bsvusd: real,
    blockviz: seq<seq<Cell>>,
    dashboard: Dashboard,
    num: int,
    mined: seq<Shown>,
    unmined: seq<Shown>)

  /** The homepage with the list limits the caller passes; `fetched` is the
      result of the price fetch and `now` the clock reading of `blockviz`. */
  method Compose(db: Db, fetched: Field<real>, now: int, h: Helpers, minedLimit: nat, unminedLimit: nat)
    returns (r: Result<Home>)
    ensures db.NoDb? ==> r == Err(ExpectedDb)
    ensures db.Db? && !Truthy(fetched, 0.0) ==> r == Err(ExpectedRate)
    ensures db.Db? && Truthy(fetched, 0.0) ==> (r.Err? <==> forall x :: x in db.records ==> x.mined)
    ensures r.Ok? ==> Val(r.value.bsvusd) == fetched && r.value.dashboard.bsvusd == fetched
    ensures r.Ok? ==> |r.value.blockviz| == BucketCount
    ensures r.Ok? ==> |r.value.mined| == Capped(|Filter(db.records, IsMined)|, minedLimit)
    ensures r.Ok? ==> |r.value.unmined| == Capped(|Filter(db.records, IsUnmined)|, unminedLimit)
    ensures r.Ok? ==> forall s :: s in r.value.mined ==> s == ProcessMagicNumber(s.rec, fetched, h)
    ensures r.Ok? ==> forall s :: s in r.value.unmined ==> s == ProcessMagicNumber(s.rec, fetched, h)
    ensures r.Ok? ==> r.value.dashboard == DashboardView(db, fetched, fetched, h).value
    ensures r.Ok? ==> r.value.mined == Mined(db, fetched, fetched, minedLimit, h).value.items
    ensures r.Ok? ==> r.value.unmined == Unmined(db, fetched, fetched, unminedLimit, Null, h).value.items
    ensures r.Ok? ==> forall i :: 0 <= i < BucketCount ==>
              r.value.blockviz[i] == Cells(Between(Query(db.records, now), WindowStart(now, i), WindowStart(now, i + 1)))
  {
    if db.NoDb? {
      return Err(ExpectedDb);
    }
    if !Truthy(fetched, 0.0) {
      return Err(ExpectedRate);
    }
    var bv := BlockvizView(db, now);
    var dash := DashboardView(db, fetched, fetched, h);
    if dash.Err? {
      return Err(dash.error);
    }
    var mined := Mined(db, fetched, fetched, minedLimit, h);
    var unmined := Unmined(db, fetched, fetched, unminedLimit, Null, h);
    r := Ok(Home(fetched.v, bv.value, dash.value, HomeUnminedCount, mined.value.items, unmined.value.items));
  }

  /** `homepage(view)` as written: it sets `view.num` to 20 and then 10, but
      `mined` and `unmined` never read it and use their default limit. */
  method HomepageAsWritten(db: Db, fetched: Field<real>, now: int, h: Helpers) returns (r: Result<Home>)
    ensures db.NoDb? ==> r == Err(ExpectedDb)
    ensures db.Db? && !Truthy(fetched, 0.0) ==> r == Err(ExpectedRate)
    ensures db.Db? && Truthy(fetched, 0.0) ==> (r.Err? <==> forall x :: x in db.records ==> x.mined)
    ensures r.Ok? ==> |r.value.mined| == Capped(|Filter(db.records, IsMined)|, DefaultLimit)
    ensures r.Ok? ==> |r.value.unmined| == Capped(|Filter(db.records, IsUnmined)|, DefaultLimit)
    ensures r.Ok? ==> r.value.mined == Mined(db, fetched, fetched, DefaultLimit, h).value.items
    ensures r.Ok? ==> r.value.unmined == Unmined(db, fetched, fetched, DefaultLimit, Null, h).value.items
  {
    r := Compose(db, fetched, now, h, DefaultLimit, DefaultLimit);
  }

  /** The homepage as evidently intended, with `view.num` as the list limits. */
  method Homepage(db: Db, fetched: Field<real>, now: int, h: Helpers) returns (r: Result<Home>)
    ensures db.NoDb? ==> r == Err(ExpectedDb)
    ensures db.Db? && !Truthy(fetched, 0.0) ==> r == Err(ExpectedRate)
    ensures db.Db? && Truthy(fetched, 0.0) ==> (r.Err? <==> forall x :: x in db.records ==> x.mined)
    ensures r.Ok? ==> |r.value.mined| <= HomeMinedCount && |r.value.unmined| <= HomeUnminedCount
    ensures r.Ok? ==> |r.value.mined| == Capped(|Filter(db.records, IsMined)|, HomeMinedCount)
    ensures r.Ok? ==> |r.value.unmined| == Capped(|Filter(db.records, IsUnmined)|, HomeUnminedCount)
    ensures r.Ok? ==> r.value.mined == Mined(db, fetched, fetched, HomeMinedCount, h).value.items
    ensures r.Ok? ==> r.value.unmined == Unmined(db, fetched, fetched, HomeUnminedCount, Null, h).value.items
  {
    r := Compose(db, fetched, now, h, HomeMinedCount, HomeUnminedCount);
  }

  /** With more than 20 mined records (and no more than the default limit),
      the as-written homepage lists them all. */
  lemma HomepageListsPastTwenty(db: Db, rate: Field<real>, h: Helpers)
    requires db.Db? && HomeMinedCount < |Filter(db.records, IsMined)| <= DefaultLimit
    ensures |Mined(db, rate, rate, DefaultLimit, h).value.items| > HomeMinedCount
  {
  }
}
