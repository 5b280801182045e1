/**
  The single-record views (src/views.js `tx` and `txs`): a record enriched
  with the records that target it, and the aggregate power of the group,
  each member signed by whether its emoji is on the deny list.
 */
module Detail {
  import opened JsValues
  import opened Sequences
  import opened Records
  import opened Enrich

  /** `BAD_EMOJIS`: thumbs down and angry face. */
  const BadEmojis: seq<string> := ["\U{1F44E}", "\U{1F620}"]

  /** How many records the related-record query returns at most. */
  const RelatedLimit: nat := 10

  /** `BAD_EMOJIS.indexOf(emoji) >= 0 ? -1 : 1`. */
  function Polarity(emoji: Field<string>): (p: int)
    ensures p == 1 || p == -1
    ensures p == -1 <==> emoji == Val("\U{1F44E}") || emoji == Val("\U{1F620}")
  {
    if emoji.Val? && IndexOf(BadEmojis, emoji.v) >= 0 then -1 else 1
  }

  /** `{ power: t.power, polarity: ... }` for one processed record. */
  function Entry(d: Detailed): PowerEntry {
    PowerEntry(d.power, Polarity(d.shown.rec.emoji))
  }

  /** The `powers` list of `tx`: the primary record first, then every related
      record in order. */
  function PowerEntries(primary: Detailed, related: seq<Detailed>): (r: seq<PowerEntry>)
    ensures |r| == 1 + |related|
    ensures r[0].power == primary.power
    ensures r[0].polarity == -1 <==> primary.shown.rec.emoji in {Val("\U{1F44E}"), Val("\U{1F620}")}
    ensures forall i :: 0 <= i < |related| ==> r[i + 1].power == related[i].power
    ensures forall i :: 0 <= i < |related| ==>
              (r[i + 1].polarity == -1 <==> related[i].shown.rec.emoji in {Val("\U{1F44E}"), Val("\U{1F620}")})
    ensures forall e :: e in r ==> e.polarity in {1, -1}
  {
    [Entry(primary)] + seq(|related|, i requires 0 <= i < |related| => Entry(related[i]))
  }

  /** `Math.floor(x * 100) / 100` on exact reals: `x` rounded down to a whole
      number of hundredths. */
  function Round2(x: real): (r: real)
    ensures r <= x < r + 0.01
    ensures (r * 100.0).Floor as real == r * 100.0
  {
    var c := (x * 100.0).Floor;
    assert c as real <= x * 100.0 < c as real + 1.0;
    (c as real) / 100.0
  }

  /** The store's equality match `{target: key}`: a `null` (or `undefined`) key
      matches a record whose `target` is `null` or missing. */
  predicate TargetMatches(target: Field<string>, key: Field<string>) {
    if key.Val? then target == key else !target.Val?
  }

  /** The filter `{$or: [{target: txid}, {target: minedNumber}]}`. */
  function TargetsAsWritten(txid: string, minedNumber: Field<string>): Record -> bool {
    (t: Record) => TargetMatches(t.target, Val(txid)) || TargetMatches(t.target, minedNumber)
  }

  /** The filter the query evidently means: records targeting the primary's
      `txid`, or its mined number when it has one. */
  function TargetsPrimary(txid: string, minedNumber: Field<string>): Record -> bool {
    (t: Record) => t.target == Val(txid) || (Truthy(minedNumber, "") && t.target == minedNumber)
  }

  /** `t.txid !== tx.txid`. */
  function Other(txid: string): Record -> bool {
    (t: Record) => t.txid != txid
  }

  /** The detail view: the processed record, `txs` (assigned only when there
      are related records) and the final `power`, which overwrites the
      record's own. */
  datatype TxDetail = TxDetail(tx: Detailed, txs: Field<seq<Detailed>>, power: real)

  function RelatedList(d: TxDetail): seq<Detailed> {
    if d.txs.Val? then d.txs.v else []
  }

  /** Everything `tx` does after the query: drop the primary itself from the
      (already limited) query result, process the rest, and aggregate the
      powers. */
  function Assemble(p: Detailed, found: seq<Record>, rate: Field<real>, kind: Field<string>, header: Field<string>, h: Helpers): (r: TxDetail)
    ensures r.tx == p
    ensures r.txs.Val? ==> |r.txs.v| > 0
    ensures |RelatedList(r)| == |Filter(found, Other(p.shown.rec.txid))|
    ensures forall i :: 0 <= i < |RelatedList(r)| ==>
              RelatedList(r)[i] == Process(Filter(found, Other(p.shown.rec.txid))[i], rate, kind, header, h)
    ensures forall d :: d in RelatedList(r) ==> d.shown.rec.txid != p.shown.rec.txid
    ensures r.power == Round2(h.aggregatepower(PowerEntries(p, RelatedList(r))))
  {
    var kept := Filter(found, Other(p.shown.rec.txid));
    var related := seq(|kept|, i requires 0 <= i < |kept| => Process(kept[i], rate, kind, header, h));
    assert forall i :: 0 <= i < |kept| ==> kept[i] in kept;
    var d := TxDetail(p, if |related| > 0 then Val(related) else Undefined, 0.0);
    assert RelatedList(d) == related;
    d.(power := Round2(h.aggregatepower(PowerEntries(p, related))))
  }

  /** The `target` values the as-written query accepts. */
  function WrittenTargets(txid: string, minedNumber: Field<string>): set<Field<string>> {
    {Val(txid)} + if Truthy(minedNumber, "") then {minedNumber} else {Undefined, Null}
  }

  /** The `target` values a related record evidently should have. */
  function IntendedTargets(txid: string, minedNumber: Field<string>): set<Field<string>> {
    {Val(txid)} + if Truthy(minedNumber, "") then {minedNumber} else {}
  }

  /** The records the related-record query returns, given the primary's `txid`
      and its `mined_number` as `process` left it: the first ten matching
      records in stored order. */
  function FindRelatedAsWritten(store: seq<Record>, txid: string, minedNumber: Field<string>): (r: seq<Record>)
    requires !minedNumber.Val? || Truthy(minedNumber, "")
    ensures r <= Filter(store, TargetsAsWritten(txid, minedNumber))
    ensures |r| == Capped(|Filter(store, TargetsAsWritten(txid, minedNumber))|, RelatedLimit)
    ensures |r| <= RelatedLimit
    ensures forall t :: t in r ==> t in store && t.target in WrittenTargets(txid, minedNumber)
  {
    var matching := Filter(store, TargetsAsWritten(txid, minedNumber));
    var found := Limit(matching, RelatedLimit);
    assert forall t :: t in found ==> t in matching;
    WrittenMatchTargets(found, txid, minedNumber);
    found
  }

  lemma WrittenMatchTargets(found: seq<Record>, txid: string, minedNumber: Field<string>)
    requires !minedNumber.Val? || Truthy(minedNumber, "")
    requires forall t :: t in found ==> TargetsAsWritten(txid, minedNumber)(t)
    ensures forall t :: t in found ==> t.target in WrittenTargets(txid, minedNumber)
  {
  }

  function FindRelated(store: seq<Record>, txid: string, minedNumber: Field<string>): (r: seq<Record>)
    ensures r <= Filter(store, TargetsPrimary(txid, minedNumber))
    ensures |r| == Capped(|Filter(store, TargetsPrimary(txid, minedNumber))|, RelatedLimit)
    ensures |r| <= RelatedLimit
    ensures forall t :: t in r ==> t in store && t.target in IntendedTargets(txid, minedNumber)
  {
    var matching := Filter(store, TargetsPrimary(txid, minedNumber));
    var found := Limit(matching, RelatedLimit);
    assert forall t :: t in found ==> t in matching;
    found
  }

  /** Two filters that agree on every record select the same records. */
  lemma {:induction false} FilterSame<T(!new)>(s: seq<T>, p: T -> bool, q: T -> bool)
    requires forall x :: p(x) == q(x)
    ensures Filter(s, p) == Filter(s, q)
    decreases |s|
  {
    if |s| > 0 {
      FilterSame(s[1..], p, q);
    }
  }

  /** For a primary with a mined number, the written and the intended queries
      are the same filter. */
  lemma QueriesAgreeWithMinedNumber(store: seq<Record>, txid: string, minedNumber: Field<string>)
    requires Truthy(minedNumber, "")
    ensures FindRelatedAsWritten(store, txid, minedNumber) == FindRelated(store, txid, minedNumber)
  {
    FilterSame(store, TargetsAsWritten(txid, minedNumber), TargetsPrimary(txid, minedNumber));
  }

  /** Dropping and processing records keeps each one's `target`. */
  lemma AssembleTargets(p: Detailed, found: seq<Record>, rate: Field<real>, kind: Field<string>, header: Field<string>, h: Helpers, targets: set<Field<string>>)
    requires forall t :: t in found ==> t.target in targets
    ensures forall d :: d in RelatedList(Assemble(p, found, rate, kind, header, h)) ==> d.shown.rec.target in targets
  {
    var related := RelatedList(Assemble(p, found, rate, kind, header, h));
    var kept := Filter(found, Other(p.shown.rec.txid));
    forall d | d in related
      ensures d.shown.rec.target in targets
    {
      var i :| 0 <= i < |related| && related[i] == d;
      assert kept[i] in kept;
    }
  }

  /** `tx({tx, hash, type, header})` as written: the related records are those
      whose `target` matches the primary's `txid` or its `mined_number` after
      `process` has set a falsy one to `null`. */
  function TxAsWritten(db: Db, primary: Record, fetched: Field<real>, kind: Field<string>, header: Field<string>, h: Helpers): (r: Result<TxDetail>)
    ensures db.NoDb? ==> r == Err(ExpectedDb)
    ensures db.Db? ==> (r.Err? <==> !Truthy(fetched, 0.0))
    ensures r.Err? && db.Db? ==> r.error == ExpectedRate
    ensures r.Ok? ==> r.value.tx == Process(primary, fetched, kind, header, h)
    ensures r.Ok? ==> |RelatedList(r.value)| <= RelatedLimit
    ensures r.Ok? ==> forall d :: d in RelatedList(r.value) ==> d.shown.rec.txid != primary.txid
    ensures r.Ok? ==> forall d :: d in RelatedList(r.value) ==>
              d.shown.rec.target in WrittenTargets(primary.txid, Normalise(primary).minedNumber)
    ensures r.Ok? ==>
              var kept := Filter(FindRelatedAsWritten(db.records, primary.txid, Normalise(primary).minedNumber), Other(primary.txid));
              && |RelatedList(r.value)| == |kept|
              && forall i :: 0 <= i < |kept| ==> RelatedList(r.value)[i] == Process(kept[i], fetched, kind, header, h)
    ensures r.Ok? ==> r.value.power == Round2(h.aggregatepower(PowerEntries(r.value.tx, RelatedList(r.value))))
  {
    if db.NoDb? then Err(ExpectedDb)
    else if !Truthy(fetched, 0.0) then Err(ExpectedRate)
    else
      var p := Process(primary, fetched, kind, header, h);
      var found := FindRelatedAsWritten(db.records, p.shown.rec.txid, p.shown.rec.minedNumber);
      AssembleTargets(p, found, fetched, kind, header, h, WrittenTargets(primary.txid, p.shown.rec.minedNumber));
      Ok(Assemble(p, found, fetched, kind, header, h))
  }

  /** `tx` with the related-record query restricted to what it evidently
      means: a primary without a mined number relates only to records that
      target its `txid`. */
  function Tx(db: Db, primary: Record, fetched: Field<real>, kind: Field<string>, header: Field<string>, h: Helpers): (r: Result<TxDetail>)
    ensures db.NoDb? ==> r == Err(ExpectedDb)
    ensures db.Db? ==> (r.Err? <==> !Truthy(fetched, 0.0))
    ensures r.Err? && db.Db? ==> r.error == ExpectedRate
    ensures r.Ok? ==> r.value.tx == Process(primary, fetched, kind, header, h)
    ensures r.Ok? ==> |RelatedList(r.value)| <= RelatedLimit
    ensures r.Ok? ==> forall d :: d in RelatedList(r.value) ==> d.shown.rec.txid != primary.txid
    ensures r.Ok? ==> forall d :: d in RelatedList(r.value) ==>
              d.shown.rec.target == Val(primary.txid) ||
              (Truthy(primary.minedNumber, "") && d.shown.rec.target == primary.minedNumber)
    ensures r.Ok? ==>
              var kept := Filter(FindRelated(db.records, primary.txid, Normalise(primary).minedNumber), Other(primary.txid));
              && |RelatedList(r.value)| == |kept|
              && forall i :: 0 <= i < |kept| ==> RelatedList(r.value)[i] == Process(kept[i], fetched, kind, header, h)
    ensures r.Ok? ==> r.value.power == Round2(h.aggregatepower(PowerEntries(r.value.tx, RelatedList(r.value))))
  {
    if db.NoDb? then Err(ExpectedDb)
    else if !Truthy(fetched, 0.0) then Err(ExpectedRate)
    else
      var p := Process(primary, fetched, kind, header, h);
      var found := FindRelated(db.records, p.shown.rec.txid, p.shown.rec.minedNumber);
      AssembleTargets(p, found, fetched, kind, header, h, IntendedTargets(primary.txid, p.shown.rec.minedNumber));
      Ok(Assemble(p, found, fetched, kind, header, h))
  }

  /** The two versions of `tx` differ only for a primary without a mined
      number: with one, the written query already means what it should. */
  lemma TxAgreesWithMinedNumber(db: Db, primary: Record, fetched: Field<real>, kind: Field<string>, header: Field<string>, h: Helpers)
    requires Truthy(primary.minedNumber, "")
    ensures TxAsWritten(db, primary, fetched, kind, header, h) == Tx(db, primary, fetched, kind, header, h)
  {
    if db.Db? {
      QueriesAgreeWithMinedNumber(db.records, primary.txid, primary.minedNumber);
    }
  }

  /** The power list of a detail view has one entry per record shown, the
      primary first, each signed by its emoji. */
  lemma TxPowerEntries(db: Db, primary: Record, fetched: Field<real>, kind: Field<string>, header: Field<string>, h: Helpers)
    requires db.Db? && Truthy(fetched, 0.0)
    ensures var d := Tx(db, primary, fetched, kind, header, h).value;
      var entries := PowerEntries(d.tx, RelatedList(d));
      && |entries| == 1 + |RelatedList(d)|
      && entries[0].power == d.tx.power
      && (entries[0].polarity == -1 <==> Normalise(primary).emoji in {Val("\U{1F44E}"), Val("\U{1F620}")})
      && d.power == Round2(h.aggregatepower(entries))
  {
  }

  /** Two unmined records, neither with a `target` nor a mined number. */
  const LonePrimary: Record := Record("a", "", 0, 0, false, Undefined, Undefined, Undefined, Undefined, Undefined)

  const Untargeted: Record := Record("b", "", 0, 0, false, Undefined, Undefined, Undefined, Undefined, Undefined)

  lemma WrittenQueryFindsBoth()
    ensures FindRelatedAsWritten([LonePrimary, Untargeted], "a", Null) == [LonePrimary, Untargeted]
  {
    var store := [LonePrimary, Untargeted];
    var written := TargetsAsWritten("a", Null);
    assert written(LonePrimary) && written(Untargeted);
    assert Filter([Untargeted], written) == [Untargeted] + Filter([], written);
    assert store[1..] == [Untargeted];
    assert Filter(store, written) == store;
  }

  lemma IntendedQueryFindsNone()
    ensures FindRelated([LonePrimary, Untargeted], "a", Null) == []
  {
    var store := [LonePrimary, Untargeted];
    var intended := TargetsPrimary("a", Null);
    assert !intended(LonePrimary) && !intended(Untargeted);
    assert Filter([Untargeted], intended) == Filter([], intended);
    assert store[1..] == [Untargeted];
    assert Filter(store, intended) == [];
  }

  lemma OnlyUntargetedIsOther()
    ensures Filter([LonePrimary, Untargeted], Other("a")) == [Untargeted]
  {
    var store := [LonePrimary, Untargeted];
    assert Filter([Untargeted], Other("a")) == [Untargeted] + Filter([], Other("a"));
    assert store[1..] == [Untargeted];
  }

  /** The query as written relates the two records above, the intended one
      does not. */
  lemma NullTargetCounterexample(h: Helpers)
    ensures |RelatedList(TxAsWritten(Db([LonePrimary, Untargeted]), LonePrimary, Val(1.0), Undefined, Undefined, h).value)| == 1
    ensures |RelatedList(Tx(Db([LonePrimary, Untargeted]), LonePrimary, Val(1.0), Undefined, Undefined, h).value)| == 0
  {
    var p := Process(LonePrimary, Val(1.0), Undefined, Undefined, h);
    assert p.shown.rec.txid == "a" && p.shown.rec.minedNumber == Null;
    WrittenQueryFindsBoth();
    IntendedQueryFindsNone();
    OnlyUntargetedIsOther();
  }

  /** The `txs` view. */
  datatype TxsView = TxsView(aggregatepower: real, txs: seq<Detailed>, hash: Field<string>, header: Field<string>, kind: Field<string>)

  /** The `powers` list of `txs`: an entry for each record with a truthy
      mined number, in order. */
  function ListPowers(items: seq<Detailed>): (r: seq<PowerEntry>)
    ensures |r| <= |items|
    ensures forall e :: e in r ==> e.polarity in {1, -1}
  {
    if |items| == 0 then []
    else
      var rest := ListPowers(items[1..]);
      if Truthy(items[0].shown.rec.minedNumber, "") then [Entry(items[0])] + rest else rest
  }

  /** Whether a processed record contributes to the `txs` power list. */
  predicate HasMinedNumber(d: Detailed) {
    Truthy(d.shown.rec.minedNumber, "")
  }

  /** `{ power, polarity }` for each record of a list, in order. */
  function Entries(ds: seq<Detailed>): (r: seq<PowerEntry>)
    ensures |r| == |ds|
    ensures forall i :: 0 <= i < |ds| ==> r[i] == Entry(ds[i])
  {
    if |ds| == 0 then [] else [Entry(ds[0])] + Entries(ds[1..])
  }

  /** The number of records with a truthy mined number. */
  function CountMinedNumbers(s: seq<Record>): nat {
    if |s| == 0 then 0
    else (if Truthy(s[0].minedNumber, "") then 1 else 0) + CountMinedNumbers(s[1..])
  }

  /** `txs({txs, hash, type, header})`: every given record is processed; only
      those with a truthy mined number contribute a power entry, and each of
      those entries carries a power. */
  function Txs(db: Db, txs: seq<Record>, fetched: Field<real>, hash: Field<string>, kind: Field<string>, header: Field<string>, h: Helpers): (r: Result<TxsView>)
    ensures db.NoDb? ==> r == Err(ExpectedDb)
    ensures db.Db? ==> (r.Err? <==> !Truthy(fetched, 0.0))
    ensures r.Err? && db.Db? ==> r.error == ExpectedRate
    ensures r.Ok? ==> |r.value.txs| == |txs|
    ensures r.Ok? ==> forall i :: 0 <= i < |txs| ==> r.value.txs[i].shown.rec == txs[i]
    ensures r.Ok? ==> forall i :: 0 <= i < |txs| ==> r.value.txs[i] == ListItem(txs[i], fetched, kind, header, h)
    ensures r.Ok? ==> forall i :: 0 <= i < |txs| ==>
              r.value.txs[i].bsvusd == h.satoshisToDollars(txs[i].value, EffectiveRate(txs[i], fetched))
    ensures r.Ok? ==> forall i :: 0 <= i < |txs| ==> (r.value.txs[i].power.Val? <==> Truthy(txs[i].minedNumber, ""))
    ensures r.Ok? ==> r.value.aggregatepower == Round2(h.aggregatepower(ListPowers(r.value.txs)))
    ensures r.Ok? ==> r.value.aggregatepower == Round2(h.aggregatepower(Entries(Filter(r.value.txs, HasMinedNumber))))
    ensures r.Ok? ==> r.value.hash == hash && r.value.header == header && r.value.kind == kind
  {
    if db.NoDb? then Err(ExpectedDb)
    else if !Truthy(fetched, 0.0) then Err(ExpectedRate)
    else
      var items := seq(|txs|, i requires 0 <= i < |txs| => ListItem(txs[i], fetched, kind, header, h));
      ListPowersAreEntries(items);
      Ok(TxsView(Round2(h.aggregatepower(ListPowers(items))), items, hash, header, kind))
  }

  lemma EntriesCons(d: Detailed, ds: seq<Detailed>)
    ensures Entries([d] + ds) == [Entry(d)] + Entries(ds)
  {
    assert ([d] + ds)[1..] == ds;
  }

  /** The `txs` power list is exactly the entries of the records with a
      truthy mined number, in order. */
  lemma {:induction false} ListPowersAreEntries(items: seq<Detailed>)
    ensures ListPowers(items) == Entries(Filter(items, HasMinedNumber))
    decreases |items|
  {
    if |items| > 0 {
      var rest := items[1..];
      ListPowersAreEntries(rest);
      FilterFirst(items, HasMinedNumber);
      if HasMinedNumber(items[0]) {
        EntriesCons(items[0], Filter(rest, HasMinedNumber));
      }
    }
  }

  /** The `txs` power list has one entry per record with a truthy mined
      number, each with a defined power. */
  lemma {:induction false} ListPowersSpec(items: seq<Detailed>)
    requires forall i :: 0 <= i < |items| ==> (items[i].power.Val? <==> Truthy(items[i].shown.rec.minedNumber, ""))
    ensures |ListPowers(items)| == CountMinedNumbers(seq(|items|, i requires 0 <= i < |items| => items[i].shown.rec))
    ensures forall e :: e in ListPowers(items) ==> e.power.Val?
  {
    if |items| > 0 {
      var recs := seq(|items|, i requires 0 <= i < |items| => items[i].shown.rec);
      var rest := items[1..];
      assert forall i :: 0 <= i < |rest| ==> rest[i] == items[i + 1];
      ListPowersSpec(rest);
      assert recs[1..] == seq(|rest|, i requires 0 <= i < |rest| => rest[i].shown.rec);
    }
  }

}
