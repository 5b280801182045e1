# powmarket view layer in Dafny

A functional model of the view-aggregation layer of powmarket (`src/views.js`),
a dashboard for proof-of-work "magic number" transactions. In the model:

- the document store is a sequence of `Record`s;
- each MongoDB query is a filter, then a sort, then a limit over that sequence;
- the helpers (`satoshisToDollars`, `timeago.format`, `humanReadableInterval`,
  `countpow`, `aggregatepower`, `numberWithCommas`) are arbitrary functions passed
  in a `Helpers` value;
- the price fetch `helpers.bsvusd()` and the clock reading in `blockviz` are parameters.

Every view returns a `Result`. These ways the source throws are modelled as an `Err`:

- a missing database handle, at the `expected db` guard (`ExpectedDb`);
- the dereference of a missing handle in `mined`, which has no guard (`DbTypeError`);
- a falsy price in `tx`, `txs` and `homepage` (`ExpectedRate`);
- a missing aggregation row in `dashboard` (`EmptyAggregate`).

A rejected price fetch is not among them (see "Left out").

Files and modules:

- `js_values.dfy` (`JsValues`): the JavaScript side. A field can be `undefined`,
  `null` or a value, and there is a truthiness test, `||` and `indexOf`.
- `sequences.dfy` (`Sequences`): `find`/`sort`/`limit` as `Filter`, a stable
  insertion `SortBy` and `Limit`. `Select` composes the three.
- `records.dfy` (`Records`): the stored document, the database handle, view errors
  and the helper signatures.
- `enrich.dfy` (`Enrich`): `processMagicNumber` and `process`.
- `lists.dfy` (`Lists`): `all`, `mined`, `unmined` and `dashboard`.
- `blockviz.dfy` (`Blockviz`): the 112 windows of 5400 seconds each.
- `detail.dfy` (`Detail`): `tx` and `txs`, with the power list and its deny-list polarity.
- `homepage.dfy` (`Homepage`): the composition of all of the above.

Behaviours of the code that a reader of the view names might not expect, and
that the model keeps as written:

- `dashboard` throws when no record is unmined. It does not report zero counts.
- A recorded mining rate is used when it is *truthy*, not merely when it is
  present, so a rate of 0 falls back to the live rate.
- `mined` has no database guard. An unset handle fails on dereference there
  (`DbTypeError`), not at the guard (`ExpectedDb`).
- `all` orders by `created_at`, newest first, although its result is named
  `recentlyMined` and stored under `view.mined`. Unmined records are included.

## Model

| member | source | states |
|---|---|---|
| Enrich.Truncate | src/views.js:22 | A magic number of at most 10 characters is shown unchanged. A longer one becomes its first 10 characters plus `...`. The result never exceeds 13 characters and always starts with a prefix of the original. |
| Enrich.TruncateIdempotent | src/views.js:22 | Truncating an already displayed magic number changes nothing. |
| Enrich.TruncateFixedPoints | src/views.js:22 | Truncation leaves a string unchanged exactly when it has at most 10 characters, or has 13 characters ending in `...`. |
| Enrich.TruncateExamples | src/views.js:22 | `abcdefghijklmnop` displays as `abcdefghij...` and `short` as itself. |
| Enrich.EffectiveRate | src/views.js:11-17 | The pricing rate is the record's `mined_bsvusd` when that is truthy, and the view's live rate otherwise. |
| Enrich.ProcessMagicNumber | src/views.js:9-24 | Enrichment leaves the stored record unchanged. The display date is the relative time of `created_at`. The dollar value uses the mining rate when it is truthy and the live rate otherwise. The mined date is the relative time of `mined_at` when that is truthy, and falls back to the display date otherwise. |
| Enrich.MinedRateIgnoresLiveRate | src/views.js:13-17 | A record with a truthy mining rate shows the same dollar value under any live rate. |
| Enrich.FalsyMinedRateUsesLiveRate | src/views.js:13-17 | A mining rate that is 0, `null` or absent falls back to the live rate. |
| Enrich.Normalise | src/views.js:46-52 | A falsy `emoji` or `mined_number` becomes `null`. A truthy one is kept. Truthiness is preserved, and no other field changes. |
| Enrich.MinedIn | src/views.js:36-38 | `mined_in` is set exactly when `mined_at` is truthy. It then holds the interval from creation to mining. |
| Enrich.Power | src/views.js:42-44 | `power` is set exactly when `mined_number` is truthy. It then holds `countpow(mined_number, magicnumber)`. |
| Enrich.Process | src/views.js:26-55 | `process` changes only `emoji` and `mined_number`, and adds the `processMagicNumber` display fields at the live rate. Its `bsvusd` is the value priced at the mining rate when that is truthy and at the live rate otherwise, and equals the displayed dollar value. `power` is `countpow` of the mined number, set only when that is truthy. `mined_in` is the mining interval, set only when `mined_at` is truthy. `type` and `header` are copied. |
| Enrich.ListItem | src/views.js:256-272 | The per-record step of `txs` keeps the record exactly as given, with no `null` defaults, and adds the `processMagicNumber` display fields. Its `bsvusd` is priced at the mining rate when that is truthy and at the given rate otherwise. `power` and `mined_in` hold the same values as in `process`. |
| Enrich.ProcessIsNormalisedListItem | src/views.js:26-55 | `process` equals the `txs` per-record step applied after the `null` defaults. |
| Enrich.ProcessIdempotent | src/views.js:26-55 | Processing an already processed record gives the same result again. |
| Sequences.SortBy | src/views.js:97 | A sort returns a permutation of its input that is ordered by the key. Missing or null keys come before numbers. |
| Sequences.Select | src/views.js:136 | A filter-sort-limit query returns only matching stored records, ordered by the key. It returns as many as match, up to the limit, where a limit of 0 means no limit. No matching record it leaves out ranks strictly above one it returns. |
| Sequences.InsertSorted | src/views.js:136 | Inserting into a sorted list keeps it sorted. |
| Lists.ResolveRate | src/views.js:93-95 | A truthy rate already on the view is kept. Otherwise the fetched rate is used unchecked. |
| Lists.All | src/views.js:90-104 | `all` fails without a database. Otherwise it lists the newest stored records, up to the limit, each stored record at most as often as it is stored. With no limit the list is a permutation of the store. Each one is enriched at the view's rate. No record left out is newer than one listed. |
| Lists.Mined | src/views.js:107-120 | `mined` fails on dereference without a database. Otherwise it lists only mined stored records, most recently mined first, up to the limit, each at most as often as it is stored. Each one is enriched at the view's rate, and none left out was mined later than one listed. |
| Lists.Unmined | src/views.js:122-143 | `unmined` lists only unmined stored records, up to the limit, each at most as often as it is stored and enriched at the view's rate. With `sortby === "profitable"` they are ordered by value, highest first, and none left out is worth more than one listed. Otherwise they are ordered newest first, and none left out is newer. |
| Lists.MinedUnminedPartition | src/views.js:66-77 | The mined and unmined counts add up to the store size. The mined and unmined satoshi totals add up to the store total. |
| Lists.UnminedSatoshis | src/views.js:77 | The unmined-total aggregation throws exactly when no record is unmined. Otherwise it is the store total minus the mined total. |
| Lists.DashboardView | src/views.js:59-87 | `dashboard` fails without a database, or when every record is mined. Otherwise it reports the mined count, the unmined count (store size minus mined count) and the unmined total priced at the view's rate. |
| Lists.EmptyStoreDashboardThrows | src/views.js:77 | An empty store makes `dashboard` throw. |
| Blockviz.FillBucket | src/views.js:162-169 | The inner loop takes exactly the leading remaining records created before the window's end. The bucket holds them as `{mined, power, txid}` cells. |
| Blockviz.Bucketize | src/views.js:153-174 | `blockviz` emits exactly 112 buckets from sorted input. Bucket i holds exactly the records created in [start + 5400·i, start + 5400·(i+1)), in input order. Laid end to end, the buckets are exactly the records created before `now`. |
| Blockviz.BetweenSplit | src/views.js:157-174 | For records sorted by creation time, two adjacent windows together hold the records of their union, in order. |
| Blockviz.ConcatWindows | src/views.js:157-174 | The first n buckets together hold exactly the records from the first window's start to the n-th window's end. |
| Blockviz.Query | src/views.js:153-154 | The `blockviz` query returns the stored records created no earlier than `now - 112·5400`, sorted ascending. |
| Blockviz.BlockvizView | src/views.js:146-179 | `blockviz` fails without a database. Otherwise it produces 112 buckets over the query result, each holding its window's records. |
| Blockviz.WindowHoldsStoredRecords | src/views.js:153-172 | Each window of the query result holds exactly the stored records created in it, with multiplicity. |
| Detail.Polarity | src/views.js:237 | Polarity is -1 exactly for the two deny-listed emoji, and +1 otherwise. |
| Detail.PowerEntries | src/views.js:236-241 | The `tx` power list has 1 + (number of related records) entries: the primary first, then the related records in order. Each carries its record's power and a polarity of ±1 set by the deny list. |
| Detail.Round2 | src/views.js:243 | `Math.floor(x*100)/100` is a whole number of hundredths, at most x and less than 0.01 below it. |
| Detail.Assemble | src/views.js:226-243 | The related list is the query result without the primary, in order and processed. `txs` is set only when that list is non-empty. No entry has the primary's `txid`. The final power aggregates the primary and the related records. |
| Detail.FindRelatedAsWritten | src/views.js:221-226 | The related query returns the first 10 matching stored records in stored order, or all of them when fewer match. A record matches when it targets the primary's `txid` or its mined number. When the primary has no mined number, a record may instead have no target at all. |
| Detail.FindRelated | src/views.js:221-226 | The intended related query returns the first 10 matching stored records in stored order, or all of them when fewer match. A record matches when it targets the primary's `txid`, or its mined number when the primary has one. |
| Detail.AssembleTargets | src/views.js:226-230 | Dropping and processing related records keeps each record's `target`. |
| Detail.TxAsWritten | src/views.js:213-246 | `tx` fails without a database or with a falsy price. Otherwise the primary is processed. The related list is the written query's result without the primary, each record processed at the fetched rate, in order. So at most 10 are listed and their targets are as the written query allows. `power` is the rounded aggregate over the primary and the related records. |
| Detail.Tx | src/views.js:213-246 | As `tx`, except that the related list comes from the intended query, so every related record targets the primary's `txid`, or its mined number when it has one. |
| Detail.QueriesAgreeWithMinedNumber | src/views.js:221-226 | For a primary with a truthy mined number, the written and the intended related queries return the same records. |
| Detail.TxAgreesWithMinedNumber | src/views.js:213-246 | For a primary with a truthy mined number, the written and the intended `tx` give the same result. The two differ only for primaries without one. |
| Detail.TxPowerEntries | src/views.js:236-243 | The aggregated power of `tx` is taken over 1 + (number of related records) entries. The primary's entry comes first and is negative exactly for a deny-listed emoji. |
| Detail.NullTargetCounterexample | src/views.js:221-226 | Take two records with no target, the primary also without a mined number. The written query relates them, and the intended one does not. |
| Detail.ListPowersAreEntries | src/views.js:271-274 | The `txs` power list is exactly the `{power, polarity}` entries of the records with a truthy mined number, in their order. |
| Detail.ListPowersSpec | src/views.js:254-274 | `txs` contributes one power entry per record with a truthy mined number, and every such entry carries a power. |
| Detail.Txs | src/views.js:248-287 | `txs` fails without a database or with a falsy price. Otherwise it returns every given record, in order and unchanged, each priced at the mining rate when truthy and at the fetched rate otherwise. Exactly the records with a truthy mined number carry a power. The aggregate is the rounded `aggregatepower` of the entries of those records, in order. |
| Homepage.Compose | src/views.js:181-210 | The homepage fails without a database, with a falsy price, or when every record is mined. Otherwise it has 112 buckets, each holding exactly the records of its `blockviz` window. Its dashboard is the `dashboard` result and its lists are the `mined` and `unmined` results (newest first), all computed at the one fetched rate. The list lengths follow the limits. |
| Homepage.HomepageAsWritten | src/views.js:181-210 | As written, the homepage lists are the `mined` and `unmined` results with the default limit, so up to 10000 of each. |
| Homepage.Homepage | src/views.js:181-210 | The intended homepage lists are the `mined` and `unmined` results limited to 20 and 10 records. |
| Homepage.HomepageListsPastTwenty | src/views.js:201-206 | With between 21 and 10000 mined records, the as-written homepage lists more than 20 of them. |

## Findings

| source | as written | input that shows it | evidently intended | confidence | as-written member | corrected member |
|---|---|---|---|---|---|---|
| src/views.js:221-226 | The related query matches `{target: tx.mined_number}` after `process` has set a falsy `mined_number` to `null`. The store's equality match on `null` also selects documents whose `target` is missing or `null`. | A primary without a mined number, in a store holding any other record without a target. | Only records targeting the primary's `txid`, or its mined number when it has one, are related. | medium, not executed | Detail.TxAsWritten, Detail.NullTargetCounterexample | Detail.Tx |
| src/views.js:201-206 | `homepage` sets `view.num` to 20 and then 10. `mined` and `unmined` never read it and use their default limit of 10000. | A store with 21 mined records. | At most 20 mined and 10 unmined records on the homepage. | high, not executed | Homepage.HomepageAsWritten, Homepage.HomepageListsPastTwenty | Homepage.Homepage |

## Left out

- `src/server.js` is not part of this model: HTTP routing, rendering, `apiify` and connection handling are all left out.
- The helpers are taken as arbitrary functions. Their definitions are not part of this model, so nothing is assumed about `satoshisToDollars`, `countpow`, `aggregatepower`, `timeago.format`, `humanReadableInterval` or `numberWithCommas`.
- Lists.DashboardView: `mined_earnings` is not modelled. It is a floating-point sum of parsed dollar strings (src/views.js:68-75).
- Lists.DashboardView: each view reads one consistent snapshot of the store (`db.records`). The source issues a separate query after each `await`: three in `dashboard` (src/views.js:66, 69, 77), and one per part of `homepage` (src/views.js:195-206). A concurrent writer, such as the mining worker setting `mined`, can change the store between them. So the source does not guarantee that the unmined count equals the store size minus the mined count. Nor does it guarantee that the throw at line 77 happens exactly when the counted records are all mined. Homepage.Compose assumes the same single snapshot for all four parts.
- Detail.Round2: uses exact reals. IEEE double rounding error in `x*100` is not modelled.
- Enrich.MinedIn: passes `mined_at - created_at` unchanged. `Math.floor(d*100)/100` is the identity on whole seconds, and timestamps are whole seconds.
- JavaScript truthiness covers `undefined`, `null`, `0` and `""`. `NaN` and values of unexpected types are not modelled.
- String lengths and `substr` count Unicode scalar values, while JavaScript counts UTF-16 code units. The two agree on magic numbers without astral characters.
- The store's order for equal sort keys is unspecified. The model uses a stable insertion sort, which is one admissible order, and proves only sortedness and permutation. Negative limits are not modelled.
- `dashboard` counts mined records with a loop over `find({mined: true})`. The model takes the length of the filtered sequence.
- A view returns its own datatype rather than assigning into a shared `view` object. `all` stores its list under `view.mined` in the source; here it is `ListView.items`.
- The `hash` argument of `tx` is passed to `process`, which ignores it, so the model has no `hash` argument for `tx`.
- The `console.log` timing lines of `homepage` are left out.
- The clock read of `blockviz` and the price fetch are parameters (`now`, `fetched`).
- A rejected `await helpers.bsvusd()` (src/views.js:63, 94, 110, 126, 189, 216, 251) is not modelled. `fetched` is the value the fetch resolved to, so a fetch that throws has no counterpart in the model.
