/**
  The persisted "magic number" documents, the store handle the views read,
  the errors the views raise, and the external helpers they call.
 */
module Records {
  import opened JsValues
  import opened Sequences

  /** A document of the `magicnumbers` collection. Timestamps are Unix
      seconds; `value` is in satoshis; `minedBsvUsd` is the exchange rate
      recorded when the record was mined (`mined_bsvusd`). */
  datatype Record = Record(
    txid: string,
    magicNumber: string,
    value: int,
    createdAt: int,
    mined: bool,
    minedAt: Field<int>,
    minedBsvUsd: Field<real>,
    minedNumber: Field<string>,
    emoji: Field<string>,
    target: Field<string>)

  /** The module-level database handle: unset, or a connection to a store
      whose `magicnumbers` collection holds `records` in stored order. */
  datatype Db = NoDb | Db(records: seq<Record>)

  /** What a view throws. */
  datatype ViewError =
    | ExpectedDb      // the explicit `expected db` guard
    | DbTypeError     // a view without that guard dereferences the unset handle
    | ExpectedRate    // `expected bsvusd to be able to price homepage`
    | EmptyAggregate  // the unmined `$group` returned no row and `[0].amount` threw

  datatype Result<+T> = Ok(value: T) | Err(error: ViewError)

  /** The aggregation weight of one record: its power and its sign. */
  datatype PowerEntry = PowerEntry(power: Field<int>, polarity: int)

  /** The helpers the views call and whose definitions are not part of this
      model, taken as arbitrary functions. `timeago` receives milliseconds and
      carries its own reading of the clock. */
  datatype Helpers = Helpers(
    satoshisToDollars: (int, Field<real>) -> string,
    timeago: int -> string,
    humanReadableInterval: int -> string,
    countpow: (string, string) -> int,
    aggregatepower: seq<PowerEntry> -> real,
    numberWithCommas: int -> string)

  predicate IsMined(r: Record) { r.mined }

  predicate IsUnmined(r: Record) { !r.mined }

  /** Sort keys of the views' `.sort(...)` calls. */
  function CreatedAtKey(r: Record): Key { Num(r.createdAt) }

  function ValueKey(r: Record): Key { Num(r.value) }

  function MinedAtKey(r: Record): Key {
    if r.minedAt.Val? then Num(r.minedAt.v) else Low
  }
}
