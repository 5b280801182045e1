/**
  Record enrichment (src/views.js `processMagicNumber` and `process`): the
  display fields added to a stored record before it reaches a template.
 */
module Enrich {
  import opened JsValues
  import opened Records

  /** How many characters of a magic number are displayed before the ellipsis. */
  const DisplayLength: nat := 10

  const Ellipsis: string := "..."

  /** `display_magicnumber`: the magic number cut to its first ten characters,
      marked with an ellipsis when anything was cut. */
  function Truncate(s: string): (r: string)
    ensures |s| <= DisplayLength ==> r == s
    ensures |s| > DisplayLength ==> r == s[..DisplayLength] + Ellipsis
    ensures |r| <= DisplayLength + |Ellipsis|
    ensures r[..if |s| <= DisplayLength then |s| else DisplayLength] == s[..if |s| <= DisplayLength then |s| else DisplayLength]
  {
    if |s| > DisplayLength then s[..DisplayLength] + Ellipsis else s
  }

  /** Truncating a displayed magic number again changes nothing. */
  lemma TruncateIdempotent(s: string)
    ensures Truncate(Truncate(s)) == Truncate(s)
  {
    if |s| > DisplayLength {
      assert (s[..DisplayLength] + Ellipsis)[..DisplayLength] == s[..DisplayLength];
    }
  }

  /** Exactly the short strings, and the long ones already shaped like a
      truncation, are displayed as they are. */
  lemma TruncateFixedPoints(s: string)
    ensures Truncate(s) == s <==>
      |s| <= DisplayLength || (|s| == DisplayLength + |Ellipsis| && s[DisplayLength..] == Ellipsis)
  {
    if |s| == DisplayLength + |Ellipsis| && s[DisplayLength..] == Ellipsis {
      assert s == s[..DisplayLength] + s[DisplayLength..];
    }
  }

  lemma TruncateExamples()
    ensures Truncate("abcdefghijklmnop") == "abcdefghij..."
    ensures Truncate("short") == "short"
  {
  }

  /** The rate a record is priced at: the one recorded at mining time when
      that field is truthy, else the live rate of the view. */
  function EffectiveRate(m: Record, live: Field<real>): (r: Field<real>)
    ensures Truthy(m.minedBsvUsd, 0.0) ==> r == m.minedBsvUsd
    ensures !Truthy(m.minedBsvUsd, 0.0) ==> r == live
  {
    if Truthy(m.minedBsvUsd, 0.0) then m.minedBsvUsd else live
  }

  /** A record together with the display fields `processMagicNumber` adds. */
  datatype Shown = Shown(
    rec: Record,
    displayDate: string,
    displayMinedDate: string,
    displayValue: string,
    displayMagicNumber: string)

  /** `processMagicNumber(m, view)`: adds the relative dates, the dollar value
      and the truncated magic number, leaving every stored field as it was. */
  function ProcessMagicNumber(m: Record, live: Field<real>, h: Helpers): (r: Shown)
    ensures r.rec == m
    ensures r.displayDate == h.timeago(m.createdAt * 1000)
    ensures Truthy(m.minedBsvUsd, 0.0) ==> r.displayValue == h.satoshisToDollars(m.value, m.minedBsvUsd)
    ensures !Truthy(m.minedBsvUsd, 0.0) ==> r.displayValue == h.satoshisToDollars(m.value, live)
    ensures Truthy(m.minedAt, 0) ==> r.displayMinedDate == h.timeago(m.minedAt.v * 1000)
    ensures !Truthy(m.minedAt, 0) ==> r.displayMinedDate == r.displayDate
    ensures r.displayMagicNumber == Truncate(m.magicNumber)
  {
    Shown(
      m,
      h.timeago(m.createdAt * 1000),
      h.timeago(Or(m.minedAt, m.createdAt) * 1000),
      h.satoshisToDollars(m.value, EffectiveRate(m, live)),
      Truncate(m.magicNumber))
  }

  /** A record priced at mining time displays the same value whatever the
      live rate is. */
  lemma MinedRateIgnoresLiveRate(m: Record, live1: Field<real>, live2: Field<real>, h: Helpers)
    requires Truthy(m.minedBsvUsd, 0.0)
    ensures ProcessMagicNumber(m, live1, h).displayValue == ProcessMagicNumber(m, live2, h).displayValue
  {
  }

  /** A mining rate of 0, `null` or absent falls back to the live rate. */
  lemma FalsyMinedRateUsesLiveRate(m: Record, live: Field<real>, h: Helpers)
    requires m.minedBsvUsd in {Undefined, Null, Val(0.0)}
    ensures ProcessMagicNumber(m, live, h).displayValue == h.satoshisToDollars(m.value, live)
  {
  }

  /** The lines of `process` that replace a falsy `emoji` and `mined_number`
      by `null`. */
  function Normalise(m: Record): (r: Record)
    ensures Truthy(r.emoji, "") <==> Truthy(m.emoji, "")
    ensures Truthy(m.emoji, "") ==> r.emoji == m.emoji
    ensures !Truthy(m.emoji, "") ==> r.emoji == Null
    ensures Truthy(r.minedNumber, "") <==> Truthy(m.minedNumber, "")
    ensures Truthy(m.minedNumber, "") ==> r.minedNumber == m.minedNumber
    ensures !Truthy(m.minedNumber, "") ==> r.minedNumber == Null
    ensures r.(emoji := m.emoji, minedNumber := m.minedNumber) == m
  {
    var e := if Truthy(m.emoji, "") then m.emoji else Null;
    var n := if Truthy(m.minedNumber, "") then m.minedNumber else Null;
    m.(emoji := e, minedNumber := n)
  }

  /** A record with the fields `process` adds on top of `processMagicNumber`:
      `bsvusd` (the dollar value again), `mined_in`, `type`, `header` and
      `power`. */
  datatype Detailed = Detailed(
    shown: Shown,
    bsvusd: string,
    minedIn: Field<string>,
    kind: Field<string>,
    header: Field<string>,
    power: Field<int>)

  /** `mined_in`: how long mining took, set only when `mined_at` is truthy. */
  function MinedIn(m: Record, h: Helpers): (r: Field<string>)
    ensures r.Val? <==> Truthy(m.minedAt, 0)
    ensures r.Val? ==> r.v == h.humanReadableInterval(m.minedAt.v - m.createdAt)
  {
    if Truthy(m.minedAt, 0) then Val(h.humanReadableInterval(m.minedAt.v - m.createdAt)) else Undefined
  }

  /** `power`: the record's proof-of-work score against its mined number, set
      only when `mined_number` is truthy. */
  function Power(m: Record, h: Helpers): (r: Field<int>)
    ensures r.Val? <==> Truthy(m.minedNumber, "")
    ensures r.Val? ==> r.v == h.countpow(m.minedNumber.v, m.magicNumber)
  {
    if Truthy(m.minedNumber, "") then Val(h.countpow(m.minedNumber.v, m.magicNumber)) else Undefined
  }

  /** `process({tx, bsvusd, type, header})`. Stored fields other than `emoji`
      and `mined_number` are kept; the two dollar values agree. */
  function Process(tx: Record, live: Field<real>, kind: Field<string>, header: Field<string>, h: Helpers): (r: Detailed)
    ensures r.shown.rec == Normalise(tx)
    ensures r.shown.rec.txid == tx.txid && r.shown.rec.value == tx.value
    ensures r.shown.rec.createdAt == tx.createdAt && r.shown.rec.magicNumber == tx.magicNumber
    ensures r.shown.(rec := tx) == ProcessMagicNumber(tx, live, h)
    ensures r.bsvusd == h.satoshisToDollars(tx.value, EffectiveRate(tx, live))
    ensures r.bsvusd == r.shown.displayValue
    ensures r.shown.displayMagicNumber == Truncate(tx.magicNumber)
    ensures r.power == Power(tx, h) && (r.power.Val? <==> Truthy(tx.minedNumber, ""))
    ensures r.minedIn == MinedIn(tx, h) && (r.minedIn.Val? <==> Truthy(tx.minedAt, 0))
    ensures r.kind == kind && r.header == header
  {
    var price :=
      if Truthy(tx.minedBsvUsd, 0.0) then h.satoshisToDollars(tx.value, tx.minedBsvUsd)
      else h.satoshisToDollars(tx.value, live);
    var shown := ProcessMagicNumber(tx, live, h);
    Detailed(shown.(rec := Normalise(tx)), price, MinedIn(tx, h), kind, header, Power(tx, h))
  }

  /** The per-record body of the `txs` view: `processMagicNumber` plus the
      `process` fields, without the `null` defaults for `emoji` and
      `mined_number`. */
  function ListItem(tx: Record, live: Field<real>, kind: Field<string>, header: Field<string>, h: Helpers): (r: Detailed)
    ensures r.shown == ProcessMagicNumber(tx, live, h)
    ensures r.bsvusd == h.satoshisToDollars(tx.value, EffectiveRate(tx, live))
    ensures r.bsvusd == r.shown.displayValue
    ensures r.power == Power(tx, h) && (r.power.Val? <==> Truthy(tx.minedNumber, ""))
    ensures r.minedIn == MinedIn(tx, h) && (r.minedIn.Val? <==> Truthy(tx.minedAt, 0))
    ensures r.kind == kind && r.header == header
  {
    var shown := ProcessMagicNumber(tx, live, h);
    var price :=
      if Truthy(tx.minedBsvUsd, 0.0) then h.satoshisToDollars(tx.value, tx.minedBsvUsd)
      else h.satoshisToDollars(tx.value, live);
    Detailed(shown, price, MinedIn(tx, h), kind, header, Power(tx, h))
  }

  /** `process` is the `txs` per-record step applied to the record with its
      falsy `emoji` and `mined_number` already replaced by `null`. */
  lemma ProcessIsNormalisedListItem(tx: Record, live: Field<real>, kind: Field<string>, header: Field<string>, h: Helpers)
    ensures Process(tx, live, kind, header, h) == ListItem(Normalise(tx), live, kind, header, h)
  {
  }

  /** Processing an already processed record changes nothing. */
  lemma ProcessIdempotent(tx: Record, live: Field<real>, kind: Field<string>, header: Field<string>, h: Helpers)
    ensures Process(Process(tx, live, kind, header, h).shown.rec, live, kind, header, h)
         == Process(tx, live, kind, header, h)
  {
  }
}
