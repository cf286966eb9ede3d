/** Decoding of the quote provider's time-series response into per-pair price
    records (`fetchPricesFromTwelveData`). The HTTP request is not modelled:
    the decoded JSON body is the input, with the numeric fields of each bar
    already read by `parseFloat`. */
module PriceFeed {
  import opened Wrappers

  /** One bar of a `values` list. `volume` is `None` when the field is absent. */
  datatype Bar = Bar(open: real, close: real, high: real, low: real, volume: Option<string>)

  /** A value of a symbol-keyed response: `null`/`undefined`, a scalar (a
      number, string or boolean), or an object with its `status` (`""` when
      absent) and its `values` list (`[]` when absent). */
  datatype Entry = Null | Scalar | Object(status: string, values: seq<Bar>)

  /** The parsed body. `Flat` is a body with both `meta` and `values` (its
      `symbol` is `""` when `meta.symbol` is absent or empty); `Keyed` is any
      other body, seen through `Object.entries`; `Thrown` is a request or a
      JSON parse that threw. */
  datatype Response =
    | Flat(symbol: string, values: seq<Bar>)
    | Keyed(entries: seq<(string, Entry)>)
    | Thrown

  /** A `price_summary`-shaped record. */
  datatype PriceData = PriceData(
    pair: string,
    currentPrice: real,
    highPrice: real,
    lowPrice: real,
    openPrice: real,
    volume: string,
    changeAmount: real,
    changePercent: real)

  /** The record built from the most recent bar. */
  function ToPriceData(pair: string, latest: Bar): (p: PriceData)
    requires latest.open != 0.0
    ensures p.pair == pair && p.currentPrice == latest.close && p.openPrice == latest.open
    ensures p.highPrice == latest.high && p.lowPrice == latest.low
    ensures p.changeAmount == p.currentPrice - p.openPrice
    ensures p.changePercent * p.openPrice == p.changeAmount * 100.0
    ensures p.volume == if latest.volume.Some? && latest.volume.value != "" then latest.volume.value else "0"
  {
    var change := latest.close - latest.open;
    var volume := if latest.volume.Some? && latest.volume.value != "" then latest.volume.value else "0";
    PriceData(pair, latest.close, latest.high, latest.low, latest.open, volume, change, change / latest.open * 100.0)
  }

  /** An entry that yields a record: an object whose status is not `error`
      and whose `values` list is non-empty. */
  predicate Usable(e: Entry) {
    e.Object? && e.status != "error" && e.values != []
  }

  /** No `null` entry comes before position `i`. */
  predicate NoNullBefore(es: seq<(string, Entry)>, i: int) {
    forall k :: 0 <= k < i && k < |es| ==> !es[k].1.Null?
  }

  /** Division by a zero opening price (NaN or Infinity) is not modelled.
      Only the entries read before the first `null` one are constrained. */
  predicate OpensNonZero(es: seq<(string, Entry)>) {
    forall i :: 0 <= i < |es| && NoNullBefore(es, i) && Usable(es[i].1) ==> es[i].1.values[0].open != 0.0
  }

  /** Past a non-`null` first entry, the rest is constrained the same way. */
  lemma OpensNonZeroRest(es: seq<(string, Entry)>)
    requires es != [] && !es[0].1.Null? && OpensNonZero(es)
    ensures OpensNonZero(es[1..])
  {
    var rest := es[1..];
    forall i | 0 <= i < |rest| && NoNullBefore(rest, i) && Usable(rest[i].1)
      ensures rest[i].1.values[0].open != 0.0
    {
      assert NoNullBefore(es, i + 1) by {
        forall k | 0 <= k < i + 1 && k < |es| ensures !es[k].1.Null? {
          if k > 0 {
            assert es[k] == rest[k - 1];
          }
        }
      }
      assert es[i + 1] == rest[i];
    }
  }

  predicate WellFormed(response: Response) {
    match response
    case Flat(_, values) => values != [] ==> values[0].open != 0.0
    case Keyed(entries) => OpensNonZero(entries)
    case Thrown => true
  }

  /** A response whose first entry is `null` constrains nothing. */
  lemma OpensNonZeroNullFirst(es: seq<(string, Entry)>)
    requires es != [] && es[0].1.Null?
    ensures OpensNonZero(es)
  {
    forall i | 0 < i < |es| ensures !NoNullBefore(es, i) {
      assert 0 < i && es[0].1.Null?;
    }
  }

  /** A non-`null` first entry with a usable open, before a constrained rest. */
  lemma OpensNonZeroCons(es: seq<(string, Entry)>)
    requires es != [] && !es[0].1.Null? && OpensNonZero(es[1..])
    requires Usable(es[0].1) ==> es[0].1.values[0].open != 0.0
    ensures OpensNonZero(es)
  {
    forall i | 0 < i < |es| && NoNullBefore(es, i) && Usable(es[i].1)
      ensures es[i].1.values[0].open != 0.0
    {
      assert NoNullBefore(es[1..], i - 1) by {
        forall k | 0 <= k < i - 1 && k < |es| - 1 ensures !es[1..][k].1.Null? {
          assert es[1..][k] == es[k + 1];
        }
      }
      assert es[1..][i - 1] == es[i];
    }
  }

  /** The records of a keyed response: one per usable entry, in order; a
      `null` entry throws, which ends decoding with the records already
      built. */
  function DecodeEntries(es: seq<(string, Entry)>): (out: seq<PriceData>)
    requires OpensNonZero(es)
    ensures |out| <= |es|
  {
    if es == [] then []
    else
      var (symbol, e) := es[0];
      if e.Null? then []
      else
        OpensNonZeroRest(es);
        assert NoNullBefore(es, 0);
        if Usable(e) then [ToPriceData(symbol, e.values[0])] + DecodeEntries(es[1..])
        else DecodeEntries(es[1..])
  }

  /** The pair of a flat response: `meta.symbol || pairs[0]` (an absent
      `pairs[0]` is read as `""`). */
  function FlatPair(symbol: string, pairs: seq<string>): string {
    if symbol != "" then symbol else if pairs != [] then pairs[0] else ""
  }

  /** What `fetchPricesFromTwelveData` returns for a response. */
  function Decode(response: Response, pairs: seq<string>): seq<PriceData>
    requires WellFormed(response)
  {
    match response
    case Flat(symbol, values) =>
      // `values[0]` of an empty list is undefined and reading it throws
      if values == [] then [] else [ToPriceData(FlatPair(symbol, pairs), values[0])]
    case Keyed(entries) => DecodeEntries(entries)
    case Thrown => []
  }

  /** `fetchPricesFromTwelveData` after the request: push a record per usable
      entry; a thrown error keeps what was pushed so far. */
  method FetchPrices(response: Response, pairs: seq<string>) returns (results: seq<PriceData>)
    requires WellFormed(response)
    ensures results == Decode(response, pairs)
  {
    results := [];
    match response {
      case Thrown =>
      case Flat(symbol, values) =>
        if values != [] {
          var latest := values[0];
          results := results + [ToPriceData(FlatPair(symbol, pairs), latest)];
        }
      case Keyed(entries) =>
        var i := 0;
        while i < |entries|
          invariant 0 <= i <= |entries|
          invariant OpensNonZero(entries[i..])
          invariant results + DecodeEntries(entries[i..]) == DecodeEntries(entries)
        {
          var (symbol, result) := entries[i];
          assert entries[i..][1..] == entries[i + 1..];
          if result.Null? {
            // reading `status` of null throws; the catch keeps `results`
            return;
          }
          OpensNonZeroRest(entries[i..]);
          if result.Object? && result.status == "error" {
            i := i + 1;
            continue;
          }
          if !(result.Object? && result.values != []) {
            i := i + 1;
            continue;
          }
          var latest := result.values[0];
          results := results + [ToPriceData(symbol, latest)];
          i := i + 1;
        }
    }
  }

  /** An errored or empty entry contributes nothing: removing it does not
      change the records. */
  lemma {:induction false} SkippedEntryIsIrrelevant(es: seq<(string, Entry)>, k: nat)
    requires OpensNonZero(es) && k < |es|
    requires es[k].1.Scalar? || (es[k].1.Object? && !Usable(es[k].1))
    ensures OpensNonZero(es[..k] + es[k + 1..])
    ensures DecodeEntries(es[..k] + es[k + 1..]) == DecodeEntries(es)
  {
    var rest := es[..k] + es[k + 1..];
    if k == 0 {
      assert rest == es[1..];
      OpensNonZeroRest(es);
    } else if es[0].1.Null? {
      assert rest[0] == es[0];
      OpensNonZeroNullFirst(rest);
    } else {
      assert rest[0] == es[0];
      assert rest[1..] == es[1..][..k - 1] + es[1..][k..];
      OpensNonZeroRest(es);
      SkippedEntryIsIrrelevant(es[1..], k - 1);
      assert NoNullBefore(es, 0);
      OpensNonZeroCons(rest);
    }
  }

  /** A `null` entry stops decoding: only the records before it are kept. */
  lemma {:induction false} NullEntryStops(es: seq<(string, Entry)>, k: nat)
    requires OpensNonZero(es) && k < |es| && es[k].1.Null?
    ensures DecodeEntries(es) == DecodeEntries(es[..k])
  {
    if k > 0 && !es[0].1.Null? {
      assert es[..k][1..] == es[1..][..k - 1];
      OpensNonZeroRest(es);
      NullEntryStops(es[1..], k - 1);
    }
  }

  /** When every entry is usable, there is one record per entry, in order,
      carrying the entry's symbol and its latest close. */
  lemma {:induction false} AllUsableDecodeOnePerEntry(es: seq<(string, Entry)>)
    requires forall i :: 0 <= i < |es| ==> Usable(es[i].1)
    requires forall i :: 0 <= i < |es| ==> es[i].1.Object? && es[i].1.values != [] && es[i].1.values[0].open != 0.0
    ensures |DecodeEntries(es)| == |es|
    ensures forall i :: 0 <= i < |es| ==>
      DecodeEntries(es)[i] == ToPriceData(es[i].0, es[i].1.values[0])
  {
    if es != [] {
      AllUsableDecodeOnePerEntry(es[1..]);
    }
  }

  /** A flat response names its record by `meta.symbol`, or by the first
      requested pair when the symbol is absent. */
  lemma FlatResponseOneRecord(symbol: string, values: seq<Bar>, pairs: seq<string>)
    requires values != [] && values[0].open != 0.0
    ensures |Decode(Flat(symbol, values), pairs)| == 1
    ensures symbol != "" ==> Decode(Flat(symbol, values), pairs)[0].pair == symbol
    ensures symbol == "" && pairs != [] ==> Decode(Flat(symbol, values), pairs)[0].pair == pairs[0]
  {
  }

  /** One erroring pair among two: only the good pair is returned. */
  lemma OneErroringPairExample(bar: Bar)
    requires bar.open != 0.0
    ensures Decode(Keyed([("EUR/USD", Object("error", [])), ("XAU/USD", Object("ok", [bar]))]), ["EUR/USD", "XAU/USD"])
         == [ToPriceData("XAU/USD", bar)]
  {
    var es := [("EUR/USD", Object("error", [])), ("XAU/USD", Object("ok", [bar]))];
    assert DecodeEntries(es) == DecodeEntries(es[1..]);
    assert es[1..][1..] == [];
    assert DecodeEntries(es[1..]) == [ToPriceData("XAU/USD", bar)] + DecodeEntries([]);
  }
}
