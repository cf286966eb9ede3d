/** The technical-indicator update (`update-indicators`): threshold buckets for
    RSI, MACD and ATR, the per-pair processing loops and the handler that
    parses the configured pairs and concatenates the readings. The quote
    provider's responses and the stored prices are inputs; the writes to the
    `technical_indicators` table are not modelled. */
module Indicators {
  import opened Wrappers
  import opened JsMath
  import opened Text
  import opened SystemConfig

  /** A status label and the colour shown with it. */
  datatype StatusInfo = StatusInfo(status: string, color: string)

  /** `getRSIStatus`: above 70 is overbought, below 30 oversold, 30 and 70
      themselves are neutral. */
  function RsiStatus(rsi: real): (r: StatusInfo)
    ensures r.status == "Overbought" <==> rsi > 70.0
    ensures r.status == "Oversold" <==> rsi < 30.0
    ensures r.status == "Neutral" <==> 30.0 <= rsi <= 70.0
    ensures r.color == match r.status
      case "Overbought" => "#FF4757"
      case "Oversold" => "#00C897"
      case _ => "#888888"
  {
    if rsi > 70.0 then StatusInfo("Overbought", "#FF4757")
    else if rsi < 30.0 then StatusInfo("Oversold", "#00C897")
    else StatusInfo("Neutral", "#888888")
  }

  /** `getMACDStatus`: above 0.5 is a buy, below -0.5 a sell, the band
      between (bounds included) is neutral. */
  function MacdStatus(macd: real): (r: StatusInfo)
    ensures r.status == "Buy" <==> macd > 0.5
    ensures r.status == "Sell" <==> macd < -0.5
    ensures r.status == "Neutral" <==> -0.5 <= macd <= 0.5
    ensures r.color == match r.status
      case "Buy" => "#00C897"
      case "Sell" => "#FF4757"
      case _ => "#888888"
  {
    if macd > 0.5 then StatusInfo("Buy", "#00C897")
    else if macd < -0.5 then StatusInfo("Sell", "#FF4757")
    else StatusInfo("Neutral", "#888888")
  }

  /** `getATRStatus`: the ATR as a percentage of the price; above 2% is high
      volatility, below 0.5% low, otherwise normal. A zero price (a division
      by zero in the source) is excluded by its callers. */
  function AtrStatus(atr: real, price: real): (r: StatusInfo)
    requires price != 0.0
    ensures r.status == "High Volatility" <==> atr / price * 100.0 > 2.0
    ensures r.status == "Low Volatility" <==> atr / price * 100.0 < 0.5
    ensures r.status == "Normal Volatility" <==> 0.5 <= atr / price * 100.0 <= 2.0
    ensures r.color == match r.status
      case "High Volatility" => "#FF4757"
      case "Low Volatility" => "#888888"
      case _ => "#FFA500"
  {
    var volatilityPercent := atr / price * 100.0;
    if volatilityPercent > 2.0 then StatusInfo("High Volatility", "#FF4757")
    else if volatilityPercent < 0.5 then StatusInfo("Low Volatility", "#888888")
    else StatusInfo("Normal Volatility", "#FFA500")
  }

  /** The order of the RSI buckets along the axis. */
  function RsiRank(s: StatusInfo): int {
    if s.status == "Oversold" then 0 else if s.status == "Neutral" then 1 else 2
  }

  /** A larger RSI never gives a lower bucket. */
  lemma RsiMonotone(a: real, b: real)
    requires a <= b
    ensures RsiRank(RsiStatus(a)) <= RsiRank(RsiStatus(b))
  {
  }

  /** The order of the MACD buckets along the axis. */
  function MacdRank(s: StatusInfo): int {
    if s.status == "Sell" then 0 else if s.status == "Neutral" then 1 else 2
  }

  /** A larger MACD never gives a lower bucket. */
  lemma MacdMonotone(a: real, b: real)
    requires a <= b
    ensures MacdRank(MacdStatus(a)) <= MacdRank(MacdStatus(b))
  {
  }

  /** For a positive price the ATR buckets are fixed fractions of the price:
      above a fiftieth is high, below a two-hundredth low. */
  lemma AtrBucketsScaleWithPrice(atr: real, price: real)
    requires price > 0.0
    ensures AtrStatus(atr, price).status == "High Volatility" <==> atr > price / 50.0
    ensures AtrStatus(atr, price).status == "Low Volatility" <==> atr < price / 200.0
  {
    var v := atr / price * 100.0;
    assert v * price == atr * 100.0;
    if atr > price / 50.0 {
      assert v * price > 2.0 * price;
    }
    if v > 2.0 {
      assert v * price > 2.0 * price;
    }
    if atr < price / 200.0 {
      assert v * price < 0.5 * price;
    }
    if v < 0.5 {
      assert v * price < 0.5 * price;
    }
  }

  /** The three indicators, each with its own processing function. */
  datatype Indicator = ATR | RSI | MACD

  function Name(kind: Indicator): string {
    match kind
    case ATR => "ATR"
    case RSI => "RSI"
    case MACD => "MACD"
  }

  /** A reading's value text: `toFixed` of the number, with a leading `+`
      when `plus` is set. */
  datatype Shown = Shown(plus: bool, number: Fixed)

  datatype IndicatorData = IndicatorData(
    pair: string,
    indicatorName: string,
    value: Shown,
    status: string,
    color: string,
    timeframe: string)

  /** What the provider returned for one symbol: `NoValues` for a missing or
      falsy entry or one without a `values` list; otherwise the first
      indicator field of each element of `values`, already read by
      `parseFloat`. */
  datatype Series = NoValues | Values(values: seq<real>)

  /** A batch response: `NullBatch` when the request or its JSON parse
      failed (`fetchIndicatorBatch` returns `null`), otherwise the body as a
      dictionary from symbol to series. */
  datatype Batch = NullBatch | Batch(entries: map<string, Series>)

  /** The message of the `TypeError` thrown by reading a property of `null`
      or of `undefined`; its exact text is not modelled. */
  const TypeErrorMessage: string := "TypeError"

  /** The series the processing loop reads for a pair of a non-null batch. */
  function SeriesOf(entries: map<string, Series>, pair: string): Series {
    if pair in entries then entries[pair] else NoValues
  }

  /** `!currentPrice`: the stored price is missing (no row, a failed read or
      `null`) or zero. `prices` holds the stored prices that were read. */
  predicate NoPrice(prices: map<string, real>, pair: string) {
    pair !in prices || prices[pair] == 0.0
  }

  /** The `continue` guard: no values, or, for ATR only, no usable price. */
  predicate Skips(kind: Indicator, s: Series, prices: map<string, real>, pair: string) {
    s.NoValues? || (kind == ATR && NoPrice(prices, pair))
  }

  /** The reading pushed for a pair whose latest value is x. */
  function Reading(kind: Indicator, pair: string, x: real, prices: map<string, real>): (d: IndicatorData)
    requires kind == ATR ==> !NoPrice(prices, pair)
    ensures d.pair == pair && d.indicatorName == Name(kind) && d.timeframe == "15M"
    ensures d.value.number.x == x
    ensures d.value.plus <==> kind == MACD && x > 0.0
    ensures kind == RSI ==> d.value.number.digits == 1 && StatusInfo(d.status, d.color) == RsiStatus(x)
    ensures kind == MACD ==> d.value.number.digits == 2 && StatusInfo(d.status, d.color) == MacdStatus(x)
    ensures kind == ATR ==> d.value.number.digits == 4 && StatusInfo(d.status, d.color) == AtrStatus(x, prices[pair])
  {
    match kind
    case ATR =>
      var info := AtrStatus(x, prices[pair]);
      IndicatorData(pair, "ATR", Shown(false, Fixed(x, 4)), info.status, info.color, "15M")
    case RSI =>
      var info := RsiStatus(x);
      IndicatorData(pair, "RSI", Shown(false, Fixed(x, 1)), info.status, info.color, "15M")
    case MACD =>
      var info := MacdStatus(x);
      IndicatorData(pair, "MACD", Shown(x > 0.0, Fixed(x, 2)), info.status, info.color, "15M")
  }

  /** `acc` in front of a result; an error stays the error. */
  function Prepend(acc: seq<IndicatorData>, r: Result<seq<IndicatorData>>): Result<seq<IndicatorData>> {
    match r
    case Ok(rest) => Ok(acc + rest)
    case Err(m) => Err(m)
  }

  /** What a processing function resolves to for these pairs: one reading
      per pair that is not skipped, in pair order. Indexing a `null` batch,
      or the first element of an empty `values` list, throws. */
  function Readings(kind: Indicator, batch: Batch, pairs: seq<string>, prices: map<string, real>): Result<seq<IndicatorData>> {
    if pairs == [] then Ok([])
    else if batch.NullBatch? then Err(TypeErrorMessage)
    else
      var s := SeriesOf(batch.entries, pairs[0]);
      if Skips(kind, s, prices, pairs[0]) then Readings(kind, batch, pairs[1..], prices)
      else if s.values == [] then Err(TypeErrorMessage)
      else Prepend([Reading(kind, pairs[0], s.values[0], prices)], Readings(kind, batch, pairs[1..], prices))
  }

  /** One step of a processing loop, shared by the three methods below. */
  lemma ReadingsStep(kind: Indicator, batch: Batch, pairs: seq<string>, i: nat, prices: map<string, real>)
    requires i < |pairs|
    ensures Readings(kind, batch, pairs[i..], prices) ==
      if batch.NullBatch? then Err(TypeErrorMessage)
      else
        var s := SeriesOf(batch.entries, pairs[i]);
        if Skips(kind, s, prices, pairs[i]) then Readings(kind, batch, pairs[i + 1..], prices)
        else if s.values == [] then Err(TypeErrorMessage)
        else Prepend([Reading(kind, pairs[i], s.values[0], prices)], Readings(kind, batch, pairs[i + 1..], prices))
  {
    assert pairs[i..][1..] == pairs[i + 1..];
  }

  lemma PrependNil(r: Result<seq<IndicatorData>>)
    ensures Prepend([], r) == r
  {
    if r.Ok? {
      assert [] + r.value == r.value;
    }
  }

  lemma PrependAssoc(a: seq<IndicatorData>, b: seq<IndicatorData>, r: Result<seq<IndicatorData>>)
    ensures Prepend(a, Prepend(b, r)) == Prepend(a + b, r)
  {
    if r.Ok? {
      assert a + (b + r.value) == (a + b) + r.value;
    }
  }

  /** `processATR`: the stored price of each pair is read from `prices`. */
  method ProcessATR(batch: Batch, pairs: seq<string>, prices: map<string, real>) returns (r: Result<seq<IndicatorData>>)
    ensures r == Readings(ATR, batch, pairs, prices)
  {
    var indicators: seq<IndicatorData> := [];
    var i := 0;
    PrependNil(Readings(ATR, batch, pairs, prices));
    while i < |pairs|
      invariant 0 <= i <= |pairs|
      invariant Readings(ATR, batch, pairs, prices) == Prepend(indicators, Readings(ATR, batch, pairs[i..], prices))
    {
      var pair := pairs[i];
      ReadingsStep(ATR, batch, pairs, i, prices);
      if batch.NullBatch? {
        return Err(TypeErrorMessage);
      }
      var data := SeriesOf(batch.entries, pair);
      if data.NoValues? || pair !in prices || prices[pair] == 0.0 {
        i := i + 1;
        continue;
      }
      if data.values == [] {
        return Err(TypeErrorMessage);
      }
      var atr := data.values[0];
      var status := AtrStatus(atr, prices[pair]);
      var reading := IndicatorData(pair, "ATR", Shown(false, Fixed(atr, 4)), status.status, status.color, "15M");
      PrependAssoc(indicators, [reading], Readings(ATR, batch, pairs[i + 1..], prices));
      indicators := indicators + [reading];
      i := i + 1;
    }
    assert pairs[i..] == [] && indicators + [] == indicators;
    r := Ok(indicators);
  }

  /** `processRSI`. */
  method ProcessRSI(batch: Batch, pairs: seq<string>) returns (r: Result<seq<IndicatorData>>)
    ensures r == Readings(RSI, batch, pairs, map[])
  {
    var indicators: seq<IndicatorData> := [];
    var i := 0;
    PrependNil(Readings(RSI, batch, pairs, map[]));
    while i < |pairs|
      invariant 0 <= i <= |pairs|
      invariant Readings(RSI, batch, pairs, map[]) == Prepend(indicators, Readings(RSI, batch, pairs[i..], map[]))
    {
      var pair := pairs[i];
      ReadingsStep(RSI, batch, pairs, i, map[]);
      if batch.NullBatch? {
        return Err(TypeErrorMessage);
      }
      var data := SeriesOf(batch.entries, pair);
      if data.NoValues? {
        i := i + 1;
        continue;
      }
      if data.values == [] {
        return Err(TypeErrorMessage);
      }
      var rsi := data.values[0];
      var status := RsiStatus(rsi);
      var reading := IndicatorData(pair, "RSI", Shown(false, Fixed(rsi, 1)), status.status, status.color, "15M");
      PrependAssoc(indicators, [reading], Readings(RSI, batch, pairs[i + 1..], map[]));
      indicators := indicators + [reading];
      i := i + 1;
    }
    assert pairs[i..] == [] && indicators + [] == indicators;
    r := Ok(indicators);
  }

  /** `processMACD`: a positive value is shown with a leading `+`. */
  method ProcessMACD(batch: Batch, pairs: seq<string>) returns (r: Result<seq<IndicatorData>>)
    ensures r == Readings(MACD, batch, pairs, map[])
  {
    var indicators: seq<IndicatorData> := [];
    var i := 0;
    PrependNil(Readings(MACD, batch, pairs, map[]));
    while i < |pairs|
      invariant 0 <= i <= |pairs|
      invariant Readings(MACD, batch, pairs, map[]) == Prepend(indicators, Readings(MACD, batch, pairs[i..], map[]))
    {
      var pair := pairs[i];
      ReadingsStep(MACD, batch, pairs, i, map[]);
      if batch.NullBatch? {
        return Err(TypeErrorMessage);
      }
      var data := SeriesOf(batch.entries, pair);
      if data.NoValues? {
        i := i + 1;
        continue;
      }
      if data.values == [] {
        return Err(TypeErrorMessage);
      }
      var macd := data.values[0];
      var status := MacdStatus(macd);
      var reading := IndicatorData(pair, "MACD", Shown(macd > 0.0, Fixed(macd, 2)), status.status, status.color, "15M");
      PrependAssoc(indicators, [reading], Readings(MACD, batch, pairs[i + 1..], map[]));
      indicators := indicators + [reading];
      i := i + 1;
    }
    assert pairs[i..] == [] && indicators + [] == indicators;
    r := Ok(indicators);
  }

  /** The pairs the guard lets through, in list order. */
  function Kept(kind: Indicator, entries: map<string, Series>, pairs: seq<string>, prices: map<string, real>): (r: seq<string>)
    ensures |r| <= |pairs|
    ensures forall p :: p in r <==> p in pairs && !Skips(kind, SeriesOf(entries, p), prices, p)
  {
    if pairs == [] then []
    else if Skips(kind, SeriesOf(entries, pairs[0]), prices, pairs[0]) then Kept(kind, entries, pairs[1..], prices)
    else [pairs[0]] + Kept(kind, entries, pairs[1..], prices)
  }

  function PairsOf(ds: seq<IndicatorData>): (ps: seq<string>)
    ensures |ps| == |ds| && forall k :: 0 <= k < |ds| ==> ps[k] == ds[k].pair
  {
    seq(|ds|, k requires 0 <= k < |ds| => ds[k].pair)
  }

  /** The readings follow the pair list: exactly one per listed pair that
      the guard lets through, in list order. */
  lemma {:induction false} ReadingsFollowPairs(kind: Indicator, batch: Batch, pairs: seq<string>, prices: map<string, real>)
    requires Readings(kind, batch, pairs, prices).Ok?
    ensures batch.NullBatch? ==> Readings(kind, batch, pairs, prices).value == []
    ensures batch.Batch? ==> PairsOf(Readings(kind, batch, pairs, prices).value) == Kept(kind, batch.entries, pairs, prices)
  {
    if pairs != [] && batch.Batch? {
      var rest := Readings(kind, batch, pairs[1..], prices);
      ReadingsFollowPairs(kind, batch, pairs[1..], prices);
      var ds := Readings(kind, batch, pairs, prices).value;
      var s := SeriesOf(batch.entries, pairs[0]);
      if !Skips(kind, s, prices, pairs[0]) {
        assert ds == [Reading(kind, pairs[0], s.values[0], prices)] + rest.value;
        assert PairsOf(ds) == [pairs[0]] + PairsOf(rest.value);
      }
    }
  }

  /** Each reading carries its indicator's name, the `15M` timeframe and the
      reading of its pair's latest value, and its pair passed the guard. */
  lemma {:induction false} ReadingsAreOfLatestValues(kind: Indicator, batch: Batch, pairs: seq<string>, prices: map<string, real>)
    requires Readings(kind, batch, pairs, prices).Ok?
    ensures forall d :: d in Readings(kind, batch, pairs, prices).value ==>
      d.indicatorName == Name(kind) && d.timeframe == "15M" &&
      batch.Batch? && !Skips(kind, SeriesOf(batch.entries, d.pair), prices, d.pair) &&
      SeriesOf(batch.entries, d.pair).values != [] &&
      d == Reading(kind, d.pair, SeriesOf(batch.entries, d.pair).values[0], prices)
  {
    if pairs != [] && batch.Batch? {
      ReadingsAreOfLatestValues(kind, batch, pairs[1..], prices);
    }
  }

  /** At most one reading per listed pair. */
  lemma AtMostOnePerPair(kind: Indicator, batch: Batch, pairs: seq<string>, prices: map<string, real>)
    requires Readings(kind, batch, pairs, prices).Ok?
    ensures |Readings(kind, batch, pairs, prices).value| <= |pairs|
  {
    ReadingsFollowPairs(kind, batch, pairs, prices);
    if batch.Batch? {
      assert |PairsOf(Readings(kind, batch, pairs, prices).value)| == |Kept(kind, batch.entries, pairs, prices)|;
    }
  }

  /** The pair at index i passes the guard but its `values` list is empty,
      so reading its first element throws. */
  predicate ThrowsAt(kind: Indicator, entries: map<string, Series>, pairs: seq<string>, prices: map<string, real>, i: int)
    requires 0 <= i < |pairs|
  {
    !Skips(kind, SeriesOf(entries, pairs[i]), prices, pairs[i]) && SeriesOf(entries, pairs[i]).values == []
  }

  /** A processing function rejects exactly when the batch is `null` and
      there is a pair to look up, or some pair that passes the guard has an
      empty `values` list. */
  lemma {:induction false} ReadingsFailWhen(kind: Indicator, batch: Batch, pairs: seq<string>, prices: map<string, real>)
    ensures Readings(kind, batch, pairs, prices).Err? <==>
      (batch.NullBatch? && pairs != []) ||
      (batch.Batch? && exists i :: 0 <= i < |pairs| && ThrowsAt(kind, batch.entries, pairs, prices, i))
  {
    if pairs != [] && batch.Batch? {
      var tail := pairs[1..];
      ReadingsFailWhen(kind, batch, tail, prices);
      if !ThrowsAt(kind, batch.entries, pairs, prices, 0) {
        // the first pair does not throw: any failing index is in the tail
        forall i | 0 < i < |pairs|
          ensures ThrowsAt(kind, batch.entries, pairs, prices, i) == ThrowsAt(kind, batch.entries, tail, prices, i - 1)
        {
          assert tail[i - 1] == pairs[i];
        }
        if exists j :: 0 <= j < |tail| && ThrowsAt(kind, batch.entries, tail, prices, j) {
          var j :| 0 <= j < |tail| && ThrowsAt(kind, batch.entries, tail, prices, j);
          assert ThrowsAt(kind, batch.entries, pairs, prices, j + 1);
        }
      }
    }
  }

  /** An ATR reading is only made for a pair with a stored non-zero price, so
      the percentage in `getATRStatus` never divides by zero. */
  lemma AtrOnlyWithPrice(batch: Batch, pairs: seq<string>, prices: map<string, real>)
    requires Readings(ATR, batch, pairs, prices).Ok?
    ensures forall d :: d in Readings(ATR, batch, pairs, prices).value ==>
      d.pair in prices && prices[d.pair] != 0.0 &&
      StatusInfo(d.status, d.color) == AtrStatus(d.value.number.x, prices[d.pair])
  {
    ReadingsAreOfLatestValues(ATR, batch, pairs, prices);
  }

  /** The configured pairs: the `supported_pairs` value split on `,` with
      each part trimmed, or none when the row or its value is missing. */
  function ParsePairs(config: seq<ConfigRow>): (pairs: seq<string>)
    ensures ConfigValue(config, "supported_pairs").None? ==> pairs == []
    ensures ConfigValue(config, "supported_pairs").Some? ==>
      var parts := Split(ConfigValue(config, "supported_pairs").value, ',');
      |pairs| == |parts| && forall k :: 0 <= k < |parts| ==> pairs[k] == Trim(parts[k])
  {
    match ConfigValue(config, "supported_pairs")
    case None => []
    case Some(v) =>
      var parts := Split(v, ',');
      seq(|parts|, k requires 0 <= k < |parts| => Trim(parts[k]))
  }

  /** A trimmed part is left alone by trimming. */
  lemma TrimmedIsFixed(p: string)
    requires p == [] || (!IsSpace(p[0]) && !IsSpace(p[|p| - 1]))
    ensures Trim(p) == p
  {
  }

  /** A list of pairs that contain no comma and no surrounding white space,
      written comma-separated into the config value, is parsed back
      exactly. */
  lemma ParsePairsRoundTrip(config: seq<ConfigRow>, pairs: seq<string>)
    requires |pairs| >= 1
    requires forall k :: 0 <= k < |pairs| ==> ',' !in pairs[k]
    requires forall k :: 0 <= k < |pairs| ==> pairs[k] == [] || (!IsSpace(pairs[k][0]) && !IsSpace(pairs[k][|pairs[k]| - 1]))
    requires ConfigValue(config, "supported_pairs") == Some(Join(pairs, ','))
    ensures ParsePairs(config) == pairs
  {
    SplitJoin(pairs, ',');
    var parsed := ParsePairs(config);
    assert |parsed| == |pairs|;
    forall k | 0 <= k < |pairs| ensures parsed[k] == pairs[k] {
      TrimmedIsFixed(pairs[k]);
    }
  }

  /** The handler after the request checks: read the configuration, run
      the three processing functions and return the concatenated readings.
      `config` is the `system_config` select (an error carries its message),
      the batches are the three provider responses and `prices` the stored
      prices. */
  method UpdateIndicators(config: Result<seq<ConfigRow>>, atr: Batch, rsi: Batch, macd: Batch, prices: map<string, real>)
    returns (r: Result<seq<IndicatorData>>)
    ensures config.Err? ==> r == Err("Failed to get configuration: " + config.message)
    ensures config.Ok? && ConfigText(config.value, "api_key_twelvedata") == "" ==>
      r == Err("TwelveData API key not configured")
    ensures config.Ok? && ConfigText(config.value, "api_key_twelvedata") != "" ==>
      var pairs := ParsePairs(config.value);
      var a := Readings(ATR, atr, pairs, prices);
      var s := Readings(RSI, rsi, pairs, map[]);
      var m := Readings(MACD, macd, pairs, map[]);
      if a.Err? || s.Err? || m.Err? then r.Err?
      else if a.value + s.value + m.value == [] then r == Err("No indicator data was successfully fetched")
      else r == Ok(a.value + s.value + m.value)
  {
    if config.Err? {
      return Err("Failed to get configuration: " + config.message);
    }
    var apiKey := ConfigValue(config.value, "api_key_twelvedata");
    var supportedPairs := ParsePairs(config.value);
    if apiKey.None? || apiKey.value == "" {
      return Err("TwelveData API key not configured");
    }
    var atrIndicators := ProcessATR(atr, supportedPairs, prices);
    var rsiIndicators := ProcessRSI(rsi, supportedPairs);
    var macdIndicators := ProcessMACD(macd, supportedPairs);
    if atrIndicators.Err? {
      return Err(atrIndicators.message);
    }
    if rsiIndicators.Err? {
      return Err(rsiIndicators.message);
    }
    if macdIndicators.Err? {
      return Err(macdIndicators.message);
    }
    var allIndicators := atrIndicators.value + rsiIndicators.value + macdIndicators.value;
    if |allIndicators| == 0 {
      return Err("No indicator data was successfully fetched");
    }
    r := Ok(allIndicators);
  }

  /** The worked readings: RSI 72.3 is overbought, 28 oversold, 50 neutral;
      MACD 0.37 is neutral yet shown with `+` (the sign follows the value,
      not the bucket), 0.62 is a buy shown with `+`, -0.2 is neutral without
      a sign. */
  lemma ReadingExamples()
    ensures Reading(RSI, "EUR/USD", 72.3, map[]).status == "Overbought"
    ensures Reading(RSI, "EUR/USD", 28.0, map[]).status == "Oversold"
    ensures Reading(RSI, "EUR/USD", 50.0, map[]).status == "Neutral"
    ensures Reading(MACD, "EUR/USD", 0.37, map[]) == IndicatorData("EUR/USD", "MACD", Shown(true, Fixed(0.37, 2)), "Neutral", "#888888", "15M")
    ensures Reading(MACD, "EUR/USD", -0.2, map[]) == IndicatorData("EUR/USD", "MACD", Shown(false, Fixed(-0.2, 2)), "Neutral", "#888888", "15M")
    ensures Reading(MACD, "EUR/USD", 0.62, map[]) == IndicatorData("EUR/USD", "MACD", Shown(true, Fixed(0.62, 2)), "Buy", "#00C897", "15M")
  {
    assert MacdStatus(0.37) == StatusInfo("Neutral", "#888888");
    assert MacdStatus(0.62) == StatusInfo("Buy", "#00C897");
    assert MacdStatus(-0.2) == StatusInfo("Neutral", "#888888");
  }
}
