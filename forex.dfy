/** The forex calculators (`lib/forex.ts`): pips, lot size and profit and
    loss over the table of configured pairs, price formatting and the pair
    lookups. Prices are exact reals. */
module Forex {
  import opened Wrappers
  import opened JsMath
  import opened Trading

  datatype ForexPair = ForexPair(symbol: string, name: string, pipValue: real, digits: nat)

  /** `FOREX_PAIRS`. */
  const ForexPairs: map<string, ForexPair> := map[
    "XAU/USD" := ForexPair("XAU/USD", "Gold", 0.01, 2),
    "XAG/USD" := ForexPair("XAG/USD", "Silver", 0.001, 3),
    "EUR/USD" := ForexPair("EUR/USD", "Euro/US Dollar", 0.0001, 4),
    "GBP/USD" := ForexPair("GBP/USD", "British Pound/US Dollar", 0.0001, 4),
    "USD/JPY" := ForexPair("USD/JPY", "US Dollar/Japanese Yen", 0.01, 2),
    "AUD/USD" := ForexPair("AUD/USD", "Australian Dollar/US Dollar", 0.0001, 4),
    "USD/CAD" := ForexPair("USD/CAD", "US Dollar/Canadian Dollar", 0.0001, 4),
    "NZD/USD" := ForexPair("NZD/USD", "New Zealand Dollar/US Dollar", 0.0001, 4),
    "EUR/GBP" := ForexPair("EUR/GBP", "Euro/British Pound", 0.0001, 4),
    "GBP/JPY" := ForexPair("GBP/JPY", "British Pound/Japanese Yen", 0.01, 2)
  ]

  /** `SUPPORTED_PAIRS`: the pairs the app trades. */
  const SupportedPairs: seq<string> := ["XAU/USD", "BTC/USD"]

  /** Every configured pair is listed under its own symbol and has a
      positive pip size. */
  lemma PairTableWellFormed()
    ensures forall p :: p in ForexPairs ==> ForexPairs[p].symbol == p && ForexPairs[p].pipValue > 0.0
  {
  }

  datatype PipCalculatorResult = PipCalculatorResult(totalPips: int, pipValue: real, profit: real)

  datatype LotSizeResult = LotSizeResult(lotSize: real, positionSize: int, margin: real)

  datatype PnLResult = PnLResult(profit: real, profitPercent: real, pips: int)

  /** The move in the trade's favour: exit minus entry for a buy, entry
      minus exit for a sell. */
  function PriceDiff(entryPrice: real, exitPrice: real, kind: TradeType): (d: real)
    ensures kind == Buy ==> d == exitPrice - entryPrice
    ensures kind == Sell ==> d == entryPrice - exitPrice
  {
    if kind == Buy then exitPrice - entryPrice else entryPrice - exitPrice
  }

  function Opposite(kind: TradeType): TradeType {
    if kind == Buy then Sell else Buy
  }

  /** `calculatePips`: the move counted in whole pips of the pair (rounded
      half up), the pair's pip size and the raw move. */
  function CalculatePips(pair: string, entryPrice: real, exitPrice: real, kind: TradeType): (r: Result<PipCalculatorResult>)
    ensures pair !in ForexPairs <==> r.Err?
    ensures r.Err? ==> r.message == "Unsupported pair: " + pair
    ensures r.Ok? ==>
      var pip := ForexPairs[pair].pipValue;
      var diff := PriceDiff(entryPrice, exitPrice, kind);
      r.value.pipValue == pip && r.value.profit == diff &&
      r.value.totalPips as real * pip - pip / 2.0 <= diff < r.value.totalPips as real * pip + pip / 2.0
  {
    if pair !in ForexPairs then Err("Unsupported pair: " + pair)
    else
      var pairConfig := ForexPairs[pair];
      PairTableWellFormed();
      var priceDiff := PriceDiff(entryPrice, exitPrice, kind);
      var totalPips := Round(priceDiff / pairConfig.pipValue);
      WithinHalfPip(priceDiff, pairConfig.pipValue, totalPips);
      Ok(PipCalculatorResult(totalPips, pairConfig.pipValue, priceDiff))
  }

  /** A count of pips rounded from diff / pip is within half a pip of diff. */
  lemma WithinHalfPip(diff: real, pip: real, n: int)
    requires pip > 0.0 && n == Round(diff / pip)
    ensures n as real * pip - pip / 2.0 <= diff < n as real * pip + pip / 2.0
  {
    var q := diff / pip;
    assert q * pip == diff;
    var above := n as real + 0.5 - q;
    var below := q - (n as real - 0.5);
    assert above > 0.0 && below >= 0.0;
    assert above * pip > 0.0 && below * pip >= 0.0;
    assert above * pip == n as real * pip + pip / 2.0 - diff;
    assert below * pip == diff - (n as real * pip - pip / 2.0);
  }

  /** Swapping buy and sell negates the move and the profit; the pip count
      is negated too, except at an exact half pip where rounding half up
      makes it one more. */
  lemma SwapTypeNegates(pair: string, entryPrice: real, exitPrice: real, kind: TradeType)
    requires pair in ForexPairs
    ensures var a := CalculatePips(pair, entryPrice, exitPrice, kind).value;
      var b := CalculatePips(pair, entryPrice, exitPrice, Opposite(kind)).value;
      b.profit == -a.profit && b.pipValue == a.pipValue &&
      (b.totalPips == -a.totalPips || b.totalPips == 1 - a.totalPips)
  {
    var pip := ForexPairs[pair].pipValue;
    PairTableWellFormed();
    var d := PriceDiff(entryPrice, exitPrice, kind);
    assert PriceDiff(entryPrice, exitPrice, Opposite(kind)) == -d;
    assert -d / pip == -(d / pip);
    RoundNegation(d / pip);
  }

  /** `calculateLotSize`: the amount at risk, the lot that loses exactly that
      amount at the stop, the position in units (from the unrounded lot) and
      the margin. The lot and the margin are whole hundredths within half a
      hundredth of the exact values, which by `Round2Unique` is rounding to
      two decimals. A zero stop distance (a division by zero in the source) is
      excluded. */
  function CalculateLotSize(accountBalance: real, riskPercent: real, stopLossPips: real, pipValue: real): (r: LotSizeResult)
    requires stopLossPips * pipValue != 0.0
    ensures var riskAmount := accountBalance * riskPercent / 100.0;
      var lot := riskAmount / (stopLossPips * pipValue);
      lot * (stopLossPips * pipValue) == riskAmount &&
      -0.005 < r.lotSize - lot <= 0.005 &&
      r.positionSize as real - 0.5 <= lot * 100000.0 < r.positionSize as real + 0.5 &&
      -0.005 < r.margin - riskAmount <= 0.005
    ensures IsCents(r.lotSize) && IsCents(r.margin)
  {
    var riskAmount := accountBalance * riskPercent / 100.0;
    var lotSize := riskAmount / (stopLossPips * pipValue);
    var positionSize := lotSize * 100000.0;
    var margin := riskAmount;
    LotSizeResult(Round2(lotSize), Round(positionSize), Round2(margin))
  }

  /** The position is rounded from the unrounded lot, so it need not be the
      rounded lot times 100000: risking 123 with a 1000-unit stop gives lot
      0.12 but a position of 12300. */
  lemma PositionFollowsUnroundedLot()
    ensures CalculateLotSize(1230.0, 10.0, 100.0, 10.0) == LotSizeResult(0.12, 12300, 123.0)
  {
    assert Round(12.3) == 12;
    assert Round(12300.0) == 12300;
    assert Round(12300.0) as real / 100.0 == 123.0;
  }

  /** `calculatePnL`: pips as in `calculatePips`, the profit on `lotSize`
      standard lots of 100000 units and the profit as a percentage of the
      position's value, both rounded to two decimals. An entry price or lot
      of zero (a division by zero in the source) is excluded. */
  function CalculatePnL(pair: string, lotSize: real, entryPrice: real, exitPrice: real, kind: TradeType): (r: Result<PnLResult>)
    requires pair in ForexPairs ==> entryPrice != 0.0 && lotSize != 0.0
    ensures pair !in ForexPairs <==> r.Err?
    ensures r.Err? ==> r.message == "Unsupported pair: " + pair
    ensures r.Ok? ==>
      var diff := PriceDiff(entryPrice, exitPrice, kind);
      r.value.pips == CalculatePips(pair, entryPrice, exitPrice, kind).value.totalPips &&
      -0.005 < r.value.profit - diff * lotSize * 100000.0 <= 0.005 &&
      -0.005 < r.value.profitPercent - diff / entryPrice * 100.0 <= 0.005
    ensures r.Ok? ==> IsCents(r.value.profit) && IsCents(r.value.profitPercent)
  {
    if pair !in ForexPairs then Err("Unsupported pair: " + pair)
    else
      var pairConfig := ForexPairs[pair];
      var priceDiff := PriceDiff(entryPrice, exitPrice, kind);
      var pips := Round(priceDiff / pairConfig.pipValue);
      var profit := priceDiff * lotSize * 100000.0;
      var percent := ProfitPercent(priceDiff, lotSize, entryPrice);
      var shownProfit := Round2(profit);
      var shownPercent := Round2(percent);
      assert -0.005 < shownProfit - profit <= 0.005;
      assert -0.005 < shownPercent - priceDiff / entryPrice * 100.0 <= 0.005;
      Ok(PnLResult(shownProfit, shownPercent, pips))
  }

  /** The profit as a percentage of the position's value, before rounding:
      the lot cancels, so it is the move as a percentage of the entry
      price. */
  function ProfitPercent(priceDiff: real, lotSize: real, entryPrice: real): (p: real)
    requires entryPrice != 0.0 && lotSize != 0.0
    ensures p == priceDiff / entryPrice * 100.0
  {
    var profit := priceDiff * lotSize * 100000.0;
    var k := lotSize * 100000.0;
    assert profit == priceDiff * k;
    assert entryPrice * lotSize * 100000.0 == entryPrice * k;
    assert priceDiff * k / (entryPrice * k) == priceDiff / entryPrice;
    profit / (entryPrice * lotSize * 100000.0) * 100.0
  }

  /** `formatPrice`: `toFixed` with the pair's digits, or 4 for a pair that is
      not configured. */
  function FormatPrice(pair: string, price: real): (f: Fixed)
    ensures f.x == price
    ensures pair in ForexPairs ==> f.digits == ForexPairs[pair].digits
    ensures pair !in ForexPairs ==> f.digits == 4
  {
    if pair !in ForexPairs then Fixed(price, 4) else Fixed(price, ForexPairs[pair].digits)
  }

  /** `getPairConfig`: the configuration, `None` exactly for pairs that are
      not configured. */
  function GetPairConfig(pair: string): (c: Option<ForexPair>)
    ensures c.None? <==> pair !in ForexPairs
    ensures c.Some? ==> c.value == ForexPairs[pair] && c.value.symbol == pair
  {
    PairTableWellFormed();
    if pair in ForexPairs then Some(ForexPairs[pair]) else None
  }

  /** `isValidPair`: membership of the supported list. */
  function IsValidPair(pair: string): (b: bool)
    ensures b <==> pair == "XAU/USD" || pair == "BTC/USD"
  {
    pair in SupportedPairs
  }

  /** Validity and configuration disagree: `BTC/USD` is a valid pair, yet
      every calculator that needs its configuration rejects it. Gold is both
      valid and configured. */
  lemma ValidPairWithoutConfig(entryPrice: real, exitPrice: real, kind: TradeType, lotSize: real)
    ensures IsValidPair("BTC/USD") && GetPairConfig("BTC/USD").None?
    ensures CalculatePips("BTC/USD", entryPrice, exitPrice, kind) == Err("Unsupported pair: BTC/USD")
    ensures CalculatePnL("BTC/USD", lotSize, entryPrice, exitPrice, kind) == Err("Unsupported pair: BTC/USD")
    ensures IsValidPair("XAU/USD") && GetPairConfig("XAU/USD").Some?
  {
    assert "BTC/USD" !in ForexPairs;
  }
}
