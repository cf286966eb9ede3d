# Trading signals app — a verified model of its rule sets

This project models, in Dafny, the rule-carrying core of a forex/gold trading
signals app built from a React Native client and Supabase edge functions:

- **Signal lifecycle** (`update-signals`): for each pending or active signal
  with a price tick for its pair, the evaluator decides whether the signal
  closes on take-profit, closes on stop-loss or activates. It computes the
  simplified P&L and writes the row back when the status or the price
  changed. The `signals` table is the class `SignalStore`, whose `rows`
  field the pass rewrites.
- **Price decoding** (`update-signals`): the quote provider's time-series
  response is decoded into `price_summary`-shaped records.
- **Technical indicators** (`update-indicators`): the RSI, MACD and ATR
  threshold buckets and the per-pair processing loops. The handler reads
  the configured pairs and concatenates the readings. The `+` prefix of
  a MACD reading depends on the sign of the value, not on its bucket: a
  MACD of 0.37 is shown as `+0.37` with status Neutral.
- **Manual trigger** (`manual-trigger`): the dispatch on `action`, the
  `results` list and the 200/207 status.
- **Forex calculators** (`lib/forex.ts`): pips, lot size, profit and loss,
  price formatting and the pair lookups.
- **System health** (`lib/backend.ts`): healthy, warning or error, from the
  ages of the last price and indicator updates.
- **Onboarding validation** (`app/onboarding.tsx`): the name and
  date-of-birth rules that fill the error map.
- **Languages** (`lib/constants.ts`, `lib/i18n/index.ts`): the language
  tables, device-locale parsing, the saved preference, the current locale
  and the right-to-left flag.

Conventions:

- Prices and amounts are exact `real`s.
- `Math.round` is `Floor(x + 0.5)`, so halves round towards +infinity.
- `toFixed` is kept symbolic: a `Fixed(number, digits)` value.
- `parseFloat` has already been applied to the decoded inputs.
- Clocks, date parsing, database results and write failures are
  parameters.
- Thrown errors and rejected promises are `Err` values of a `Result`.

Files:

- `common.dfy`: options and results, JavaScript rounding, `trim`/`split`/ASCII
  `toUpperCase`, trade sides and `system_config` rows.
- `price_feed.dfy`: the response decoder.
- `signals.dfy`: the evaluator and the store.
- `indicators.dfy`: the indicator update.
- `manual_trigger.dfy`, `forex.dfy`, `backend.dfy`, `onboarding.dfy`,
  `languages.dfy` and `i18n.dfy`: one module each.

## Model

| member | source | states |
|---|---|---|
| JsMath.Abs | supabase/functions/update-signals/index.ts:196 | `Math.abs` is non-negative and equals x or -x |
| JsMath.Round | lib/forex.ts:129 | `Math.round(x)` is the integer n with n - 0.5 <= x < n + 0.5, so halves go up |
| JsMath.RoundUnique | lib/forex.ts:129 | that integer is the only one in the half-open band |
| JsMath.RoundNegation | lib/forex.ts:129 | rounding -y gives -round(y), except at an exact half, where it gives 1 - round(y) |
| JsMath.Round2 | lib/forex.ts:153 | `Math.round(x * 100) / 100` is a whole number of hundredths lying within (-0.005, 0.005] of x |
| JsMath.Round2Unique | lib/forex.ts:153 | those two facts pin the result: any whole number of hundredths in that band is `Round2(x)` |
| Text.TrimStart | supabase/functions/update-indicators/index.ts:154 | removes a prefix made only of white space and leaves a result that does not start with white space |
| Text.TrimEnd | supabase/functions/update-indicators/index.ts:154 | removes a suffix made only of white space and leaves a result that does not end with white space |
| Text.Trim | supabase/functions/update-indicators/index.ts:154 | `trim` gives no longer a string, with no white space at either end |
| Text.TrimRemovesOnlySpace | supabase/functions/update-indicators/index.ts:154 | the trimmed text is an infix of the input, and everything before and after it is white space, so only surrounding white space is removed |
| Text.TrimIdempotent | supabase/functions/update-indicators/index.ts:154 | trimming twice is trimming once |
| Text.UpperChar | supabase/functions/update-signals/index.ts:132 | ASCII lower-case letters move down by 32; every other character is kept |
| Text.Upper | supabase/functions/update-signals/index.ts:132 | `toUpperCase` keeps the length and maps each character through `UpperChar` |
| Text.IndexOf | lib/i18n/index.ts:61 | gives the first position of the separator, or the length when it is absent |
| Text.Split | supabase/functions/update-indicators/index.ts:154 | `split` yields at least one part, the first being the text before the first separator, and no part contains the separator |
| Text.JoinSplit | supabase/functions/update-indicators/index.ts:154 | joining the parts of a split with the separator gives the input back |
| Text.SplitJoin | supabase/functions/update-indicators/index.ts:154 | splitting a join of separator-free parts gives the parts back |
| SystemConfig.ConfigValue | supabase/functions/update-indicators/index.ts:153 | `find(...)?.config_value` is the value of the first row with that key, and is missing when no row has the key |
| SystemConfig.ConfigText | lib/backend.ts:38-39 | defines the `config_value` read with the `''` fallback: the stored value, with a missing row or a null value read as the empty string |
| PriceFeed.ToPriceData | supabase/functions/update-signals/index.ts:54-67 | the record of the latest bar: close as the current price, high/low/open copied, change = close - open, change percent × open = change × 100, volume or `'0'` |
| PriceFeed.DecodeEntries | supabase/functions/update-signals/index.ts:74-101 | a keyed response yields at most one record per entry |
| PriceFeed.Usable | supabase/functions/update-signals/index.ts:75-83 | defines the entries that yield a record: an object whose status is not `error` and whose `values` list is non-empty |
| PriceFeed.FlatPair | supabase/functions/update-signals/index.ts:59 | defines the pair of a flat record: `meta.symbol`, or `pairs[0]` when the symbol is empty |
| PriceFeed.Decode | supabase/functions/update-signals/index.ts:53-101 | defines the records of a response: one for a flat body with values, `DecodeEntries` for a keyed body, none when the request throws |
| PriceFeed.FetchPrices | supabase/functions/update-signals/index.ts:40-109 | the push loop returns exactly `Decode`: one record for a flat body, one per usable entry for a keyed body, the records so far when an entry throws, none when the request throws |
| PriceFeed.SkippedEntryIsIrrelevant | supabase/functions/update-signals/index.ts:75-83 | removing an entry whose status is `error` or that has no values leaves the records unchanged |
| PriceFeed.NullEntryStops | supabase/functions/update-signals/index.ts:74-106 | a `null` entry throws, so only the records before it are returned |
| PriceFeed.AllUsableDecodeOnePerEntry | supabase/functions/update-signals/index.ts:74-101 | when every entry is usable, the records correspond one to one, in order: each is the `ToPriceData` record of the entry's symbol and latest bar, with every field fixed |
| PriceFeed.FlatResponseOneRecord | supabase/functions/update-signals/index.ts:53-70 | a flat body yields one record, named by `meta.symbol`, or by `pairs[0]` when the symbol is absent |
| PriceFeed.OneErroringPairExample | supabase/functions/update-signals/index.ts:74-101 | with one erroring pair and one good pair, only the good pair's record is returned |
| SignalEvaluator.Evaluate | supabase/functions/update-signals/index.ts:138-201 | defines the outcome rule by rule: take-profit, then stop-loss with both flags clear, then activation overriding the status |
| SignalEvaluator.EvaluateSignal | supabase/functions/update-signals/index.ts:138-201 | the loop body (a first-match scan of the levels with `break`, then stop-loss, then activation) computes exactly the rule-by-rule `Evaluate` |
| SignalEvaluator.FirstMatch | supabase/functions/update-signals/index.ts:132 | `find` ignoring case picks the first tick whose upper-cased pair equals the signal's |
| SignalEvaluator.PriceFor | supabase/functions/update-signals/index.ts:132 | defines the tick of a pair: the one at `FirstMatch`, none when no tick matches |
| SignalEvaluator.NeedsWrite | supabase/functions/update-signals/index.ts:204 | defines when a signal is written: it has a tick, and its status changed or the tick's price differs from the stored one |
| SignalEvaluator.Apply | supabase/functions/update-signals/index.ts:204-215 | an update changes `current_price`, `status`, `tp_hit`, `sl_hit`, `pnl` and `updated_at` to the written values, and keeps the id, pair, side, entry, levels and stop |
| SignalEvaluator.Loaded | supabase/functions/update-signals/index.ts:114-117 | the select returns exactly the pending and active rows |
| SignalEvaluator.LoadedUnique | supabase/functions/update-signals/index.ts:114-117 | the loaded signals keep the table's unique ids |
| SignalEvaluator.RowAfter | supabase/functions/update-signals/index.ts:204-221 | defines a row after one pass: updated when it is open, needs a write and the write does not fail, kept otherwise |
| SignalEvaluator.AfterPass | supabase/functions/update-signals/index.ts:131-223 | defines the table after one pass: each row replaced by its `RowAfter` |
| SignalEvaluator.PassStep | supabase/functions/update-signals/index.ts:131-223 | processing one more loaded signal changes only the row with its id, and only when it needs a write that does not fail |
| SignalEvaluator.PassDone | supabase/functions/update-signals/index.ts:131-223 | once every loaded signal is processed, the table is the result of the whole pass |
| SignalEvaluator.SignalStore.UpdateRow | supabase/functions/update-signals/index.ts:205-221 | a successful write applies the update to the rows with that id; a failed one changes nothing. Ids stay unique |
| SignalEvaluator.SignalStore.UpdateSignalStatuses | supabase/functions/update-signals/index.ts:112-224 | a failed select changes nothing. Otherwise each row becomes its one-pass result, and a failed write leaves its row as it was without stopping the loop. The ids written to are those of the loaded signals needing a write, in order. Ids stay unique |
| SignalEvaluator.UniqueAfterUpdate | supabase/functions/update-signals/index.ts:205-221 | an update by id keeps every id, so it keeps them unique |
| SignalEvaluator.UniqueAfterPass | supabase/functions/update-signals/index.ts:204-215 | a pass keeps every id, so it keeps them unique |
| SignalEvaluator.BuyTakeProfit | supabase/functions/update-signals/index.ts:146-157 | BUY take-profit fires iff the flag was clear and some level is at or below the price; it then books (price - entry) × 100 and closes, unless activation overrides it |
| SignalEvaluator.SellTakeProfit | supabase/functions/update-signals/index.ts:170-181 | SELL take-profit fires iff the flag was clear and some level is at or above the price; it then books (entry - price) × 100, positive exactly when the price is below the entry |
| SignalEvaluator.StopLossRule | supabase/functions/update-signals/index.ts:159-190 | stop-loss fires iff neither flag is set after the take-profit scan and the stop is reached; it books the same P&L; it never fires together with a take-profit |
| SignalEvaluator.FlagsMonotone | supabase/functions/update-signals/index.ts:139-190 | `tp_hit` and `sl_hit` only go from false to true, and the stored P&L (0 when absent) is kept unless a closure fires |
| SignalEvaluator.ActivationOverridesClosure | supabase/functions/update-signals/index.ts:193-201 | a pending signal within 0.1% of its entry ends up active and changed, even when a closure fired in the same pass |
| SignalEvaluator.TakeProfitOnActivationNeverCloses | supabase/functions/update-signals/index.ts:146-201 | a pending signal whose take-profit fires in the pass that activates it is written back active with `tp_hit` set, and from then on no price closes it or changes its status |
| SignalEvaluator.LevelOrderIrrelevant | supabase/functions/update-signals/index.ts:148-157 | which level matched does not matter: reordering the levels leaves the evaluation unchanged |
| SignalEvaluator.FirstLevelExample | supabase/functions/update-signals/index.ts:148-157 | a BUY with levels 100, 105 and 110 at price 107 closes on take-profit and does not stop out |
| SignalEvaluator.EntryToleranceExample | supabase/functions/update-signals/index.ts:194-201 | entry 2000 activates at 2001.5 but not at 2003 |
| SignalEvaluator.UntickedSignalUntouched | supabase/functions/update-signals/index.ts:132-136 | a signal with no tick for its pair (ignoring case) is not written, and its row is unchanged |
| SignalEvaluator.AttemptedIff | supabase/functions/update-signals/index.ts:204 | an id is written to iff a loaded signal with that id changed status or has a new price |
| SignalEvaluator.EvaluateSettled | supabase/functions/update-signals/index.ts:138-215 | after its write-back, an open row evaluated again at the same price has no status change and the stored price |
| SignalEvaluator.RowAfterSettled | supabase/functions/update-signals/index.ts:204-215 | after one pass, an open row needs no write unless its own write failed |
| SignalEvaluator.AttemptsOnlyFailed | supabase/functions/update-signals/index.ts:204-222 | if every signal is settled or failed, only failed ids are written to; with no failures, nothing is |
| SignalEvaluator.LoadedAfterPassSettled | supabase/functions/update-signals/index.ts:114-222 | every row the next select loads is settled or had a failed write |
| SignalEvaluator.SecondPassWritesOnlyFailed | supabase/functions/update-signals/index.ts:112-224 | a second pass with the same prices writes only to rows whose first write failed, and nothing when none failed |
| Indicators.RsiStatus | supabase/functions/update-indicators/index.ts:18-22 | Overbought iff > 70, Oversold iff < 30, Neutral iff 30 to 70 inclusive, each with its colour |
| Indicators.MacdStatus | supabase/functions/update-indicators/index.ts:24-28 | Buy iff > 0.5, Sell iff < -0.5, Neutral iff -0.5 to 0.5 inclusive, each with its colour |
| Indicators.AtrStatus | supabase/functions/update-indicators/index.ts:30-35 | with v = atr / price × 100: High iff v > 2, Low iff v < 0.5, Normal iff v is 0.5 to 2, each with its colour |
| Indicators.RsiMonotone | supabase/functions/update-indicators/index.ts:18-22 | a larger RSI never gives a lower bucket |
| Indicators.MacdMonotone | supabase/functions/update-indicators/index.ts:24-28 | a larger MACD never gives a lower bucket |
| Indicators.AtrBucketsScaleWithPrice | supabase/functions/update-indicators/index.ts:30-35 | for a positive price, High iff atr > price / 50 and Low iff atr < price / 200 |
| Indicators.Reading | supabase/functions/update-indicators/index.ts:80-129 | a reading carries the pair, the indicator's name and `15M`. Its number is shown with 4, 1 or 2 decimals, with the classifier's status and colour. A leading `+` appears iff it is MACD and the value is positive |
| Indicators.ProcessATR | supabase/functions/update-indicators/index.ts:73-92 | the push loop resolves to exactly `Readings(ATR, ...)`, with the stored price as the ATR's base |
| Indicators.ProcessRSI | supabase/functions/update-indicators/index.ts:94-112 | the push loop resolves to exactly `Readings(RSI, ...)` |
| Indicators.ProcessMACD | supabase/functions/update-indicators/index.ts:114-132 | the push loop resolves to exactly `Readings(MACD, ...)` |
| Indicators.Kept | supabase/functions/update-indicators/index.ts:75-78 | the pairs that pass the `continue` guard: at most the listed ones, and exactly those with values (and, for ATR, a non-zero stored price) |
| Indicators.Readings | supabase/functions/update-indicators/index.ts:73-132 | defines a processing function's result: a reading per kept pair in list order, or a `TypeError` when the batch is `null` and there are pairs, or when a pair that is not skipped has an empty `values` list |
| Indicators.ReadingsFollowPairs | supabase/functions/update-indicators/index.ts:73-132 | the readings' pairs are exactly the listed pairs that pass the guard, in list order; a `null` batch with no pairs gives none |
| Indicators.ReadingsAreOfLatestValues | supabase/functions/update-indicators/index.ts:73-132 | every reading has its indicator's name and `15M`, and is the reading of its pair's first value |
| Indicators.AtMostOnePerPair | supabase/functions/update-indicators/index.ts:73-132 | no more readings than listed pairs |
| Indicators.ReadingsFailWhen | supabase/functions/update-indicators/index.ts:73-132 | a processing function rejects iff the batch is `null` and there is a pair, or some pair passing the guard has an empty `values` list |
| Indicators.AtrOnlyWithPrice | supabase/functions/update-indicators/index.ts:77-81 | every ATR reading has a stored non-zero price, and its status is the ATR classifier's at that price |
| Indicators.ParsePairs | supabase/functions/update-indicators/index.ts:154 | the `supported_pairs` value split on `,` with each part trimmed, or no pairs when the value is missing |
| Indicators.ParsePairsRoundTrip | supabase/functions/update-indicators/index.ts:154 | pairs without commas or surrounding white space, stored comma-separated, are parsed back exactly |
| Indicators.UpdateIndicators | supabase/functions/update-indicators/index.ts:146-172 | a config error, a missing API key, a rejecting process and an empty concatenation each fail with the source's message; otherwise the result is the ATR readings, then RSI, then MACD |
| Indicators.ReadingExamples | supabase/functions/update-indicators/index.ts:100-129 | RSI 72.3, 28 and 50 are Overbought, Oversold and Neutral. MACD 0.37 is Neutral yet shown with `+`, 0.62 is a Buy shown with `+`, and -0.2 is Neutral without a sign |
| ManualTrigger.ActionOf | supabase/functions/manual-trigger/index.ts:22 | a missing or empty `action` means `both`; any other value is used as given |
| ManualTrigger.Record | supabase/functions/manual-trigger/index.ts:41-56 | an entry has its type and `success = response.ok` with the body as data; a thrown call is a failure carrying its message |
| ManualTrigger.Trigger | supabase/functions/manual-trigger/index.ts:21-100 | results are the signals entry, then the indicators entry, for the actions that run them. Success iff every entry succeeded. Status 200 on success, otherwise 207. The message names the action |
| ManualTrigger.DispatchByAction | supabase/functions/manual-trigger/index.ts:29-88 | a signals entry exists iff the action is `signals` or `both`, and likewise for indicators. Signals always come first. No update runs twice |
| ManualTrigger.UnrecognisedAction | supabase/functions/manual-trigger/index.ts:26-100 | an action naming neither update gives empty results, which count as success |
| ManualTrigger.ThrowDoesNotStopTheNextStep | supabase/functions/manual-trigger/index.ts:49-88 | a thrown signals call still lets the indicators call run, and the trigger is then not successful |
| Forex.PairTableWellFormed | lib/forex.ts:63-74 | each configured pair is keyed by its own symbol and has a positive pip size |
| Forex.PriceDiff | lib/forex.ts:128 | exit - entry for BUY, entry - exit for SELL |
| Forex.CalculatePips | lib/forex.ts:117-138 | an unconfigured pair fails with `Unsupported pair: <pair>`. Otherwise the move is in whole pips within half a pip, with the pair's pip size and the raw move as profit |
| Forex.WithinHalfPip | lib/forex.ts:129 | a pip count rounded from diff / pip is within half a pip of diff |
| Forex.SwapTypeNegates | lib/forex.ts:128-131 | swapping BUY and SELL negates the move and the profit, and keeps the pip size. It negates the pip count, except at an exact half, where the count is one more |
| Forex.CalculateLotSize | lib/forex.ts:141-157 | the unrounded lot loses exactly the risk amount at the stop. The lot and the margin are whole hundredths within half a hundredth of the lot and the risk, which by `Round2Unique` is rounding to 2 decimals. The position is the unrounded lot × 100000, rounded |
| Forex.PositionFollowsUnroundedLot | lib/forex.ts:147-156 | a balance of 1230 at 10% risk with a 100-pip stop at 10 per pip gives lot 0.12, position 12300 and margin 123 |
| Forex.CalculatePnL | lib/forex.ts:160-182 | an unconfigured pair fails with `Unsupported pair: <pair>`. Otherwise the pips are as in `calculatePips`. The profit (move × lot × 100000) and the percentage (move over the entry × 100) are whole hundredths within half a hundredth of the exact values, that is, rounded to 2 decimals |
| Forex.ProfitPercent | lib/forex.ts:175 | profit / (entry × lot × 100000) × 100 equals move / entry × 100: the lot cancels |
| Forex.FormatPrice | lib/forex.ts:185-191 | the price with the pair's digits, or 4 for an unconfigured pair |
| Forex.GetPairConfig | lib/forex.ts:194-196 | missing exactly for unconfigured pairs; otherwise the pair's configuration, under its own symbol |
| Forex.IsValidPair | lib/forex.ts:199-200 | valid iff the pair is `XAU/USD` or `BTC/USD` |
| Forex.ValidPairWithoutConfig | lib/forex.ts:194-200 | `BTC/USD` is valid but not configured, so the pips and P&L calculators reject it; gold is both |
| Backend.HealthOf | lib/backend.ts:49-57 | healthy iff neither the price age is over 10 nor the indicator age over 30; error iff the price age is over 30 or the indicator age over 60; warning otherwise. A NaN age is over no limit |
| Backend.ClassifyHealth | lib/backend.ts:49-57 | the two overwriting steps compute exactly `HealthOf` |
| Backend.HealthMonotone | lib/backend.ts:49-57 | older updates never give a healthier status |
| Backend.UnparseableTimestampLooksFresh | lib/backend.ts:43-57 | an unparseable stored timestamp weighs like an age of zero, so two of them report a healthy system whatever the clock |
| Backend.AgeMinutes | lib/backend.ts:42-47 | a missing timestamp is aged from the epoch, a parsed one from its time, in minutes; an unparseable one has a NaN age |
| Backend.GetSystemStatus | lib/backend.ts:26-69 | a failed select gives nothing. Otherwise the status returns the two stored strings (`''` when missing), zero API calls, and the health of their ages, with an unparseable timestamp giving a NaN age |
| Backend.MissingTimestampIsAnError | lib/backend.ts:38-57 | with no price timestamp and a clock more than 30 minutes past the epoch, the health is error |
| Onboarding.NameError | app/onboarding.tsx:38-42 | no error iff the trimmed name has at least 2 characters. An empty trimmed name is "required"; one character is "at least 2 characters" |
| Onboarding.IsDateFormat | app/onboarding.tsx:48 | defines the `YYYY-MM-DD` pattern: exactly ten characters, four digits, a dash, two digits, a dash and two digits |
| Onboarding.DobError | app/onboarding.tsx:44-61 | no error iff the date is present, well-formed, not in the future and not before 1900. Empty, malformed, future and pre-1900 each get their message, and pre-1900 wins over future |
| Onboarding.FormErrors | app/onboarding.tsx:36-61 | the keys are within {name, dob}, each present iff that field has an error, and it holds that field's message |
| Onboarding.OnboardingForm.constructor | app/onboarding.tsx:22-31 | the form starts with an empty name and date, English, and no errors |
| Onboarding.OnboardingForm.ValidateForm | app/onboarding.tsx:35-65 | the step-by-step map equals `FormErrors` and is stored, only the errors change, and the result is true iff the map is empty |
| Onboarding.ValidIff | app/onboarding.tsx:35-65 | valid iff the trimmed name has at least 2 characters and the date is well-formed, not in the future and not before 1900 |
| Onboarding.MalformedDateIgnoresComparisons | app/onboarding.tsx:47-50 | a malformed date gets the same error whatever the date comparisons give |
| Onboarding.DateFormatExamples | app/onboarding.tsx:48 | `1990-05-17` is well-formed; `1990-5-17`, `1990/05/17` and a trailing space are not |
| Languages.Find | lib/constants.ts:68 | `find` by code: missing iff no entry has the code, otherwise the first entry with it |
| Languages.FindUnique | lib/constants.ts:68 | in a table with distinct codes, `find` returns the one entry with that code |
| Languages.SupportedLanguagesWellFormed | lib/constants.ts:2-64 | the codes are pairwise distinct, the first entry is the default `en`, and only `ar` is right to left |
| Languages.GetLanguageInfo | lib/constants.ts:67-69 | the entry with that code when there is one, the first (English) entry otherwise |
| Languages.IsRTL | lib/constants.ts:72-73 | the chosen entry's `rtl`, true iff the code is `ar` |
| I18n.SupportedIsFound | lib/i18n/index.ts:24-53 | a code has translations iff it is en, ta, hi or ar; the option codes are distinct |
| I18n.GetDeviceLocale | lib/i18n/index.ts:59-66 | the text before the first `-` when that is a language with translations, `en` otherwise; always a supported code |
| I18n.LoadSavedLanguage | lib/i18n/index.ts:69-81 | the saved value when the read succeeds and the value is supported, otherwise the device language; always a supported code |
| I18n.Translator.constructor | lib/i18n/index.ts:12-21 | the translator starts in English over the existing storage |
| I18n.Translator.CurrentLanguageInfo | lib/i18n/index.ts:115-117 | the option of the current locale, or the first (English) option when the locale has none |
| I18n.Translator.IsRTL | lib/i18n/index.ts:125-128 | the current option's `rtl`, true iff the locale is `ar` |
| I18n.Translator.InitializeI18n | lib/i18n/index.ts:94-100 | sets the locale to the loaded code and returns that same code |
| I18n.Translator.ChangeLanguage | lib/i18n/index.ts:103-112 | an unsupported code changes nothing. A supported code becomes the locale and is saved under `app_language`; a failed save keeps the switch but stores nothing |
| I18n.ChangeThenLoad | lib/i18n/index.ts:69-112 | after a successful save of a supported code, loading gives that code back, whatever the device locale |
| I18n.RegionalDeviceLocale | lib/i18n/index.ts:59-66 | the device locale `ta-IN` gives `ta` |
| I18n.UntranslatedDeviceLocale | lib/i18n/index.ts:59-66 | the device locale `fr-FR` gives `en` |

## Left out

- Network and persistence I/O is left out: the quote-provider requests, the Supabase selects and updates, request handling, CORS headers and environment reads. Provider bodies and selected rows are inputs. Write failures are a set of ids.
- The rest of the `update-signals` handler is left out. This includes the shared-secret 403 check, the `price_summary` and `market_data` writes and the `last_price_update` timestamp. These are database plumbing around the two modelled functions.
- The rest of the `update-indicators` handler is left out: the `technical_indicators` writes, the `last_indicator_update` timestamp and the response body. `fetchIndicatorBatch` is an input, `NullBatch` when it returns `null`.
- Clocks are parameters. This covers `new Date()`, the write timestamp and the onboarding date comparisons, and the health rule's parsed timestamps are given in milliseconds, or as invalid.
- Logging is left out.
- IEEE-754 behaviour is left out; numbers are exact reals. The callers must exclude the divisions that would give NaN or Infinity:
  - a zero opening price in the decoder, in a usable entry read before the first `null` one (entries after it are never read);
  - a zero stop distance in `calculateLotSize`;
  - a zero entry price or lot in `calculatePnL`;
  - a zero stored price for ATR, which the source itself excludes.
- NaN from `parseFloat` of a missing field is not modelled.
- Date parsing is not modelled: the two date comparisons are inputs. An invalid date that matches the format, such as `2023-13-45`, is the input with both comparisons false, and the form accepts it, as the source does.
- `toFixed` rendering and `parseFloat` are not modelled. A shown number keeps its value and its number of decimals, and the decoded bars already hold numbers.
- `Promise.all` concurrency and races between invocations are left out. The three indicator batches and the three processing functions run in sequence.
- Indicators.UpdateIndicators: when a processing function rejects, the model states only that the handler fails. It does not say which rejection's message is reported, and the text of a `TypeError` is a placeholder.
- Text.Upper: `toUpperCase` is modelled on ASCII letters only. Other characters are kept as they are.
- Onboarding.NameError: lengths are counted in characters, not UTF-16 code units.
- Keys that name `Object.prototype` members are left out of the `FOREX_PAIRS` lookup. The table is a plain map.
- An absent `pairs[0]` in a flat price response is read as an empty pair name.
- Signal types other than BUY and SELL, and statuses other than pending, active and closed, are not modelled.
- Storage failures in the language preference are flags: `readFails` and `saveFails`. The device locale is an input.
- The translation tables and `t` are not modelled. The `i18n-js` lookup behind `t` is a library, and the tables are data.
- From `lib/forex.ts`, three things are not modelled:
  - the `LANGUAGES` constant;
  - `getForexPrice`, which is I/O;
  - the module-level `useEffect`, a React hook used outside a component.
- The other fetchers of `lib/backend.ts` are I/O and are not modelled. These are `getPriceSummary`, `triggerManualUpdate`, `getActiveSignalsWithStatus`, `getSignalPerformance` and `updateSystemConfig`.
- The UI components, push-notification and device-profile modules, and `dummy.ts` are not part of this model.
