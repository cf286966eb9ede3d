/** The system health shown by the monitor (`getSystemStatus` in
    `lib/backend.ts`): how long ago prices and indicators were last updated
    decides between healthy, warning and error. The clock and the parsing of
    the stored timestamps are inputs. */
module Backend {
  import opened Wrappers
  import opened SystemConfig

  datatype Health = Healthy | Warning | Error

  /** An age in minutes, `None` when it is NaN (the stored timestamp did not
      parse). */
  type Age = Option<real>

  /** The JavaScript comparison `age > limit`, which is false for NaN. */
  predicate Above(age: Age, limit: real) {
    age.Some? && age.value > limit
  }

  /** The classification: healthy unless prices are over 10 or indicators
      over 30 minutes old, an error once prices are over 30 or indicators
      over 60 minutes old, a warning in between. A NaN age passes every
      comparison. */
  function HealthOf(priceAge: Age, indicatorAge: Age): (h: Health)
    ensures h == Healthy <==> !Above(priceAge, 10.0) && !Above(indicatorAge, 30.0)
    ensures h == Error <==> Above(priceAge, 30.0) || Above(indicatorAge, 60.0)
    ensures h == Warning <==>
      (Above(priceAge, 10.0) || Above(indicatorAge, 30.0)) && !(Above(priceAge, 30.0) || Above(indicatorAge, 60.0))
  {
    if Above(priceAge, 30.0) || Above(indicatorAge, 60.0) then Error
    else if Above(priceAge, 10.0) || Above(indicatorAge, 30.0) then Warning
    else Healthy
  }

  /** The rule as the code states it: start healthy, overwrite with a
      warning, then overwrite with an error. */
  method ClassifyHealth(priceAge: Age, indicatorAge: Age) returns (systemHealth: Health)
    ensures systemHealth == HealthOf(priceAge, indicatorAge)
  {
    systemHealth := Healthy;
    if Above(priceAge, 10.0) || Above(indicatorAge, 30.0) {
      systemHealth := Warning;
    }
    if Above(priceAge, 30.0) || Above(indicatorAge, 60.0) {
      systemHealth := Error;
    }
  }

  function Severity(h: Health): int {
    match h
    case Healthy => 0
    case Warning => 1
    case Error => 2
  }

  /** Older updates never make the system look healthier. */
  lemma HealthMonotone(p1: real, i1: real, p2: real, i2: real)
    requires p1 <= p2 && i1 <= i2
    ensures Severity(HealthOf(Some(p1), Some(i1))) <= Severity(HealthOf(Some(p2), Some(i2)))
  {
  }

  /** An unparseable timestamp counts as fresh: a NaN age weighs like an age
      of zero, so two unparseable timestamps report a healthy system
      whatever the clock. */
  lemma UnparseableTimestampLooksFresh(indicatorAge: Age, priceAge: Age)
    ensures HealthOf(None, indicatorAge) == HealthOf(Some(0.0), indicatorAge)
    ensures HealthOf(priceAge, None) == HealthOf(priceAge, Some(0.0))
    ensures HealthOf(None, None) == Healthy
  {
  }

  datatype SystemStatus = SystemStatus(
    lastPriceUpdate: string,
    lastIndicatorUpdate: string,
    apiCallsToday: int,
    systemHealth: Health)

  /** Minutes from a stored timestamp to now. An empty value is aged from
      the epoch; otherwise `parsedMs` is what `new Date(value)` gives in
      milliseconds, `None` for an invalid date, whose age is NaN. */
  function AgeMinutes(value: string, parsedMs: Option<int>, nowMs: int): (age: Age)
    ensures value == "" ==> age.Some? && age.value * 60000.0 == nowMs as real
    ensures value != "" ==> (age.None? <==> parsedMs.None?)
    ensures value != "" && parsedMs.Some? ==> age.Some? && age.value * 60000.0 == (nowMs - parsedMs.value) as real
  {
    if value == "" then Some(nowMs as real / 60000.0)
    else if parsedMs.None? then None
    else Some((nowMs - parsedMs.value) as real / 60000.0)
  }

  /** `getSystemStatus`: `rows` is the `system_config` select (`None` when it
      reports an error or throws), `nowMs` the clock, and `priceMs` and
      `indicatorMs` the parsed stored timestamps. */
  method GetSystemStatus(rows: Option<seq<ConfigRow>>, nowMs: int, priceMs: Option<int>, indicatorMs: Option<int>)
    returns (status: Option<SystemStatus>)
    ensures rows.None? <==> status.None?
    ensures rows.Some? ==>
      var lastPrice := ConfigText(rows.value, "last_price_update");
      var lastIndicator := ConfigText(rows.value, "last_indicator_update");
      status.value.lastPriceUpdate == lastPrice &&
      status.value.lastIndicatorUpdate == lastIndicator &&
      status.value.apiCallsToday == 0 &&
      status.value.systemHealth == HealthOf(AgeMinutes(lastPrice, priceMs, nowMs), AgeMinutes(lastIndicator, indicatorMs, nowMs))
  {
    if rows.None? {
      return None;
    }
    var lastPriceUpdate := ConfigText(rows.value, "last_price_update");
    var lastIndicatorUpdate := ConfigText(rows.value, "last_indicator_update");
    var priceAge := AgeMinutes(lastPriceUpdate, priceMs, nowMs);
    var indicatorAge := AgeMinutes(lastIndicatorUpdate, indicatorMs, nowMs);
    var systemHealth := ClassifyHealth(priceAge, indicatorAge);
    status := Some(SystemStatus(lastPriceUpdate, lastIndicatorUpdate, 0, systemHealth));
  }

  /** A missing price timestamp is aged from the epoch, so any clock more
      than 30 minutes past the epoch reports an error. */
  lemma MissingTimestampIsAnError(rows: seq<ConfigRow>, nowMs: int, priceMs: Option<int>, indicatorMs: Option<int>)
    requires ConfigText(rows, "last_price_update") == ""
    requires nowMs > 1800000
    ensures HealthOf(AgeMinutes(ConfigText(rows, "last_price_update"), priceMs, nowMs),
                     AgeMinutes(ConfigText(rows, "last_indicator_update"), indicatorMs, nowMs)) == Error
  {
    var age := AgeMinutes("", priceMs, nowMs);
    assert age.value * 60000.0 > 1800000.0;
  }
}
