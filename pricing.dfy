/** The pricing engine: the rate per kWh in force now under the configured
    mode (flat, peak/off-peak, seasonal or Tempo day colours), and costs of
    energy and of a constant power over an hour, a day and a month.

    The local clock is a parameter: the hour, minute, month (1-12) and day of
    the week at which the rate is asked for. */
module Pricing {
  import opened Wrappers
  import opened Text
  import opened Configuration

  datatype Weekday = Mon | Tue | Wed | Thu | Fri | Sat | Sun

  /** The local time the engine reads from the clock */
  datatype LocalTime = LocalTime(hour: nat, minute: nat, month: nat, weekday: Weekday)

  /** `PricingEngine`: a copy of the pricing section, replaced wholesale when
      the settings change */
  class PricingEngine {
    var config: PricingConfig

    constructor New(config: PricingConfig)
      ensures this.config == config
    {
      this.config := config;
    }

    /** `update_config` */
    method UpdateConfig(config: PricingConfig)
      modifies this
      ensures this.config == config
    {
      this.config := config;
    }
  }

  // ---------------------------------------------------------------------------
  // Mode dispatch

  /** `get_current_rate`: the rule of the configured mode, the flat rate for
      the flat mode and for any unknown mode */
  function CurrentRate(c: PricingConfig, now: LocalTime): (r: real)
    ensures c.mode == "peak_offpeak" ==>
      r == (if IsOffpeakTime(c, now) then c.peakOffpeak.offpeakRate else c.peakOffpeak.peakRate)
    ensures c.mode == "seasonal" ==> r == SeasonalRate(c, now.month)
    ensures c.mode == "tempo" ==> r == TempoRate(c, now)
    ensures c.mode !in {"peak_offpeak", "seasonal", "tempo"} ==> r == c.simple.ratePerKwh
  {
    match c.mode
    case "simple" => c.simple.ratePerKwh
    case "peak_offpeak" => PeakOffpeakRate(c, now)
    case "seasonal" => SeasonalRate(c, now.month)
    case "tempo" => TempoRate(c, now)
    case _ => c.simple.ratePerKwh
  }

  /** Each known mode selects its own rule; any other mode falls back to
      the flat rate */
  lemma RateByMode(c: PricingConfig, now: LocalTime)
    ensures c.mode == "peak_offpeak" ==> CurrentRate(c, now) in {c.peakOffpeak.peakRate, c.peakOffpeak.offpeakRate}
    ensures c.mode == "seasonal" ==> CurrentRate(c, now) in {c.seasonal.summerRate, c.seasonal.winterRate}
    ensures c.mode == "tempo" ==>
      CurrentRate(c, now) in {c.tempo.bluePeak, c.tempo.blueOffpeak, c.tempo.whitePeak, c.tempo.whiteOffpeak}
    ensures c.mode !in {"peak_offpeak", "seasonal", "tempo"} ==> CurrentRate(c, now) == c.simple.ratePerKwh
  {
    TempoNeverRed(now.month, now.weekday);
  }

  // ---------------------------------------------------------------------------
  // Costs

  /** `calculate_cost`: no energy costs nothing; a positive amount of energy
      costs something exactly when the rate is positive, and never a negative
      amount at a non-negative rate */
  function CalculateCost(c: PricingConfig, now: LocalTime, kwh: real): (cost: real)
    ensures kwh == 0.0 ==> cost == 0.0
    ensures kwh > 0.0 ==> (cost > 0.0 <==> CurrentRate(c, now) > 0.0)
    ensures kwh >= 0.0 && CurrentRate(c, now) >= 0.0 ==> cost >= 0.0
  {
    kwh * CurrentRate(c, now)
  }

  /** `calculate_hourly_cost`: one hour at `watts` */
  function HourlyCost(c: PricingConfig, now: LocalTime, watts: real): (cost: real)
    ensures cost * 1000.0 == watts * CurrentRate(c, now)
  {
    CalculateCost(c, now, watts / 1000.0)
  }

  /** `calculate_daily_cost`: 24 hours at `watts` */
  function DailyCost(c: PricingConfig, now: LocalTime, watts: real): (cost: real)
    ensures cost * 1000.0 == watts * 24.0 * CurrentRate(c, now)
  {
    HourlyCost(c, now, watts) * 24.0
  }

  /** `calculate_monthly_cost`: a month is thirty days, 720 hours at `watts` */
  function MonthlyCost(c: PricingConfig, now: LocalTime, watts: real): (cost: real)
    ensures cost * 1000.0 == watts * 720.0 * CurrentRate(c, now)
  {
    DailyCost(c, now, watts) * 30.0
  }

  /** Cost is additive in energy, and a constant power of `watts` for `h`
      hours costs what `watts · h / 1000` kWh costs */
  lemma CostAdditive(c: PricingConfig, now: LocalTime, a: real, b: real)
    ensures CalculateCost(c, now, a + b) == CalculateCost(c, now, a) + CalculateCost(c, now, b)
  {
  }

  /** The daily and monthly figures are 24 and 720 hours of the hourly one,
      and all three are the energy of that many hours at the current rate */
  lemma CostScaling(c: PricingConfig, now: LocalTime, watts: real)
    ensures HourlyCost(c, now, watts) == (watts / 1000.0) * CurrentRate(c, now)
    ensures DailyCost(c, now, watts) == CalculateCost(c, now, watts * 24.0 / 1000.0)
    ensures MonthlyCost(c, now, watts) == CalculateCost(c, now, watts * 720.0 / 1000.0)
    ensures MonthlyCost(c, now, watts) == HourlyCost(c, now, watts) * 720.0
  {
  }

  /** With a non-negative rate, more energy never costs less */
  lemma CostMonotone(c: PricingConfig, now: LocalTime, a: real, b: real)
    requires a <= b && CurrentRate(c, now) >= 0.0
    ensures CalculateCost(c, now, a) <= CalculateCost(c, now, b)
  {
    var rate := CurrentRate(c, now);
    var d := b - a;
    assert CalculateCost(c, now, a) == a * rate && CalculateCost(c, now, b) == b * rate;
    assert b * rate == a * rate + d * rate;
    assert d * rate >= 0.0;
  }

  /** At a flat 0.20 per kWh: 1 kWh costs 0.20, 10 kWh cost 2.0 and an hour
      at 100 W costs 0.02 */
  lemma FlatRateExamples(c: PricingConfig, now: LocalTime)
    requires c.mode == "simple" && c.simple.ratePerKwh == 0.20
    ensures CurrentRate(c, now) == 0.20
    ensures CalculateCost(c, now, 1.0) == 0.20
    ensures CalculateCost(c, now, 10.0) == 2.0
    ensures HourlyCost(c, now, 100.0) == 0.02
  {
  }

  /** `is_configured`: a positive flat rate is set (zero means unset) */
  function IsConfigured(c: PricingConfig): (b: bool)
    ensures b <==> c.simple.ratePerKwh > 0.0
  {
    c.simple.ratePerKwh > 0.0
  }

  /** Under the flat tariff (and any unknown mode) the engine is configured
      exactly when it charges for energy: any positive amount costs
      something, while an unconfigured engine prices it at zero or below */
  lemma ConfiguredMeansCharged(c: PricingConfig, now: LocalTime, kwh: real)
    requires c.mode !in {"peak_offpeak", "seasonal", "tempo"} && kwh > 0.0
    ensures IsConfigured(c) <==> CalculateCost(c, now, kwh) > 0.0
    ensures !IsConfigured(c) ==> CalculateCost(c, now, kwh) <= 0.0
  {
  }

  /** The stock configuration is configured, and a zero rate is not */
  lemma ConfiguredExamples(c: PricingConfig)
    ensures IsConfigured(DefaultPricing())
    ensures c.simple.ratePerKwh == 0.0 ==> !IsConfigured(c)
  {
  }

  // ---------------------------------------------------------------------------
  // Peak and off-peak

  /** `parse_time`: minutes since midnight of "HH:MM"; a part that is not a
      `u32` counts as 0, a text without exactly one ':' gives 0. The
      arithmetic is on `u32`, which wraps. */
  function ParseTime(timeStr: string): (t: nat)
    ensures t <= U32_MAX
  {
    var parts := Split(timeStr, ':');
    if |parts| == 2 then
      MinuteOfDay(ParseU32(parts[0]).UnwrapOr(0), ParseU32(parts[1]).UnwrapOr(0))
    else
      0
  }

  /** `hours * 60 + minutes` in `u32` arithmetic, which wraps */
  function MinuteOfDay(hours: nat, minutes: nat): (t: nat)
    ensures t <= U32_MAX
    ensures hours * 60 + minutes <= U32_MAX ==> t == hours * 60 + minutes
  {
    (hours * 60 + minutes) % (U32_MAX + 1)
  }

  /** `parse_time` reads back the minutes of an hour and minute written in
      decimal around a ':' */
  lemma ParseTimePrinted(h: nat, m: nat)
    requires h * 60 + m <= U32_MAX
    ensures ParseTime(Decimal(h) + ":" + Decimal(m)) == h * 60 + m
  {
    DecimalNoColon(h);
    DecimalNoColon(m);
    ParseTimeOfParts(Decimal(h) + ":" + Decimal(m), Decimal(h), Decimal(m));
    ParseDecimal(h, U32_MAX);
    ParseDecimal(m, U32_MAX);
  }

  lemma DecimalNoColon(n: nat)
    ensures ':' !in Decimal(n)
  {
    var s := Decimal(n);
    forall i | 0 <= i < |s|
      ensures s[i] != ':'
    {
      assert IsDigit(s[i]);
    }
  }

  /** Texts without exactly one ':' give 0 */
  lemma ParseTimeMalformed(timeStr: string)
    requires |Split(timeStr, ':')| != 2
    ensures ParseTime(timeStr) == 0
  {
  }

  /** Two ':'-free parts joined by a ':' split back into those parts */
  lemma SplitAroundColon(hours: string, minutes: string)
    requires ':' !in hours && ':' !in minutes
    ensures Split(hours + ":" + minutes, ':') == [hours, minutes]
  {
    var parts := [hours, minutes];
    assert parts[1..] == [minutes];
    assert Join(parts, ':') == hours + ":" + minutes;
    SplitJoin(parts, ':');
  }

  /** `parse_time` of two ':'-free parts joined by a ':' */
  lemma ParseTimeOfParts(timeStr: string, hours: string, minutes: string)
    requires ':' !in hours && ':' !in minutes && timeStr == hours + ":" + minutes
    ensures ParseTime(timeStr) == MinuteOfDay(ParseU32(hours).UnwrapOr(0), ParseU32(minutes).UnwrapOr(0))
  {
    SplitAroundColon(hours, minutes);
  }

  /** A two-digit field */
  lemma ParseTwoDigits(s: string)
    requires |s| == 2 && IsDigit(s[0]) && IsDigit(s[1])
    ensures ParseU32(s) == Some(DigitValue(s[0]) * 10 + DigitValue(s[1]))
  {
    assert s[0] != '+';
    assert AllDigits(s[..1]) && s[..1][..0] == [];
    assert DigitsValue(s[..1]) == DigitValue(s[0]);
    assert s[..|s| - 1] == s[..1];
    assert DigitsValue(s) == DigitValue(s[0]) * 10 + DigitValue(s[1]);
  }

  /** The stock off-peak window, 22:00 to 06:00 */
  lemma DefaultWindow(start: string, end: string)
    requires start == "22:00" && end == "06:00"
    ensures ParseTime(start) == 1320 && ParseTime(end) == 360
  {
    ParseTimeOfParts(start, start[..2], start[3..]);
    ParseTimeOfParts(end, end[..2], end[3..]);
    ParseTwoDigits(start[..2]);
    ParseTwoDigits(start[3..]);
    ParseTwoDigits(end[..2]);
    ParseTwoDigits(end[3..]);
  }

  /** Whether minute-of-day `t` falls in the off-peak window `[start, end)`,
      which wraps past midnight when `start > end` */
  function InWindow(start: nat, end: nat, t: nat): bool {
    if start > end then t >= start || t < end
    else t >= start && t < end
  }

  /** `is_offpeak_time`: never inside an empty window; otherwise off-peak
      exactly when the minute of day is outside the peak hours, which run
      from the window's end to its start */
  function IsOffpeakTime(c: PricingConfig, now: LocalTime): (b: bool)
    ensures ParseTime(c.peakOffpeak.offpeakStart) == ParseTime(c.peakOffpeak.offpeakEnd) ==> !b
    ensures ParseTime(c.peakOffpeak.offpeakStart) != ParseTime(c.peakOffpeak.offpeakEnd) ==>
      (b <==> !InWindow(ParseTime(c.peakOffpeak.offpeakEnd), ParseTime(c.peakOffpeak.offpeakStart), now.hour * 60 + now.minute))
  {
    var currentTime := now.hour * 60 + now.minute;
    WindowShape(ParseTime(c.peakOffpeak.offpeakStart), ParseTime(c.peakOffpeak.offpeakEnd), currentTime);
    InWindow(ParseTime(c.peakOffpeak.offpeakStart), ParseTime(c.peakOffpeak.offpeakEnd), currentTime)
  }

  /** An empty window is never off-peak, and a window that wraps midnight is
      exactly the complement of the same-day window between its ends */
  lemma WindowShape(start: nat, end: nat, t: nat)
    ensures start == end ==> !InWindow(start, end, t)
    ensures start != end ==> (InWindow(start, end, t) <==> !InWindow(end, start, t))
  {
  }

  /** With the stock window, off-peak runs from 22:00 until 06:00 */
  lemma DefaultOffpeak(c: PricingConfig, now: LocalTime)
    requires c.peakOffpeak == DefaultPricing().peakOffpeak
    ensures IsOffpeakTime(c, now) <==> now.hour * 60 + now.minute >= 1320 || now.hour * 60 + now.minute < 360
  {
    DefaultWindow(c.peakOffpeak.offpeakStart, c.peakOffpeak.offpeakEnd);
  }

  function PeakOffpeakRate(c: PricingConfig, now: LocalTime): real {
    if IsOffpeakTime(c, now) then c.peakOffpeak.offpeakRate else c.peakOffpeak.peakRate
  }

  // ---------------------------------------------------------------------------
  // Seasonal

  /** `get_seasonal_rate`: the winter rate in the winter months, the summer
      rate in every other month */
  function SeasonalRate(c: PricingConfig, month: nat): (r: real)
    ensures r in {c.seasonal.winterRate, c.seasonal.summerRate}
    ensures c.seasonal.winterRate != c.seasonal.summerRate ==> (r == c.seasonal.winterRate <==> month in c.seasonal.winterMonths)
  {
    if month in c.seasonal.winterMonths then c.seasonal.winterRate else c.seasonal.summerRate
  }

  /** With the stock months, November to March are winter */
  lemma DefaultSeasons(c: PricingConfig, month: nat)
    requires c.seasonal == DefaultPricing().seasonal
    ensures SeasonalRate(c, month) == (if month in {11, 12, 1, 2, 3} then 0.25 else 0.20)
  {
  }

  // ---------------------------------------------------------------------------
  // Tempo

  datatype DayColor = Blue | White | Red

  function IsWeekday(d: Weekday): bool {
    d in {Mon, Tue, Wed, Thu, Fri}
  }

  /** The day-colour heuristic of `get_tempo_rate`: never red, and blue on
      every weekend day */
  function TempoDayColor(month: nat, weekday: Weekday): (color: DayColor)
    ensures color != Red
    ensures !IsWeekday(weekday) ==> color == Blue
  {
    var isWinter := month in [12, 1, 2];
    var isWeekday := IsWeekday(weekday);
    if isWinter && isWeekday then
      (if month == 1 || month == 2 then White else White)
    else if isWeekday && month in [3, 4, 10, 11] then White
    else Blue
  }

  /** The heuristic never announces a red day; white days are the weekdays
      of December to April, October and November */
  lemma TempoNeverRed(month: nat, weekday: Weekday)
    ensures TempoDayColor(month, weekday) != Red
    ensures TempoDayColor(month, weekday) == White <==> IsWeekday(weekday) && month in {12, 1, 2, 3, 4, 10, 11}
  {
  }

  /** The rate of a day colour in the peak or off-peak hours */
  function ColorRate(c: PricingConfig, color: DayColor, isOffpeak: bool): real {
    match (color, isOffpeak)
    case (Blue, true) => c.tempo.blueOffpeak
    case (Blue, false) => c.tempo.bluePeak
    case (White, true) => c.tempo.whiteOffpeak
    case (White, false) => c.tempo.whitePeak
    case (Red, true) => c.tempo.redOffpeak
    case (Red, false) => c.tempo.redPeak
  }

  /** `get_tempo_rate`: a blue or white rate, the off-peak one in the
      off-peak hours and the peak one otherwise */
  function TempoRate(c: PricingConfig, now: LocalTime): (r: real)
    ensures IsOffpeakTime(c, now) ==> r in {c.tempo.blueOffpeak, c.tempo.whiteOffpeak}
    ensures !IsOffpeakTime(c, now) ==> r in {c.tempo.bluePeak, c.tempo.whitePeak}
  {
    ColorRate(c, TempoDayColor(now.month, now.weekday), IsOffpeakTime(c, now))
  }

  /** Weekends are always blue days */
  lemma TempoWeekendsBlue(c: PricingConfig, now: LocalTime)
    requires now.weekday in {Sat, Sun}
    ensures TempoRate(c, now) == (if IsOffpeakTime(c, now) then c.tempo.blueOffpeak else c.tempo.bluePeak)
  {
  }
}
