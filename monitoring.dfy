/** The two background loops and the tracking-session start, each tick taken
    as one sequential step. The clocks (time since the previous reading,
    time since the application and the session started, wall-clock
    seconds), the sensor read and the database are parameters. */
module Monitoring {
  import opened Wrappers
  import opened Numbers
  import opened Types
  import opened Configuration
  import opened Pricing
  import opened Baseline
  import Hardware
  import LinuxMetrics
  import Nvml

  /** The running session: what has accumulated since it began */
  datatype SessionState = SessionState(
    id: int,
    baselineWatts: real,
    totalWh: real,
    surplusWh: real,
    startTime: int,
    sessionLabel: Option<string>,
    category: Option<string>)

  /** The loops' shared state: the totals, the active session and the last
      snapshot of each loop */
  class Tracker {
    var appState: AppState
    var activeSession: Option<SessionState>
    var criticalCache: Option<CriticalMetrics>
    var detailedCache: Option<DetailedMetrics>

    constructor New(now: real)
      ensures appState == NewAppState(now)
      ensures activeSession == None && criticalCache == None && detailedCache == None
    {
      appState := NewAppState(now);
      activeSession := None;
      criticalCache := None;
      detailedCache := None;
    }
  }

  // ---------------------------------------------------------------------------
  // Starting a session

  /** The baseline a new session starts from: the detector's (or 0 when it
      has none) in automatic mode, the configured watts otherwise */
  function StartBaseline(advanced: AdvancedConfig, detected: Option<real>): (r: real)
    ensures !advanced.baselineAuto ==> r == advanced.baselineWatts
    ensures advanced.baselineAuto && detected.None? ==> r == 0.0
    ensures r == advanced.baselineWatts || r == 0.0 || (detected.Some? && r == detected.value)
  {
    if advanced.baselineAuto then detected.UnwrapOr(0.0) else advanced.baselineWatts
  }

  /** In automatic mode a manual override on the detector wins; without any
      baseline the session starts from 0 W */
  lemma StartBaselineCases(advanced: AdvancedConfig, manual: Option<real>, detected: Option<real>)
    ensures advanced.baselineAuto && manual.Some? ==> StartBaseline(advanced, manual.Or(detected)) == manual.value
    ensures advanced.baselineAuto && manual.None? && detected.Some? ==> StartBaseline(advanced, manual.Or(detected)) == detected.value
    ensures advanced.baselineAuto && manual.None? && detected.None? ==> StartBaseline(advanced, manual.Or(detected)) == 0.0
    ensures !advanced.baselineAuto ==> StartBaseline(advanced, manual.Or(detected)) == advanced.baselineWatts
  {
  }

  /** `start_tracking_session`. `dbStart` is the row id the database hands
      out, or its error; `now` is the session's start instant. */
  method StartTrackingSession(t: Tracker, advanced: AdvancedConfig, detector: BaselineDetector,
                              sessionLabel: Option<string>, dbStart: Result<int, string>, now: int)
    returns (r: Result<int, string>)
    modifies t
    ensures t.appState == old(t.appState) && t.criticalCache == old(t.criticalCache)
    ensures t.detailedCache == old(t.detailedCache)
    ensures old(t.activeSession).Some? ==>
      r == Err("A session is already active") && t.activeSession == old(t.activeSession)
    ensures old(t.activeSession).None? && dbStart.Err? ==>
      r == Err(dbStart.error) && t.activeSession == None
    ensures old(t.activeSession).None? && dbStart.Ok? ==>
      && r == Ok(dbStart.value)
      && t.activeSession == Some(SessionState(dbStart.value, StartBaseline(advanced, detector.GetBaseline()),
                                              0.0, 0.0, now, sessionLabel, None))
  {
    if t.activeSession.Some? {
      return Err("A session is already active");
    }
    var baselineWatts := if advanced.baselineAuto then detector.GetBaseline().UnwrapOr(0.0) else advanced.baselineWatts;
    if dbStart.Err? {
      return Err(dbStart.error);
    }
    t.activeSession := Some(SessionState(dbStart.value, baselineWatts, 0.0, 0.0, now, sessionLabel, None));
    r := Ok(dbStart.value);
  }

  // ---------------------------------------------------------------------------
  // The critical tick

  /** The totals after one reading of `powerWatts` held for `hours`; the
      running cost is the whole total priced at the current rate */
  function AppStep(s: AppState, pricing: PricingConfig, now: LocalTime, powerWatts: real, hours: real): (s': AppState)
    ensures s'.cumulativeWh - s.cumulativeWh == powerWatts * hours
    ensures s'.currentCost == CalculateCost(pricing, now, s'.cumulativeWh / 1000.0)
    ensures s'.lastPowerWatts == powerWatts && s'.sessionStart == s.sessionStart
  {
    var cumulative := s.cumulativeWh + powerWatts * hours;
    s.(cumulativeWh := cumulative, lastPowerWatts := powerWatts,
       currentCost := CalculateCost(pricing, now, cumulative / 1000.0))
  }

  /** The session after one reading: all of the energy counts towards the
      total, the part above the baseline towards the surplus */
  function SessionStep(s: SessionState, powerWatts: real, hours: real): (s': SessionState)
    ensures s'.(totalWh := s.totalWh, surplusWh := s.surplusWh) == s
    ensures powerWatts <= s.baselineWatts ==> s'.surplusWh == s.surplusWh
  {
    s.(totalWh := s.totalWh + powerWatts * hours,
       surplusWh := s.surplusWh + MaxReal(powerWatts - s.baselineWatts, 0.0) * hours)
  }

  /** The session's surplus grows by the detector's surplus energy for that
      baseline; only the totals change */
  lemma SessionStepIsSurplusWh(s: SessionState, powerWatts: real, hours: real)
    ensures var s' := SessionStep(s, powerWatts, hours);
      && s'.totalWh - s.totalWh == powerWatts * hours
      && s'.surplusWh - s.surplusWh == SurplusWhOf(Some(s.baselineWatts), powerWatts, hours)
      && s'.(totalWh := s.totalWh, surplusWh := s.surplusWh) == s
  {
  }

  /** Surplus never outgrows the total when power and baseline are
      non-negative, and neither shrinks */
  lemma SurplusGrowthBounded(s: SessionState, powerWatts: real, hours: real)
    requires powerWatts >= 0.0 && s.baselineWatts >= 0.0 && hours >= 0.0
    ensures var s' := SessionStep(s, powerWatts, hours);
      && 0.0 <= s'.surplusWh - s.surplusWh <= s'.totalWh - s.totalWh
  {
    var surplus := MaxReal(powerWatts - s.baselineWatts, 0.0);
    assert 0.0 <= surplus <= powerWatts;
    assert surplus * hours <= powerWatts * hours;
  }

  /** A session's accounting is sound: no negative energy and no more
      surplus than total */
  predicate SoundSession(s: SessionState) {
    s.baselineWatts >= 0.0 && 0.0 <= s.surplusWh <= s.totalWh
  }

  /** The session after a run of readings, each a power held for some hours */
  function SessionSteps(s: SessionState, readings: seq<(real, real)>): (s': SessionState)
    ensures s'.baselineWatts == s.baselineWatts && s'.id == s.id
    decreases |readings|
  {
    if |readings| == 0 then s
    else SessionSteps(SessionStep(s, readings[0].0, readings[0].1), readings[1..])
  }

  /** Energy of a run of readings */
  function EnergyOf(readings: seq<(real, real)>): real {
    if |readings| == 0 then 0.0 else readings[0].0 * readings[0].1 + EnergyOf(readings[1..])
  }

  predicate NonNegativeReadings(readings: seq<(real, real)>) {
    forall i :: 0 <= i < |readings| ==> readings[i].0 >= 0.0 && readings[i].1 >= 0.0
  }

  /** Over any run of non-negative readings the total grows by exactly their
      energy, and a sound session stays sound */
  lemma {:induction false} SessionStepsSound(s: SessionState, readings: seq<(real, real)>)
    requires SoundSession(s) && NonNegativeReadings(readings)
    ensures SessionSteps(s, readings).totalWh == s.totalWh + EnergyOf(readings)
    ensures SoundSession(SessionSteps(s, readings))
    decreases |readings|
  {
    if |readings| > 0 {
      var s1 := SessionStep(s, readings[0].0, readings[0].1);
      SurplusGrowthBounded(s, readings[0].0, readings[0].1);
      assert NonNegativeReadings(readings[1..]) by {
        forall i | 0 <= i < |readings[1..]|
          ensures readings[1..][i].0 >= 0.0 && readings[1..][i].1 >= 0.0
        {
          assert readings[1..][i] == readings[i + 1];
        }
      }
      SessionStepsSound(s1, readings[1..]);
    }
  }

  /** The session as the dashboard sees it: opened `elapsedSecs` before
      `nowSecs`, surplus priced at the current rate */
  function SessionView(s: SessionState, pricing: PricingConfig, now: LocalTime, nowSecs: int, elapsedSecs: nat): (v: Session)
    ensures v.id == Some(s.id) && v.endTime == None
    ensures v.startTime + elapsedSecs == nowSecs
    ensures v.totalWh == s.totalWh && v.surplusWh == s.surplusWh && v.baselineWatts == s.baselineWatts
    ensures v.surplusCost == CalculateCost(pricing, now, s.surplusWh / 1000.0)
    ensures v.sessionLabel == s.sessionLabel && v.category == s.category
  {
    Session(Some(s.id), nowSecs - elapsedSecs, None, s.baselineWatts, s.totalWh, s.surplusWh,
            CalculateCost(pricing, now, s.surplusWh / 1000.0), s.sessionLabel, s.category)
  }

  /** The power the estimates are based on: the application's average since
      it started, or the current power in its first second */
  function AveragePower(cumulativeWh: real, runningSecs: nat, powerWatts: real): (avg: real)
    ensures runningSecs > 0 ==> avg * (runningSecs as real / 3600.0) == cumulativeWh
    ensures runningSecs == 0 ==> avg == powerWatts
  {
    if runningSecs > 0 then cumulativeWh / (runningSecs as real / 3600.0) else powerWatts
  }

  /** What one critical tick reads: the monitor's `get_power_watts` result,
      what the fast path reads besides (the per-CPU loads, the NVML device's
      name and answers, the AMD sysfs metrics), the hours since the previous
      tick, the seconds since the application and the session started, and
      the wall clock */
  datatype Tick = Tick(
    power: Result<real, Error>,
    cpuLoads: seq<real>,
    gpuName: string,
    gpuDevice: Option<Nvml.MetricAnswers>,
    amdSysfs: Option<GpuMetrics>,
    elapsedHours: real,
    runningSecs: nat,
    sessionElapsedSecs: nat,
    nowSecs: int,
    localTime: LocalTime)

  /** `get_power_watts_fast` of the monitor: the Linux monitor's fast path;
      any other source keeps the default, its power with no CPU or GPU
      figures */
  function FastReading(monitor: Hardware.PowerMonitor, tick: Tick)
    : (r: Result<(real, real, Option<real>, Option<real>), Error>)
    ensures r.Ok? <==> tick.power.Ok?
    ensures r.Err? ==> r.error == tick.power.error
    ensures r.Ok? ==> r.value.0 == tick.power.value
    ensures monitor.source.LinuxSource? ==>
      r == LinuxMetrics.FastPath(tick.power, tick.cpuLoads, tick.gpuName, tick.gpuDevice, tick.amdSysfs)
    ensures !monitor.source.LinuxSource? && r.Ok? ==> r.value.1 == 0.0 && r.value.2 == None && r.value.3 == None
  {
    if monitor.source.LinuxSource? then
      LinuxMetrics.FastPath(tick.power, tick.cpuLoads, tick.gpuName, tick.gpuDevice, tick.amdSysfs)
    else
      match tick.power
      case Ok(p) => Ok((p, 0.0, None, None))
      case Err(e) => Err(e)
  }

  /** The reading a tick uses: a failed read counts as nothing */
  function TickReading(monitor: Hardware.PowerMonitor, tick: Tick): (real, real, Option<real>, Option<real>) {
    FastReading(monitor, tick).ToOption().UnwrapOr((0.0, 0.0, None, None))
  }

  /** A tick carries a GPU load only from the Linux monitor with an NVML
      device that answered its utilization query, and then it is that
      answer; a failed power read carries no figures at all */
  lemma TickGpuLoadFromNvml(monitor: Hardware.PowerMonitor, tick: Tick)
    ensures TickReading(monitor, tick).2.Some? <==>
      tick.power.Ok? && monitor.source.LinuxSource? && tick.gpuDevice.Some? && tick.gpuDevice.value.utilizationGpu.Some?
    ensures TickReading(monitor, tick).2.Some? ==>
      TickReading(monitor, tick).2.value == tick.gpuDevice.value.utilizationGpu.value as real
    ensures tick.power.Err? ==> TickReading(monitor, tick) == (0.0, 0.0, None, None)
  {
  }

  /** One pass of the critical loop: account the energy, feed the baseline
      detector, advance the session and cache the snapshot it returns */
  method CriticalTick(t: Tracker, detector: BaselineDetector, monitor: Hardware.PowerMonitor,
                      pricing: PricingConfig, tick: Tick)
    returns (m: CriticalMetrics)
    requires detector.Valid()
    modifies t, detector
    ensures detector.Valid()
    ensures |detector.samples| == Min(|old(detector.samples)| + 1, Capacity(detector.maxSamples))
    ensures var (power, _, _, _) := TickReading(monitor, tick);
      && t.appState == AppStep(old(t.appState), pricing, tick.localTime, power, tick.elapsedHours)
      && detector.samples == (old(detector.samples) + [power])[|old(detector.samples)| + 1 - |detector.samples|..]
      && detector.samples[|detector.samples| - 1] == power
      && t.activeSession == (if old(t.activeSession).Some?
                             then Some(SessionStep(old(t.activeSession).value, power, tick.elapsedHours))
                             else None)
    ensures detector.maxSamples == old(detector.maxSamples)
    ensures detector.manualBaseline == old(detector.manualBaseline) && detector.lastDetected == old(detector.lastDetected)
    ensures t.detailedCache == old(t.detailedCache)
    ensures t.criticalCache == Some(m)
    ensures var (power, cpu, gpuUsage, gpuPower) := TickReading(monitor, tick);
      && m.powerWatts == power && m.cpuUsagePercent == cpu
      && m.gpuUsagePercent == gpuUsage && m.gpuPowerWatts == gpuPower
      && m.cumulativeWh == t.appState.cumulativeWh && m.currentCost == t.appState.currentCost
      && m.avgPowerWatts == AveragePower(t.appState.cumulativeWh, tick.runningSecs, power)
      && m.hourlyCostEstimate == HourlyCost(pricing, tick.localTime, m.avgPowerWatts)
      && m.dailyCostEstimate == DailyCost(pricing, tick.localTime, m.avgPowerWatts)
      && m.monthlyCostEstimate == MonthlyCost(pricing, tick.localTime, m.avgPowerWatts)
      && m.sessionDurationSecs == tick.runningSecs
      && m.activeSession == (if t.activeSession.Some?
                             then Some(SessionView(t.activeSession.value, pricing, tick.localTime,
                                                   tick.nowSecs, tick.sessionElapsedSecs))
                             else None)
      && m.source == Hardware.GetSourceName(monitor) && m.isEstimated == Hardware.IsEstimated(monitor)
      && m.timestamp == tick.nowSecs
  {
    var (power, cpu, gpuUsage, gpuPower) := TickReading(monitor, tick);
    var energyWh := power * tick.elapsedHours;

    var cumulative := t.appState.cumulativeWh + energyWh;
    t.appState := t.appState.(cumulativeWh := cumulative, lastPowerWatts := power,
                              currentCost := CalculateCost(pricing, tick.localTime, cumulative / 1000.0));

    var avg := if tick.runningSecs > 0 then cumulative / (tick.runningSecs as real / 3600.0) else power;

    detector.AddSample(power);

    var view := AdvanceSession(t, power, tick.elapsedHours, pricing, tick.localTime, tick.nowSecs, tick.sessionElapsedSecs);

    m := CriticalMetrics(power, avg, cpu, gpuUsage, gpuPower, cumulative, t.appState.currentCost,
                         HourlyCost(pricing, tick.localTime, avg), DailyCost(pricing, tick.localTime, avg),
                         MonthlyCost(pricing, tick.localTime, avg), tick.runningSecs, view,
                         Hardware.GetSourceName(monitor), Hardware.IsEstimated(monitor), tick.nowSecs);
    t.criticalCache := Some(m);
  }

  /** The session part of a critical tick: add the reading to the active
      session, if any, and return the session as the dashboard sees it */
  method AdvanceSession(t: Tracker, powerWatts: real, hours: real, pricing: PricingConfig, now: LocalTime,
                        nowSecs: int, elapsedSecs: nat)
    returns (view: Option<Session>)
    modifies t
    ensures t.activeSession == (if old(t.activeSession).Some?
                                then Some(SessionStep(old(t.activeSession).value, powerWatts, hours))
                                else None)
    ensures view == (if t.activeSession.Some?
                     then Some(SessionView(t.activeSession.value, pricing, now, nowSecs, elapsedSecs))
                     else None)
    ensures t.appState == old(t.appState)
    ensures t.criticalCache == old(t.criticalCache) && t.detailedCache == old(t.detailedCache)
  {
    view := None;
    if t.activeSession.Some? {
      var s := t.activeSession.value;
      var surplusWatts := MaxReal(powerWatts - s.baselineWatts, 0.0);
      s := s.(totalWh := s.totalWh + powerWatts * hours, surplusWh := s.surplusWh + surplusWatts * hours);
      assert s.totalWh == SessionStep(t.activeSession.value, powerWatts, hours).totalWh;
      assert s.surplusWh == SessionStep(t.activeSession.value, powerWatts, hours).surplusWh;
      assert s == SessionStep(t.activeSession.value, powerWatts, hours);
      t.activeSession := Some(s);
      view := Some(SessionView(s, pricing, now, nowSecs, elapsedSecs));
    }
  }

  /** The application total and the session total grow by the same energy
      on each tick, so a session started with the application tracks it */
  lemma TotalsMoveTogether(app: AppState, s: SessionState, pricing: PricingConfig, now: LocalTime, power: real, hours: real)
    ensures AppStep(app, pricing, now, power, hours).cumulativeWh - app.cumulativeWh
         == SessionStep(s, power, hours).totalWh - s.totalWh
  {
  }

  // ---------------------------------------------------------------------------
  // The detailed tick

  /** Whether the detailed loop gathers the extended metrics: only with a
      critical snapshot to go by, and when its CPU or GPU load has reached
      the threshold */
  function ShouldCollectExtended(cache: Option<CriticalMetrics>, threshold: real): (b: bool)
    ensures b ==> cache.Some?
    ensures cache.Some? && cache.value.cpuUsagePercent >= threshold ==> b
  {
    match cache
    case None => false
    case Some(cm) =>
      cm.cpuUsagePercent >= threshold || (cm.gpuUsagePercent.Some? && cm.gpuUsagePercent.value >= threshold)
  }

  /** Lowering the threshold never turns extended collection off, and a
      threshold no load reaches turns it off */
  lemma ShouldCollectExtendedMonotone(cache: Option<CriticalMetrics>, lower: real, higher: real)
    requires lower <= higher
    ensures ShouldCollectExtended(cache, higher) ==> ShouldCollectExtended(cache, lower)
    ensures cache.Some? && higher > cache.value.cpuUsagePercent
            && (cache.value.gpuUsagePercent.None? || higher > cache.value.gpuUsagePercent.value)
            ==> !ShouldCollectExtended(cache, higher)
  {
  }

  /** After a critical tick the decision follows that tick's loads; before
      the first tick nothing extended is gathered */
  lemma ExtendedFollowsLastTick(m: CriticalMetrics, threshold: real)
    ensures !ShouldCollectExtended(None, threshold)
    ensures ShouldCollectExtended(Some(m), threshold)
            <==> m.cpuUsagePercent >= threshold || (m.gpuUsagePercent.Some? && m.gpuUsagePercent.value >= threshold)
    ensures threshold <= 0.0 && m.cpuUsagePercent >= 0.0 ==> ShouldCollectExtended(Some(m), threshold)
  {
  }

  /** One pass of the detailed loop. `supported` says whether the monitor
      implements `collect_detailed_metrics` (the Linux monitor does; the
      others answer "not implemented"). The collection gets the extended
      decision; `systemOk` says whether the system metrics could be read,
      and `procs`, `gpuUsage` and `totalMemory` are what `sysinfo` and NVML
      report for the process table. When the collection fails, the fallback
      snapshot has the separately read process list (`fallbackProcesses`)
      and no extended metrics. The snapshot is always cached. */
  method DetailedTick(t: Tracker, threshold: real, supported: bool, systemOk: bool,
                      procs: seq<LinuxMetrics.RawProcess>, gpuUsage: map<nat, real>,
                      pinnedNames: seq<string>, limit: nat, totalMemory: nat,
                      fallbackProcesses: seq<ProcessMetrics>, nowSecs: int)
    returns (extended: bool, d: DetailedMetrics)
    requires totalMemory > 0
    modifies t
    ensures extended == ShouldCollectExtended(old(t.criticalCache), threshold)
    ensures supported ==>
      d == LinuxMetrics.CollectDetailedMetrics(systemOk, procs, gpuUsage, pinnedNames, limit, totalMemory, nowSecs, extended)
    ensures supported ==> d.extendedCollected == ShouldCollectExtended(old(t.criticalCache), threshold)
    ensures !supported ==> d == DetailedMetrics(systemOk, fallbackProcesses, nowSecs, false)
    ensures d.extendedCollected ==> ShouldCollectExtended(old(t.criticalCache), threshold)
    ensures t.detailedCache == Some(d)
    ensures t.appState == old(t.appState) && t.activeSession == old(t.activeSession)
    ensures t.criticalCache == old(t.criticalCache)
  {
    extended := false;
    if t.criticalCache.Some? {
      var cm := t.criticalCache.value;
      extended := cm.cpuUsagePercent >= threshold || (cm.gpuUsagePercent.Some? && cm.gpuUsagePercent.value >= threshold);
    }
    if supported {
      d := LinuxMetrics.CollectDetailedMetrics(systemOk, procs, gpuUsage, pinnedNames, limit, totalMemory, nowSecs, extended);
    } else {
      d := DetailedMetrics(systemOk, fallbackProcesses, nowSecs, false);
    }
    t.detailedCache := Some(d);
  }
}
