/** The estimation fallback used when no power sensor is available: a
    straight line from the idle power at no load to idle plus the full-load
    power at 100 % average CPU load. The per-CPU loads that `sysinfo`
    reports after a refresh are a parameter. */
module Estimator {
  import opened Wrappers
  import opened Numbers
  import opened Types

  /** Watts drawn at idle by default */
  const DEFAULT_IDLE_POWER: real := 30.0
  /** Additional watts drawn at full load by default */
  const DEFAULT_MAX_LOAD_POWER: real := 120.0

  /** The name the estimator reports */
  const ESTIMATION_NAME: string := "Estimation (no hardware sensor)"
  /** The source tag of its readings */
  const ESTIMATION_TAG: string := "estimated"

  /** `EstimationMonitor`: the two power figures, never changed after
      construction */
  datatype EstimationMonitor = EstimationMonitor(idlePower: real, maxLoadPower: real)

  /** `EstimationMonitor::new` (and `Default`) */
  function New(): (m: EstimationMonitor)
    ensures m.idlePower == DEFAULT_IDLE_POWER && m.maxLoadPower == DEFAULT_MAX_LOAD_POWER
  {
    EstimationMonitor(30.0, 120.0)
  }

  /** `EstimationMonitor::with_power_values` */
  function WithPowerValues(idlePower: real, maxLoadPower: real): (m: EstimationMonitor)
    ensures m.idlePower == idlePower && m.maxLoadPower == maxLoadPower
  {
    EstimationMonitor(idlePower, maxLoadPower)
  }

  /** `calculate_estimated_power` over the per-CPU loads (percent) */
  function CalculateEstimatedPower(m: EstimationMonitor, cpuUsages: seq<real>): (w: real)
    ensures |cpuUsages| == 0 ==> w == m.idlePower
  {
    if |cpuUsages| == 0 then m.idlePower
    else
      var avgLoad := Sum(cpuUsages) / (|cpuUsages| as real);
      var loadFactor := avgLoad / 100.0;
      m.idlePower + loadFactor * m.maxLoadPower
  }

  /** The estimate interpolates linearly in the mean load: `idle` at 0 %,
      `idle + max_load` at 100 % */
  lemma EstimateFromMean(m: EstimationMonitor, cpuUsages: seq<real>)
    requires |cpuUsages| > 0
    ensures CalculateEstimatedPower(m, cpuUsages)
      == m.idlePower + (Mean(cpuUsages) / 100.0) * m.maxLoadPower
  {
  }

  /** With every load in [0, 100] and a non-negative load power, the
      estimate lies in `[idle, idle + max_load]` */
  lemma EstimateBounds(m: EstimationMonitor, cpuUsages: seq<real>)
    requires AllWithin(cpuUsages, 0.0, 100.0) && m.maxLoadPower >= 0.0
    ensures m.idlePower <= CalculateEstimatedPower(m, cpuUsages) <= m.idlePower + m.maxLoadPower
  {
    if |cpuUsages| > 0 {
      MeanBounds(cpuUsages, 0.0, 100.0);
      var f := Mean(cpuUsages) / 100.0;
      assert 0.0 <= f <= 1.0;
      assert 0.0 <= f * m.maxLoadPower <= m.maxLoadPower;
    }
  }

  /** Raising any CPU's load never lowers the estimate */
  lemma EstimateMonotone(m: EstimationMonitor, lower: seq<real>, higher: seq<real>)
    requires |lower| == |higher| && forall i :: 0 <= i < |lower| ==> lower[i] <= higher[i]
    requires m.maxLoadPower >= 0.0
    ensures CalculateEstimatedPower(m, lower) <= CalculateEstimatedPower(m, higher)
  {
    if |lower| > 0 {
      SumMonotone(lower, higher);
      var n := |lower| as real;
      assert Sum(lower) / n <= Sum(higher) / n;
      assert (Sum(lower) / n / 100.0) * m.maxLoadPower <= (Sum(higher) / n / 100.0) * m.maxLoadPower;
    }
  }

  /** All CPUs at the same load `load` give `idle + load/100 · max_load` */
  lemma EstimateUniformLoad(m: EstimationMonitor, cpuUsages: seq<real>, load: real)
    requires |cpuUsages| > 0 && forall i :: 0 <= i < |cpuUsages| ==> cpuUsages[i] == load
    ensures CalculateEstimatedPower(m, cpuUsages) == m.idlePower + (load / 100.0) * m.maxLoadPower
  {
    SumConstant(cpuUsages, load);
    assert Sum(cpuUsages) / (|cpuUsages| as real) == load;
  }

  /** With the default figures an idle machine reads 30 W, a fully loaded
      one 150 W and a half-loaded one 90 W */
  lemma DefaultEstimates(cpuUsages: seq<real>, load: real)
    requires |cpuUsages| > 0 && forall i :: 0 <= i < |cpuUsages| ==> cpuUsages[i] == load
    ensures load == 0.0 ==> CalculateEstimatedPower(New(), cpuUsages) == 30.0
    ensures load == 50.0 ==> CalculateEstimatedPower(New(), cpuUsages) == 90.0
    ensures load == 100.0 ==> CalculateEstimatedPower(New(), cpuUsages) == 150.0
  {
    EstimateUniformLoad(New(), cpuUsages, load);
  }

  // ---------------------------------------------------------------------------
  // The PowerSource implementation

  /** `get_power_watts`: the estimate, which never fails */
  function GetPowerWatts(m: EstimationMonitor, cpuUsages: seq<real>): (r: Result<real, Error>)
    ensures r.Ok?
  {
    Ok(CalculateEstimatedPower(m, cpuUsages))
  }

  /** `get_reading`: the estimate as a reading tagged "estimated", flagged as
      an estimate, without a breakdown */
  function GetReading(m: EstimationMonitor, cpuUsages: seq<real>, now: int): (r: Result<PowerReading, Error>)
    ensures r.Ok? && r.value.source == ESTIMATION_TAG && r.value.isEstimated
    ensures r.value.components.None? && r.value.timestamp == now
  {
    Ok(NewPowerReading(CalculateEstimatedPower(m, cpuUsages), "estimated", true, now))
  }

  /** The reading carries the same figure as `get_power_watts` */
  lemma ReadingMatchesPower(m: EstimationMonitor, cpuUsages: seq<real>, now: int)
    ensures Ok(GetReading(m, cpuUsages, now).value.powerWatts) == GetPowerWatts(m, cpuUsages)
  {
  }

  function Name(m: EstimationMonitor): (n: string)
    ensures n == ESTIMATION_NAME
  {
    "Estimation (no hardware sensor)"
  }

  function IsEstimated(m: EstimationMonitor): (e: bool)
    ensures e
  {
    true
  }
}
