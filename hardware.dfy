/** Backend selection: the power monitor picks the first power source whose
    constructor succeeds on the running platform (RAPL, then hwmon, then the
    battery on Linux; WMI on Windows) and then hands every query to it.

    What each constructor returned is a parameter (`Attempts`), and so is
    what each source would see when queried (`Environment`). On Linux the
    chosen sensor is wrapped in the `LinuxSystemMonitor` whose power-source
    implementation forwards to it. */
module Hardware {
  import opened Wrappers
  import opened Types
  import LinuxPower
  import Windows
  import Estimator

  datatype Platform = LinuxOs | WindowsOs | OtherOs

  /** The boxed `dyn PowerSource` */
  datatype PowerSource =
    | LinuxSource(linux: LinuxPower.LinuxSystemMonitor)
    | WindowsSource(wmi: Windows.WmiMonitor)
    | EstimationSource(estimator: Estimator.EstimationMonitor)

  /** `PowerMonitor`: the chosen source */
  datatype PowerMonitor = Monitor(source: PowerSource)

  /** The outcome of each constructor `new` tries */
  datatype Attempts = Attempts(
    rapl: Result<LinuxPower.LinuxSystemMonitor, Error>,
    hwmon: Result<LinuxPower.LinuxSystemMonitor, Error>,
    battery: Result<LinuxPower.LinuxSystemMonitor, Error>,
    wmi: Result<Windows.WmiMonitor, Error>)

  /** Each Linux slot holds the kind of monitor its constructor builds:
      `RaplMonitor::new` only ever gives a RAPL monitor, `HwmonMonitor::new`
      an hwmon one and `BatteryMonitor::new` a battery one */
  predicate WellKinded(a: Attempts) {
    && (a.rapl.Ok? ==> a.rapl.value.inner.Rapl?)
    && (a.hwmon.Ok? ==> a.hwmon.value.inner.Hwmon?)
    && (a.battery.Ok? ==> a.battery.value.inner.Battery?)
  }

  /** The error `new` gives when nothing was found */
  const NO_HARDWARE: Error := HardwareNotSupported("No power monitoring hardware detected")

  /** `PowerMonitor::new` */
  function New(platform: Platform, a: Attempts): (r: Result<PowerMonitor, Error>)
    ensures r.Err? ==> r.error == NO_HARDWARE
    ensures platform == OtherOs ==> r.Err?
  {
    if platform == LinuxOs && a.rapl.Ok? then Ok(Monitor(LinuxSource(a.rapl.value)))
    else if platform == LinuxOs && a.hwmon.Ok? then Ok(Monitor(LinuxSource(a.hwmon.value)))
    else if platform == LinuxOs && a.battery.Ok? then Ok(Monitor(LinuxSource(a.battery.value)))
    else if platform == WindowsOs && a.wmi.Ok? then Ok(Monitor(WindowsSource(a.wmi.value)))
    else Err(NO_HARDWARE)
  }

  // ---------------------------------------------------------------------------
  // The chain as an ordered list of attempts

  function LinuxCandidate(attempt: Result<LinuxPower.LinuxSystemMonitor, Error>): Result<PowerSource, Error> {
    if attempt.Ok? then Ok(LinuxSource(attempt.value)) else Err(attempt.error)
  }

  /** The attempts in the order the platform tries them */
  function Candidates(platform: Platform, a: Attempts): (cs: seq<Result<PowerSource, Error>>)
    ensures platform == LinuxOs ==> |cs| == 3
    ensures platform == WindowsOs ==> |cs| == 1
    ensures platform == OtherOs ==> cs == []
  {
    match platform
    case LinuxOs => [LinuxCandidate(a.rapl), LinuxCandidate(a.hwmon), LinuxCandidate(a.battery)]
    case WindowsOs => [if a.wmi.Ok? then Ok(WindowsSource(a.wmi.value)) else Err(a.wmi.error)]
    case OtherOs => []
  }

  /** The first successful attempt of a chain */
  function FirstOk(cs: seq<Result<PowerSource, Error>>): Option<PowerSource> {
    if |cs| == 0 then None
    else if cs[0].Ok? then Some(cs[0].value)
    else FirstOk(cs[1..])
  }

  /** `FirstOk` finds a success exactly when there is one, and it is the
      earliest: every attempt before it failed */
  lemma {:induction false} FirstOkIsFirst(cs: seq<Result<PowerSource, Error>>)
    ensures FirstOk(cs).None? <==> forall i :: 0 <= i < |cs| ==> cs[i].Err?
    ensures FirstOk(cs).Some? ==>
      exists i :: 0 <= i < |cs| && cs[i] == Ok(FirstOk(cs).value) && forall j :: 0 <= j < i ==> cs[j].Err?
    decreases |cs|
  {
    if |cs| > 0 && cs[0].Err? {
      FirstOkIsFirst(cs[1..]);
      assert forall i :: 1 <= i < |cs| ==> cs[i] == cs[1..][i - 1];
      if FirstOk(cs[1..]).Some? {
        var i :| 0 <= i < |cs[1..]| && cs[1..][i] == Ok(FirstOk(cs).value) && forall j :: 0 <= j < i ==> cs[1..][j].Err?;
        assert cs[i + 1] == Ok(FirstOk(cs).value);
        assert forall j :: 0 <= j < i + 1 ==> cs[j].Err? by {
          forall j | 0 <= j < i + 1
            ensures cs[j].Err?
          {
            if j > 0 {
              assert cs[j] == cs[1..][j - 1];
            }
          }
        }
      }
    } else if |cs| > 0 {
      assert cs[0] == Ok(FirstOk(cs).value);
    }
  }

  /** `new` uses the first attempt that succeeded, in the platform's order,
      and fails with `HardwareNotSupported` only when every attempt failed */
  lemma NewIsFirstSuccess(platform: Platform, a: Attempts)
    ensures FirstOk(Candidates(platform, a)).Some? ==>
      New(platform, a) == Ok(Monitor(FirstOk(Candidates(platform, a)).value))
    ensures FirstOk(Candidates(platform, a)).None? ==> New(platform, a) == Err(NO_HARDWARE)
    ensures New(platform, a).Err? <==> forall i :: 0 <= i < |Candidates(platform, a)| ==> Candidates(platform, a)[i].Err?
  {
    FirstOkIsFirst(Candidates(platform, a));
    var cs := Candidates(platform, a);
    if platform == LinuxOs {
      assert cs[1..][1..] == [cs[2]];
      assert cs[1..][1..][1..] == [];
    } else if platform == WindowsOs {
      assert cs[1..] == [];
    }
  }

  /** On Linux a working RAPL counter is always preferred; hwmon is used only
      when RAPL failed, the battery only when both failed */
  lemma LinuxPreferenceOrder(a: Attempts)
    ensures a.rapl.Ok? ==> New(LinuxOs, a) == Ok(Monitor(LinuxSource(a.rapl.value)))
    ensures a.rapl.Err? && a.hwmon.Ok? ==> New(LinuxOs, a) == Ok(Monitor(LinuxSource(a.hwmon.value)))
    ensures a.rapl.Err? && a.hwmon.Err? && a.battery.Ok? ==>
      New(LinuxOs, a) == Ok(Monitor(LinuxSource(a.battery.value)))
    ensures New(LinuxOs, a).Ok? <==> a.rapl.Ok? || a.hwmon.Ok? || a.battery.Ok?
    ensures New(LinuxOs, a).Ok? ==> New(LinuxOs, a).value.source.LinuxSource?
    ensures WellKinded(a) && a.rapl.Ok? ==>
      GetSourceName(New(LinuxOs, a).value) == LinuxPower.SourceName(LinuxPower.RaplKind)
    ensures WellKinded(a) && a.rapl.Err? && a.hwmon.Ok? ==>
      GetSourceName(New(LinuxOs, a).value) == LinuxPower.SourceName(LinuxPower.HwmonKind)
    ensures WellKinded(a) && a.rapl.Err? && a.hwmon.Err? && a.battery.Ok? ==>
      GetSourceName(New(LinuxOs, a).value) == LinuxPower.SourceName(LinuxPower.BatteryKind)
  {
  }

  /** On Windows the WMI monitor is used exactly when it was built */
  lemma WindowsUsesWmi(a: Attempts)
    ensures New(WindowsOs, a).Ok? <==> a.wmi.Ok?
    ensures a.wmi.Ok? ==> New(WindowsOs, a) == Ok(Monitor(WindowsSource(a.wmi.value)))
  {
  }

  /** `PowerMonitor::estimation_fallback`: never fails */
  function EstimationFallback(): (pm: PowerMonitor)
    ensures pm.source == EstimationSource(Estimator.New())
  {
    Monitor(EstimationSource(Estimator.New()))
  }

  // ---------------------------------------------------------------------------
  // Delegation

  /** What each source would see when queried now: on Linux the content of
      the chosen sensor file and the current instant (seconds); on Windows
      the `LoadPercentage` rows of `Win32_Processor`, what `nvidia-smi` and
      the AMD tools would answer, and the `Win32_Battery` rows; the
      `sysinfo` per-CPU usages (the estimator's input and the Windows
      fallback); and the wall-clock timestamp of a reading */
  datatype Environment = Environment(
    sensorRead: Result<string, string>,
    instant: real,
    cpuLoads: Option<seq<Option<int>>>,
    gpuTools: Windows.GpuToolAnswers,
    batteries: Option<seq<Windows.BatteryRow>>,
    cpuUsages: seq<real>,
    timestamp: int)

  predicate HasRapl(pm: PowerMonitor) {
    pm.source.LinuxSource? && pm.source.linux.inner.Rapl?
  }

  /** The state a query may update: the RAPL monitor's previous read */
  function Footprint(pm: PowerMonitor): set<object> {
    if HasRapl(pm) then {pm.source.linux.inner.monitor} else {}
  }

  ghost predicate Valid(pm: PowerMonitor)
    reads Footprint(pm)
  {
    HasRapl(pm) ==> pm.source.linux.inner.monitor.Valid()
  }

  /** `get_power_watts`: whatever the chosen source returns */
  method GetPowerWatts(pm: PowerMonitor, env: Environment) returns (r: Result<real, Error>)
    requires Valid(pm)
    modifies Footprint(pm)
    ensures Valid(pm)
    ensures pm.source.WindowsSource? ==> r == Windows.GetPowerWatts(pm.source.wmi, env.cpuLoads, env.cpuUsages, env.gpuTools)
    ensures pm.source.EstimationSource? ==> r == Estimator.GetPowerWatts(pm.source.estimator, env.cpuUsages)
    ensures pm.source.LinuxSource? && pm.source.linux.inner.Hwmon? ==> r == LinuxPower.HwmonPower(env.sensorRead)
    ensures pm.source.LinuxSource? && pm.source.linux.inner.Battery? ==> r == LinuxPower.BatteryPower(env.sensorRead)
    ensures HasRapl(pm) ==> (
      var m := pm.source.linux.inner.monitor;
      var energy := LinuxPower.ReadEnergy(env.sensorRead);
      && (energy.Err? ==> r == Err(energy.error) && m.lastEnergy == old(m.lastEnergy) && m.lastTime == old(m.lastTime))
      && (energy.Ok? ==>
            && r == Ok(LinuxPower.RaplWatts(LinuxPower.EnergyDelta(m.maxEnergy, old(m.lastEnergy), energy.value),
                                            LinuxPower.ElapsedSecs(old(m.lastTime), env.instant)))
            && m.lastEnergy == energy.value && m.lastTime == env.instant))
  {
    match pm.source
    case LinuxSource(linux) => r := linux.GetPowerWatts(env.sensorRead, env.instant);
    case WindowsSource(wmi) => r := Windows.GetPowerWatts(wmi, env.cpuLoads, env.cpuUsages, env.gpuTools);
    case EstimationSource(estimator) => r := Estimator.GetPowerWatts(estimator, env.cpuUsages);
  }

  /** `get_reading`: whatever the chosen source returns */
  method GetReading(pm: PowerMonitor, env: Environment) returns (r: Result<PowerReading, Error>)
    requires Valid(pm)
    modifies Footprint(pm)
    ensures Valid(pm)
    ensures r.Ok? ==> r.value.source == SourceTag(pm)
    ensures pm.source.EstimationSource? ==> r == Estimator.GetReading(pm.source.estimator, env.cpuUsages, env.timestamp)
    ensures pm.source.WindowsSource? ==> (
      var wmi := pm.source.wmi;
      && r.Ok?
      && Windows.IsReadingOf(wmi, Windows.CpuInfoOf(wmi.wmiPresent, env.cpuLoads, env.cpuUsages),
                             Windows.QueryGpu(wmi.gpuSource, env.gpuTools),
                             Windows.GetBatteryInfo(wmi.wmiPresent, env.batteries), env.timestamp, r.value)
      && Ok(r.value.powerWatts) == Windows.GetPowerWatts(wmi, env.cpuLoads, env.cpuUsages, env.gpuTools))
    ensures pm.source.LinuxSource? ==> r.Ok? ==> !r.value.isEstimated
    ensures r.Ok? && IsEstimated(pm) ==> r.value.isEstimated
    ensures r.Ok? && !pm.source.WindowsSource? ==> (r.value.isEstimated <==> IsEstimated(pm))
    ensures pm.source.LinuxSource? && pm.source.linux.inner.Hwmon? ==>
      r == LinuxPower.MeasuredReading(LinuxPower.HwmonPower(env.sensorRead), "hwmon", env.timestamp)
    ensures pm.source.LinuxSource? && pm.source.linux.inner.Battery? ==>
      r == LinuxPower.MeasuredReading(LinuxPower.BatteryPower(env.sensorRead), "battery", env.timestamp)
    ensures HasRapl(pm) ==> (
      var m := pm.source.linux.inner.monitor;
      var energy := LinuxPower.ReadEnergy(env.sensorRead);
      && (energy.Err? ==> r == Err(energy.error) && m.lastEnergy == old(m.lastEnergy) && m.lastTime == old(m.lastTime))
      && (energy.Ok? ==>
            && r == Ok(NewPowerReading(LinuxPower.RaplWatts(LinuxPower.EnergyDelta(m.maxEnergy, old(m.lastEnergy), energy.value),
                                                            LinuxPower.ElapsedSecs(old(m.lastTime), env.instant)),
                                       "rapl", false, env.timestamp))
            && m.lastEnergy == energy.value && m.lastTime == env.instant))
  {
    match pm.source
    case LinuxSource(linux) => r := linux.GetReading(env.sensorRead, env.instant, env.timestamp);
    case WindowsSource(wmi) => r := Windows.GetReading(wmi, env.cpuLoads, env.cpuUsages, env.gpuTools, env.batteries, env.timestamp);
    case EstimationSource(estimator) => r := Estimator.GetReading(estimator, env.cpuUsages, env.timestamp);
  }

  /** The tag the chosen source puts on its readings */
  function SourceTag(pm: PowerMonitor): string {
    match pm.source
    case LinuxSource(linux) => linux.inner.SourceTag()
    case WindowsSource(wmi) => Windows.SourceTag(wmi.wmiPresent, wmi.gpuSource)
    case EstimationSource(_) => Estimator.ESTIMATION_TAG
  }

  /** `get_source_name`: the chosen source's name */
  function GetSourceName(pm: PowerMonitor): (n: string)
    ensures pm.source.LinuxSource? ==> n == LinuxPower.SourceName(pm.source.linux.inner.Kind())
    ensures pm.source.WindowsSource? ==> n == Windows.SourceName(pm.source.wmi.wmiPresent, pm.source.wmi.gpuSource)
    ensures pm.source.EstimationSource? ==> n == Estimator.ESTIMATION_NAME
  {
    match pm.source
    case LinuxSource(linux) => linux.Name()
    case WindowsSource(wmi) => Windows.SourceName(wmi.wmiPresent, wmi.gpuSource)
    case EstimationSource(estimator) => Estimator.Name(estimator)
  }

  /** `is_estimated`: the chosen source's flag */
  function IsEstimated(pm: PowerMonitor): (e: bool)
    ensures pm.source.LinuxSource? ==> !e
    ensures pm.source.WindowsSource? ==> e == Windows.IsEstimated(pm.source.wmi)
    ensures pm.source.EstimationSource? ==> e
  {
    match pm.source
    case LinuxSource(linux) => linux.IsEstimated()
    case WindowsSource(wmi) => Windows.IsEstimated(wmi)
    case EstimationSource(estimator) => Estimator.IsEstimated(estimator)
  }

  /** A monitor built by `new` reports estimates only on Windows without a
      GPU tool; the fallback always reports estimates under its own name */
  lemma EstimatedOnlyWithoutSensor(platform: Platform, a: Attempts)
    ensures New(platform, a).Ok? && IsEstimated(New(platform, a).value) ==>
      platform == WindowsOs && a.wmi.value.gpuSource == Windows.NoGpu
    ensures IsEstimated(EstimationFallback())
    ensures GetSourceName(EstimationFallback()) == "Estimation (no hardware sensor)"
  {
  }
}
