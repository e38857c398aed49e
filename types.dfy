/** The records the power engine passes around (readings, sessions,
    process rows, metric snapshots) and the application error type.
    Clock reads (`Utc::now`, `Instant::now`) are parameters here: a Unix
    timestamp in seconds, or an instant as a real number of seconds. */
module Types {
  import opened Wrappers

  /** The application error; every variant carries its message */
  datatype Error =
    | Config(msg: string)
    | Database(msg: string)
    | PowerMonitor(msg: string)
    | Io(msg: string)
    | Serialization(msg: string)
    | HardwareNotSupported(msg: string)
    | PermissionDenied(msg: string)

  /** One power reading: total watts, when, from which source, an optional
      per-component breakdown and whether the figure is an estimate */
  datatype PowerReading = PowerReading(
    powerWatts: real,
    timestamp: int,
    source: string,
    components: Option<map<string, real>>,
    isEstimated: bool)

  /** `PowerReading::new`: no component breakdown yet */
  function NewPowerReading(powerWatts: real, source: string, isEstimated: bool, now: int): (r: PowerReading)
    ensures r.powerWatts == powerWatts && r.source == source && r.isEstimated == isEstimated
    ensures r.timestamp == now
    ensures r.components == None
  {
    PowerReading(powerWatts, now, source, None, isEstimated)
  }

  /** `PowerReading::with_components`: attach a breakdown, keep the rest */
  function WithComponents(r: PowerReading, components: map<string, real>): (r': PowerReading)
    ensures r'.components == Some(components)
    ensures r' == r.(components := Some(components))
  {
    r.(components := Some(components))
  }

  /** Attaching a breakdown twice keeps only the second one */
  lemma WithComponentsTwice(r: PowerReading, a: map<string, real>, b: map<string, real>)
    ensures WithComponents(WithComponents(r, a), b) == WithComponents(r, b)
  {
  }

  /** The runtime totals of the running application */
  datatype AppState = AppState(
    sessionStart: real,
    cumulativeWh: real,
    currentCost: real,
    lastPowerWatts: real)

  /** `AppState::new`: everything starts at zero */
  function NewAppState(now: real): (s: AppState)
    ensures s.sessionStart == now
    ensures s.cumulativeWh == 0.0 && s.currentCost == 0.0 && s.lastPowerWatts == 0.0
  {
    AppState(now, 0.0, 0.0, 0.0)
  }

  /** One row of the process table; `gpuPercent` is absent when no GPU
      figure is known for the process */
  datatype ProcessMetrics = ProcessMetrics(
    pid: nat,
    name: string,
    cpuPercent: real,
    memoryBytes: nat,
    memoryPercent: real,
    gpuPercent: Option<real>,
    isPinned: bool)

  datatype GpuMetrics = GpuMetrics(
    name: string,
    usagePercent: Option<real>,
    powerWatts: Option<real>,
    temperatureCelsius: Option<real>,
    vramUsedMb: Option<nat>,
    vramTotalMb: Option<nat>,
    clockMhz: Option<nat>,
    source: string,
    memoryClockMhz: Option<nat>,
    fanSpeedPercent: Option<nat>)

  datatype SessionCategory = SessionCategory(emoji: string, name: string)

  /** A tracking session: energy above `baselineWatts` counts as surplus */
  datatype Session = Session(
    id: Option<int>,
    startTime: int,
    endTime: Option<int>,
    baselineWatts: real,
    totalWh: real,
    surplusWh: real,
    surplusCost: real,
    sessionLabel: Option<string>,
    category: Option<string>)

  /** `Session::new`: an open, unsaved session with nothing accumulated */
  function NewSession(baselineWatts: real, sessionLabel: Option<string>, now: int): (s: Session)
    ensures s.id == None && s.endTime == None && s.category == None
    ensures s.startTime == now && s.baselineWatts == baselineWatts && s.sessionLabel == sessionLabel
    ensures s.totalWh == 0.0 && s.surplusWh == 0.0 && s.surplusCost == 0.0
  {
    Session(None, now, None, baselineWatts, 0.0, 0.0, 0.0, sessionLabel, None)
  }

  datatype BaselineDetection = BaselineDetection(
    detectedWatts: real,
    sampleCount: nat,
    confidence: real)

  /** The fast-refresh snapshot sent to the dashboard */
  datatype CriticalMetrics = CriticalMetrics(
    powerWatts: real,
    avgPowerWatts: real,
    cpuUsagePercent: real,
    gpuUsagePercent: Option<real>,
    gpuPowerWatts: Option<real>,
    cumulativeWh: real,
    currentCost: real,
    hourlyCostEstimate: real,
    dailyCostEstimate: real,
    monthlyCostEstimate: real,
    sessionDurationSecs: nat,
    activeSession: Option<Session>,
    source: string,
    isEstimated: bool,
    timestamp: int)

  /** The slow-refresh snapshot; the system metrics are left out of the
      model, only whether they were gathered is kept */
  datatype DetailedMetrics = DetailedMetrics(
    hasSystemMetrics: bool,
    topProcesses: seq<ProcessMetrics>,
    timestamp: int,
    extendedCollected: bool)
}
