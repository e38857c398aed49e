/** The Linux power sources and sensor scans: the Intel RAPL energy counter
    (turned into watts between two reads), the hwmon and battery
    instantaneous sensors (microwatts), the coretemp/k10temp temperature
    scans, the cpufreq scan and the AMD `pp_dpm_*` clock table.

    Every sysfs file read is a parameter: `Result<string, string>` where the
    read error propagates (its text is the operating system's message),
    `Option<string>` where a failed read is only skipped. A scan over numbered
    files `temp1_input`, `temp2_input`, ... takes the sequence of their
    contents; indices beyond the sequence read as missing. */
module LinuxPower {
  import opened Wrappers
  import opened Text
  import opened Numbers
  import opened Types

  // ---------------------------------------------------------------------------
  // Intel RAPL

  /** u64 arithmetic in a release build wraps modulo 2^64 */
  function WrapU64(x: int): (r: nat)
    ensures r <= U64_MAX
    ensures 0 <= x <= U64_MAX ==> r == x
  {
    x % (U64_MAX + 1)
  }

  /** `max_energy_range_uj`, or `u64::MAX` when it cannot be read or parsed */
  function MaxEnergyRange(content: Option<string>): (m: nat)
    ensures m <= U64_MAX
    ensures content.None? ==> m == U64_MAX
  {
    match content
    case None => U64_MAX
    case Some(c) => ParseU64(Trim(c)).UnwrapOr(U64_MAX)
  }

  /** `read_energy`: the counter in microjoules */
  function ReadEnergy(read: Result<string, string>): (r: Result<nat, Error>)
    ensures r.Ok? ==> r.value <= U64_MAX
    ensures read.Err? ==> r == Err(Io(read.error))
  {
    match read
    case Err(e) => Err(Io(e))
    case Ok(c) =>
      match ParseU64(Trim(c))
      case None => Err(PowerMonitor("Failed to parse energy value"))
      case Some(v) => Ok(v)
  }

  /** Microjoules used between two counter reads: the plain difference, or,
      when the counter went backwards, the distance to the top of the range
      plus the new value (u64 arithmetic) */
  function EnergyDelta(maxEnergy: nat, last: nat, current: nat): (d: nat)
    requires maxEnergy <= U64_MAX && last <= U64_MAX && current <= U64_MAX
    ensures d <= U64_MAX
  {
    if current >= last then current - last
    else WrapU64(WrapU64(maxEnergy - last) + current)
  }

  /** `Instant::duration_since`, in seconds: zero when the later instant is
      not later */
  function ElapsedSecs(last: real, now: real): (e: real)
    ensures e >= 0.0
    ensures now >= last ==> e == now - last
  {
    if now >= last then now - last else 0.0
  }

  /** Average watts over the interval: microjoules per second over 10^6, or
      exactly 0 for an empty interval */
  function RaplWatts(deltaUj: nat, secs: real): (w: real)
    ensures w >= 0.0
    ensures secs <= 0.0 ==> w == 0.0
  {
    if secs > 0.0 then (deltaUj as real) / secs / 1_000_000.0 else 0.0
  }

  /** Watts times seconds gives back the energy that produced them */
  lemma RaplWattsInverse(deltaUj: nat, secs: real)
    requires secs > 0.0
    ensures RaplWatts(deltaUj, secs) * secs * 1_000_000.0 == deltaUj as real
  {
  }

  /** A counter that moved forward gives the plain difference */
  lemma EnergyDeltaForward(maxEnergy: nat, last: nat, current: nat)
    requires maxEnergy <= U64_MAX && last <= current <= U64_MAX
    ensures EnergyDelta(maxEnergy, last, current) == current - last
  {
  }

  /** A counter that wrapped past the top of its range: no u64 wrap-around
      happens, and the difference is the distance travelled around a dial of
      size `maxEnergy`, at most `maxEnergy` */
  lemma EnergyDeltaWrapped(maxEnergy: nat, last: nat, current: nat)
    requires maxEnergy <= U64_MAX && current < last <= maxEnergy
    ensures EnergyDelta(maxEnergy, last, current) == (maxEnergy - last) + current
    ensures EnergyDelta(maxEnergy, last, current) < maxEnergy
    ensures last + EnergyDelta(maxEnergy, last, current) - maxEnergy == current
  {
  }

  lemma EnergyDeltaExample()
    ensures EnergyDelta(1000, 980, 20) == 40
  {
  }

  /** Splitting an interval of forward counting in two counts each microjoule
      and each second once */
  lemma ConsecutiveReadsAdd(maxEnergy: nat, e0: nat, e1: nat, e2: nat, t0: real, t1: real, t2: real)
    requires maxEnergy <= U64_MAX && e0 <= e1 <= e2 <= U64_MAX
    requires t0 <= t1 <= t2
    ensures EnergyDelta(maxEnergy, e0, e1) + EnergyDelta(maxEnergy, e1, e2) == EnergyDelta(maxEnergy, e0, e2)
    ensures ElapsedSecs(t0, t1) + ElapsedSecs(t1, t2) == ElapsedSecs(t0, t2)
  {
  }

  /** The RAPL package-energy monitor: the counter range and the counter value
      and instant of the previous read */
  class RaplMonitor {
    const maxEnergy: nat
    var lastEnergy: nat
    var lastTime: real

    ghost predicate Valid()
      reads this
    {
      maxEnergy <= U64_MAX && lastEnergy <= U64_MAX
    }

    /** `RaplMonitor::new` once the sysfs files are found: the counter range
        file (if readable) and the first counter read, at instant `now` */
    constructor New(maxEnergyContent: Option<string>, initialEnergy: nat, now: real)
      requires initialEnergy <= U64_MAX
      ensures Valid()
      ensures maxEnergy == MaxEnergyRange(maxEnergyContent)
      ensures lastEnergy == initialEnergy && lastTime == now
    {
      maxEnergy := MaxEnergyRange(maxEnergyContent);
      lastEnergy := initialEnergy;
      lastTime := now;
    }

    /** `get_power`: read the counter at instant `now`. A failed read or parse
        changes nothing; otherwise the watts since the previous read are
        returned and this read becomes the previous one. */
    method GetPower(read: Result<string, string>, now: real) returns (r: Result<real, Error>)
      requires Valid()
      modifies this
      ensures Valid()
      ensures ReadEnergy(read).Err? ==>
        r == Err(ReadEnergy(read).error) && lastEnergy == old(lastEnergy) && lastTime == old(lastTime)
      ensures ReadEnergy(read).Ok? ==>
        && r == Ok(RaplWatts(EnergyDelta(maxEnergy, old(lastEnergy), ReadEnergy(read).value),
                             ElapsedSecs(old(lastTime), now)))
        && lastEnergy == ReadEnergy(read).value
        && lastTime == now
    {
      var energy := ReadEnergy(read);
      if energy.Err? {
        return Err(energy.error);
      }
      var current := energy.value;
      var energyDiff := EnergyDelta(maxEnergy, lastEnergy, current);
      var timeDiff := ElapsedSecs(lastTime, now);
      lastEnergy := current;
      lastTime := now;
      r := Ok(RaplWatts(energyDiff, timeDiff));
    }
  }

  // ---------------------------------------------------------------------------
  // hwmon and battery

  /** A microwatt sensor file read as watts */
  function MicrowattSensor(read: Result<string, string>, parseError: string): (r: Result<real, Error>)
    ensures read.Err? ==> r == Err(Io(read.error))
    ensures read.Ok? && ParseF64(Trim(read.value)).None? ==> r == Err(PowerMonitor(parseError))
    ensures r.Ok? ==> Some(r.value * 1_000_000.0) == ParseF64(Trim(read.value))
  {
    match read
    case Err(e) => Err(Io(e))
    case Ok(c) =>
      match ParseF64(Trim(c))
      case None => Err(PowerMonitor(parseError))
      case Some(uw) => Ok(uw / 1_000_000.0)
  }

  /** `HwmonMonitor::get_power` (`powerN_input`, in microwatts) */
  function HwmonPower(read: Result<string, string>): (r: Result<real, Error>)
    ensures r == MicrowattSensor(read, "Failed to parse power value")
  {
    MicrowattSensor(read, "Failed to parse power value")
  }

  /** `BatteryMonitor::get_power` (`power_now`, in microwatts) */
  function BatteryPower(read: Result<string, string>): (r: Result<real, Error>)
    ensures r == MicrowattSensor(read, "Failed to parse battery power")
  {
    MicrowattSensor(read, "Failed to parse battery power")
  }

  /** A sensor file holding `n` microwatts reads as `n / 10^6` watts */
  lemma MicrowattsPrinted(n: nat, parseError: string)
    ensures MicrowattSensor(Ok(Decimal(n)), parseError) == Ok(n as real / 1_000_000.0)
  {
    TrimDecimal(n);
    ParseF64Decimal(n);
    assert ParseF64(Trim(Decimal(n))) == Some(n as real);
  }

  // ---------------------------------------------------------------------------
  // The chosen source

  /** Which Linux power source is in use */
  datatype InnerPowerSource = Rapl(monitor: RaplMonitor) | Hwmon | Battery {
    function Name(): (n: string)
      ensures n == SourceName(Kind())
    {
      match this
      case Rapl(_) => "Intel RAPL"
      case Hwmon => "Linux hwmon"
      case Battery => "Battery sensor"
    }

    function SourceTag(): (t: string)
      ensures t == Tag(Kind())
    {
      match this
      case Rapl(_) => "rapl"
      case Hwmon => "hwmon"
      case Battery => "battery"
    }

    function Kind(): SourceKind {
      match this
      case Rapl(_) => RaplKind
      case Hwmon => HwmonKind
      case Battery => BatteryKind
    }
  }

  datatype SourceKind = RaplKind | HwmonKind | BatteryKind

  function SourceName(k: SourceKind): string {
    match k
    case RaplKind => "Intel RAPL"
    case HwmonKind => "Linux hwmon"
    case BatteryKind => "Battery sensor"
  }

  function Tag(k: SourceKind): string {
    match k
    case RaplKind => "rapl"
    case HwmonKind => "hwmon"
    case BatteryKind => "battery"
  }

  /** The name and the tag each identify the kind of source */
  lemma NamesAndTagsIdentify(a: SourceKind, b: SourceKind)
    ensures SourceName(a) == SourceName(b) <==> a == b
    ensures Tag(a) == Tag(b) <==> a == b
  {
  }

  /** A measured reading of `power` at `timestamp` with the source's tag, or
      the error that prevented it */
  function MeasuredReading(power: Result<real, Error>, tag: string, timestamp: int): (r: Result<PowerReading, Error>)
    ensures r.Ok? <==> power.Ok?
    ensures r.Err? ==> r.error == power.error
    ensures r.Ok? ==> r.value == NewPowerReading(power.value, tag, false, timestamp)
  {
    if power.Err? then Err(power.error) else Ok(NewPowerReading(power.value, tag, false, timestamp))
  }

  /** The Linux system monitor's power side: the chosen source */
  class LinuxSystemMonitor {
    const inner: InnerPowerSource

    constructor New(source: InnerPowerSource)
      ensures inner == source
    {
      inner := source;
    }

    /** `get_power_watts`: whatever the chosen source measures. `read` is the
        content of its sensor file, `now` the current instant. */
    method GetPowerWatts(read: Result<string, string>, now: real) returns (r: Result<real, Error>)
      requires inner.Rapl? ==> inner.monitor.Valid()
      modifies if inner.Rapl? then {inner.monitor} else {}
      ensures inner.Rapl? ==> inner.monitor.Valid()
      ensures inner.Hwmon? ==> r == HwmonPower(read)
      ensures inner.Battery? ==> r == BatteryPower(read)
      ensures inner.Rapl? && ReadEnergy(read).Ok? ==>
        && r == Ok(RaplWatts(EnergyDelta(inner.monitor.maxEnergy, old(inner.monitor.lastEnergy), ReadEnergy(read).value),
                             ElapsedSecs(old(inner.monitor.lastTime), now)))
        && inner.monitor.lastEnergy == ReadEnergy(read).value && inner.monitor.lastTime == now
      ensures inner.Rapl? && ReadEnergy(read).Err? ==>
        && r == Err(ReadEnergy(read).error)
        && inner.monitor.lastEnergy == old(inner.monitor.lastEnergy)
        && inner.monitor.lastTime == old(inner.monitor.lastTime)
    {
      match inner
      case Rapl(m) => r := m.GetPower(read, now);
      case Hwmon => r := HwmonPower(read);
      case Battery => r := BatteryPower(read);
    }

    /** `get_reading`: a measured (never estimated) reading tagged with the
        source, or the measuring error */
    method GetReading(read: Result<string, string>, now: real, timestamp: int) returns (r: Result<PowerReading, Error>)
      requires inner.Rapl? ==> inner.monitor.Valid()
      modifies if inner.Rapl? then {inner.monitor} else {}
      ensures inner.Rapl? ==> inner.monitor.Valid()
      ensures r.Ok? ==> !r.value.isEstimated && r.value.source == inner.SourceTag() && r.value.components == None
      ensures inner.Hwmon? ==> r == MeasuredReading(HwmonPower(read), "hwmon", timestamp)
      ensures inner.Battery? ==> r == MeasuredReading(BatteryPower(read), "battery", timestamp)
      ensures inner.Rapl? && ReadEnergy(read).Ok? ==>
        && r == Ok(NewPowerReading(RaplWatts(EnergyDelta(inner.monitor.maxEnergy, old(inner.monitor.lastEnergy), ReadEnergy(read).value),
                                             ElapsedSecs(old(inner.monitor.lastTime), now)), "rapl", false, timestamp))
        && inner.monitor.lastEnergy == ReadEnergy(read).value && inner.monitor.lastTime == now
      ensures inner.Rapl? && ReadEnergy(read).Err? ==>
        && r == Err(ReadEnergy(read).error)
        && inner.monitor.lastEnergy == old(inner.monitor.lastEnergy)
        && inner.monitor.lastTime == old(inner.monitor.lastTime)
    {
      var power := GetPowerWatts(read, now);
      if power.Err? {
        return Err(power.error);
      }
      r := Ok(NewPowerReading(power.value, inner.SourceTag(), false, timestamp));
    }

    function Name(): (n: string)
      ensures n == SourceName(inner.Kind())
    {
      inner.Name()
    }

    /** Linux readings come from a sensor, never from the estimator */
    function IsEstimated(): (e: bool)
      ensures !e
    {
      false
    }
  }

  // ---------------------------------------------------------------------------
  // CPU temperature

  /** One numbered sysfs file as the scans see it: unreadable, readable but
      not a number, or a number. `SensorFileOf` turns the text of a read into
      this shape; the scans below work on it. */
  datatype SensorFile<T> = Unreadable | Unparsable | Parsed(value: T)

  /** A file read parsed as `f64` after trimming */
  function F64File(content: Option<string>): (f: SensorFile<real>)
    ensures content.None? <==> f.Unreadable?
    ensures f.Parsed? ==> ParseF64(Trim(content.value)) == Some(f.value)
  {
    match content
    case None => Unreadable
    case Some(text) =>
      match ParseF64(Trim(text))
      case None => Unparsable
      case Some(v) => Parsed(v)
  }

  /** A file read parsed as `u64` after trimming */
  function U64File(content: Option<string>): (f: SensorFile<nat>)
    ensures content.None? <==> f.Unreadable?
    ensures f.Parsed? ==> ParseU64(Trim(content.value)) == Some(f.value)
  {
    match content
    case None => Unreadable
    case Some(text) =>
      match ParseU64(Trim(text))
      case None => Unparsable
      case Some(v) => Parsed(v)
  }

  /** Upper bound of the coretemp scan (`temp1_input` .. `temp128_input`) */
  const CORETEMP_MAX_INDEX: nat := 128
  /** Upper bound of the k10temp scan (`temp1_input` .. `temp10_input`) */
  const K10TEMP_MAX_INDEX: nat := 10

  /** The `i`-th numbered file (1-based); files past the end are unreadable */
  function FileAt<T>(files: seq<SensorFile<T>>, i: nat): SensorFile<T> {
    if 1 <= i <= |files| then files[i - 1] else Unreadable
  }

  /** A `tempN_input` file as degrees Celsius: millidegrees over 1000, kept
      only when strictly between 0 and 150 */
  function SensorCelsius(f: SensorFile<real>): (c: Option<real>)
    ensures c.Some? ==> 0.0 < c.value < 150.0
    ensures c.Some? ==> f.Parsed? && f.value == c.value * 1000.0
  {
    match f
    case Parsed(millideg) =>
      var celsius := millideg / 1000.0;
      if 0.0 < celsius < 150.0 then Some(celsius) else None
    case _ => None
  }

  /** The reading of file `i` as a list of zero or one plausible values */
  function TempAt(files: seq<SensorFile<real>>, i: nat): (t: seq<real>)
    ensures |t| <= 1 && AllStrictlyWithin(t, 0.0, 150.0)
    ensures |t| == 1 <==> SensorCelsius(FileAt(files, i)).Some?
    ensures |t| == 1 ==> t[0] == SensorCelsius(FileAt(files, i)).value
  {
    match SensorCelsius(FileAt(files, i))
    case Some(c) => [c]
    case None => []
  }

  /** The plausible readings among files `lo` .. `hi - 1`, in index order */
  function ValidTemps(files: seq<SensorFile<real>>, lo: nat, hi: nat): (ts: seq<real>)
    ensures |ts| <= if hi > lo then hi - lo else 0
    ensures AllStrictlyWithin(ts, 0.0, 150.0)
    decreases hi
  {
    if hi <= lo then [] else ValidTemps(files, lo, hi - 1) + TempAt(files, hi - 1)
  }

  /** The first index from `i` on whose file cannot be read (129 when the
      first 128 all can) */
  function CoretempEnd(files: seq<SensorFile<real>>, i: nat): (e: nat)
    requires 1 <= i <= CORETEMP_MAX_INDEX + 1
    ensures i <= e <= CORETEMP_MAX_INDEX + 1
    ensures forall j :: i <= j < e ==> !FileAt(files, j).Unreadable?
    ensures e <= CORETEMP_MAX_INDEX ==> FileAt(files, e).Unreadable?
    decreases CORETEMP_MAX_INDEX + 1 - i
  {
    if i > CORETEMP_MAX_INDEX || FileAt(files, i).Unreadable? then i else CoretempEnd(files, i + 1)
  }

  /** What an Intel coretemp scan reports: file 1 is the package, files 2
      up to the first unreadable one are cores, and the package falls back
      to the mean of the cores */
  function Coretemp(files: seq<SensorFile<real>>): (Option<real>, Option<seq<real>>) {
    var end := CoretempEnd(files, 1);
    var package := if end > 1 then SensorCelsius(FileAt(files, 1)) else None;
    var cores := ValidTemps(files, 2, end);
    var perCore := if |cores| == 0 then None else Some(cores);
    (if package.None? && perCore.Some? then Some(Mean(cores)) else package, perCore)
  }

  /** `read_coretemp_temps` */
  method ReadCoretempTemps(files: seq<SensorFile<real>>) returns (package: Option<real>, perCore: Option<seq<real>>)
    ensures (package, perCore) == Coretemp(files)
  {
    var coreTemps;
    package, coreTemps := ScanCoretemp(files);
    perCore := if |coreTemps| == 0 then None else Some(coreTemps);
    if package.None? && perCore.Some? {
      package := Some(Mean(coreTemps));
    }
  }

  /** The scan loop of `read_coretemp_temps`: the package reading and the
      plausible core readings up to the first unreadable file */
  method ScanCoretemp(files: seq<SensorFile<real>>) returns (package: Option<real>, coreTemps: seq<real>)
    ensures package == (if CoretempEnd(files, 1) > 1 then SensorCelsius(FileAt(files, 1)) else None)
    ensures coreTemps == ValidTemps(files, 2, CoretempEnd(files, 1))
  {
    package := None;
    coreTemps := [];
    var i := 1;
    while i <= CORETEMP_MAX_INDEX
      invariant 1 <= i <= CORETEMP_MAX_INDEX + 1
      invariant CoretempEnd(files, 1) == CoretempEnd(files, i)
      invariant package == if i > 1 then SensorCelsius(FileAt(files, 1)) else None
      invariant coreTemps == ValidTemps(files, 2, i)
    {
      var file := FileAt(files, i);
      if file.Unreadable? {
        assert CoretempEnd(files, i) == i;
        break;
      }
      assert CoretempEnd(files, i) == CoretempEnd(files, i + 1);
      assert i >= 2 ==> ValidTemps(files, 2, i + 1) == ValidTemps(files, 2, i) + TempAt(files, i);
      var celsius := SensorCelsius(file);
      if celsius.Some? {
        if i == 1 {
          package := celsius;
        } else {
          coreTemps := coreTemps + [celsius.value];
        }
      }
      i := i + 1;
    }
  }

  /** Every temperature a coretemp scan reports is plausible, the package
      included when it is the mean of the cores */
  lemma CoretempInRange(files: seq<SensorFile<real>>)
    ensures Coretemp(files).0.Some? ==> 0.0 < Coretemp(files).0.value < 150.0
    ensures Coretemp(files).1.Some? ==> |Coretemp(files).1.value| > 0 && AllStrictlyWithin(Coretemp(files).1.value, 0.0, 150.0)
  {
    var end := CoretempEnd(files, 1);
    var cores := ValidTemps(files, 2, end);
    if |cores| > 0 {
      MeanStrictBounds(cores, 0.0, 150.0);
    }
  }

  /** Files that agree below index `k` give the same plausible readings
      below `k` */
  lemma {:induction false} ValidTempsPrefix(files: seq<SensorFile<real>>, other: seq<SensorFile<real>>, k: nat, lo: nat, hi: nat)
    requires hi <= k
    requires forall j :: 1 <= j < k ==> FileAt(files, j) == FileAt(other, j)
    ensures ValidTemps(files, lo, hi) == ValidTemps(other, lo, hi)
    decreases hi
  {
    if hi > lo {
      ValidTempsPrefix(files, other, k, lo, hi - 1);
      assert FileAt(files, hi - 1) == FileAt(other, hi - 1);
      assert TempAt(files, hi - 1) == TempAt(other, hi - 1);
      assert ValidTemps(files, lo, hi) == ValidTemps(files, lo, hi - 1) + TempAt(files, hi - 1);
      assert ValidTemps(other, lo, hi) == ValidTemps(other, lo, hi - 1) + TempAt(other, hi - 1);
    }
  }

  lemma {:induction false} CoretempEndPrefix(files: seq<SensorFile<real>>, k: nat, i: nat)
    requires 1 <= i <= k <= |files| && files[k - 1].Unreadable?
    requires i <= CORETEMP_MAX_INDEX + 1
    ensures CoretempEnd(files, i) == CoretempEnd(files[..k - 1], i)
    decreases CORETEMP_MAX_INDEX + 1 - i
  {
    if i <= CORETEMP_MAX_INDEX && !FileAt(files, i).Unreadable? {
      assert i < k;
      CoretempEndPrefix(files, k, i + 1);
    }
  }

  /** The scan stops at the first unreadable file: nothing after an
      unreadable `temp{k}_input` is looked at */
  lemma CoretempStopsAtGap(files: seq<SensorFile<real>>, k: nat)
    requires 1 <= k <= |files| && files[k - 1].Unreadable?
    ensures Coretemp(files) == Coretemp(files[..k - 1])
  {
    var prefix := files[..k - 1];
    CoretempEndPrefix(files, k, 1);
    var end := CoretempEnd(files, 1);
    assert FileAt(files, k).Unreadable?;
    assert end <= k;
    assert forall j :: 1 <= j < k ==> FileAt(files, j) == FileAt(prefix, j);
    ValidTempsPrefix(files, prefix, k, 2, end);
    assert FileAt(files, 1) == FileAt(prefix, 1) || k == 1;
  }

  /** What an AMD k10temp (or zenpower) scan reports: file 1 is the main
      temperature, and all plausible readings of files 1 to 10 are listed
      only when there are at least two */
  function K10temp(files: seq<SensorFile<real>>): (Option<real>, Option<seq<real>>) {
    var temps := ValidTemps(files, 1, K10TEMP_MAX_INDEX + 1);
    (SensorCelsius(FileAt(files, 1)), if |temps| > 1 then Some(temps) else None)
  }

  /** `read_k10temp`: unreadable files are skipped, the scan goes on */
  method ReadK10temp(files: seq<SensorFile<real>>) returns (main: Option<real>, perCore: Option<seq<real>>)
    ensures (main, perCore) == K10temp(files)
  {
    var temps: seq<real> := [];
    main := None;
    for i := 1 to K10TEMP_MAX_INDEX + 1
      invariant temps == ValidTemps(files, 1, i)
      invariant main == if i > 1 then SensorCelsius(FileAt(files, 1)) else None
    {
      var celsius := SensorCelsius(FileAt(files, i));
      if celsius.Some? {
        if i == 1 {
          main := celsius;
        }
        temps := temps + [celsius.value];
      }
    }
    perCore := if |temps| > 1 then Some(temps) else None;
  }

  /** The plausible reading of file 1 heads the list */
  lemma {:induction false} ValidTempsFirst(files: seq<SensorFile<real>>, hi: nat)
    requires hi >= 2 && SensorCelsius(FileAt(files, 1)).Some?
    ensures |ValidTemps(files, 1, hi)| > 0
    ensures ValidTemps(files, 1, hi)[0] == SensorCelsius(FileAt(files, 1)).value
    decreases hi
  {
    if hi > 2 {
      ValidTempsFirst(files, hi - 1);
    } else {
      assert ValidTemps(files, 1, 1) == [];
    }
  }

  /** The k10temp readings are plausible, and the main temperature is the
      first of the listed ones */
  lemma K10tempShape(files: seq<SensorFile<real>>)
    ensures K10temp(files).1.Some? ==> |K10temp(files).1.value| > 1 && AllStrictlyWithin(K10temp(files).1.value, 0.0, 150.0)
    ensures K10temp(files).0.Some? && K10temp(files).1.Some? ==> K10temp(files).1.value[0] == K10temp(files).0.value
    ensures K10temp(files).0.Some? ==> 0.0 < K10temp(files).0.value < 150.0
  {
    if SensorCelsius(FileAt(files, 1)).Some? {
      ValidTempsFirst(files, K10TEMP_MAX_INDEX + 1);
    }
  }

  /** `get_cpu_temperature`: the first hwmon chip found among coretemp,
      k10temp and zenpower decides; each argument is that chip's
      `tempN_input` files, or None when the chip is absent */
  method GetCpuTemperature(coretemp: Option<seq<SensorFile<real>>>, k10temp: Option<seq<SensorFile<real>>>,
                           zenpower: Option<seq<SensorFile<real>>>)
    returns (package: Option<real>, perCore: Option<seq<real>>)
    ensures coretemp.Some? ==> (package, perCore) == Coretemp(coretemp.value)
    ensures coretemp.None? && k10temp.Some? ==> (package, perCore) == K10temp(k10temp.value)
    ensures coretemp.None? && k10temp.None? && zenpower.Some? ==> (package, perCore) == K10temp(zenpower.value)
    ensures coretemp.None? && k10temp.None? && zenpower.None? ==> package == None && perCore == None
  {
    if coretemp.Some? {
      package, perCore := ReadCoretempTemps(coretemp.value);
    } else if k10temp.Some? {
      package, perCore := ReadK10temp(k10temp.value);
    } else if zenpower.Some? {
      package, perCore := ReadK10temp(zenpower.value);
    } else {
      package, perCore := None, None;
    }
  }

  // ---------------------------------------------------------------------------
  // CPU frequency

  /** Upper bound of the cpufreq scan (`cpu0` .. `cpu511`) */
  const MAX_CPUS: nat := 512

  /** `cpu{i}/cpufreq/scaling_cur_freq` (0-based); past the end: unreadable */
  function FreqFile(files: seq<SensorFile<nat>>, i: nat): SensorFile<nat> {
    if i < |files| then files[i] else Unreadable
  }

  /** Where the cpufreq scan stops: the first unreadable CPU after cpu0 (an
      unreadable cpu0 is only skipped), or 512 */
  function FreqEnd(files: seq<SensorFile<nat>>, i: nat): (e: nat)
    requires i <= MAX_CPUS
    ensures i <= e <= MAX_CPUS
    ensures forall j :: i <= j < e && j > 0 ==> !FreqFile(files, j).Unreadable?
    ensures e < MAX_CPUS ==> e > 0 && FreqFile(files, e).Unreadable?
    decreases MAX_CPUS - i
  {
    if i >= MAX_CPUS then MAX_CPUS
    else if i > 0 && FreqFile(files, i).Unreadable? then i
    else FreqEnd(files, i + 1)
  }

  /** The MHz value of file `i` (kHz / 1000, rounded down) as a list of zero
      or one values */
  function FreqAt(files: seq<SensorFile<nat>>, i: nat): (f: seq<nat>)
    ensures |f| <= 1
    ensures |f| == 1 <==> FreqFile(files, i).Parsed?
    ensures |f| == 1 ==> f[0] == FreqFile(files, i).value / 1000
  {
    match FreqFile(files, i)
    case Parsed(khz) => [khz / 1000]
    case _ => []
  }

  /** The MHz values of the parsable files `0 .. hi - 1` */
  function Frequencies(files: seq<SensorFile<nat>>, hi: nat): (fs: seq<nat>)
    ensures |fs| <= hi
    decreases hi
  {
    if hi == 0 then [] else Frequencies(files, hi - 1) + FreqAt(files, hi - 1)
  }

  /** What `get_per_core_frequency` reports */
  function PerCoreFrequency(files: seq<SensorFile<nat>>): (r: Option<seq<nat>>)
    ensures r.Some? ==> 0 < |r.value| <= MAX_CPUS
  {
    var fs := Frequencies(files, FreqEnd(files, 0));
    if |fs| == 0 then None else Some(fs)
  }

  /** `get_per_core_frequency` */
  method GetPerCoreFrequency(files: seq<SensorFile<nat>>) returns (r: Option<seq<nat>>)
    ensures r == PerCoreFrequency(files)
  {
    var freqs := ScanFrequencies(files);
    r := if |freqs| == 0 then None else Some(freqs);
  }

  /** The scan loop of `get_per_core_frequency` */
  method ScanFrequencies(files: seq<SensorFile<nat>>) returns (freqs: seq<nat>)
    ensures freqs == Frequencies(files, FreqEnd(files, 0))
  {
    freqs := [];
    var i := 0;
    while i < MAX_CPUS
      invariant 0 <= i <= MAX_CPUS
      invariant FreqEnd(files, 0) == FreqEnd(files, i)
      invariant freqs == Frequencies(files, i)
    {
      var file := FreqFile(files, i);
      ghost var next := Frequencies(files, i + 1);
      assert next == freqs + FreqAt(files, i);
      if file.Parsed? {
        freqs := freqs + [file.value / 1000];
      } else if file.Unreadable? && i > 0 {
        assert FreqEnd(files, i) == i;
        break;
      }
      assert freqs == next;
      assert FreqEnd(files, i) == FreqEnd(files, i + 1);
      i := i + 1;
    }
  }

  /** Every reported frequency is the kHz value of some scanned file, in MHz */
  lemma {:induction false} FrequenciesFromFiles(files: seq<SensorFile<nat>>, hi: nat, k: nat)
    requires k < |Frequencies(files, hi)|
    ensures exists j :: 0 <= j < hi && FreqFile(files, j).Parsed? && Frequencies(files, hi)[k] == FreqFile(files, j).value / 1000
    decreases hi
  {
    var prev := Frequencies(files, hi - 1);
    var here := FreqAt(files, hi - 1);
    assert Frequencies(files, hi) == prev + here;
    if k < |prev| {
      FrequenciesFromFiles(files, hi - 1, k);
      assert Frequencies(files, hi)[k] == prev[k];
    } else {
      assert Frequencies(files, hi)[k] == here[0];
    }
  }

  /** A 2.4 GHz core reads as 2400 MHz; an unreadable cpu0 does not stop
      the scan */
  lemma FrequencyExample()
    ensures PerCoreFrequency([Unreadable, Parsed(2400000)]) == Some([2400])
  {
    var files: seq<SensorFile<nat>> := [Unreadable, Parsed(2400000)];
    assert FreqEnd(files, 2) == 2;
    assert FreqEnd(files, 1) == 2;
    assert FreqEnd(files, 0) == 2;
    assert Frequencies(files, 1) == [];
    assert FreqAt(files, 1) == [2400];
    assert Frequencies(files, 2) == [2400];
  }

  // ---------------------------------------------------------------------------
  // AMD GPU clock table

  /** A word of `pp_dpm_sclk`/`pp_dpm_mclk` read as a clock: digits followed by
      "Mhz" (or else "MHz") */
  function WordClock(w: string): Option<nat> {
    match StripSuffix(w, "Mhz").Or(StripSuffix(w, "MHz"))
    case None => None
    case Some(digits) => ParseU64(digits)
  }

  /** The first clock word on the line, if any */
  function FirstWordClock(words: seq<string>): Option<nat> {
    if |words| == 0 then None
    else if WordClock(words[0]).Some? then WordClock(words[0])
    else FirstWordClock(words[1..])
  }

  /** The first clock word is a clock word, and there is one exactly when
      some word is a clock */
  lemma {:induction false} FirstWordClockFound(words: seq<string>)
    ensures FirstWordClock(words).Some? <==> exists j :: 0 <= j < |words| && WordClock(words[j]).Some?
    ensures FirstWordClock(words).Some? ==> exists j :: 0 <= j < |words| && WordClock(words[j]) == FirstWordClock(words)
  {
    if |words| > 0 && WordClock(words[0]).None? {
      FirstWordClockFound(words[1..]);
      assert forall j :: 1 <= j < |words| ==> words[j] == words[1..][j - 1];
      if FirstWordClock(words).Some? {
        var j :| 0 <= j < |words[1..]| && WordClock(words[1..][j]) == FirstWordClock(words);
        assert WordClock(words[j + 1]) == FirstWordClock(words);
      }
    }
  }

  /** The clock of the first line that carries the '*' mark and a clock word */
  function FirstMarkedClock(lines: seq<string>): Option<nat> {
    if |lines| == 0 then None
    else if LineClock(lines[0]).Some? then LineClock(lines[0])
    else FirstMarkedClock(lines[1..])
  }

  /** The clock on a line, counted only when the line carries the '*' mark */
  function LineClock(line: string): Option<nat> {
    if '*' in line then FirstWordClock(Words(line)) else None
  }

  /** The clock found is that of a marked line, and there is one exactly
      when some marked line has a clock word */
  lemma {:induction false} FirstMarkedClockFound(lines: seq<string>)
    ensures FirstMarkedClock(lines).Some? <==> exists i :: 0 <= i < |lines| && LineClock(lines[i]).Some?
    ensures FirstMarkedClock(lines).Some? ==> exists i :: 0 <= i < |lines| && LineClock(lines[i]) == FirstMarkedClock(lines)
  {
    if |lines| > 0 && LineClock(lines[0]).None? {
      FirstMarkedClockFound(lines[1..]);
      assert forall i :: 1 <= i < |lines| ==> lines[i] == lines[1..][i - 1];
      if FirstMarkedClock(lines).Some? {
        var i :| 0 <= i < |lines[1..]| && LineClock(lines[1..][i]) == FirstMarkedClock(lines);
        assert LineClock(lines[i + 1]) == FirstMarkedClock(lines);
      }
    }
  }

  /** `parse_dpm_clock`: the current clock level of a `pp_dpm_*` table, or
      None when the file cannot be read or no marked line has a clock */
  method ParseDpmClock(content: Option<string>) returns (r: Option<nat>)
    ensures content.None? ==> r == None
    ensures content.Some? ==> r == FirstMarkedClock(Lines(content.value))
  {
    if content.None? {
      return None;
    }
    var lines := Lines(content.value);
    var i := 0;
    while i < |lines|
      invariant 0 <= i <= |lines|
      invariant FirstMarkedClock(lines) == FirstMarkedClock(lines[i..])
    {
      assert lines[i..] == [lines[i]] + lines[i + 1..];
      if '*' in lines[i] {
        var words := Words(lines[i]);
        var j := 0;
        while j < |words|
          invariant 0 <= j <= |words|
          invariant FirstWordClock(words) == FirstWordClock(words[j..])
        {
          assert words[j..] == [words[j]] + words[j + 1..];
          var clock := WordClock(words[j]);
          if clock.Some? {
            return clock;
          }
          j := j + 1;
        }
      }
      i := i + 1;
    }
    return None;
  }

  /** A clock printed with either suffix is read back */
  lemma WordClockPrinted(n: nat)
    requires n <= U64_MAX
    ensures WordClock(Decimal(n) + "Mhz") == Some(n)
    ensures WordClock(Decimal(n) + "MHz") == Some(n)
  {
    ParseDecimal(n, U64_MAX);
    var a := Decimal(n) + "Mhz";
    var b := Decimal(n) + "MHz";
    assert a[|a| - 3..] == "Mhz";
    assert a[..|a| - 3] == Decimal(n);
    assert b[|b| - 3..] == "MHz";
    assert b[..|b| - 3] == Decimal(n);
    assert b[|b| - 3..] != "Mhz";
  }
}
