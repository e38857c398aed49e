/** The NVIDIA GPU queries shared by the Linux and Windows monitors: the
    unit conversions of the device metrics and the per-process GPU map
    built from three NVML process lists.

    Every NVML call is a parameter: a device that could not be opened is
    `None`, a query that failed is `None` in its field. */
module Nvml {
  import opened Wrappers
  import opened Numbers
  import opened Types

  // ---------------------------------------------------------------------------
  // Device metrics

  /** The answers of one device's metric queries, in NVML's units */
  datatype MetricAnswers = MetricAnswers(
    utilizationGpu: Option<nat>,
    powerMilliwatts: Option<nat>,
    temperatureCelsius: Option<nat>,
    memoryInfo: Option<(nat, nat)>,    // (used, total) in bytes
    graphicsClockMhz: Option<nat>,
    memoryClockMhz: Option<nat>,
    fanSpeedPercent: Option<nat>)

  const BYTES_PER_MEBIBYTE: nat := 1024 * 1024

  /** Milliwatts to watts */
  function WattsOfMilliwatts(mw: nat): (w: real)
    ensures w * 1000.0 == mw as real
    ensures w >= 0.0
  {
    mw as real / 1000.0
  }

  /** Bytes to whole mebibytes, rounding down (integer division) */
  function MebibytesOf(bytes: nat): (mb: nat)
    ensures mb * BYTES_PER_MEBIBYTE <= bytes < (mb + 1) * BYTES_PER_MEBIBYTE
  {
    bytes / BYTES_PER_MEBIBYTE
  }

  /** Maps a failed query to None, converts an answered one */
  function MapReal(o: Option<nat>, f: nat -> real): (r: Option<real>)
    ensures r.Some? <==> o.Some?
    ensures o.Some? ==> r.value == f(o.value)
  {
    if o.Some? then Some(f(o.value)) else None
  }

  function AsReal(n: nat): real { n as real }

  /** `query_gpu_metrics`: None when the device cannot be opened; otherwise
      each figure converted, absent when its own query failed */
  function QueryGpuMetrics(deviceName: string, device: Option<MetricAnswers>): (r: Option<GpuMetrics>)
    ensures r.Some? <==> device.Some?
    ensures device.Some? ==>
      var a := device.value;
      && r.value.name == deviceName && r.value.source == "nvml"
      && (r.value.usagePercent.Some? <==> a.utilizationGpu.Some?)
      && (a.utilizationGpu.Some? ==> r.value.usagePercent.value == a.utilizationGpu.value as real)
      && (r.value.powerWatts.Some? <==> a.powerMilliwatts.Some?)
      && (a.powerMilliwatts.Some? ==> r.value.powerWatts.value * 1000.0 == a.powerMilliwatts.value as real)
      && (r.value.temperatureCelsius.Some? <==> a.temperatureCelsius.Some?)
      && (a.temperatureCelsius.Some? ==> r.value.temperatureCelsius.value == a.temperatureCelsius.value as real)
      && (r.value.vramUsedMb.Some? <==> a.memoryInfo.Some?)
      && (r.value.vramTotalMb.Some? <==> a.memoryInfo.Some?)
      && (a.memoryInfo.Some? ==> (
            && r.value.vramUsedMb.value * BYTES_PER_MEBIBYTE <= a.memoryInfo.value.0 < (r.value.vramUsedMb.value + 1) * BYTES_PER_MEBIBYTE
            && r.value.vramTotalMb.value * BYTES_PER_MEBIBYTE <= a.memoryInfo.value.1 < (r.value.vramTotalMb.value + 1) * BYTES_PER_MEBIBYTE))
      && r.value.clockMhz == a.graphicsClockMhz
      && r.value.memoryClockMhz == a.memoryClockMhz
      && r.value.fanSpeedPercent == a.fanSpeedPercent
  {
    match device
    case None => None
    case Some(a) =>
      Some(GpuMetrics(
        deviceName,
        MapReal(a.utilizationGpu, AsReal),
        MapReal(a.powerMilliwatts, WattsOfMilliwatts),
        MapReal(a.temperatureCelsius, AsReal),
        if a.memoryInfo.Some? then Some(MebibytesOf(a.memoryInfo.value.0)) else None,
        if a.memoryInfo.Some? then Some(MebibytesOf(a.memoryInfo.value.1)) else None,
        a.graphicsClockMhz,
        "nvml",
        a.memoryClockMhz,
        a.fanSpeedPercent))
  }

  /** `query_gpu_power`: the power in watts and the device name, None when
      the device or its power query fails */
  function QueryGpuPower(deviceName: string, device: Option<MetricAnswers>): (r: Option<(real, string)>)
    ensures r.Some? <==> device.Some? && device.value.powerMilliwatts.Some?
    ensures r.Some? ==> r.value.0 * 1000.0 == device.value.powerMilliwatts.value as real && r.value.1 == deviceName
  {
    if device.Some? && device.value.powerMilliwatts.Some? then
      Some((WattsOfMilliwatts(device.value.powerMilliwatts.value), deviceName))
    else None
  }

  /** The fast power query and the full metrics query agree on the power */
  lemma PowerQueriesAgree(deviceName: string, device: Option<MetricAnswers>)
    ensures QueryGpuPower(deviceName, device).Some? <==>
      QueryGpuMetrics(deviceName, device).Some? && QueryGpuMetrics(deviceName, device).value.powerWatts.Some?
    ensures QueryGpuPower(deviceName, device).Some? ==>
      QueryGpuMetrics(deviceName, device).value.powerWatts == Some(QueryGpuPower(deviceName, device).value.0)
  {
  }

  // ---------------------------------------------------------------------------
  // Per-process GPU map

  /** NVML's per-process memory figure, which some drivers do not report */
  datatype UsedGpuMemory = Used(bytes: nat) | Unavailable

  datatype GpuProcess = GpuProcess(pid: nat, usedGpuMemory: UsedGpuMemory)

  /** One streaming-multiprocessor utilization sample, in percent */
  datatype UtilSample = UtilSample(pid: nat, smUtil: nat)

  /** The answers of the three process queries; a failed query is None */
  datatype ProcessQueries = ProcessQueries(
    compute: Option<seq<GpuProcess>>,
    graphics: Option<seq<GpuProcess>>,
    utilization: Option<seq<UtilSample>>)

  function UsedMemBytes(m: UsedGpuMemory): nat {
    match m
    case Used(b) => b
    case Unavailable => 0
  }

  predicate UsesMemory(p: GpuProcess) {
    UsedMemBytes(p.usedGpuMemory) > 0
  }

  /** Every value lies in [0, 100] */
  ghost predicate InRange(m: map<nat, real>) {
    forall p :: p in m ==> 0.0 <= m[p] <= 100.0
  }

  /** The value of a pid, 0 when it has none (`entry(pid).or_insert(0.0)`) */
  function Base(m: map<nat, real>, pid: nat): real {
    if pid in m then m[pid] else 0.0
  }

  /** The compute-list value: a process holding GPU memory gets 0.1 */
  function ComputeValue(p: GpuProcess): real {
    if UsesMemory(p) then 0.1 else 0.0
  }

  /** The compute loop: each process's value overwrites its pid's entry */
  function ComputeAll(m: map<nat, real>, procs: seq<GpuProcess>): map<nat, real> {
    if |procs| == 0 then m
    else
      var p := procs[|procs| - 1];
      ComputeAll(m, procs[..|procs| - 1])[p.pid := ComputeValue(p)]
  }

  /** The graphics-loop step: insert 0 if absent, raise to 0.1 if the
      process holds memory and its entry is lower */
  function GraphicsStep(m: map<nat, real>, p: GpuProcess): map<nat, real> {
    var e := Base(m, p.pid);
    m[p.pid := if UsesMemory(p) && e < 0.1 then 0.1 else e]
  }

  function GraphicsAll(m: map<nat, real>, procs: seq<GpuProcess>): map<nat, real> {
    if |procs| == 0 then m
    else GraphicsStep(GraphicsAll(m, procs[..|procs| - 1]), procs[|procs| - 1])
  }

  /** The utilization-loop step: a sample above 0 raises its pid's entry to
      the sample clamped to [0, 100]; a zero sample is skipped */
  function UtilStep(m: map<nat, real>, s: UtilSample): map<nat, real> {
    if s.smUtil > 0 then m[s.pid := MaxReal(Base(m, s.pid), Clamp(s.smUtil as real, 0.0, 100.0))]
    else m
  }

  function UtilAll(m: map<nat, real>, samples: seq<UtilSample>): map<nat, real> {
    if |samples| == 0 then m
    else UtilStep(UtilAll(m, samples[..|samples| - 1]), samples[|samples| - 1])
  }

  /** The map `query_gpu_processes` builds from an opened device */
  function ProcessGpuMap(q: ProcessQueries): (m: map<nat, real>)
    ensures q.compute.UnwrapOr([]) == [] && q.graphics.UnwrapOr([]) == [] && q.utilization.UnwrapOr([]) == [] ==> m == map[]
  {
    UtilAll(GraphicsAll(ComputeAll(map[], q.compute.UnwrapOr([])), q.graphics.UnwrapOr([])),
            q.utilization.UnwrapOr([]))
  }

  // Reference definitions, per pid

  /** The last process of the list with this pid */
  function LastWithPid(procs: seq<GpuProcess>, pid: nat): (r: Option<GpuProcess>)
    ensures r.Some? ==> r.value.pid == pid
  {
    if |procs| == 0 then None
    else if procs[|procs| - 1].pid == pid then Some(procs[|procs| - 1])
    else LastWithPid(procs[..|procs| - 1], pid)
  }

  /** Some process with this pid holds GPU memory */
  predicate AnyUsesMemory(procs: seq<GpuProcess>, pid: nat) {
    exists i :: 0 <= i < |procs| && procs[i].pid == pid && UsesMemory(procs[i])
  }

  /** The highest clamped utilization among the non-zero samples of a pid */
  function PeakUtil(samples: seq<UtilSample>, pid: nat): (r: Option<real>)
    ensures r.Some? ==> 0.0 <= r.value <= 100.0
  {
    if |samples| == 0 then None
    else
      var prev := PeakUtil(samples[..|samples| - 1], pid);
      var s := samples[|samples| - 1];
      if s.pid == pid && s.smUtil > 0 then
        var v := Clamp(s.smUtil as real, 0.0, 100.0);
        Some(if prev.Some? then MaxReal(prev.value, v) else v)
      else prev
  }

  /** `LastWithPid` finds the last process with the pid, and None means
      no process has it */
  lemma {:induction false} LastWithPidIsLast(procs: seq<GpuProcess>, pid: nat)
    ensures LastWithPid(procs, pid).None? <==> forall i :: 0 <= i < |procs| ==> procs[i].pid != pid
    ensures LastWithPid(procs, pid).Some? ==>
      exists i :: 0 <= i < |procs| && procs[i] == LastWithPid(procs, pid).value
        && forall j :: i < j < |procs| ==> procs[j].pid != pid
  {
    if |procs| > 0 {
      var prefix := procs[..|procs| - 1];
      LastWithPidIsLast(prefix, pid);
      if procs[|procs| - 1].pid != pid && LastWithPid(prefix, pid).Some? {
        var i :| 0 <= i < |prefix| && prefix[i] == LastWithPid(prefix, pid).value
          && forall j :: i < j < |prefix| ==> prefix[j].pid != pid;
        assert procs[i] == prefix[i];
      }
    }
  }

  /** After the compute loop a pid has an entry iff it had one or some
      process carries it; the last such process decides its value */
  lemma {:induction false} ComputeEntry(m: map<nat, real>, procs: seq<GpuProcess>, pid: nat)
    ensures pid in ComputeAll(m, procs) <==> pid in m || LastWithPid(procs, pid).Some?
    ensures pid in ComputeAll(m, procs) ==> (ComputeAll(m, procs)[pid] ==
      if LastWithPid(procs, pid).Some? then ComputeValue(LastWithPid(procs, pid).value) else m[pid])
  {
    if |procs| > 0 {
      ComputeEntry(m, procs[..|procs| - 1], pid);
    }
  }

  /** After the graphics loop a pid has an entry iff it had one or some
      process carries it; its value is raised to 0.1 exactly when one of
      its processes holds memory, and is otherwise what it was (0 if new) */
  lemma {:induction false} GraphicsEntry(m: map<nat, real>, procs: seq<GpuProcess>, pid: nat)
    ensures pid in GraphicsAll(m, procs) <==> pid in m || LastWithPid(procs, pid).Some?
    ensures pid in GraphicsAll(m, procs) ==> (GraphicsAll(m, procs)[pid] ==
      if AnyUsesMemory(procs, pid) then MaxReal(Base(m, pid), 0.1) else Base(m, pid))
  {
    if |procs| > 0 {
      var prefix := procs[..|procs| - 1];
      var p := procs[|procs| - 1];
      GraphicsEntry(m, prefix, pid);
      assert AnyUsesMemory(procs, pid) <==> AnyUsesMemory(prefix, pid) || (p.pid == pid && UsesMemory(p)) by {
        if AnyUsesMemory(prefix, pid) {
          var i :| 0 <= i < |prefix| && prefix[i].pid == pid && UsesMemory(prefix[i]);
          assert procs[i] == prefix[i];
        }
        if AnyUsesMemory(procs, pid) && !(p.pid == pid && UsesMemory(p)) {
          var i :| 0 <= i < |procs| && procs[i].pid == pid && UsesMemory(procs[i]);
          assert i < |prefix| && prefix[i] == procs[i];
        }
      }
      if p.pid == pid && pid !in GraphicsAll(m, prefix) {
        LastWithPidIsLast(prefix, pid);
        assert !AnyUsesMemory(prefix, pid);
      }
    } else {
      assert !AnyUsesMemory(procs, pid);
    }
  }

  /** After the utilization loop a pid has an entry iff it had one or a
      non-zero sample carries it; such samples raise it to their clamped
      peak and never lower it */
  lemma {:induction false} UtilEntry(m: map<nat, real>, samples: seq<UtilSample>, pid: nat)
    ensures pid in UtilAll(m, samples) <==> pid in m || PeakUtil(samples, pid).Some?
    ensures pid in UtilAll(m, samples) ==> (UtilAll(m, samples)[pid] ==
      if PeakUtil(samples, pid).Some? then MaxReal(Base(m, pid), PeakUtil(samples, pid).value) else m[pid])
  {
    if |samples| > 0 {
      UtilEntry(m, samples[..|samples| - 1], pid);
    }
  }

  /** None of the three loops lowers an existing entry */
  lemma NeverLowered(m: map<nat, real>, graphics: seq<GpuProcess>, samples: seq<UtilSample>, pid: nat)
    requires pid in m
    ensures pid in GraphicsAll(m, graphics) && GraphicsAll(m, graphics)[pid] >= m[pid]
    ensures pid in UtilAll(m, samples) && UtilAll(m, samples)[pid] >= m[pid]
  {
    GraphicsEntry(m, graphics, pid);
    UtilEntry(m, samples, pid);
  }

  /** Every value of the map lies in [0, 100] */
  lemma ProcessGpuMapInRange(q: ProcessQueries)
    ensures InRange(ProcessGpuMap(q))
  {
    var c := ComputeAll(map[], q.compute.UnwrapOr([]));
    var g := GraphicsAll(c, q.graphics.UnwrapOr([]));
    var u := UtilAll(g, q.utilization.UnwrapOr([]));
    forall pid | pid in u ensures 0.0 <= u[pid] <= 100.0 {
      UtilEntry(g, q.utilization.UnwrapOr([]), pid);
      if pid in g {
        GraphicsEntry(c, q.graphics.UnwrapOr([]), pid);
        if pid in c {
          ComputeEntry(map[], q.compute.UnwrapOr([]), pid);
        }
      }
    }
  }

  /** `query_gpu_processes`: the three loops over an opened device; an
      empty map when the device cannot be opened */
  method QueryGpuProcesses(device: Option<ProcessQueries>) returns (result: map<nat, real>)
    ensures device.None? ==> result == map[]
    ensures device.Some? ==> result == ProcessGpuMap(device.value)
    ensures InRange(result)
  {
    result := map[];
    if device.None? {
      return;
    }
    var q := device.value;
    if q.compute.Some? {
      result := ComputeLoop(result, q.compute.value);
    }
    if q.graphics.Some? {
      result := GraphicsLoop(result, q.graphics.value);
    }
    if q.utilization.Some? {
      result := UtilLoop(result, q.utilization.value);
    }
    ProcessGpuMapInRange(q);
  }

  /** The compute-process loop: 0.1 for a process holding memory, else 0 */
  method ComputeLoop(m: map<nat, real>, procs: seq<GpuProcess>) returns (result: map<nat, real>)
    ensures result == ComputeAll(m, procs)
  {
    result := m;
    for k := 0 to |procs|
      invariant result == ComputeAll(m, procs[..k])
    {
      assert procs[..k + 1][..k] == procs[..k];
      var proc := procs[k];
      var memBytes := UsedMemBytes(proc.usedGpuMemory);
      result := result[proc.pid := if memBytes > 0 then 0.1 else 0.0];
    }
    assert procs[..|procs|] == procs;
  }

  /** The graphics-process loop: an entry for each process, raised to 0.1
      when it holds memory */
  method GraphicsLoop(m: map<nat, real>, procs: seq<GpuProcess>) returns (result: map<nat, real>)
    ensures result == GraphicsAll(m, procs)
  {
    result := m;
    for k := 0 to |procs|
      invariant result == GraphicsAll(m, procs[..k])
    {
      assert procs[..k + 1][..k] == procs[..k];
      var proc := procs[k];
      var memBytes := UsedMemBytes(proc.usedGpuMemory);
      var entry := if proc.pid in result then result[proc.pid] else 0.0;
      if memBytes > 0 && entry < 0.1 {
        entry := 0.1;
      }
      result := result[proc.pid := entry];
    }
    assert procs[..|procs|] == procs;
  }

  /** The utilization loop: a non-zero sample raises its process to the
      clamped SM percentage */
  method UtilLoop(m: map<nat, real>, samples: seq<UtilSample>) returns (result: map<nat, real>)
    ensures result == UtilAll(m, samples)
  {
    result := m;
    for k := 0 to |samples|
      invariant result == UtilAll(m, samples[..k])
    {
      assert samples[..k + 1][..k] == samples[..k];
      var sample := samples[k];
      var smPercent := sample.smUtil as real;
      if smPercent > 0.0 {
        var entry := if sample.pid in result then result[sample.pid] else 0.0;
        result := result[sample.pid := MaxReal(entry, Clamp(smPercent, 0.0, 100.0))];
      }
    }
    assert samples[..|samples|] == samples;
  }

  /** A compute process holding memory and nothing else: 0.1; a utilization
      sample of 250% is clamped to 100 */
  lemma ProcessMapExamples()
    ensures ProcessGpuMap(ProcessQueries(Some([GpuProcess(7, Used(1))]), None, None)) == map[7 := 0.1]
    ensures ProcessGpuMap(ProcessQueries(None, Some([GpuProcess(7, Unavailable)]), Some([UtilSample(7, 250)]))) == map[7 := 100.0]
  {
    assert [GpuProcess(7, Used(1))][..0] == [];
    assert [GpuProcess(7, Unavailable)][..0] == [];
    assert [UtilSample(7, 250)][..0] == [];
  }
}
