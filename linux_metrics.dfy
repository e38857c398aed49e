/** The Linux monitor's process table and system figures: per-name process
    aggregation, the pinned-first ranking of the top processes, the list of
    all active processes, memory and swap percentages, GPU source choice and
    the fast metrics path.

    The process list, the per-process GPU map, the CPU loads and the memory
    totals come from `sysinfo` and NVML; here they are parameters. */
module LinuxMetrics {
  import opened Wrappers
  import opened Text
  import opened Numbers
  import opened Sorting
  import opened Types
  import opened Nvml

  /** One process as `sysinfo` lists it */
  datatype RawProcess = RawProcess(pid: nat, name: string, cpuUsage: real, memory: nat)

  /** Highest CPU percentage kept: Linux reports per core, up to 128 cores */
  const MAX_CPU_PERCENT: real := 12800.0

  // ---------------------------------------------------------------------------
  // Aggregation by name

  /** `part` as a percentage of `whole` (a process's memory, used RAM or
      used swap against the total): the number `r` with
      `r * whole == part * 100` */
  function PercentOf(part: nat, whole: nat): (r: real)
    requires whole > 0
    ensures r * whole as real == part as real * 100.0
    ensures r >= 0.0
    ensures part <= whole ==> r <= 100.0
    ensures part == whole ==> r == 100.0
  {
    (part as real / whole as real) * 100.0
  }

  /** Percentages of one whole add up like the parts do */
  lemma PercentOfAdds(a: nat, b: nat, whole: nat)
    requires whole > 0
    ensures PercentOf(a, whole) + PercentOf(b, whole) == PercentOf(a + b, whole)
  {
    var w := whole as real;
    assert (PercentOf(a, whole) + PercentOf(b, whole)) * w == (a + b) as real * 100.0;
    assert PercentOf(a + b, whole) * w == (a + b) as real * 100.0;
  }

  /** Some pinned name matches `name`, ignoring ASCII case */
  predicate IsPinnedName(pinnedNames: seq<string>, name: string) {
    exists i :: 0 <= i < |pinnedNames| && EqIgnoreAsciiCase(pinnedNames[i], name)
  }

  /** The GPU share NVML reports for a process id, if any */
  function GpuShare(gpuUsage: map<nat, real>, pid: nat): Option<real> {
    if pid in gpuUsage then Some(gpuUsage[pid]) else None
  }

  /** Fold one process into the row for its name */
  function Accumulate(e: ProcessMetrics, p: RawProcess, gpu: Option<real>, pinned: bool, totalMemory: nat): ProcessMetrics
    requires totalMemory > 0
  {
    e.(cpuPercent := e.cpuPercent + p.cpuUsage,
       memoryBytes := e.memoryBytes + p.memory,
       memoryPercent := e.memoryPercent + PercentOf(p.memory, totalMemory),
       gpuPercent := if gpu.Some? then Some(e.gpuPercent.UnwrapOr(0.0) + gpu.value) else e.gpuPercent,
       isPinned := e.isPinned || pinned)
  }

  /** The empty row a name starts from (pid and name of its first process) */
  function FreshRow(p: RawProcess): ProcessMetrics {
    ProcessMetrics(p.pid, p.name, 0.0, 0, 0.0, None, false)
  }

  /** The aggregation map, with its names in order of first appearance */
  datatype Table = Table(order: seq<string>, rows: map<string, ProcessMetrics>)

  /** Every listed name has a row, every row is listed once, and each row
      carries its own name */
  ghost predicate WellFormed(t: Table) {
    && (forall n :: n in t.rows <==> n in t.order)
    && (forall i, j :: 0 <= i < j < |t.order| ==> t.order[i] != t.order[j])
    && (forall n :: n in t.rows ==> t.rows[n].name == n)
  }

  /** The table after folding in one more process */
  function AddProcess(t: Table, p: RawProcess, gpuUsage: map<nat, real>, pinnedNames: seq<string>, totalMemory: nat): Table
    requires totalMemory > 0
  {
    var e := if p.name in t.rows then t.rows[p.name] else FreshRow(p);
    var row := Accumulate(e, p, GpuShare(gpuUsage, p.pid), IsPinnedName(pinnedNames, p.name), totalMemory);
    Table(if p.name in t.rows then t.order else t.order + [p.name], t.rows[p.name := row])
  }

  /** The table after folding in every process, in list order */
  function Aggregate(procs: seq<RawProcess>, gpuUsage: map<nat, real>, pinnedNames: seq<string>, totalMemory: nat): Table
    requires totalMemory > 0
  {
    if |procs| == 0 then Table([], map[])
    else AddProcess(Aggregate(procs[..|procs| - 1], gpuUsage, pinnedNames, totalMemory),
                    procs[|procs| - 1], gpuUsage, pinnedNames, totalMemory)
  }

  /** The aggregation loop of `get_top_processes_impl` and
      `get_all_processes_impl` */
  method AggregateByName(procs: seq<RawProcess>, gpuUsage: map<nat, real>, pinnedNames: seq<string>, totalMemory: nat)
    returns (order: seq<string>, aggregated: map<string, ProcessMetrics>)
    requires totalMemory > 0
    ensures Table(order, aggregated) == Aggregate(procs, gpuUsage, pinnedNames, totalMemory)
  {
    order := [];
    aggregated := map[];
    for k := 0 to |procs|
      invariant Table(order, aggregated) == Aggregate(procs[..k], gpuUsage, pinnedNames, totalMemory)
    {
      assert procs[..k + 1][..k] == procs[..k] && procs[..k + 1][k] == procs[k];
      order, aggregated := AddToTable(order, aggregated, procs[k], gpuUsage, pinnedNames, totalMemory);
    }
    assert procs[..|procs|] == procs;
  }

  /** One pass of the aggregation loop: start a row for a new name, then
      fold the process into its row */
  method AddToTable(order: seq<string>, aggregated: map<string, ProcessMetrics>, p: RawProcess,
                    gpuUsage: map<nat, real>, pinnedNames: seq<string>, totalMemory: nat)
    returns (order': seq<string>, aggregated': map<string, ProcessMetrics>)
    requires totalMemory > 0
    ensures Table(order', aggregated') == AddProcess(Table(order, aggregated), p, gpuUsage, pinnedNames, totalMemory)
  {
    order', aggregated' := order, aggregated;
    var isPinned := IsPinnedName(pinnedNames, p.name);
    var gpuPercent := GpuShare(gpuUsage, p.pid);
    if p.name !in aggregated' {
      aggregated' := aggregated'[p.name := FreshRow(p)];
      order' := order' + [p.name];
    }
    aggregated' := aggregated'[p.name := Accumulate(aggregated'[p.name], p, gpuPercent, isPinned, totalMemory)];
  }

  /** The total CPU of the processes called `n` */
  function CpuOfName(procs: seq<RawProcess>, n: string): real {
    if |procs| == 0 then 0.0
    else CpuOfName(procs[..|procs| - 1], n) + (if procs[|procs| - 1].name == n then procs[|procs| - 1].cpuUsage else 0.0)
  }

  /** The total memory of the processes called `n` */
  function MemoryOfName(procs: seq<RawProcess>, n: string): nat {
    if |procs| == 0 then 0
    else MemoryOfName(procs[..|procs| - 1], n) + (if procs[|procs| - 1].name == n then procs[|procs| - 1].memory else 0)
  }

  /** The total GPU share of the processes called `n` that NVML knows about,
      or None when it knows none of them */
  function GpuOfName(procs: seq<RawProcess>, gpuUsage: map<nat, real>, n: string): Option<real> {
    if |procs| == 0 then None
    else
      var prev := GpuOfName(procs[..|procs| - 1], gpuUsage, n);
      var p := procs[|procs| - 1];
      if p.name == n && p.pid in gpuUsage then Some(prev.UnwrapOr(0.0) + gpuUsage[p.pid]) else prev
  }

  /** Some process is called `n` */
  predicate HasName(procs: seq<RawProcess>, n: string) {
    exists i :: 0 <= i < |procs| && procs[i].name == n
  }

  /** A process list has name `n` exactly when its prefix does or its last
      process is called `n` */
  lemma HasNameLast(procs: seq<RawProcess>, n: string)
    requires |procs| > 0
    ensures HasName(procs, n) <==> HasName(procs[..|procs| - 1], n) || procs[|procs| - 1].name == n
  {
    var prefix := procs[..|procs| - 1];
    if HasName(prefix, n) {
      var i :| 0 <= i < |prefix| && prefix[i].name == n;
      assert procs[i].name == n;
    }
    if HasName(procs, n) && procs[|procs| - 1].name != n {
      var i :| 0 <= i < |procs| && procs[i].name == n;
      assert i < |procs| - 1 && prefix[i].name == n;
    }
  }

  /** A name no process carries has no CPU, memory or GPU total */
  lemma {:induction false} AbsentNameTotals(procs: seq<RawProcess>, gpuUsage: map<nat, real>, n: string)
    requires !HasName(procs, n)
    ensures CpuOfName(procs, n) == 0.0 && MemoryOfName(procs, n) == 0 && GpuOfName(procs, gpuUsage, n) == None
    decreases |procs|
  {
    if |procs| > 0 {
      HasNameLast(procs, n);
      AbsentNameTotals(procs[..|procs| - 1], gpuUsage, n);
    }
  }

  /** The aggregation has one row per process name, each listed once and
      carrying its own name */
  lemma {:induction false} AggregateNames(procs: seq<RawProcess>, gpuUsage: map<nat, real>, pinnedNames: seq<string>, totalMemory: nat)
    requires totalMemory > 0
    ensures WellFormed(Aggregate(procs, gpuUsage, pinnedNames, totalMemory))
    ensures forall n :: n in Aggregate(procs, gpuUsage, pinnedNames, totalMemory).rows <==> HasName(procs, n)
    decreases |procs|
  {
    if |procs| > 0 {
      var prefix := procs[..|procs| - 1];
      var p := procs[|procs| - 1];
      AggregateNames(prefix, gpuUsage, pinnedNames, totalMemory);
      var t := Aggregate(prefix, gpuUsage, pinnedNames, totalMemory);
      var t' := Aggregate(procs, gpuUsage, pinnedNames, totalMemory);
      assert t' == AddProcess(t, p, gpuUsage, pinnedNames, totalMemory);
      forall n
        ensures n in t'.rows <==> HasName(procs, n)
      {
        HasNameLast(procs, n);
      }
    }
  }

  /** The row of name `n` holds the CPU, memory and GPU totals over the
      processes called `n`, and is pinned exactly when `n` is */
  lemma {:induction false} AggregateRow(procs: seq<RawProcess>, gpuUsage: map<nat, real>, pinnedNames: seq<string>, totalMemory: nat, n: string)
    requires totalMemory > 0
    requires n in Aggregate(procs, gpuUsage, pinnedNames, totalMemory).rows
    ensures var row := Aggregate(procs, gpuUsage, pinnedNames, totalMemory).rows[n];
      && row.cpuPercent == CpuOfName(procs, n)
      && row.memoryBytes == MemoryOfName(procs, n)
      && row.gpuPercent == GpuOfName(procs, gpuUsage, n)
      && row.isPinned == IsPinnedName(pinnedNames, n)
    decreases |procs|
  {
    var prefix := procs[..|procs| - 1];
    var p := procs[|procs| - 1];
    var t := Aggregate(prefix, gpuUsage, pinnedNames, totalMemory);
    var t' := Aggregate(procs, gpuUsage, pinnedNames, totalMemory);
    assert t' == AddProcess(t, p, gpuUsage, pinnedNames, totalMemory);
    AggregateNames(prefix, gpuUsage, pinnedNames, totalMemory);
    if n != p.name {
      assert t'.rows[n] == t.rows[n];
      AggregateRow(prefix, gpuUsage, pinnedNames, totalMemory, n);
    } else if n in t.rows {
      AggregateRow(prefix, gpuUsage, pinnedNames, totalMemory, n);
      assert t'.rows[n] == Accumulate(t.rows[n], p, GpuShare(gpuUsage, p.pid), IsPinnedName(pinnedNames, n), totalMemory);
    } else {
      AbsentNameTotals(prefix, gpuUsage, n);
      assert t'.rows[n] == Accumulate(FreshRow(p), p, GpuShare(gpuUsage, p.pid), IsPinnedName(pinnedNames, n), totalMemory);
    }
  }

  /** The memory percentage of the row of name `n` is the share of the
      memory total over the processes called `n`: the per-process shares
      add up to it */
  lemma {:induction false} AggregateRowPercent(procs: seq<RawProcess>, gpuUsage: map<nat, real>, pinnedNames: seq<string>, totalMemory: nat, n: string)
    requires totalMemory > 0
    requires n in Aggregate(procs, gpuUsage, pinnedNames, totalMemory).rows
    ensures Aggregate(procs, gpuUsage, pinnedNames, totalMemory).rows[n].memoryPercent == PercentOf(MemoryOfName(procs, n), totalMemory)
    decreases |procs|
  {
    var prefix := procs[..|procs| - 1];
    var p := procs[|procs| - 1];
    var t := Aggregate(prefix, gpuUsage, pinnedNames, totalMemory);
    var t' := Aggregate(procs, gpuUsage, pinnedNames, totalMemory);
    assert t' == AddProcess(t, p, gpuUsage, pinnedNames, totalMemory);
    if n != p.name {
      assert t'.rows[n] == t.rows[n];
      AggregateRowPercent(prefix, gpuUsage, pinnedNames, totalMemory, n);
    } else if n in t.rows {
      AggregateRowPercent(prefix, gpuUsage, pinnedNames, totalMemory, n);
      assert t'.rows[n].memoryPercent == t.rows[n].memoryPercent + PercentOf(p.memory, totalMemory);
      PercentOfAdds(MemoryOfName(prefix, n), p.memory, totalMemory);
    } else {
      AggregateNames(prefix, gpuUsage, pinnedNames, totalMemory);
      AbsentNameTotals(prefix, gpuUsage, n);
      assert t'.rows[n].memoryPercent == 0.0 + PercentOf(p.memory, totalMemory);
      PercentOfAdds(0, p.memory, totalMemory);
    }
  }

  /** The aggregation has one row per process name, listed once each, whose
      CPU, memory and GPU figures are the totals over the processes of that
      name and whose pinned flag says whether the name is pinned */
  lemma AggregateSums(procs: seq<RawProcess>, gpuUsage: map<nat, real>, pinnedNames: seq<string>, totalMemory: nat)
    requires totalMemory > 0
    ensures WellFormed(Aggregate(procs, gpuUsage, pinnedNames, totalMemory))
    ensures forall n :: n in Aggregate(procs, gpuUsage, pinnedNames, totalMemory).rows <==> HasName(procs, n)
    ensures forall n :: n in Aggregate(procs, gpuUsage, pinnedNames, totalMemory).rows ==>
      var row := Aggregate(procs, gpuUsage, pinnedNames, totalMemory).rows[n];
      && row.cpuPercent == CpuOfName(procs, n)
      && row.memoryBytes == MemoryOfName(procs, n)
      && row.memoryPercent == PercentOf(MemoryOfName(procs, n), totalMemory)
      && row.gpuPercent == GpuOfName(procs, gpuUsage, n)
      && row.isPinned == IsPinnedName(pinnedNames, n)
  {
    AggregateNames(procs, gpuUsage, pinnedNames, totalMemory);
    forall n | n in Aggregate(procs, gpuUsage, pinnedNames, totalMemory).rows
      ensures var row := Aggregate(procs, gpuUsage, pinnedNames, totalMemory).rows[n];
        && row.cpuPercent == CpuOfName(procs, n)
        && row.memoryBytes == MemoryOfName(procs, n)
        && row.memoryPercent == PercentOf(MemoryOfName(procs, n), totalMemory)
        && row.gpuPercent == GpuOfName(procs, gpuUsage, n)
        && row.isPinned == IsPinnedName(pinnedNames, n)
    {
      AggregateRow(procs, gpuUsage, pinnedNames, totalMemory, n);
      AggregateRowPercent(procs, gpuUsage, pinnedNames, totalMemory, n);
    }
  }

  // ---------------------------------------------------------------------------
  // Ranking

  /** The bounds applied before ranking */
  function Clamped(p: ProcessMetrics): (c: ProcessMetrics)
    ensures c.cpuPercent <= MAX_CPU_PERCENT && c.memoryPercent <= 100.0
    ensures c.gpuPercent.Some? ==> c.gpuPercent.value <= 100.0
    ensures c.gpuPercent.Some? <==> p.gpuPercent.Some?
    ensures c == p.(cpuPercent := c.cpuPercent, memoryPercent := c.memoryPercent, gpuPercent := c.gpuPercent)
    ensures p.cpuPercent <= MAX_CPU_PERCENT ==> c.cpuPercent == p.cpuPercent
    ensures p.memoryPercent <= 100.0 ==> c.memoryPercent == p.memoryPercent
  {
    p.(cpuPercent := MinReal(p.cpuPercent, MAX_CPU_PERCENT),
       memoryPercent := MinReal(p.memoryPercent, 100.0),
       gpuPercent := if p.gpuPercent.Some? then Some(MinReal(p.gpuPercent.value, 100.0)) else None)
  }

  predicate WithinBounds(p: ProcessMetrics) {
    p.cpuPercent <= MAX_CPU_PERCENT && p.memoryPercent <= 100.0
    && (p.gpuPercent.Some? ==> p.gpuPercent.value <= 100.0)
  }

  /** The ranking score: CPU and GPU weigh 40% each, memory 20% */
  function Score(p: ProcessMetrics): real {
    p.cpuPercent * 0.4 + p.gpuPercent.UnwrapOr(0.0) * 0.4 + p.memoryPercent * 0.2
  }

  /** Sorting ascending by this sorts by descending score */
  function NegScore(p: ProcessMetrics): real {
    -Score(p)
  }

  /** The clamped rows of a table, in its order */
  function Rows(order: seq<string>, rows: map<string, ProcessMetrics>): (r: seq<ProcessMetrics>)
    requires forall n :: n in order ==> n in rows
    ensures |r| == |order|
    ensures forall i :: 0 <= i < |r| ==> r[i] == Clamped(rows[order[i]])
  {
    if |order| == 0 then [] else [Clamped(rows[order[0]])] + Rows(order[1..], rows)
  }

  /** The rows whose pinned flag is `pinned`, in order */
  function FilterPinned(s: seq<ProcessMetrics>, pinned: bool): (r: seq<ProcessMetrics>)
    ensures forall i :: 0 <= i < |r| ==> r[i].isPinned == pinned
    ensures multiset(r) <= multiset(s)
  {
    if |s| == 0 then []
    else
      assert s == [s[0]] + s[1..];
      var rest := FilterPinned(s[1..], pinned);
      if s[0].isPinned == pinned then [s[0]] + rest else rest
  }

  /** `usize::saturating_sub` */
  function SaturatingSub(a: nat, b: nat): (r: nat)
    ensures r + b >= a && (a >= b ==> r == a - b) && (a < b ==> r == 0)
  {
    if a >= b then a - b else 0
  }

  /** Pinned rows by descending score, then as many other rows by
      descending score as the limit leaves room for */
  function Rank(rows: seq<ProcessMetrics>, limit: nat): seq<ProcessMetrics> {
    var pinned := Sort(FilterPinned(rows, true), NegScore);
    var others := Sort(FilterPinned(rows, false), NegScore);
    pinned + others[..Min(|others|, SaturatingSub(limit, |pinned|))]
  }

  function Min(a: nat, b: nat): nat {
    if a <= b then a else b
  }

  /** What `get_top_processes_impl` returns */
  function TopProcesses(procs: seq<RawProcess>, gpuUsage: map<nat, real>, pinnedNames: seq<string>,
                        limit: nat, totalMemory: nat): (top: seq<ProcessMetrics>)
    requires totalMemory > 0
    ensures |procs| == 0 ==> top == []
  {
    var t := Aggregate(procs, gpuUsage, pinnedNames, totalMemory);
    AggregateSums(procs, gpuUsage, pinnedNames, totalMemory);
    Rank(Rows(t.order, t.rows), limit)
  }

  /** `get_top_processes_impl` */
  method GetTopProcesses(procs: seq<RawProcess>, gpuUsage: map<nat, real>, pinnedNames: seq<string>,
                         limit: nat, totalMemory: nat) returns (top: seq<ProcessMetrics>)
    requires totalMemory > 0
    ensures top == TopProcesses(procs, gpuUsage, pinnedNames, limit, totalMemory)
  {
    var order, aggregated := AggregateByName(procs, gpuUsage, pinnedNames, totalMemory);
    AggregateSums(procs, gpuUsage, pinnedNames, totalMemory);
    var processes := Rows(order, aggregated);
    var pinned := Sort(FilterPinned(processes, true), NegScore);
    var others := Sort(FilterPinned(processes, false), NegScore);
    var remainingSlots := SaturatingSub(limit, |pinned|);
    others := others[..Min(|others|, remainingSlots)];
    top := pinned + others;
  }

  /** Splitting by the pinned flag loses and adds nothing */
  lemma {:induction false} FilterPinnedPartition(s: seq<ProcessMetrics>)
    ensures multiset(FilterPinned(s, true)) + multiset(FilterPinned(s, false)) == multiset(s)
  {
    if |s| > 0 {
      assert s == [s[0]] + s[1..];
      FilterPinnedPartition(s[1..]);
      if s[0].isPinned {
        assert FilterPinned(s, true) == [s[0]] + FilterPinned(s[1..], true);
        assert FilterPinned(s, false) == FilterPinned(s[1..], false);
      } else {
        assert FilterPinned(s, true) == FilterPinned(s[1..], true);
        assert FilterPinned(s, false) == [s[0]] + FilterPinned(s[1..], false);
      }
    }
  }

  /** Every element of the multiset of `FilterPinned(s, pinned)` has flag `pinned` */
  lemma FilterPinnedFlags(s: seq<ProcessMetrics>, pinned: bool, x: ProcessMetrics)
    requires x in multiset(FilterPinned(s, pinned))
    ensures x.isPinned == pinned
  {
    var q :| 0 <= q < |FilterPinned(s, pinned)| && FilterPinned(s, pinned)[q] == x;
  }

  /** Sorting a group keeps every row's flag */
  lemma SortedGroupFlags(rows: seq<ProcessMetrics>, pinned: bool)
    ensures forall i :: 0 <= i < |Sort(FilterPinned(rows, pinned), NegScore)| ==>
      Sort(FilterPinned(rows, pinned), NegScore)[i].isPinned == pinned
  {
    var g := Sort(FilterPinned(rows, pinned), NegScore);
    forall i | 0 <= i < |g| ensures g[i].isPinned == pinned {
      assert g[i] in multiset(g);
      FilterPinnedFlags(rows, pinned, g[i]);
    }
  }

  /** Pinned rows followed by a prefix of the other rows: pinned first */
  lemma GroupsFlags(pinned: seq<ProcessMetrics>, allOthers: seq<ProcessMetrics>, cut: nat)
    requires cut <= |allOthers|
    requires forall i :: 0 <= i < |pinned| ==> pinned[i].isPinned
    requires forall i :: 0 <= i < |allOthers| ==> !allOthers[i].isPinned
    ensures var top := pinned + allOthers[..cut];
      && (forall i :: 0 <= i < |pinned| ==> top[i].isPinned)
      && (forall i :: |pinned| <= i < |top| ==> !top[i].isPinned)
  {
    var top := pinned + allOthers[..cut];
    forall i | |pinned| <= i < |top| ensures !top[i].isPinned {
      assert top[i] == allOthers[i - |pinned|];
    }
  }

  /** Pinned rows followed by a prefix of the other rows: no row invented */
  lemma GroupsMultiset(rows: seq<ProcessMetrics>, pinned: seq<ProcessMetrics>, allOthers: seq<ProcessMetrics>, cut: nat)
    requires cut <= |allOthers|
    requires multiset(pinned) == multiset(FilterPinned(rows, true))
    requires multiset(allOthers) == multiset(FilterPinned(rows, false))
    ensures var top := pinned + allOthers[..cut];
      && multiset(top[..|pinned|]) == multiset(pinned)
      && multiset(top) <= multiset(rows)
  {
    var top := pinned + allOthers[..cut];
    assert top[..|pinned|] == pinned;
    assert allOthers == allOthers[..cut] + allOthers[cut..];
    assert multiset(allOthers) == multiset(allOthers[..cut]) + multiset(allOthers[cut..]);
    assert multiset(top) == multiset(pinned) + multiset(allOthers[..cut]);
    FilterPinnedPartition(rows);
  }

  /** The ranking lists every pinned row first (none dropped), then other
      rows only, cut down to the limit less the number of pinned rows; it
      invents no row */
  lemma RankShape(rows: seq<ProcessMetrics>, limit: nat)
    ensures var top := Rank(rows, limit);
      var k := |FilterPinned(rows, true)|;
      var m := |FilterPinned(rows, false)|;
      && |top| == k + Min(m, SaturatingSub(limit, k))
      && |top| <= (if limit >= k then limit else k)
      && (forall i :: 0 <= i < k ==> top[i].isPinned)
      && (forall i :: k <= i < |top| ==> !top[i].isPinned)
      && multiset(top[..k]) == multiset(FilterPinned(rows, true))
      && multiset(top) <= multiset(rows)
  {
    var pinned := Sort(FilterPinned(rows, true), NegScore);
    var allOthers := Sort(FilterPinned(rows, false), NegScore);
    var cut := Min(|allOthers|, SaturatingSub(limit, |pinned|));
    assert Rank(rows, limit) == pinned + allOthers[..cut];
    SortedGroupFlags(rows, true);
    SortedGroupFlags(rows, false);
    GroupsFlags(pinned, allOthers, cut);
    GroupsMultiset(rows, pinned, allOthers, cut);
  }

  /** Two groups, each by ascending `NegScore`, stay by descending score
      within each group once concatenated */
  lemma GroupsOrdered(pinned: seq<ProcessMetrics>, allOthers: seq<ProcessMetrics>, cut: nat)
    requires cut <= |allOthers|
    requires SortedBy(pinned, NegScore) && SortedBy(allOthers, NegScore)
    ensures var top := pinned + allOthers[..cut];
      && (forall i, j :: 0 <= i < j < |pinned| ==> Score(top[i]) >= Score(top[j]))
      && (forall i, j :: |pinned| <= i < j < |top| ==> Score(top[i]) >= Score(top[j]))
  {
    var top := pinned + allOthers[..cut];
    var k := |pinned|;
    forall i, j | 0 <= i < j < k ensures Score(top[i]) >= Score(top[j]) {
      assert top[i] == pinned[i] && top[j] == pinned[j];
      assert NegScore(pinned[i]) <= NegScore(pinned[j]);
    }
    forall i, j | k <= i < j < |top| ensures Score(top[i]) >= Score(top[j]) {
      assert top[i] == allOthers[i - k] && top[j] == allOthers[j - k];
      assert NegScore(allOthers[i - k]) <= NegScore(allOthers[j - k]);
    }
  }

  /** Within each group the ranking is by descending score */
  lemma RankOrdered(rows: seq<ProcessMetrics>, limit: nat)
    ensures var top := Rank(rows, limit);
      var k := |FilterPinned(rows, true)|;
      && (forall i, j :: 0 <= i < j < k ==> Score(top[i]) >= Score(top[j]))
      && (forall i, j :: k <= i < j < |top| ==> Score(top[i]) >= Score(top[j]))
  {
    var pinned := Sort(FilterPinned(rows, true), NegScore);
    var allOthers := Sort(FilterPinned(rows, false), NegScore);
    var cut := Min(|allOthers|, SaturatingSub(limit, |pinned|));
    assert Rank(rows, limit) == pinned + allOthers[..cut];
    GroupsOrdered(pinned, allOthers, cut);
  }

  /** What a cut drops from a sequence by ascending `NegScore` scores no
      higher than what it keeps */
  lemma CutScoresLower(allOthers: seq<ProcessMetrics>, cut: nat)
    requires cut <= |allOthers|
    requires SortedBy(allOthers, NegScore)
    ensures forall i, y :: 0 <= i < cut && y in multiset(allOthers) - multiset(allOthers[..cut]) ==>
      Score(allOthers[i]) >= Score(y)
  {
    assert allOthers == allOthers[..cut] + allOthers[cut..];
    assert multiset(allOthers) == multiset(allOthers[..cut]) + multiset(allOthers[cut..]);
    forall i, y | 0 <= i < cut && y in multiset(allOthers) - multiset(allOthers[..cut])
      ensures Score(allOthers[i]) >= Score(y)
    {
      assert y in multiset(allOthers[cut..]);
      var j :| 0 <= j < |allOthers[cut..]| && allOthers[cut..][j] == y;
      assert allOthers[cut + j] == y;
      assert NegScore(allOthers[i]) <= NegScore(allOthers[cut + j]);
    }
  }

  /** Every other row the limit cuts scores no higher than any kept other row */
  lemma RankCutScoresLower(rows: seq<ProcessMetrics>, limit: nat)
    ensures var top := Rank(rows, limit);
      var k := |FilterPinned(rows, true)|;
      forall i, y :: k <= i < |top| && y in multiset(FilterPinned(rows, false)) - multiset(top[k..]) ==>
        Score(top[i]) >= Score(y)
  {
    var pinned := Sort(FilterPinned(rows, true), NegScore);
    var allOthers := Sort(FilterPinned(rows, false), NegScore);
    var k := |pinned|;
    var cut := Min(|allOthers|, SaturatingSub(limit, k));
    var top := Rank(rows, limit);
    assert top == pinned + allOthers[..cut];
    assert top[k..] == allOthers[..cut];
    CutScoresLower(allOthers, cut);
    forall i | k <= i < |top| ensures top[i] == allOthers[i - k] {
    }
  }

  /** Every ranked row is within the clamping bounds */
  lemma TopProcessesBounded(procs: seq<RawProcess>, gpuUsage: map<nat, real>, pinnedNames: seq<string>,
                            limit: nat, totalMemory: nat)
    requires totalMemory > 0
    ensures forall i :: 0 <= i < |TopProcesses(procs, gpuUsage, pinnedNames, limit, totalMemory)| ==>
      WithinBounds(TopProcesses(procs, gpuUsage, pinnedNames, limit, totalMemory)[i])
  {
    var t := Aggregate(procs, gpuUsage, pinnedNames, totalMemory);
    AggregateSums(procs, gpuUsage, pinnedNames, totalMemory);
    var rows := Rows(t.order, t.rows);
    var top := TopProcesses(procs, gpuUsage, pinnedNames, limit, totalMemory);
    RankShape(rows, limit);
    forall i | 0 <= i < |top| ensures WithinBounds(top[i]) {
      assert top[i] in multiset(top);
      assert top[i] in multiset(rows);
      var j :| 0 <= j < |rows| && rows[j] == top[i];
    }
  }

  /** A pinned name's row is never dropped, whatever the limit */
  lemma PinnedNeverDropped(procs: seq<RawProcess>, gpuUsage: map<nat, real>, pinnedNames: seq<string>,
                           limit: nat, totalMemory: nat, n: string)
    requires totalMemory > 0
    requires HasName(procs, n) && IsPinnedName(pinnedNames, n)
    ensures exists i ::
      (0 <= i < |TopProcesses(procs, gpuUsage, pinnedNames, limit, totalMemory)| &&
       TopProcesses(procs, gpuUsage, pinnedNames, limit, totalMemory)[i].name == n)
  {
    var t := Aggregate(procs, gpuUsage, pinnedNames, totalMemory);
    AggregateSums(procs, gpuUsage, pinnedNames, totalMemory);
    var rows := Rows(t.order, t.rows);
    var top := TopProcesses(procs, gpuUsage, pinnedNames, limit, totalMemory);
    RankShape(rows, limit);
    var j :| 0 <= j < |t.order| && t.order[j] == n;
    var row := rows[j];
    assert row == Clamped(t.rows[n]) && row.isPinned && row.name == n;
    assert row in multiset(rows);
    FilterPinnedPartition(rows);
    assert row !in multiset(FilterPinned(rows, false)) by {
      if row in multiset(FilterPinned(rows, false)) {
        FilterPinnedFlags(rows, false, row);
      }
    }
    var k := |FilterPinned(rows, true)|;
    assert row in multiset(top[..k]);
    var i :| 0 <= i < k && top[..k][i] == row;
    assert top[i] == row;
  }

  // ---------------------------------------------------------------------------
  // All processes

  /** The processes that use any CPU or memory */
  function ActiveProcesses(procs: seq<RawProcess>): (r: seq<RawProcess>)
    ensures forall i :: 0 <= i < |r| ==> r[i].cpuUsage > 0.0 || r[i].memory > 0
    ensures multiset(r) <= multiset(procs)
  {
    if |procs| == 0 then []
    else
      assert procs == [procs[0]] + procs[1..];
      var rest := ActiveProcesses(procs[1..]);
      if procs[0].cpuUsage > 0.0 || procs[0].memory > 0 then [procs[0]] + rest else rest
  }

  /** Sorting ascending by this sorts by descending CPU */
  function NegCpu(p: ProcessMetrics): real {
    -p.cpuPercent
  }

  /** The unclamped rows of a table, in its order */
  function RawRows(order: seq<string>, rows: map<string, ProcessMetrics>): (r: seq<ProcessMetrics>)
    requires forall n :: n in order ==> n in rows
    ensures |r| == |order|
    ensures forall i :: 0 <= i < |r| ==> r[i] == rows[order[i]]
  {
    if |order| == 0 then [] else [rows[order[0]]] + RawRows(order[1..], rows)
  }

  /** `get_all_processes_impl`: the active processes aggregated by name (no
      pinning, no clamping), by descending CPU */
  method GetAllProcesses(procs: seq<RawProcess>, gpuUsage: map<nat, real>, totalMemory: nat)
    returns (all: seq<ProcessMetrics>)
    requires totalMemory > 0
    ensures var t := Aggregate(ActiveProcesses(procs), gpuUsage, [], totalMemory);
      && WellFormed(t)
      && multiset(all) == multiset(RawRows(t.order, t.rows))
      && (forall n :: n in t.rows ==> t.rows[n] in all)
    ensures forall i, j :: 0 <= i < j < |all| ==> all[i].cpuPercent >= all[j].cpuPercent
    ensures forall i :: 0 <= i < |all| ==> !all[i].isPinned
  {
    var active := ActiveProcesses(procs);
    var order, aggregated := AggregateByName(active, gpuUsage, [], totalMemory);
    AggregateSums(active, gpuUsage, [], totalMemory);
    var rows := RawRows(order, aggregated);
    all := Sort(rows, NegCpu);
    forall i, j | 0 <= i < j < |all| ensures all[i].cpuPercent >= all[j].cpuPercent {
      assert NegCpu(all[i]) <= NegCpu(all[j]);
    }
    forall i | 0 <= i < |all| ensures !all[i].isPinned {
      assert all[i] in multiset(rows);
      var j :| 0 <= j < |rows| && rows[j] == all[i];
      assert !IsPinnedName([], order[j]);
    }
    forall n | n in aggregated ensures aggregated[n] in all {
      var j :| 0 <= j < |order| && order[j] == n;
      assert rows[j] in multiset(rows);
      assert aggregated[n] in multiset(all);
    }
  }

  // ---------------------------------------------------------------------------
  // Memory, GPU, fast path

  /** Swap figures: used, total and percent, all absent without swap */
  function SwapUsage(used: nat, total: nat): (r: (Option<nat>, Option<nat>, Option<real>))
    ensures total == 0 <==> r.0.None?
    ensures (r.0.None? <==> r.1.None?) && (r.1.None? <==> r.2.None?)
    ensures total > 0 ==> r.0 == Some(used) && r.1 == Some(total) && r.2 == Some(PercentOf(used, total))
  {
    if total > 0 then (Some(used), Some(total), Some(PercentOf(used, total)))
    else (None, None, None)
  }

  /** `get_gpu_metrics`: NVML's metrics when it answers, else the AMD sysfs
      ones */
  function GpuMetricsChoice(nvml: Option<GpuMetrics>, amdSysfs: Option<GpuMetrics>): (r: Option<GpuMetrics>)
    ensures nvml.Some? ==> r == nvml
    ensures nvml.None? ==> r == amdSysfs
  {
    nvml.Or(amdSysfs)
  }

  /** `get_gpu_power`: NVML's power when it answers, else the AMD sysfs
      figure */
  function GpuPowerChoice(nvmlPower: Option<real>, amdSysfs: Option<GpuMetrics>): (r: Option<real>)
    ensures nvmlPower.Some? ==> r == nvmlPower
    ensures nvmlPower.None? && amdSysfs.Some? ==> r == amdSysfs.value.powerWatts
    ensures nvmlPower.None? && amdSysfs.None? ==> r == None
  {
    if nvmlPower.Some? then nvmlPower
    else if amdSysfs.Some? then amdSysfs.value.powerWatts
    else None
  }

  /** The machine's CPU load: the sum of the per-CPU loads over their number
      (at least 1) */
  function AverageCpuUsage(loads: seq<real>): (avg: real)
    ensures |loads| == 0 ==> avg == 0.0
    ensures |loads| > 0 ==> avg == Mean(loads)
  {
    Sum(loads) / (if |loads| > 0 then |loads| as real else 1.0)
  }

  lemma AverageCpuUsageBounded(loads: seq<real>)
    requires AllWithin(loads, 0.0, 100.0)
    ensures 0.0 <= AverageCpuUsage(loads) <= 100.0
  {
    if |loads| > 0 {
      MeanBounds(loads, 0.0, 100.0);
    }
  }

  /** The power NVML reports for the device, in watts: None when NVML is not
      loaded, the device cannot be opened or its power query fails */
  function NvmlPower(deviceName: string, device: Option<MetricAnswers>): (r: Option<real>)
    ensures r.Some? <==> device.Some? && device.value.powerMilliwatts.Some?
    ensures r.Some? ==> r.value * 1000.0 == device.value.powerMilliwatts.value as real
  {
    var q := QueryGpuPower(deviceName, device);
    if q.Some? then Some(q.value.0) else None
  }

  /** `get_gpu_power` on the device's answers and the AMD sysfs metrics */
  function GpuPower(deviceName: string, device: Option<MetricAnswers>, amdSysfs: Option<GpuMetrics>): (r: Option<real>)
    ensures NvmlPower(deviceName, device).Some? ==> r == NvmlPower(deviceName, device)
    ensures r.Some? ==> r == NvmlPower(deviceName, device) || (amdSysfs.Some? && r == amdSysfs.value.powerWatts)
  {
    GpuPowerChoice(NvmlPower(deviceName, device), amdSysfs)
  }

  /** Whenever `get_gpu_metrics` carries a power figure, `get_gpu_power`
      gives that same figure */
  lemma GpuPowerAgreesWithMetrics(deviceName: string, device: Option<MetricAnswers>, amdSysfs: Option<GpuMetrics>)
    requires GpuMetricsChoice(QueryGpuMetrics(deviceName, device), amdSysfs).Some?
    requires GpuMetricsChoice(QueryGpuMetrics(deviceName, device), amdSysfs).value.powerWatts.Some?
    ensures GpuPower(deviceName, device, amdSysfs) ==
      GpuMetricsChoice(QueryGpuMetrics(deviceName, device), amdSysfs).value.powerWatts
  {
    PowerQueriesAgree(deviceName, device);
  }

  /** `get_power_watts_fast`: power, CPU load, GPU load and GPU power; only a
      failed power read fails it. The GPU load is NVML's only; the GPU power
      is `get_gpu_power`'s, so it falls back to the AMD sysfs figure. */
  function FastPath(power: Result<real, Error>, cpuLoads: seq<real>,
                    deviceName: string, device: Option<MetricAnswers>, amdSysfs: Option<GpuMetrics>)
    : (r: Result<(real, real, Option<real>, Option<real>), Error>)
    ensures r.Ok? <==> power.Ok?
    ensures power.Err? ==> r.error == power.error
    ensures power.Ok? ==>
      && r.value.0 == power.value
      && r.value.1 == AverageCpuUsage(cpuLoads)
      && (r.value.2.Some? <==> device.Some? && device.value.utilizationGpu.Some?)
      && (r.value.2.Some? ==> r.value.2.value == device.value.utilizationGpu.value as real)
      && (device.Some? && device.value.powerMilliwatts.Some? ==>
            r.value.3.Some? && r.value.3.value * 1000.0 == device.value.powerMilliwatts.value as real)
      && (!(device.Some? && device.value.powerMilliwatts.Some?) ==>
            r.value.3 == (if amdSysfs.Some? then amdSysfs.value.powerWatts else None))
  {
    match power
    case Err(e) => Err(e)
    case Ok(p) =>
      var metrics := QueryGpuMetrics(deviceName, device);
      var gpuUsage := if metrics.Some? then metrics.value.usagePercent else None;
      Ok((p, AverageCpuUsage(cpuLoads), gpuUsage, GpuPower(deviceName, device, amdSysfs)))
  }

  /** `collect_detailed_metrics`: the system metrics if they could be
      gathered, the ranked top processes (`get_top_processes_impl` never
      fails here), and whether extended metrics were asked for */
  function CollectDetailedMetrics(systemMetricsOk: bool, procs: seq<RawProcess>, gpuUsage: map<nat, real>,
                                  pinnedNames: seq<string>, limit: nat, totalMemory: nat,
                                  timestamp: int, extended: bool): (d: DetailedMetrics)
    requires totalMemory > 0
    ensures d.hasSystemMetrics == systemMetricsOk && d.extendedCollected == extended && d.timestamp == timestamp
    ensures d.topProcesses == TopProcesses(procs, gpuUsage, pinnedNames, limit, totalMemory)
  {
    DetailedMetrics(systemMetricsOk, TopProcesses(procs, gpuUsage, pinnedNames, limit, totalMemory), timestamp, extended)
  }

  /** The snapshot's process list keeps every running pinned name and only
      rows within the clamping bounds */
  lemma DetailedMetricsKeepPinned(systemMetricsOk: bool, procs: seq<RawProcess>, gpuUsage: map<nat, real>,
                                  pinnedNames: seq<string>, limit: nat, totalMemory: nat,
                                  timestamp: int, extended: bool, n: string)
    requires totalMemory > 0
    requires HasName(procs, n) && IsPinnedName(pinnedNames, n)
    ensures var d := CollectDetailedMetrics(systemMetricsOk, procs, gpuUsage, pinnedNames, limit, totalMemory, timestamp, extended);
      && (exists i :: 0 <= i < |d.topProcesses| && d.topProcesses[i].name == n)
      && (forall i :: 0 <= i < |d.topProcesses| ==> WithinBounds(d.topProcesses[i]))
  {
    var top := TopProcesses(procs, gpuUsage, pinnedNames, limit, totalMemory);
    PinnedNeverDropped(procs, gpuUsage, pinnedNames, limit, totalMemory, n);
    TopProcessesBounded(procs, gpuUsage, pinnedNames, limit, totalMemory);
    var d := CollectDetailedMetrics(systemMetricsOk, procs, gpuUsage, pinnedNames, limit, totalMemory, timestamp, extended);
    assert d.topProcesses == top;
  }
}
