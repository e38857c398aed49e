# PowerCost Tracker power engine in Dafny

PowerCost Tracker is a desktop application (a Tauri backend written in Rust) that
measures how much electricity a computer draws and what that costs. This project
models the sequential core of that backend and proves properties about it:

- **Readings.** How power readings are obtained:
  - on Linux, from the Intel RAPL energy counter (with counter wrap-around) or the hwmon and battery sensors;
  - on Windows, estimated from CPU load and a core-count TDP table, plus measured GPU power and a fixed base power;
  - otherwise, from a linear idle-to-full-load estimator.
- **Backend selection.** The monitor takes the first power source that starts.
- **Sensor scans.** Temperatures (coretemp, k10temp), CPU frequencies, the AMD GPU clock table and the NVIDIA per-process GPU map.
- **Process table.** Aggregation per process name, then a ranking that puts pinned processes first, then truncation.
- **Baseline detection.** A sliding window whose 5th percentile is the idle draw, and the surplus energy above it.
- **Pricing.** Flat, peak/off-peak (windows that may wrap past midnight), seasonal and Tempo day-colour rates, and hourly, daily and monthly costs.
- **Configuration.** The defaults, and the merge that adds missing dashboard tiles.
- **Commands.** The dashboard's settings commands: pin and unpin processes, session categories, named layout profiles, and the update check's version comparison.
- **Translation lookup.** The key-to-text lookup, and the choice of language from the system locale.
- **Monitoring loops.** One tick of each of the two loops: energy and surplus accumulation and the extended-metrics decision. Also the start of a tracking session.

Every clock, file read, subprocess, WMI query, NVML call and database result is an
input of the model. State that the program updates in place is a Dafny class whose
methods say exactly what they change:

- the baseline window;
- the RAPL counter state;
- the configuration;
- the pricing engine;
- the translation state;
- the tracker's totals and snapshots.

Loops are methods proved against specification functions. `f64` is modelled as
`real`. Fixed-width integer wrap-around is written out where the source relies on it:

- the RAPL `u64` counter;
- `u32` minute arithmetic in `parse_time`;
- the `i32` to `u32` cast of the battery's design voltage;
- the `i32` to `u16` cast of the WMI load, charge and battery status (`get_property_u16`).

One module per source file:

| file | models |
|---|---|
| types.dfy | `core/types.rs`, `core/error.rs` |
| baseline.dfy | `hardware/baseline.rs` |
| linux_power.dfy | power sources and sensor scans of `hardware/linux.rs` |
| linux_metrics.dfy | process table and system figures of `hardware/linux.rs` |
| nvml.dfy | `hardware/nvml_gpu.rs` |
| windows.dfy | `hardware/windows.rs` |
| estimator.dfy | `hardware/estimator.rs` |
| hardware.dfy | `hardware/mod.rs` |
| pricing.dfy | `pricing/mod.rs` |
| configuration.dfy | `core/config.rs` |
| i18n.dfy | `i18n/mod.rs` |
| commands.dfy | the settings commands of `main.rs` |
| monitoring.dfy | the monitoring loops and session start of `main.rs` |
| wrappers.dfy, text.dfy, numbers.dfy, sorting.dfy | `Option`/`Result`, the Rust string and number parsing used, real-number helpers, the stable `sort_by` |

## Model

| member | source | states |
|---|---|---|
| Types.NewPowerReading | src-tauri/src/core/types.rs:23-31 | a new reading carries the given watts, source, estimate flag and clock time, and no component breakdown |
| Types.WithComponents | src-tauri/src/core/types.rs:33-36 | attaching a breakdown sets the components and leaves every other field unchanged |
| Types.WithComponentsTwice | src-tauri/src/core/types.rs:33-36 | attaching two breakdowns in a row keeps only the second |
| Types.NewAppState | src-tauri/src/core/types.rs:77-84 | the application totals start at zero, with the session start at the given instant |
| Types.NewSession | src-tauri/src/core/types.rs:225-239 | a new session is unsaved and open, keeps its baseline and label, has no category and has accumulated nothing |
| Baseline.Capacity | src-tauri/src/hardware/baseline.rs:50-55 | a window of size 0 still keeps the newest reading, so the window holds at least one reading and at least `max_samples` |
| Baseline.PercentileIndex | src-tauri/src/hardware/baseline.rs:99 | the index `floor(len * 0.05)` lies inside any non-empty window, so `sorted.get(index)` never falls back |
| Baseline.FloorTwentieth | src-tauri/src/hardware/baseline.rs:99 | `floor(n * 0.05)` equals `n / 20` |
| Baseline.Percentile | src-tauri/src/hardware/baseline.rs:94-100 | the detected baseline is one of the readings in the window |
| Baseline.PercentileCountBelow | src-tauri/src/hardware/baseline.rs:94-100 | at most `n / 20` readings of the window lie strictly below the baseline |
| Baseline.PercentileBelow | src-tauri/src/hardware/baseline.rs:12-16 | when more than `n / 20` readings lie below a level, the baseline lies below it too, so a majority of idle readings holds it at idle level |
| Baseline.IdleThenLoadWindow | src-tauri/src/hardware/baseline.rs:169-188 | ten readings of 45-49 W followed by ten of 100-145 W give a baseline below 60 W |
| Baseline.SquaredDeviations | src-tauri/src/hardware/baseline.rs:124-126 | the sum of squared deviations is never negative |
| Baseline.Variance | src-tauri/src/hardware/baseline.rs:118-129 | the variance of the window is never negative, and is 0 for an empty window |
| Baseline.ConstantSquaredDeviations | src-tauri/src/hardware/baseline.rs:123-126 | readings that are all equal to `c` sum to `n * c` and deviate from `c` by nothing |
| Baseline.ConstantVariance | src-tauri/src/hardware/baseline.rs:118-129 | a window of equal readings has zero variance |
| Baseline.Confidence | src-tauri/src/hardware/baseline.rs:102-106 | the confidence lies in [0, 1], and for a window that is not over-full it is the fill ratio divided by `1 + std_dev / 100` |
| Baseline.ConfidenceFactors | src-tauri/src/hardware/baseline.rs:105-106 | the variance factor lies in (0, 1], so a ratio in [0, 1] stays in [0, 1] after damping |
| Baseline.FullSteadyWindowConfidence | src-tauri/src/hardware/baseline.rs:102-106 | a full window with no spread has confidence 1 |
| Baseline.SurplusOf | src-tauri/src/hardware/baseline.rs:134-142 | the surplus is never negative, and the flag is set exactly when it is positive; with no baseline it is (0, false); with a baseline it is the excess power when positive and 0 when the power is at or below the baseline |
| Baseline.SurplusWhOf | src-tauri/src/hardware/baseline.rs:147-150 | the surplus energy is `(power - baseline) * hours` when the power is above the baseline, and 0 without a baseline or at or below it; over a non-negative duration it is never negative |
| Baseline.SurplusAtMostPower | src-tauri/src/hardware/baseline.rs:134-142 | with a non-negative baseline and power, the surplus never exceeds the power |
| Baseline.SurplusExamples | src-tauri/src/hardware/baseline.rs:190-221 | with a 50 W baseline, 120 W gives (70, true), an hour at 150 W gives 100 Wh and an hour at 40 W gives 0 Wh |
| Baseline.BaselineDetector.New | src-tauri/src/hardware/baseline.rs:30-37 | `new`: an empty 60-reading window with no manual or detected baseline |
| Baseline.BaselineDetector.WithWindowSize | src-tauri/src/hardware/baseline.rs:40-47 | an empty window of the given size with no manual or detected baseline |
| Baseline.BaselineDetector.AddSample | src-tauri/src/hardware/baseline.rs:50-55 | the window becomes the newest `min(len + 1, capacity)` readings of the old window followed by the new reading; nothing else changes |
| Baseline.BaselineDetector.SetManualBaseline | src-tauri/src/hardware/baseline.rs:58-60 | the override is set, and the current baseline becomes the override |
| Baseline.BaselineDetector.ClearManualBaseline | src-tauri/src/hardware/baseline.rs:63-65 | the override is cleared, and the current baseline falls back to the last detected one |
| Baseline.BaselineDetector.GetBaseline | src-tauri/src/hardware/baseline.rs:70-72 | the manual value when one is set, otherwise the last detected value |
| Baseline.BaselineDetector.IsManual | src-tauri/src/hardware/baseline.rs:75-77 | true exactly when an override is set |
| Baseline.BaselineDetector.SampleCount | src-tauri/src/hardware/baseline.rs:80-82 | the number of readings in the window |
| Baseline.BaselineDetector.DetectBaseline | src-tauri/src/hardware/baseline.rs:88-115 | fewer than 10 readings gives no detection and changes nothing; otherwise the 5th-percentile reading becomes the detected baseline, with the reading count and a confidence in [0, 1]; the window and the override are unchanged |
| Baseline.BaselineDetector.CalculateSurplus | src-tauri/src/hardware/baseline.rs:134-142 | the surplus over the current baseline, manual or detected |
| Baseline.BaselineDetector.CalculateSurplusWh | src-tauri/src/hardware/baseline.rs:147-150 | the surplus energy over the current baseline |
| Baseline.BaselineDetector.Reset | src-tauri/src/hardware/baseline.rs:153-156 | the window and the detected baseline are cleared; the override and the window size are kept |
| LinuxPower.WrapU64 | src-tauri/src/hardware/linux.rs:104 | u64 arithmetic wraps modulo 2^64, and values already in range are unchanged |
| LinuxPower.MaxEnergyRange | src-tauri/src/hardware/linux.rs:51-55 | the counter range is a u64, and `u64::MAX` when the range file cannot be read |
| LinuxPower.ReadEnergy | src-tauri/src/hardware/linux.rs:89-94 | a read error surfaces as an I/O error; a successful read is a u64 |
| LinuxPower.EnergyDelta | src-tauri/src/hardware/linux.rs:100-104 | the microjoules between two counter reads are a u64 |
| LinuxPower.ElapsedSecs | src-tauri/src/hardware/linux.rs:106 | the elapsed time is never negative, and is the plain difference when time moved forward |
| LinuxPower.RaplWatts | src-tauri/src/hardware/linux.rs:110-114 | the average power is never negative, and is exactly 0 over an empty interval |
| LinuxPower.RaplWattsInverse | src-tauri/src/hardware/linux.rs:110-114 | watts times seconds times 10^6 gives back the microjoules counted |
| LinuxPower.EnergyDeltaForward | src-tauri/src/hardware/linux.rs:100-101 | a counter that moved forward gives the plain difference |
| LinuxPower.EnergyDeltaWrapped | src-tauri/src/hardware/linux.rs:102-103 | a counter that wrapped past the top of its range gives the distance around the dial, below the range, and adding it to the old value lands on the new one |
| LinuxPower.EnergyDeltaExample | src-tauri/src/hardware/linux.rs:100-104 | a counter going from 980 to 20 on a range of 1000 used 40 microjoules |
| LinuxPower.ConsecutiveReadsAdd | src-tauri/src/hardware/linux.rs:96-117 | two consecutive forward reads count every microjoule and every second exactly once |
| LinuxPower.RaplMonitor.New | src-tauri/src/hardware/linux.rs:51-84 | the monitor starts from the counter range file and the first counter read, at the current instant |
| LinuxPower.RaplMonitor.GetPower | src-tauri/src/hardware/linux.rs:96-117 | a failed read or parse returns the error and leaves the previous read in place; otherwise it returns the watts since the previous read, and this read becomes the previous one |
| LinuxPower.MicrowattSensor | src-tauri/src/hardware/linux.rs:151-157 | a read error surfaces as an I/O error, unparsable text as the given parse error, and a value read is the microwatts over 10^6 |
| LinuxPower.HwmonPower | src-tauri/src/hardware/linux.rs:151-157 | the hwmon sensor is a microwatt sensor with the message "Failed to parse power value" |
| LinuxPower.BatteryPower | src-tauri/src/hardware/linux.rs:190-196 | the battery sensor is a microwatt sensor with the message "Failed to parse battery power" |
| LinuxPower.MicrowattsPrinted | src-tauri/src/hardware/linux.rs:151-157 | a file holding `n` microwatts reads as `n / 10^6` watts |
| LinuxPower.InnerPowerSource.Name | src-tauri/src/hardware/linux.rs:215-221 | the display name of the chosen source |
| LinuxPower.InnerPowerSource.SourceTag | src-tauri/src/hardware/linux.rs:223-229 | the reading tag of the chosen source |
| LinuxPower.NamesAndTagsIdentify | src-tauri/src/hardware/linux.rs:215-229 | two sources share a name, or share a tag, exactly when they are the same kind of source |
| LinuxPower.LinuxSystemMonitor.New | src-tauri/src/hardware/linux.rs:279-300 | the monitor wraps the given power source |
| LinuxPower.LinuxSystemMonitor.GetPowerWatts | src-tauri/src/hardware/linux.rs:207-213 | each source measures as its own sensor does; RAPL updates its previous read only on success |
| LinuxPower.MeasuredReading | src-tauri/src/hardware/linux.rs:862-865 | a measurement that succeeded becomes a non-estimated reading of that power with the source's tag, the timestamp and no breakdown; a failed one passes its error on |
| LinuxPower.LinuxSystemMonitor.GetReading | src-tauri/src/hardware/linux.rs:862-865 | hwmon and battery give the reading of their sensor's measurement, or its error; RAPL gives the reading of the watts since the previous counter read and makes this read the previous one, or on a failed read returns its error and keeps the previous read; every reading is tagged with the source, never an estimate, has no breakdown and carries the timestamp |
| LinuxPower.LinuxSystemMonitor.Name | src-tauri/src/hardware/linux.rs:867-869 | the name of the chosen source |
| LinuxPower.LinuxSystemMonitor.IsEstimated | src-tauri/src/hardware/linux.rs:871-873 | Linux readings are never estimates |
| LinuxPower.F64File | src-tauri/src/hardware/linux.rs:347-349 | a file is unreadable exactly when its read failed, and a parsed value is the trimmed text as f64 |
| LinuxPower.U64File | src-tauri/src/hardware/linux.rs:408-410 | a file is unreadable exactly when its read failed, and a parsed value is the trimmed text as u64 |
| LinuxPower.SensorCelsius | src-tauri/src/hardware/linux.rs:349-351 | a kept temperature lies strictly between 0 and 150 degrees and is the millidegrees over 1000 |
| LinuxPower.TempAt | src-tauri/src/hardware/linux.rs:347-358 | one file gives at most one temperature, exactly when it holds a plausible value |
| LinuxPower.ValidTemps | src-tauri/src/hardware/linux.rs:345-363 | a scan keeps at most one temperature per file, all strictly between 0 and 150 degrees |
| LinuxPower.CoretempEnd | src-tauri/src/hardware/linux.rs:345-362 | the coretemp scan stops at the first unreadable file, or after file 128 |
| LinuxPower.ReadCoretempTemps | src-tauri/src/hardware/linux.rs:340-372 | the reported package and core temperatures are those of the coretemp scan, with the mean of the cores standing in for a missing package |
| LinuxPower.ScanCoretemp | src-tauri/src/hardware/linux.rs:345-363 | the loop finds the package reading of file 1 and the plausible core readings up to the first unreadable file |
| LinuxPower.CoretempInRange | src-tauri/src/hardware/linux.rs:340-372 | every reported temperature lies strictly between 0 and 150 degrees, the averaged package included, and a reported core list is non-empty |
| LinuxPower.ValidTempsPrefix | src-tauri/src/hardware/linux.rs:345-363 | files that agree below an index give the same readings below it |
| LinuxPower.CoretempEndPrefix | src-tauri/src/hardware/linux.rs:359-361 | the stopping point depends only on the files before the first unreadable one |
| LinuxPower.CoretempStopsAtGap | src-tauri/src/hardware/linux.rs:359-361 | nothing after an unreadable `tempN_input` affects the coretemp result |
| LinuxPower.ReadK10temp | src-tauri/src/hardware/linux.rs:375-398 | the main temperature is that of file 1, and the readings of files 1 to 10 are listed only when there are at least two; unreadable files are skipped |
| LinuxPower.ValidTempsFirst | src-tauri/src/hardware/linux.rs:381-392 | a plausible file 1 heads the k10temp list |
| LinuxPower.K10tempShape | src-tauri/src/hardware/linux.rs:375-398 | a listed k10temp result has at least two plausible readings, and the main temperature is plausible and heads the list |
| LinuxPower.GetCpuTemperature | src-tauri/src/hardware/linux.rs:323-337 | coretemp wins over k10temp, which wins over zenpower (read like k10temp); with none of them there is no temperature |
| LinuxPower.FreqEnd | src-tauri/src/hardware/linux.rs:405-418 | the cpufreq scan stops at the first unreadable CPU after cpu0, or after cpu511 |
| LinuxPower.FreqAt | src-tauri/src/hardware/linux.rs:409-411 | a CPU contributes one value, its kHz over 1000, exactly when its file parses |
| LinuxPower.Frequencies | src-tauri/src/hardware/linux.rs:405-418 | the scan reports at most one value per CPU scanned |
| LinuxPower.PerCoreFrequency | src-tauri/src/hardware/linux.rs:401-421 | a report, when there is one, lists at least one and at most 512 frequencies, one per scanned CPU slot |
| LinuxPower.GetPerCoreFrequency | src-tauri/src/hardware/linux.rs:401-421 | the reported frequencies are the parsable files' MHz values up to the stopping point, or nothing when there are none |
| LinuxPower.ScanFrequencies | src-tauri/src/hardware/linux.rs:405-418 | the loop collects the parsable files' MHz values up to the stopping point |
| LinuxPower.FrequenciesFromFiles | src-tauri/src/hardware/linux.rs:409-411 | every reported frequency is the kHz value of some scanned file, in MHz |
| LinuxPower.FrequencyExample | src-tauri/src/hardware/linux.rs:401-421 | an unreadable cpu0 followed by a 2.4 GHz cpu1 reports [2400] |
| LinuxPower.FirstWordClockFound | src-tauri/src/hardware/linux.rs:591-597 | a line gives a clock exactly when one of its words is a clock word, and the clock given is that of such a word |
| LinuxPower.FirstMarkedClockFound | src-tauri/src/hardware/linux.rs:588-600 | a table gives a clock exactly when one of its marked lines has a clock word, and the clock given is that line's |
| LinuxPower.ParseDpmClock | src-tauri/src/hardware/linux.rs:586-601 | an unreadable file gives nothing; otherwise the result is the first clock word on the first marked line that has one |
| LinuxPower.WordClockPrinted | src-tauri/src/hardware/linux.rs:592 | a clock printed with the "Mhz" or the "MHz" suffix is read back |
| LinuxMetrics.PercentOf | src-tauri/src/hardware/linux.rs:743 | the percentage `r` of a part in a positive whole is the number with `r * whole == part * 100` (the same formula gives the RAM percentage at line 683 and the swap percentage); it is never negative, at most 100 when the part fits and exactly 100 when it is the whole |
| LinuxMetrics.PercentOfAdds | src-tauri/src/hardware/linux.rs:743 | adding the percentages of two parts gives the percentage of their sum, so adding per-process shares gives the share of the name's total memory |
| LinuxMetrics.AggregateByName | src-tauri/src/hardware/linux.rs:724-746 | the aggregation loop builds, process by process, the table `Aggregate` describes |
| LinuxMetrics.AddToTable | src-tauri/src/hardware/linux.rs:725-745 | one loop pass starts a row for a new name and folds the process into its row |
| LinuxMetrics.HasNameLast | src-tauri/src/hardware/linux.rs:724 | a name occurs in a process list exactly when it occurs in the list without its last process or is that process's name |
| LinuxMetrics.AbsentNameTotals | src-tauri/src/hardware/linux.rs:724-746 | a name no process carries has no CPU, memory or GPU total |
| LinuxMetrics.AggregateNames | src-tauri/src/hardware/linux.rs:724-746 | the table has one row per process name, each name listed once, each row carrying its own name |
| LinuxMetrics.AggregateRow | src-tauri/src/hardware/linux.rs:724-746 | a name's row holds the CPU, memory and GPU totals over the processes of that name, and is pinned exactly when a pinned name matches it ignoring ASCII case |
| LinuxMetrics.AggregateRowPercent | src-tauri/src/hardware/linux.rs:724-746 | a name's memory percentage, summed process by process, is the percentage of that name's memory total |
| LinuxMetrics.AggregateSums | src-tauri/src/hardware/linux.rs:724-746 | for every name at once: one row per name, its CPU, memory and GPU totals, its memory percentage as the share of its memory total, and its pinned flag |
| LinuxMetrics.Clamped | src-tauri/src/hardware/linux.rs:749-758 | CPU is capped at 12800%, memory and GPU at 100%; the GPU figure stays present or absent; values already within bounds and every other field are unchanged |
| LinuxMetrics.Rows | src-tauri/src/hardware/linux.rs:749-758 | one clamped row per table name, in the table's order |
| LinuxMetrics.FilterPinned | src-tauri/src/hardware/linux.rs:761-762 | the rows kept all have the requested pinned flag and are drawn from the input |
| LinuxMetrics.SaturatingSub | src-tauri/src/hardware/linux.rs:774 | `usize::saturating_sub`: the difference when non-negative, otherwise 0 |
| LinuxMetrics.GetTopProcesses | src-tauri/src/hardware/linux.rs:704-779 | the method computes the ranking of the aggregated, clamped rows that `TopProcesses` describes |
| LinuxMetrics.FilterPinnedPartition | src-tauri/src/hardware/linux.rs:761-762 | splitting by the pinned flag loses and adds no row |
| LinuxMetrics.FilterPinnedFlags | src-tauri/src/hardware/linux.rs:761-762 | every row of a filtered group has that group's flag |
| LinuxMetrics.SortedGroupFlags | src-tauri/src/hardware/linux.rs:771-772 | sorting a group keeps every row's flag |
| LinuxMetrics.GroupsFlags | src-tauri/src/hardware/linux.rs:774-776 | pinned rows followed by a prefix of the other rows lists the pinned rows first and then only unpinned ones |
| LinuxMetrics.GroupsMultiset | src-tauri/src/hardware/linux.rs:774-776 | the pinned part of the result holds all pinned rows, and the result invents no row |
| LinuxMetrics.RankShape | src-tauri/src/hardware/linux.rs:761-778 | the ranking lists every pinned row first, none dropped, then other rows cut to the limit less the number of pinned rows; its length is at most the larger of the limit and the pinned count; it invents no row |
| LinuxMetrics.GroupsOrdered | src-tauri/src/hardware/linux.rs:771-776 | two sorted groups, once concatenated, are each by descending score |
| LinuxMetrics.RankOrdered | src-tauri/src/hardware/linux.rs:764-776 | within the pinned group and within the others, rows go by descending score `0.4 cpu + 0.4 gpu + 0.2 mem` |
| LinuxMetrics.CutScoresLower | src-tauri/src/hardware/linux.rs:774-775 | what the truncation drops scores no higher than what it keeps |
| LinuxMetrics.RankCutScoresLower | src-tauri/src/hardware/linux.rs:764-776 | every other row cut by the limit scores no higher than any other row kept |
| LinuxMetrics.TopProcesses | src-tauri/src/hardware/linux.rs:704-780 | with no running process the list is empty (its ranking, bounds and pinning are stated by the lemmas below) |
| LinuxMetrics.TopProcessesBounded | src-tauri/src/hardware/linux.rs:749-758 | every ranked row is within the clamping bounds |
| LinuxMetrics.PinnedNeverDropped | src-tauri/src/hardware/linux.rs:761-778 | a running process whose name is pinned always appears in the top list, whatever the limit |
| LinuxMetrics.ActiveProcesses | src-tauri/src/hardware/linux.rs:788-789 | the processes kept use some CPU or memory and are drawn from the input |
| LinuxMetrics.RawRows | src-tauri/src/hardware/linux.rs:820 | one unclamped row per table name, in the table's order |
| LinuxMetrics.GetAllProcesses | src-tauri/src/hardware/linux.rs:782-825 | the result is a permutation of the aggregated rows of the active processes, with every name's row present, by descending CPU, none pinned |
| LinuxMetrics.SwapUsage | src-tauri/src/hardware/linux.rs:674-678 | the swap figures are all absent exactly when there is no swap, and otherwise are the used bytes, the total and the percent |
| LinuxMetrics.GpuMetricsChoice | src-tauri/src/hardware/linux.rs:605-614 | NVML's metrics win when NVML answers, else the AMD sysfs metrics |
| LinuxMetrics.GpuPowerChoice | src-tauri/src/hardware/linux.rs:616-624 | NVML's power wins when NVML answers, else the AMD sysfs power when there is an AMD card, else nothing |
| LinuxMetrics.AverageCpuUsage | src-tauri/src/hardware/linux.rs:633-634 | the CPU load is the mean of the per-CPU loads, and 0 with no CPU listed |
| LinuxMetrics.AverageCpuUsageBounded | src-tauri/src/hardware/linux.rs:633-634 | per-CPU loads in [0, 100] give a machine load in [0, 100] |
| LinuxMetrics.FastPath | src-tauri/src/hardware/linux.rs:834-848 | only a failed power read fails the fast path, with that error; otherwise it gives the power and the mean CPU load, NVML's GPU load exactly when the device answered its utilization query, and `get_gpu_power`'s GPU power: NVML's milliwatts in watts when the device answered, else the AMD sysfs power when there is an AMD card, else nothing |
| LinuxMetrics.NvmlPower | src-tauri/src/hardware/linux.rs:617-621 | NVML's power is known exactly when the device opened and answered its power query, and is that answer in watts |
| LinuxMetrics.GpuPower | src-tauri/src/hardware/linux.rs:616-624 | NVML's power wins whenever it answers; any figure comes from NVML or from the AMD sysfs metrics |
| LinuxMetrics.GpuPowerAgreesWithMetrics | src-tauri/src/hardware/linux.rs:605-624 | whenever `get_gpu_metrics` carries a power figure, `get_gpu_power` gives that same figure |
| LinuxMetrics.CollectDetailedMetrics | src-tauri/src/hardware/linux.rs:850-860 | the snapshot says whether the system metrics were gathered, carries the ranked top list of `get_top_processes_impl` for the same limit and pinned names, and records whether extended metrics were asked for |
| LinuxMetrics.DetailedMetricsKeepPinned | src-tauri/src/hardware/linux.rs:850-860 | the snapshot's process list holds every running pinned name and only rows within the clamping bounds |
| Nvml.WattsOfMilliwatts | src-tauri/src/hardware/nvml_gpu.rs:61 | the watts are the milliwatts over 1000, never negative |
| Nvml.MebibytesOf | src-tauri/src/hardware/nvml_gpu.rs:71-72 | bytes become whole mebibytes, rounded down |
| Nvml.MapReal | src-tauri/src/hardware/nvml_gpu.rs:57-67 | a failed query stays absent, an answered one is converted |
| Nvml.QueryGpuMetrics | src-tauri/src/hardware/nvml_gpu.rs:53-95 | no metrics exactly when the device cannot be opened; otherwise each figure is present exactly when its own query answered, converted to percent, watts, degrees Celsius, whole MiB and MHz, under the device name and the source "nvml" |
| Nvml.QueryGpuPower | src-tauri/src/hardware/nvml_gpu.rs:99-103 | power and name exactly when both the device and its power query answer, the power in watts |
| Nvml.PowerQueriesAgree | src-tauri/src/hardware/nvml_gpu.rs:53-103 | the fast power query answers exactly when the full query has a power figure, and both give the same watts |
| Nvml.LastWithPid | src-tauri/src/hardware/nvml_gpu.rs:128-131 | the process found carries the pid asked for |
| Nvml.PeakUtil | src-tauri/src/hardware/nvml_gpu.rs:149-155 | the peak utilization of a pid lies in [0, 100] |
| Nvml.LastWithPidIsLast | src-tauri/src/hardware/nvml_gpu.rs:128-131 | nothing is found exactly when no process has the pid, and what is found is the last process with it |
| Nvml.ComputeEntry | src-tauri/src/hardware/nvml_gpu.rs:127-132 | after the compute loop a pid has an entry exactly when it had one or a process carries it, and the last such process decides the value: 0.1 when it holds memory, else 0 |
| Nvml.GraphicsEntry | src-tauri/src/hardware/nvml_gpu.rs:135-143 | after the graphics loop a pid has an entry exactly when it had one or a process carries it; the entry is raised to at least 0.1 exactly when one of its processes holds memory, and otherwise keeps its value (0 when new) |
| Nvml.UtilEntry | src-tauri/src/hardware/nvml_gpu.rs:148-156 | after the utilization loop a pid has an entry exactly when it had one or a non-zero sample carries it; such samples raise it to their clamped peak |
| Nvml.NeverLowered | src-tauri/src/hardware/nvml_gpu.rs:135-156 | neither the graphics loop nor the utilization loop lowers an existing entry |
| Nvml.ProcessGpuMap | src-tauri/src/hardware/nvml_gpu.rs:110-159 | a device whose three queries list nothing gives an empty map |
| Nvml.ProcessGpuMapInRange | src-tauri/src/hardware/nvml_gpu.rs:110-159 | every value of the per-process map lies in [0, 100] |
| Nvml.QueryGpuProcesses | src-tauri/src/hardware/nvml_gpu.rs:110-159 | an empty map when the device cannot be opened; otherwise the map built by the three loops, skipping each failed list, with every value in [0, 100] |
| Nvml.ComputeLoop | src-tauri/src/hardware/nvml_gpu.rs:127-132 | the compute loop computes the map `ComputeAll` describes |
| Nvml.GraphicsLoop | src-tauri/src/hardware/nvml_gpu.rs:135-143 | the graphics loop computes the map `GraphicsAll` describes |
| Nvml.UtilLoop | src-tauri/src/hardware/nvml_gpu.rs:148-156 | the utilization loop computes the map `UtilAll` describes |
| Nvml.ProcessMapExamples | src-tauri/src/hardware/nvml_gpu.rs:110-159 | a compute process holding memory gets 0.1, and a 250% sample is clamped to 100 |
| Windows.DetectGpuSource | src-tauri/src/hardware/windows.rs:265-295 | NVIDIA is chosen exactly when `nvidia-smi` answered; AMD exactly when it did not and `rocm-smi` or `amd-smi` did |
| Windows.EstimateCpuTdp | src-tauri/src/hardware/windows.rs:298-310 | the TDP estimate lies between 35 W and 200 W |
| Windows.TdpMonotone | src-tauri/src/hardware/windows.rs:298-310 | more cores never give a lower TDP estimate |
| Windows.TdpBands | src-tauri/src/hardware/windows.rs:298-310 | both edges of every core-count band map to that band's watts, covering the cases in the unit test at lines 718-724 |
| Windows.CpuPowerRange | src-tauri/src/hardware/windows.rs:572-583 | the CPU draws 15% of its TDP at load 0 and the full TDP at load 100; in between the power grows with the load and stays in that range |
| Windows.CalculateCpuPower | src-tauri/src/hardware/windows.rs:572-583 | at load 0 the estimate is the idle share of the TDP, at load 100 the whole TDP |
| Windows.Reals | src-tauri/src/hardware/windows.rs:389 | each load is converted to f64, in order |
| Windows.PresentLoads | src-tauri/src/hardware/windows.rs:375-383 | no more loads than rows |
| Windows.PresentLoadsAll | src-tauri/src/hardware/windows.rs:375-383 | the loads are empty exactly when no row carries one, and a value is listed exactly when some row carries a load whose `u16` cast it is |
| Windows.GetCpuInfoWmi | src-tauri/src/hardware/windows.rs:362-394 | no answer without WMI, when the query fails, or when no row carries a load; otherwise the `u16` casts of the loads present, in order, and their mean |
| Windows.WmiAverageBounded | src-tauri/src/hardware/windows.rs:389-390 | loads of at most 100% average to at most 100% |
| Windows.U16Cast | src-tauri/src/hardware/windows.rs:405 | the saturating `f32 as u16` cast stays in range and drops the fraction of an in-range value |
| Windows.CastLoads | src-tauri/src/hardware/windows.rs:401-406 | each CPU's usage is cast in place |
| Windows.GetCpuInfoSysinfo | src-tauri/src/hardware/windows.rs:397-418 | the loads are the cast usages; the average is 0 without CPUs and otherwise the mean of the cast loads |
| Windows.SysinfoAverageBounded | src-tauri/src/hardware/windows.rs:397-418 | usages in [0, 100] give an average in [0, 100] |
| Windows.CpuInfoOf | src-tauri/src/hardware/windows.rs:600-603 | the CPU information is the WMI loads present and their mean when WMI yields any load, and otherwise the `sysinfo` information |
| Windows.GetCpuInfo | src-tauri/src/hardware/windows.rs:600-603 | trying WMI first and falling back to `sysinfo` gives the information `CpuInfoOf` describes |
| Windows.CpuInfoBounded | src-tauri/src/hardware/windows.rs:600-603 | whichever source answers, WMI loads and `sysinfo` usages that are percentages give an average load in [0, 100] |
| Windows.NvidiaGpuPower | src-tauri/src/hardware/windows.rs:420-449 | an answer needs `nvidia-smi` output and is tagged NVIDIA |
| Windows.SplitWithout | src-tauri/src/hardware/windows.rs:435 | a line without a comma splits into itself |
| Windows.LinesSingle | src-tauri/src/hardware/windows.rs:434 | a single line without a line break is its own line list |
| Windows.NvidiaFromParts | src-tauri/src/hardware/windows.rs:434-446 | a line that splits into a number and a trimmed name gives that power and name |
| Windows.NvidiaLineRoundTrip | src-tauri/src/hardware/windows.rs:420-449 | the line `nvidia-smi` prints for a whole number of watts and a name reads back as that power and name |
| Windows.FirstPowerIsFirstSome | src-tauri/src/hardware/windows.rs:552-560 | the word scan is the generic first-answer search with `WordPower` |
| Windows.FirstSomeNone | src-tauri/src/hardware/windows.rs:552-560 | the search finds nothing exactly when no element answers |
| Windows.FirstSomeAt | src-tauri/src/hardware/windows.rs:552-560 | what the search finds is the answer of an element before which none answers |
| Windows.FirstPowerNone | src-tauri/src/hardware/windows.rs:552-560 | no power is found exactly when no word reads as a number once trailing 'W's are stripped |
| Windows.FirstPowerAt | src-tauri/src/hardware/windows.rs:552-560 | the power found is the reading of the first word that reads as a number |
| Windows.ExtractPowerFromLine | src-tauri/src/hardware/windows.rs:552-560 | the loop returns the first word of the line that reads as a number once trailing 'W's are stripped |
| Windows.NotANumber | src-tauri/src/hardware/windows.rs:555 | a word starting with neither a digit, a point nor a sign is not a number |
| Windows.WordsCons | src-tauri/src/hardware/windows.rs:554 | a word, a space and the rest split into that word followed by the rest's words |
| Windows.WordsJoin | src-tauri/src/hardware/windows.rs:554 | words joined by single spaces split back into those words |
| Windows.ParseFortyFiveAndAHalf | src-tauri/src/hardware/windows.rs:727-731 | "45.5" reads as 45.5 |
| Windows.ParseOneHundred | src-tauri/src/hardware/windows.rs:732-735 | "100" reads as 100 |
| Windows.SkipLabel | src-tauri/src/hardware/windows.rs:554-558 | a label word is skipped by the search |
| Windows.RocmWordsPower | src-tauri/src/hardware/windows.rs:727-731 | the words of "Average Graphics Package Power (W): 45.5" read as 45.5 W |
| Windows.LabelsThenPower | src-tauri/src/hardware/windows.rs:552-560 | label words followed by a power word read as that power, as in the `rocm-smi` line |
| Windows.TrimOneUnit | src-tauri/src/hardware/windows.rs:732-735 | a trailing "W" unit is dropped, so "100W" reads as 100 |
| Windows.AmdTextPower | src-tauri/src/hardware/windows.rs:490-506 | the text fallback returns the power of the first line naming both "Average" and "Power" from which a number can be read |
| Windows.AmdGpuPower | src-tauri/src/hardware/windows.rs:452-510 | the `rocm-smi` JSON power wins, then the `amd-smi` JSON power, then the text fallback; any answer is named "AMD GPU" and tagged AMD |
| Windows.GetGpuPower | src-tauri/src/hardware/windows.rs:563-569 | the detected vendor's tool answers; nothing without one |
| Windows.I32AsU32 | src-tauri/src/hardware/windows.rs:339 | `i32 as u32` keeps non-negative values and adds 2^32 to negative ones |
| Windows.I32AsU16 | src-tauri/src/hardware/windows.rs:121-137 | `i32 as u16` keeps the low 16 bits: the result is below 2^16, differs from the value by a multiple of 2^16, and equals it when it already fits |
| Windows.U16CastWraps | src-tauri/src/hardware/windows.rs:131 | a WMI value of -1 reads as 65535 and 65636 as 100, so an out-of-range answer can pass the percentage bound |
| Windows.GetBatteryInfo | src-tauri/src/hardware/windows.rs:323-359 | battery information exists exactly when WMI answered with at least one row; it holds the `u16` cast of the first row's charge (0 when unreadable), its design voltage reinterpreted from `i32` to `u32` when readable, and is discharging exactly when the `u16` cast of the row's status is 1 |
| Windows.CheckIsLaptop | src-tauri/src/hardware/windows.rs:313-320 | the machine is a laptop exactly when the battery query lists a battery |
| Windows.NewWmiMonitor | src-tauri/src/hardware/windows.rs:227-262 | creation never fails; the TDP comes from the core count, and the machine is taken for a laptop exactly when WMI is present and its battery query lists a battery |
| Windows.BasePower | src-tauri/src/hardware/windows.rs:586-594 | 10 W for a laptop, 30 W for a desktop |
| Windows.QueryGpu | src-tauri/src/hardware/windows.rs:563-569 | the GPU answer comes from the detected vendor's tool: `nvidia-smi` for NVIDIA, the ROCm and AMD SMI answers for AMD, nothing without a tool |
| Windows.GetPowerWatts | src-tauri/src/hardware/windows.rs:597-616 | the total, computed from the WMI loads or else the `sysinfo` usages and the detected GPU tool's answer, never fails |
| Windows.PowerWattsSum | src-tauri/src/hardware/windows.rs:597-616 | the total is the CPU share plus the power the detected GPU tool measured plus the base; without a GPU tool there is no GPU term |
| Windows.PowerWattsBounds | src-tauri/src/hardware/windows.rs:597-616 | when WMI loads and `sysinfo` usages are percentages, the total lies between the base power plus the CPU's idle share and the base power plus the full TDP plus the GPU power |
| Windows.SpacesToUnderscores | src-tauri/src/hardware/windows.rs:638 | each space becomes '_' and every other character is kept |
| Windows.GpuKey | src-tauri/src/hardware/windows.rs:636-640 | the per-card key starts with "gpu_" and has no space |
| Windows.GpuKeyDistinct | src-tauri/src/hardware/windows.rs:629-657 | a card's key never overwrites the "cpu", "base", "gpu", "battery_percent" or "battery_discharging" entries |
| Windows.ReadingDetermined | src-tauri/src/hardware/windows.rs:619-678 | the description of a reading fixes every field: two readings that fit it are equal |
| Windows.GetReading | src-tauri/src/hardware/windows.rs:619-678 | the reading fits the description for the CPU information of the WMI-first choice and the first battery row: the breakdown has exactly the keys for the CPU, the base, the GPU when measured (also under its own card key), the battery charge and the discharging flag, with those values; the GPU is the detected tool's answer; the total is their sum and agrees with `get_power_watts`; the reading is an estimate exactly when no GPU was measured, so always without a GPU tool; it is tagged by WMI presence and GPU tool and carries the timestamp |
| Windows.ReadingTotal | src-tauri/src/hardware/windows.rs:619-678 | a reading that fits the description totals what `get_power_watts` sums for the same CPU information and GPU answer |
| Windows.AssembleReading | src-tauri/src/hardware/windows.rs:619-678 | inserting the components one by one and accumulating the total produces the reading the description gives for the CPU information, GPU and battery |
| Windows.TagsAndNamesIdentify | src-tauri/src/hardware/windows.rs:659-672 | each combination of WMI presence and GPU tool has its own tag and its own display name (names at lines 690-704) |
| Windows.IsEstimated | src-tauri/src/hardware/windows.rs:706-710 | the monitor reports estimates exactly when no GPU tool was found |
| Windows.EstimatedMonitorGivesEstimates | src-tauri/src/hardware/windows.rs:563-569 | a monitor without a GPU tool never obtains a GPU measurement |
| Estimator.New | src-tauri/src/hardware/estimator.rs:21-34 | the default estimator draws 30 W at idle and 120 W more at full load |
| Estimator.WithPowerValues | src-tauri/src/hardware/estimator.rs:37-46 | the estimator keeps the given idle and full-load figures |
| Estimator.CalculateEstimatedPower | src-tauri/src/hardware/estimator.rs:54-56 | with no CPU listed the estimate is the idle power |
| Estimator.EstimateFromMean | src-tauri/src/hardware/estimator.rs:58-63 | the estimate interpolates linearly in the mean load: idle at 0%, idle plus the full-load figure at 100% |
| Estimator.EstimateBounds | src-tauri/src/hardware/estimator.rs:48-64 | with every load in [0, 100] the estimate lies between the idle power and the idle power plus the full-load figure |
| Estimator.EstimateMonotone | src-tauri/src/hardware/estimator.rs:48-64 | raising any CPU's load never lowers the estimate |
| Estimator.EstimateUniformLoad | src-tauri/src/hardware/estimator.rs:58-63 | all CPUs at one load `l` give idle plus `l / 100` of the full-load figure |
| Estimator.DefaultEstimates | src-tauri/src/hardware/estimator.rs:21-64 | with the default figures an idle machine reads 30 W, a half-loaded one 90 W and a fully loaded one 150 W |
| Estimator.GetPowerWatts | src-tauri/src/hardware/estimator.rs:74-76 | the estimate never fails |
| Estimator.GetReading | src-tauri/src/hardware/estimator.rs:78-81 | the reading is tagged "estimated", flagged as an estimate and has no breakdown |
| Estimator.ReadingMatchesPower | src-tauri/src/hardware/estimator.rs:74-81 | the reading carries the same figure as `get_power_watts` |
| Estimator.Name | src-tauri/src/hardware/estimator.rs:83-85 | the name is "Estimation (no hardware sensor)" |
| Estimator.IsEstimated | src-tauri/src/hardware/estimator.rs:87-89 | the estimator always reports estimates |
| Hardware.New | src-tauri/src/hardware/mod.rs:23-67 | the only failure is `HardwareNotSupported("No power monitoring hardware detected")`, and an unsupported platform always fails |
| Hardware.Candidates | src-tauri/src/hardware/mod.rs:23-60 | Linux tries three sources, Windows one, other platforms none |
| Hardware.FirstOkIsFirst | src-tauri/src/hardware/mod.rs:23-60 | the first success is found exactly when there is one, and every attempt before it failed |
| Hardware.NewIsFirstSuccess | src-tauri/src/hardware/mod.rs:23-67 | `new` uses the first attempt that succeeded in the platform's order, and fails exactly when every attempt failed |
| Hardware.LinuxPreferenceOrder | src-tauri/src/hardware/mod.rs:24-49 | a working RAPL counter always wins; hwmon is used only when RAPL failed, the battery only when both failed; Linux succeeds exactly when one of them works; when each slot holds the monitor its constructor builds (`WellKinded`), the chosen monitor reports the RAPL, hwmon or battery source name accordingly |
| Hardware.WindowsUsesWmi | src-tauri/src/hardware/mod.rs:51-60 | Windows succeeds exactly when the WMI monitor was built, and then uses it |
| Hardware.EstimationFallback | src-tauri/src/hardware/mod.rs:70-74 | the fallback uses the default estimator |
| Hardware.GetPowerWatts | src-tauri/src/hardware/mod.rs:77-79 | the monitor returns what the chosen source measures, and only RAPL updates its previous read |
| Hardware.GetReading | src-tauri/src/hardware/mod.rs:82-84 | the monitor returns the chosen source's reading, tagged by that source: for hwmon and battery the reading of the sensor's measurement or its error; for RAPL the reading of the watts since the previous read with the previous read updated, or the read error with nothing changed; for Windows the reading described for the WMI-first CPU information, the detected GPU tool's answer and the first battery row; for the estimator its reading. A monitor that reports estimates gives estimated readings, and outside Windows a reading is estimated exactly when the monitor reports estimates |
| Hardware.GetSourceName | src-tauri/src/hardware/mod.rs:87-89 | the name of the chosen source |
| Hardware.IsEstimated | src-tauri/src/hardware/mod.rs:92-94 | Linux sources never estimate, the estimator always does, and Windows does exactly when it found no GPU tool |
| Hardware.EstimatedOnlyWithoutSensor | src-tauri/src/hardware/mod.rs:23-94 | a monitor built by `new` reports estimates only on Windows without a GPU tool; the fallback always reports estimates under its own name |
| Configuration.DefaultGeneral | src-tauri/src/core/config.rs:152-176 | the general section defaults to automatic language, dark theme, 1000 ms and 5000 ms refresh, window position remembered, every other switch off and no saved window geometry |
| Configuration.DefaultPricing | src-tauri/src/core/config.rs:203-341 | pricing defaults to simple mode in euros at 0.2276 per kWh, with the stock peak/off-peak, seasonal and Tempo rates |
| Configuration.DefaultWidget | src-tauri/src/core/config.rs:369-390 | the floating widget is on, shows the cost, sits bottom right at 0.9 opacity and lists power and cost |
| Configuration.DefaultSessionCategories | src-tauri/src/core/config.rs:419-426 | four session categories: Gaming, Work, AI, Browsing, in that order |
| Configuration.DefaultAdvanced | src-tauri/src/core/config.rs:416-441 | automatic baseline, no pinned process, profile "default", ten processes listed, extended metrics above 15 % |
| Configuration.DefaultDashboardWidgets | src-tauri/src/core/config.rs:477-495 | the stock dashboard has thirteen tiles, all visible and showing Wh |
| Configuration.DefaultIdsDistinct | src-tauri/src/core/config.rs:477-495 | the thirteen stock tiles have pairwise distinct ids |
| Configuration.DefaultDashboard | src-tauri/src/core/config.rs:474-509 | the dashboard defaults to the stock tiles, the "default" layout, normal display, no active profile and no saved profile |
| Configuration.Ids | src-tauri/src/core/config.rs:73-74 | the id list has one entry per tile, in tile order |
| Configuration.IdSet | src-tauri/src/core/config.rs:73-74 | an id is in the set exactly when some tile carries it |
| Configuration.MaxPosition | src-tauri/src/core/config.rs:78-81 | the largest tile position: no tile exceeds it, some tile reaches it, and it is 0 for an empty layout |
| Configuration.MaxRowEnd | src-tauri/src/core/config.rs:82-85 | the first row below every tile: every tile ends at or above it, some tile reaches it, and it is 1 for an empty layout |
| Configuration.Missing | src-tauri/src/core/config.rs:76-77 | the defaults whose id is absent are no more numerous than the defaults |
| Configuration.Merged | src-tauri/src/core/config.rs:71-97 | the merge loop keeps every old tile in its place and adds at most one tile per default |
| Configuration.MergeMissing | src-tauri/src/core/config.rs:71-97 | merging keeps the old tiles as they were, in place, and adds at most one tile per default |
| Configuration.MergedShape | src-tauri/src/core/config.rs:71-97 | the merge keeps the old tiles as a prefix and appends exactly the missing defaults, in default order, each placed after every tile before it |
| Configuration.MergedHasAll | src-tauri/src/core/config.rs:71-97 | no tile id is lost and every default id ends up present |
| Configuration.MergedNothingMissing | src-tauri/src/core/config.rs:76 | when every default id is already present the merge changes nothing |
| Configuration.AllDefaultsPresent | src-tauri/src/core/config.rs:64-65 | after loading, every default tile's id is in the layout |
| Configuration.MergeIdempotent | src-tauri/src/core/config.rs:71-97 | merging a second time adds nothing |
| Configuration.AppendedAfterEverything | src-tauri/src/core/config.rs:86-94 | an appended tile has a larger position than every tile before it, starts below all of them and sits in the first column |
| Configuration.DefaultLayoutUnchanged | src-tauri/src/core/config.rs:71-97 | the stock layout is left exactly as it is |
| Configuration.Config.Default | src-tauri/src/core/config.rs:23-33 | each of the five sections is its own default |
| Configuration.Config.Loaded | src-tauri/src/core/config.rs:60-62 | a parsed configuration holds exactly the sections read |
| Configuration.Config.MergeMissingWidgets | src-tauri/src/core/config.rs:71-97 | only the dashboard's tile list changes, and it becomes the merge of the old list with the stock tiles |
| Pricing.PricingEngine.New | src-tauri/src/pricing/mod.rs:19-23 | the engine holds a copy of the given pricing section |
| Pricing.PricingEngine.UpdateConfig | src-tauri/src/pricing/mod.rs:26-28 | the engine's pricing section is replaced by the given one |
| Pricing.CurrentRate | src-tauri/src/pricing/mod.rs:31-39 | peak/off-peak mode charges the off-peak rate in the off-peak window and the peak rate outside it, seasonal mode the month's rate, Tempo mode the day colour's rate, and the flat mode and every unknown mode the flat rate |
| Pricing.RateByMode | src-tauri/src/pricing/mod.rs:31-39 | peak/off-peak mode yields its peak or off-peak rate, seasonal mode its summer or winter rate, Tempo mode one of its blue or white rates, and every other mode the flat rate |
| Pricing.CalculateCost | src-tauri/src/pricing/mod.rs:42-44 | no energy costs nothing; a positive amount of energy costs something exactly when the current rate is positive; at a non-negative rate no amount costs less than zero |
| Pricing.CostAdditive | src-tauri/src/pricing/mod.rs:42-44 | the cost of two amounts of energy is the sum of their costs |
| Pricing.HourlyCost | src-tauri/src/pricing/mod.rs:47-50 | the hourly cost is the price of `watts / 1000` kWh at the current rate |
| Pricing.DailyCost | src-tauri/src/pricing/mod.rs:53-55 | the daily cost is the price of `watts · 24 / 1000` kWh at the current rate |
| Pricing.MonthlyCost | src-tauri/src/pricing/mod.rs:58-60 | the monthly cost is the price of `watts · 720 / 1000` kWh (thirty days) at the current rate |
| Pricing.CostScaling | src-tauri/src/pricing/mod.rs:47-60 | the hourly cost is watts/1000 kWh at the current rate; the daily and monthly costs are the cost of 24 and 720 hours at that power |
| Pricing.CostMonotone | src-tauri/src/pricing/mod.rs:42-44 | with a non-negative rate more energy never costs less |
| Pricing.FlatRateExamples | src-tauri/src/pricing/mod.rs:193-211 | at a flat 0.20 per kWh, 1 kWh costs 0.20, 10 kWh cost 2.0 and an hour at 100 W costs 0.02 |
| Pricing.ConfiguredExamples | src-tauri/src/pricing/mod.rs:68-71 | the stock pricing counts as configured and a zero flat rate does not |
| Pricing.IsConfigured | src-tauri/src/pricing/mod.rs:68-71 | the engine counts as configured exactly when the flat rate is positive |
| Pricing.ConfiguredMeansCharged | src-tauri/src/pricing/mod.rs:68-71 | under the flat tariff (and any unknown mode), for any positive energy, the engine is configured exactly when it charges something for it; an unconfigured engine charges zero or less |
| Pricing.ParseTime | src-tauri/src/pricing/mod.rs:103-112 | the parsed minute count fits a u32 |
| Pricing.MinuteOfDay | src-tauri/src/pricing/mod.rs:108 | hours·60 + minutes wrapped to a u32, equal to the exact value when that fits |
| Pricing.ParseTimePrinted | src-tauri/src/pricing/mod.rs:103-112 | an hour and minute written in decimal around a ':' parse back to hours·60 + minutes |
| Pricing.ParseTimeMalformed | src-tauri/src/pricing/mod.rs:105-111 | a text without exactly one ':' parses to 0 |
| Pricing.ParseTimeOfParts | src-tauri/src/pricing/mod.rs:104-108 | "H:M" with ':'-free parts parses each part as a u32, 0 when it is not one |
| Pricing.DefaultWindow | src-tauri/src/pricing/mod.rs:103-112 | "22:00" parses to 1320 and "06:00" to 360 |
| Pricing.WindowShape | src-tauri/src/pricing/mod.rs:94-100 | an empty window is never off-peak, and a window that wraps past midnight is exactly the complement of the same-day window between its ends |
| Pricing.IsOffpeakTime | src-tauri/src/pricing/mod.rs:83-101 | a window whose start and end times coincide is never off-peak; otherwise it is off-peak exactly when the minute of day lies outside the peak hours, which run from the window's end to its start |
| Pricing.DefaultOffpeak | src-tauri/src/pricing/mod.rs:83-101 | with the stock window, off-peak holds exactly from 22:00 until 06:00 |
| Pricing.DefaultSeasons | src-tauri/src/pricing/mod.rs:114-123 | with the stock months, November to March use the winter rate 0.25 and the rest the summer rate 0.20 |
| Pricing.SeasonalRate | src-tauri/src/pricing/mod.rs:114-123 | the rate is the winter or the summer rate; when they differ, it is the winter rate exactly in the configured winter months |
| Pricing.TempoDayColor | src-tauri/src/pricing/mod.rs:138-160 | the heuristic never gives a red day, and every weekend day is blue |
| Pricing.TempoRate | src-tauri/src/pricing/mod.rs:125-173 | the Tempo rate is a blue or white rate: an off-peak one in the off-peak hours, a peak one otherwise |
| Pricing.TempoNeverRed | src-tauri/src/pricing/mod.rs:138-160 | the day-colour heuristic never gives red, and gives white exactly on weekdays of December to April, October and November |
| Pricing.TempoWeekendsBlue | src-tauri/src/pricing/mod.rs:125-173 | on Saturday and Sunday the Tempo rate is the blue peak or off-peak rate |
| I18n.LocaleString | src-tauri/src/i18n/mod.rs:71-74 | the locale is LANG if set, else LC_ALL, else LC_MESSAGES, else "en" |
| I18n.LanguageCode | src-tauri/src/i18n/mod.rs:77-83 | the language code is a prefix of the locale holding no '_' and no '.' |
| I18n.FrenchLocale | src-tauri/src/i18n/mod.rs:77-89 | a locale's code is "fr" exactly when it is "fr" or begins with "fr_" or "fr." |
| I18n.DetectSystemLanguage | src-tauri/src/i18n/mod.rs:69-90 | the detected language is always "fr" or "en" |
| I18n.DetectExamples | src-tauri/src/i18n/mod.rs:69-90 | "fr_FR.UTF-8" is detected as French and "en_US.UTF-8" as English |
| I18n.DetectDefault | src-tauri/src/i18n/mod.rs:71-74 | with no locale variable set the language is English |
| I18n.ResolveLanguage | src-tauri/src/i18n/mod.rs:30-34 | "auto" becomes the detected language and any other code is kept as given |
| I18n.FrenchOnlyWhenAsked | src-tauri/src/i18n/mod.rs:30-40 | the French table is chosen exactly when "fr" is asked for, or "auto" meets a French locale |
| I18n.I18n.New | src-tauri/src/i18n/mod.rs:19-26 | a new instance holds the resolved language and its table: French for "fr", English otherwise |
| I18n.I18n.Default | src-tauri/src/i18n/mod.rs:93-96 | the default instance uses the language detected from the locale and its table |
| I18n.I18n.SetLanguage | src-tauri/src/i18n/mod.rs:29-43 | the language becomes the resolved code, and the table the French one for "fr" and the English one for every other code |
| I18n.I18n.Get | src-tauri/src/i18n/mod.rs:46-51 | a key in the table gives its translation and a missing key gives the key itself |
| I18n.I18n.CurrentLanguage | src-tauri/src/i18n/mod.rs:59-61 | the current language code as last set |
| Commands.NumericParts | src-tauri/src/main.rs:739 | the parts that parse as u64 are no more numerous than the parts |
| Commands.ParseVersion | src-tauri/src/main.rs:736-747 | a version that is empty after its leading 'v's reads as 0.0.0 |
| Commands.VersionIsNewer | src-tauri/src/main.rs:736-747 | a newer version never has the same numbers, nor a lower major number |
| Commands.NewerIsStrictOrder | src-tauri/src/main.rs:736-747 | "newer" is irreflexive, asymmetric and transitive, and of two versions with different numbers one is newer |
| Commands.ParseVersionPrinted | src-tauri/src/main.rs:737-745 | "major.minor.patch" in decimal, after any number of leading 'v's, parses back to its three numbers |
| Commands.NewerComparesNumbers | src-tauri/src/main.rs:736-747 | on such printed versions, "newer" is exactly the lexicographic comparison of (major, minor, patch) |
| Commands.Unpinned | src-tauri/src/main.rs:311 | unpinning never lengthens the list |
| Commands.Pinned | src-tauri/src/main.rs:300-302 | pinning adds at most one name, keeps every pinned name, and leaves the name in the list unless some case variant of it was already there |
| Commands.PinnedShape | src-tauri/src/main.rs:300-302 | pinning keeps the old list as a prefix, adds at most one name, leaves the name pinned in some case, and creates no case-insensitive duplicate |
| Commands.UnpinnedShape | src-tauri/src/main.rs:311 | unpinning leaves no case-insensitive match, keeps exactly the other names, and changes nothing when no name matches |
| Commands.UnpinUndoesPin | src-tauri/src/main.rs:298-314 | unpinning a name just pinned restores the previous list |
| Commands.UnpinAppended | src-tauri/src/main.rs:311 | unpinning ignores a trailing copy of the name |
| Commands.PinProcess | src-tauri/src/main.rs:298-305 | the name is appended unless a pinned name equals it ignoring ASCII case; nothing else changes; the result is the list, or the save error when a name was added and the save failed |
| Commands.UnpinProcess | src-tauri/src/main.rs:309-314 | every case-insensitive match is removed and nothing else changes; the result is the list or the save error |
| Commands.RemoveNamed | src-tauri/src/main.rs:606 | removing by name never lengthens the list; one definition serves the categories here and the layout profiles at line 713 |
| Commands.WithCategory | src-tauri/src/main.rs:596-598 | adding adds at most one category, keeps every existing one, and leaves the category in the list unless its name was already taken |
| Commands.WithCategoryShape | src-tauri/src/main.rs:596-598 | adding keeps the old list as a prefix, makes the name present and keeps names unique |
| Commands.RemoveNamedShape | src-tauri/src/main.rs:713 | removing drops every entry of that name and keeps exactly the others, for profiles as for categories (line 606) |
| Commands.AddSessionCategory | src-tauri/src/main.rs:593-601 | the category is appended unless its exact name is taken; nothing else changes; a failed save is reported only when something was added |
| Commands.RemoveSessionCategory | src-tauri/src/main.rs:604-609 | every category of that name is removed and nothing else changes; the result is the list or the save error |
| Commands.FindProfile | src-tauri/src/main.rs:682 | the lookup yields the index of the first profile of that name, and nothing exactly when no profile has it |
| Commands.FindProfileAt | src-tauri/src/main.rs:682 | the first profile of that name is the one found |
| Commands.Upserted | src-tauri/src/main.rs:681-686 | saving leaves the profile in the list, grows it by at most one, and keeps every profile of another name |
| Commands.UpsertedShape | src-tauri/src/main.rs:681-686 | saving grows the list by one only for a new name, the name then finds the saved profile, and every other name finds what it found before |
| Commands.FindProfileUnchanged | src-tauri/src/main.rs:682 | a lookup sees only the profiles carrying the name it looks for |
| Commands.SaveLayoutProfile | src-tauri/src/main.rs:671-690 | the current tiles and display mode are saved under the name, replacing the first profile of that name or appended, and the name becomes active; the result is the profile list or the save error |
| Commands.LoadLayoutProfile | src-tauri/src/main.rs:693-708 | an unknown name fails with "Profile '<name>' not found" and changes nothing; a known one applies the first such profile's tiles and display mode and makes it active |
| Commands.DeleteLayoutProfile | src-tauri/src/main.rs:711-722 | every profile of that name is removed, the active profile is cleared exactly when it was that name, and nothing else changes |
| Commands.SaveThenLoad | src-tauri/src/main.rs:671-708 | loading a name just saved finds the saved tiles and display mode |
| Monitoring.Tracker.New | src-tauri/src/main.rs:839-858 | the totals start fresh, with no active session and no cached snapshot |
| Monitoring.StartBaseline | src-tauri/src/main.rs:373-382 | manual mode starts from the configured watts, automatic mode without a detected baseline from 0 W; the start is always the configured, the detected or 0 W |
| Monitoring.StartBaselineCases | src-tauri/src/main.rs:373-382 | in automatic mode a manual override on the detector wins, then the detected baseline, then 0 W; in manual mode the configured watts |
| Monitoring.StartTrackingSession | src-tauri/src/main.rs:361-403 | with a session active it fails with "A session is already active" and changes nothing; a database error is passed on with no session opened; otherwise a session opens with that row id, the starting baseline and zero energy |
| Monitoring.AppStep | src-tauri/src/main.rs:1176-1194 | the application total grows by power × hours, and the running cost is the whole total priced at the current rate |
| Monitoring.SessionStep | src-tauri/src/main.rs:1225-1230 | a tick changes only the session's total and surplus, and at or below the baseline the surplus does not grow |
| Monitoring.SessionStepIsSurplusWh | src-tauri/src/main.rs:1225-1230 | a tick adds power × hours to the session total and the surplus energy above the session baseline to its surplus; nothing else in the session changes |
| Monitoring.SurplusGrowthBounded | src-tauri/src/main.rs:1225-1230 | with non-negative power, baseline and time, the surplus grows by no less than 0 and no more than the total grows |
| Monitoring.SessionSteps | src-tauri/src/main.rs:1221-1230 | a run of ticks never changes the session's id or baseline |
| Monitoring.SessionStepsSound | src-tauri/src/main.rs:1176-1230 | over any run of non-negative ticks the session total grows by exactly their energy, and surplus stays between 0 and the total |
| Monitoring.SessionView | src-tauri/src/main.rs:1232-1246 | the dashboard's session has the session's id and totals, no end, a start that many seconds before now, and its surplus priced at the current rate |
| Monitoring.AveragePower | src-tauri/src/main.rs:1198-1203 | the average power over the running time yields the total energy, and in the first second it is the current power |
| Monitoring.FastReading | src-tauri/src/main.rs:1170-1173 | the tick's read fails exactly when the power read fails, with its error; on the Linux monitor it is that monitor's fast path on the tick's answers, on any other monitor the power with no CPU or GPU figures |
| Monitoring.TickGpuLoadFromNvml | src-tauri/src/main.rs:1170-1173 | a tick carries a GPU load exactly when the power read worked on the Linux monitor and the NVML device answered its utilization query, and the load is that answer; a failed read counts as 0 W with no figures |
| Monitoring.CriticalTick | src-tauri/src/main.rs:1170-1281 | one critical pass on the monitor's `get_power_watts_fast` (0 W and no figures when it fails): the totals advance, the detector keeps the newest samples up to its capacity, the session advances, and the cached snapshot holds the reading, totals, average-based cost estimates, session view and source |
| Monitoring.AdvanceSession | src-tauri/src/main.rs:1221-1250 | an active session advances by the tick and is returned as the dashboard sees it; without one nothing changes |
| Monitoring.TotalsMoveTogether | src-tauri/src/main.rs:1176-1184 | the application total and the session total grow by the same energy on each tick |
| Monitoring.ShouldCollectExtended | src-tauri/src/main.rs:1360-1370 | nothing extended is gathered without a critical snapshot, and a CPU load at the threshold is enough |
| Monitoring.ShouldCollectExtendedMonotone | src-tauri/src/main.rs:1360-1370 | lowering the threshold never turns extended collection off, and a threshold above both loads turns it off |
| Monitoring.ExtendedFollowsLastTick | src-tauri/src/main.rs:1360-1370 | extended metrics are gathered exactly when a critical snapshot exists and its CPU or GPU load has reached the threshold |
| Monitoring.DetailedTick | src-tauri/src/main.rs:1360-1403 | the extended decision follows the cached critical snapshot and is passed to the collection, so a collected snapshot records extended metrics exactly when the decision asked for them; a monitor without the collection gets the fallback snapshot without extended metrics; extended metrics are never recorded without the decision; the snapshot is cached and nothing else changes |
| Sorting.Sort | src-tauri/src/hardware/baseline.rs:95-96 | the result is a permutation of the input, in ascending order of the key |
| Sorting.InsertKeepsTies | src-tauri/src/hardware/linux.rs:772-773 | inserting puts the new element ahead of the elements sharing its key and leaves the order among every key's elements as it was |
| Sorting.SortStable | src-tauri/src/hardware/linux.rs:772-773 | the sort is stable, as Rust's `sort_by` is: the elements sharing any one key keep their input order |
| Sorting.SortAsc | src-tauri/src/hardware/baseline.rs:95-96 | the samples rearranged into ascending order, nothing added or lost |

## Left out

- I/O is not modelled; its results are parameters. This covers the sysfs and procfs reads, COM/WMI, the `nvidia-smi`, `rocm-smi` and `amd-smi` subprocesses, the NVML library, `sysinfo` refreshes, the SQLite database and the clocks (`Instant::now`, `Utc::now`, `Local::now`).
- `parse_rocm_smi_power` and `parse_amd_smi_power` (hardware/windows.rs:513-549) are not modelled: they hand the text to `serde_json`. The JSON document is taken already decoded into the power figure.
- `Config::load`, `save` and `config_path` are TOML file I/O. Only the parse result (`Config.Loaded`) and the merge that follows it are modelled; every command's save outcome is a parameter.
- The Tauri layer in `main.rs` is left out. That covers windows, tray, autostart, event emission, window geometry, `kill_process`, elevation, the GitHub HTTP update check around `version_is_newer`, and the read-only commands that return a clone of state.
- Async scheduling, tokio intervals and the `Arc<Mutex<…>>` wrapping are left out. Each loop pass is one sequential step, so interleavings of the two loops with the commands are not modelled. The change of interval when the refresh rates change is not modelled either.
- The critical loop's database writes are not modelled. These are a reading every 10 ticks, and daily statistics and usage seconds every 60 ticks; their results are discarded.
- `end_tracking_session`, `get_session_stats`, session label and category updates, and session history are not modelled: they are database storage.
- `HwmonMonitor::new`, `BatteryMonitor::new`, `HwmonDiscovery::scan`/`get_chip_path` and `try_rapl`/`try_hwmon`/`try_battery` are directory discovery. Whether each constructor succeeded is an input of `Hardware.New`. The RAPL zone path probing inside `RaplMonitor::new` is abstracted the same way.
- `get_fan_speeds`, `get_voltages`, `get_amd_gpu_sysfs` and `find_gpu_hwmon` (hardware/linux.rs:424-584) are not modelled: they are sysfs scans that only copy values. Within them only `parse_dpm_clock` computes anything, and it is modelled.
- `get_system_metrics_impl` (hardware/linux.rs:628-700) is modelled only for its arithmetic: the CPU average, memory and swap percentages, and the GPU source choice. Copying the other `sysinfo` fields is not modelled.
- `PricingEngine::get_currency_symbol` is not modelled; it only reads a field. `I18n::get_all` (a copy of the table) and `I18n::available_languages` (a constant list) are not modelled either.
- The French and English translation tables (`i18n/en.rs`, `i18n/fr.rs`) are data. They are parameters of `I18n.I18n.New`.
- Floating point is not modelled. `real` stands for `f64`: rounding, NaN and infinities are not modelled, so the `partial_cmp(…).unwrap_or(Equal)` sorts are sorts of reals.
- `Estimator.CalculateEstimatedPower`: the source averages the loads in `f32` before widening to `f64`; the model averages exact reals.
- `Baseline.BaselineDetector.DetectBaseline`: Dafny has no square root, so the standard deviation is an input. Its caller must supply the non-negative number whose square is the window's variance; the model does not compute it.
- `Text.ParseF64`: Rust's `f64` parsing also accepts "inf", "infinity" and "nan"; the model rejects those words, since reals have no such values.
- `Text.AsciiLower` and `Text.EqIgnoreAsciiCase` fold ASCII letters only, as `eq_ignore_ascii_case` does. There is no Unicode case folding.
- `LinuxMetrics.AggregateByName`, `LinuxMetrics.GetTopProcesses`, `LinuxMetrics.GetAllProcesses`, `LinuxMetrics.CollectDetailedMetrics` and `Monitoring.DetailedTick` require a positive total memory. With zero memory the source divides by zero and produces NaN or infinity, which reals cannot represent.
- `LinuxMetrics.AggregateByName`: the source aggregates in a `HashMap`, whose iteration order is unspecified. The model keeps names in order of first occurrence, which is one of the orders the source may produce; the sort, stable by `Sorting.SortStable`, then breaks ties in that order.
- `Configuration.Config.MergeMissingWidgets`: tile positions and rows are `u32` in the source. The model uses unbounded naturals, so an overflow at `u32::MAX` (a panic in debug builds) is not modelled.
- `Hardware.New`: the shown `hardware/mod.rs` boxes `RaplMonitor`, `HwmonMonitor` and `BatteryMonitor` directly. Yet `main.rs` calls methods that exist only on the `LinuxSystemMonitor` wrapper (`get_power_watts_fast`, `collect_detailed_metrics`). So the model wraps the chosen Linux source in that monitor, as `LinuxSystemMonitor::try_rapl` and its siblings do.
- `Windows.GetPowerWatts` and `Windows.GetReading`: the source queries the GPU tools, WMI and `sysinfo` once for each call. The model takes each answer as one parameter per call, so it does not capture two calls seeing different answers.
- `Windows.GpuKey`: Rust's `to_lowercase` lower-cases every Unicode letter and can change the length of the name (for instance 'İ' becomes two characters). The model lower-cases ASCII letters only, so a card name with non-ASCII capitals gets a different key than the source gives it.
- `LinuxPower.EnergyDelta` and `Pricing.MinuteOfDay` model release builds: `max_energy - last_energy` (hardware/linux.rs:104) and `hours * 60 + minutes` (pricing/mod.rs:108) wrap around in the model as they do there. A debug build panics on that overflow instead, and the model does not capture the panic.
- `LinuxMetrics.PercentOf` requires a positive whole. The RAM percentage at hardware/linux.rs:683 divides by the total memory unchecked, so with zero memory the source produces NaN, which reals cannot represent.
- `Monitoring.DetailedTick`: the monitor that main.rs locks offers `collect_detailed_metrics`, but the shown `hardware/mod.rs` does not define it on `PowerMonitor`. The model takes a flag for whether the monitor has the Linux collection; any other monitor fails it, as the trait's default does. The fallback path's process list comes from `get_top_processes_with_pinned` of a non-Linux backend, which is not part of this model, so it is a parameter. Whether the system metrics could be read is a flag, since `get_system_metrics_impl` reads `sysinfo` and the sensors.
- `LinuxMetrics.FastPath`: the NVML device is one optional set of answers. A missing NVML library and a device that cannot be opened both give None, as they do in the source.
- `Monitoring.CriticalTick`: the snapshot's `timestamp` and the session's start time are read from the wall clock at slightly different moments in the source; the model uses one `nowSecs`. The power the monitor's source reads (`get_power_watts`) is a field of the tick, and so are the per-CPU loads, the NVML answers and the AMD sysfs metrics that the Linux fast path reads. For monitors other than the Linux one, `get_power_watts_fast` is the trait's default, which the shown `hardware/mod.rs` does not define; the model takes it to be the power with no CPU or GPU figures.
