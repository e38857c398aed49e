/** The Windows power monitor: CPU power estimated from the load and a
    core-count TDP table, GPU power measured through the vendor tools, a
    fixed base power, and the composed reading.

    WMI queries, the `sysinfo` CPU refresh and the `nvidia-smi`,
    `rocm-smi` and `amd-smi` subprocesses are parameters: their answers
    are passed in, already decoded where the source hands them to a JSON
    library. */
module Windows {
  import opened Wrappers
  import opened Text
  import opened Numbers
  import opened Types

  /** Which vendor tool measures the GPU (`GpuSource::None` is `NoGpu`) */
  datatype GpuSource = Nvidia | Amd | NoGpu

  /** `detect_gpu_source`: `nvidia-smi` first, then `rocm-smi`, then
      `amd-smi`; each flag says the tool ran and succeeded (for
      `nvidia-smi`, also printed something) */
  function DetectGpuSource(nvidiaSmiOk: bool, rocmSmiOk: bool, amdSmiOk: bool): (g: GpuSource)
    ensures g == Nvidia <==> nvidiaSmiOk
    ensures g == Amd <==> !nvidiaSmiOk && (rocmSmiOk || amdSmiOk)
  {
    if nvidiaSmiOk then Nvidia
    else if rocmSmiOk then Amd
    else if amdSmiOk then Amd
    else NoGpu
  }

  // ---------------------------------------------------------------------------
  // CPU power

  /** `estimate_cpu_tdp`: watts by core-count band */
  function EstimateCpuTdp(coreCount: nat): (tdp: real)
    ensures 35.0 <= tdp <= 200.0
  {
    if coreCount <= 2 then 35.0
    else if coreCount <= 4 then 65.0
    else if coreCount <= 6 then 95.0
    else if coreCount <= 8 then 105.0
    else if coreCount <= 12 then 125.0
    else if coreCount <= 16 then 150.0
    else 200.0
  }

  /** More cores never give a lower TDP estimate */
  lemma TdpMonotone(a: nat, b: nat)
    requires a <= b
    ensures EstimateCpuTdp(a) <= EstimateCpuTdp(b)
  {
  }

  /** The band edges the TDP table is written for */
  lemma TdpBands()
    ensures EstimateCpuTdp(0) == 35.0 && EstimateCpuTdp(2) == 35.0
    ensures EstimateCpuTdp(3) == 65.0 && EstimateCpuTdp(4) == 65.0
    ensures EstimateCpuTdp(5) == 95.0 && EstimateCpuTdp(6) == 95.0
    ensures EstimateCpuTdp(7) == 105.0 && EstimateCpuTdp(8) == 105.0
    ensures EstimateCpuTdp(9) == 125.0 && EstimateCpuTdp(12) == 125.0
    ensures EstimateCpuTdp(13) == 150.0 && EstimateCpuTdp(16) == 150.0
    ensures EstimateCpuTdp(17) == 200.0 && EstimateCpuTdp(32) == 200.0
  {
  }

  const IDLE_RATIO: real := 0.15

  /** `calculate_cpu_power`: 15% of the TDP at idle, the remaining 85%
      in proportion to the average load */
  function CalculateCpuPower(tdp: real, averageLoad: real): (watts: real)
    ensures averageLoad == 0.0 ==> watts == tdp * IDLE_RATIO
    ensures averageLoad == 100.0 ==> watts == tdp
  {
    tdp * IDLE_RATIO + (averageLoad / 100.0) * (tdp * (1.0 - IDLE_RATIO))
  }

  /** At load 0 the CPU draws its idle share, at 100 the full TDP, in
      between an amount that grows with the load and stays in that range */
  lemma CpuPowerRange(tdp: real, load: real, load': real)
    requires tdp >= 0.0 && 0.0 <= load <= load' <= 100.0
    ensures CalculateCpuPower(tdp, 0.0) == 0.15 * tdp
    ensures CalculateCpuPower(tdp, 100.0) == tdp
    ensures CalculateCpuPower(tdp, load) <= CalculateCpuPower(tdp, load')
    ensures 0.15 * tdp <= CalculateCpuPower(tdp, load) <= tdp
  {
    assert CalculateCpuPower(tdp, load) == tdp * 0.15 + (load / 100.0) * (tdp * 0.85);
    assert CalculateCpuPower(tdp, load') == tdp * 0.15 + (load' / 100.0) * (tdp * 0.85);
    assert (load / 100.0) * (tdp * 0.85) <= (load' / 100.0) * (tdp * 0.85) by {
      assert load / 100.0 <= load' / 100.0;
    }
    assert (load' / 100.0) * (tdp * 0.85) <= tdp * 0.85 by {
      assert load' / 100.0 <= 1.0;
    }
  }

  /** The loads gathered for one reading and their average */
  datatype CpuInfo = CpuInfo(loadPercentages: seq<nat>, averageLoad: real)

  function Reals(s: seq<nat>): (r: seq<real>)
    ensures |r| == |s|
    ensures forall i :: 0 <= i < |s| ==> r[i] == s[i] as real
  {
    if |s| == 0 then [] else [s[0] as real] + Reals(s[1..])
  }

  /** The loads of the WMI rows that carry a `LoadPercentage`, each read as
      an `i32` and cast to `u16` */
  function PresentLoads(rows: seq<Option<int>>): (r: seq<nat>)
    ensures |r| <= |rows|
  {
    if |rows| == 0 then []
    else PresentLoads(rows[..|rows| - 1]) + (if rows[|rows| - 1].Some? then [I32AsU16(rows[|rows| - 1].value)] else [])
  }

  /** Every present load appears, cast, and nothing else */
  lemma {:induction false} PresentLoadsAll(rows: seq<Option<int>>)
    ensures |PresentLoads(rows)| == 0 <==> forall i :: 0 <= i < |rows| ==> rows[i].None?
    ensures forall v :: Some(v) in rows ==> I32AsU16(v) in PresentLoads(rows)
    ensures forall x :: x in PresentLoads(rows) ==> exists v :: Some(v) in rows && I32AsU16(v) == x
  {
    if |rows| > 0 {
      var prefix := rows[..|rows| - 1];
      PresentLoadsAll(prefix);
      assert rows == prefix + [rows[|rows| - 1]];
      forall v | Some(v) in rows ensures I32AsU16(v) in PresentLoads(rows) {
        assert Some(v) in prefix || rows[|rows| - 1] == Some(v);
      }
      forall x | x in PresentLoads(rows) ensures exists v :: Some(v) in rows && I32AsU16(v) == x {
        if x in PresentLoads(prefix) {
          var v :| Some(v) in prefix && I32AsU16(v) == x;
          assert Some(v) in rows;
        } else {
          assert rows[|rows| - 1] == Some(rows[|rows| - 1].value);
        }
      }
      if forall i :: 0 <= i < |prefix| ==> prefix[i].None? {
        assert forall i :: 0 <= i < |rows| - 1 ==> rows[i] == prefix[i];
      }
    }
  }

  /** `get_cpu_info_wmi`: None without WMI, when the query fails, or when no
      row carries a load; otherwise the loads and their mean */
  method GetCpuInfoWmi(wmiPresent: bool, query: Option<seq<Option<int>>>) returns (r: Option<CpuInfo>)
    ensures r.None? <==> !wmiPresent || query.None? || |PresentLoads(query.value)| == 0
    ensures r.Some? ==> (r.value.loadPercentages == PresentLoads(query.value)
      && r.value.averageLoad == Mean(Reals(r.value.loadPercentages)))
  {
    if !wmiPresent || query.None? {
      return None;
    }
    var results := query.value;
    if |results| == 0 {
      return None;
    }
    var loadPercentages: seq<nat> := [];
    for k := 0 to |results|
      invariant loadPercentages == PresentLoads(results[..k])
    {
      assert results[..k + 1][..k] == results[..k];
      if results[k].Some? {
        loadPercentages := loadPercentages + [I32AsU16(results[k].value)];
      }
    }
    assert results[..|results|] == results;
    if |loadPercentages| == 0 {
      return None;
    }
    var averageLoad := Sum(Reals(loadPercentages)) / |loadPercentages| as real;
    r := Some(CpuInfo(loadPercentages, averageLoad));
  }

  /** Loads of at most 100% average to at most 100% */
  lemma WmiAverageBounded(loads: seq<nat>)
    requires |loads| > 0
    requires forall i :: 0 <= i < |loads| ==> loads[i] <= 100
    ensures 0.0 <= Mean(Reals(loads)) <= 100.0
  {
    MeanBounds(Reals(loads), 0.0, 100.0);
  }

  /** Rust's saturating `f32 as u16`: negative values give 0, values past
      the range give 65535, others lose their fraction */
  function U16Cast(x: real): (r: nat)
    ensures r <= 65535
    ensures 0.0 <= x < 65536.0 ==> r == x.Floor
  {
    if x <= 0.0 then 0 else if x >= 65535.0 then 65535 else x.Floor
  }

  function CastLoads(usages: seq<real>): (r: seq<nat>)
    ensures |r| == |usages|
    ensures forall i :: 0 <= i < |r| ==> r[i] == U16Cast(usages[i])
  {
    if |usages| == 0 then [] else [U16Cast(usages[0])] + CastLoads(usages[1..])
  }

  /** `get_cpu_info_sysinfo`: each CPU's usage cast to `u16`; the average is
      0 without CPUs, otherwise the mean of the cast loads */
  function GetCpuInfoSysinfo(usages: seq<real>): (c: CpuInfo)
    ensures c.loadPercentages == CastLoads(usages)
    ensures |usages| == 0 ==> c.averageLoad == 0.0
    ensures |usages| > 0 ==> c.averageLoad == Mean(Reals(CastLoads(usages)))
  {
    var loads := CastLoads(usages);
    CpuInfo(loads, if |loads| == 0 then 0.0 else Sum(Reals(loads)) / |loads| as real)
  }

  /** Usages in [0, 100] give an average in [0, 100] */
  lemma SysinfoAverageBounded(usages: seq<real>)
    requires AllWithin(usages, 0.0, 100.0)
    ensures 0.0 <= GetCpuInfoSysinfo(usages).averageLoad <= 100.0
  {
    var loads := CastLoads(usages);
    if |loads| > 0 {
      forall i | 0 <= i < |loads| ensures loads[i] <= 100 {
        assert usages[i] <= 100.0;
      }
      WmiAverageBounded(loads);
    }
  }

  /** `get_cpu_info_wmi().unwrap_or_else(|| get_cpu_info_sysinfo())`: the
      WMI loads when WMI yields any, otherwise the `sysinfo` usages */
  function CpuInfoOf(wmiPresent: bool, query: Option<seq<Option<int>>>, usages: seq<real>): (c: CpuInfo)
    ensures wmiPresent && query.Some? && |PresentLoads(query.value)| > 0 ==>
      c.loadPercentages == PresentLoads(query.value) && c.averageLoad == Mean(Reals(c.loadPercentages))
    ensures !(wmiPresent && query.Some? && |PresentLoads(query.value)| > 0) ==> c == GetCpuInfoSysinfo(usages)
  {
    if wmiPresent && query.Some? && |PresentLoads(query.value)| > 0 then
      var loads := PresentLoads(query.value);
      CpuInfo(loads, Sum(Reals(loads)) / |loads| as real)
    else
      GetCpuInfoSysinfo(usages)
  }

  /** The CPU information both power queries start from */
  method GetCpuInfo(wmiPresent: bool, query: Option<seq<Option<int>>>, usages: seq<real>) returns (c: CpuInfo)
    ensures c == CpuInfoOf(wmiPresent, query, usages)
  {
    var wmi := GetCpuInfoWmi(wmiPresent, query);
    if wmi.Some? {
      c := wmi.value;
    } else {
      c := GetCpuInfoSysinfo(usages);
    }
  }

  /** Every `LoadPercentage` WMI reports is a percentage once cast */
  predicate LoadsArePercentages(query: Option<seq<Option<int>>>) {
    query.Some? ==> forall i :: 0 <= i < |query.value| && query.value[i].Some? ==> I32AsU16(query.value[i].value) <= 100
  }

  /** With WMI loads of at most 100% and usages in [0, 100], whichever
      source answers, the average load is in [0, 100] */
  lemma CpuInfoBounded(wmiPresent: bool, query: Option<seq<Option<int>>>, usages: seq<real>)
    requires LoadsArePercentages(query)
    requires AllWithin(usages, 0.0, 100.0)
    ensures 0.0 <= CpuInfoOf(wmiPresent, query, usages).averageLoad <= 100.0
  {
    if wmiPresent && query.Some? && |PresentLoads(query.value)| > 0 {
      var rows := query.value;
      var loads := PresentLoads(rows);
      PresentLoadsAll(rows);
      forall i | 0 <= i < |loads| ensures loads[i] <= 100 {
        assert loads[i] in loads;
        var v :| Some(v) in rows && I32AsU16(v) == loads[i];
        var j :| 0 <= j < |rows| && rows[j] == Some(v);
      }
      WmiAverageBounded(loads);
    } else {
      SysinfoAverageBounded(usages);
    }
  }

  // ---------------------------------------------------------------------------
  // GPU power

  datatype GpuInfo = GpuInfo(powerWatts: real, name: string, source: GpuSource)

  /** `get_nvidia_gpu_power`: the first output line of
      `nvidia-smi --query-gpu=power.draw,name`, split at commas and trimmed;
      the power is the first field, the name the second */
  function NvidiaGpuPower(stdout: Option<string>): (r: Option<GpuInfo>)
    ensures r.Some? ==> stdout.Some? && r.value.source == Nvidia
  {
    if stdout.None? then None
    else
      var ls := Lines(stdout.value);
      if |ls| == 0 then None
      else
        var parts := Split(ls[0], ',');
        if |parts| < 2 then None
        else match ParseF64(Trim(parts[0]))
          case None => None
          case Some(p) => Some(GpuInfo(p, Trim(parts[1]), Nvidia))
  }

  /** Splitting a string without the separator gives it back whole */
  lemma SplitWithout(s: string, c: char)
    requires c !in s
    ensures Split(s, c) == [s]
  {
  }

  /** A single line without a line break is its own line list */
  lemma LinesSingle(line: string)
    requires |line| > 0 && '\n' !in line
    ensures Lines(line) == [line]
  {
    SplitWithout(line, '\n');
  }

  /** `nvidia-smi` output of one line splitting into a power and a name */
  lemma NvidiaFromParts(line: string, d: string, name: string, v: real)
    requires Lines(line) == [line]
    requires Split(line, ',') == [d, name]
    requires ParseF64(Trim(d)) == Some(v) && Trim(name) == name
    ensures NvidiaGpuPower(Some(line)) == Some(GpuInfo(v, name, Nvidia))
  {
  }

  /** Reading back the line `nvidia-smi` prints for a whole number of
      watts and a name gives that power and name */
  lemma NvidiaLineRoundTrip(n: nat, name: string)
    requires |name| > 0 && !IsWhitespace(name[0]) && !IsWhitespace(name[|name| - 1])
    requires ',' !in name && '\n' !in name
    ensures NvidiaGpuPower(Some(Decimal(n) + "," + name)) == Some(GpuInfo(n as real, name, Nvidia))
  {
    var d := Decimal(n);
    var line := d + "," + name;
    assert '\n' !in d && ',' !in d by {
      assert forall i :: 0 <= i < |d| ==> IsDigit(d[i]);
    }
    assert line == d + [','] + name;
    assert '\n' !in line;
    LinesSingle(line);
    assert Join([d, name], ',') == line;
    SplitJoin([d, name], ',');
    TrimDecimal(n);
    ParseF64Decimal(n);
    TrimUntouched(name);
    NvidiaFromParts(line, d, name, n as real);
  }

  /** A word read as a number once its trailing 'W's are stripped */
  function WordPower(w: string): Option<real> {
    ParseF64(TrimEndMatches(w, 'W'))
  }

  /** The first whitespace-separated word that reads as a number once its
      trailing 'W's are stripped */
  function FirstPower(words: seq<string>): Option<real> {
    if |words| == 0 then None
    else match WordPower(words[0])
      case Some(v) => Some(v)
      case None => FirstPower(words[1..])
  }

  /** The first answer `f` gives along `xs` */
  function FirstSome(xs: seq<string>, f: string -> Option<real>): Option<real> {
    if |xs| == 0 then None
    else if f(xs[0]).Some? then f(xs[0])
    else FirstSome(xs[1..], f)
  }

  lemma {:induction false} FirstPowerIsFirstSome(words: seq<string>)
    ensures FirstPower(words) == FirstSome(words, WordPower)
  {
    if |words| > 0 {
      FirstPowerIsFirstSome(words[1..]);
    }
  }

  lemma {:induction false} FirstSomeNone(xs: seq<string>, f: string -> Option<real>)
    ensures FirstSome(xs, f).None? <==> forall i :: 0 <= i < |xs| ==> f(xs[i]).None?
  {
    if |xs| > 0 {
      FirstSomeNone(xs[1..], f);
      assert forall i :: 1 <= i < |xs| ==> xs[i] == xs[1..][i - 1];
    }
  }

  lemma {:induction false} FirstSomeAt(xs: seq<string>, f: string -> Option<real>) returns (i: nat)
    requires FirstSome(xs, f).Some?
    ensures i < |xs| && f(xs[i]) == FirstSome(xs, f)
    ensures forall j :: 0 <= j < i ==> f(xs[j]).None?
  {
    if f(xs[0]).Some? {
      i := 0;
    } else {
      var k := FirstSomeAt(xs[1..], f);
      i := k + 1;
      assert xs[i] == xs[1..][k];
      assert forall j :: 1 <= j < i ==> xs[j] == xs[1..][j - 1];
    }
  }

  /** `FirstPower` is None only when no word reads as a number */
  lemma FirstPowerNone(words: seq<string>)
    ensures FirstPower(words).None? <==> forall i :: 0 <= i < |words| ==> WordPower(words[i]).None?
  {
    FirstPowerIsFirstSome(words);
    FirstSomeNone(words, WordPower);
  }

  /** When `FirstPower` answers, it is the reading of the first word that
      reads as a number */
  lemma FirstPowerAt(words: seq<string>) returns (i: nat)
    requires FirstPower(words).Some?
    ensures i < |words| && WordPower(words[i]) == FirstPower(words)
    ensures forall j :: 0 <= j < i ==> WordPower(words[j]).None?
  {
    FirstPowerIsFirstSome(words);
    i := FirstSomeAt(words, WordPower);
  }

  /** `extract_power_from_line`: the first word of the line that reads as
      a number once trailing 'W's are stripped */
  method ExtractPowerFromLine(line: string) returns (r: Option<real>)
    ensures r == FirstPower(Words(line))
  {
    var words := Words(line);
    var i := 0;
    while i < |words|
      invariant 0 <= i <= |words|
      invariant FirstPower(words) == FirstPower(words[i..])
    {
      assert words[i..][1..] == words[i + 1..];
      var v := ParseF64(TrimEndMatches(words[i], 'W'));
      if v.Some? {
        return v;
      }
      i := i + 1;
    }
    return None;
  }

  /** Words without digits never read as a number */
  lemma NotANumber(w: string)
    requires |w| > 0 && !IsDigit(w[0]) && w[0] != '.' && w[0] != '+' && w[0] != '-'
    ensures ParseF64(w) == None
  {
  }

  /** A word, a space, then the rest: the word comes first */
  lemma WordsCons(w: string, rest: string)
    requires |w| > 0 && NoWhitespace(w)
    ensures Words(w + " " + rest) == [w] + Words(rest)
  {
    assert w + " " + rest == w + (" " + rest);
    WordsFirstWord(w, " " + rest);
    WordsSkipSpace(' ', rest);
  }

  /** Words joined by single spaces split back into those words */
  lemma {:induction false} WordsJoin(ws: seq<string>)
    requires |ws| > 0
    requires forall i :: 0 <= i < |ws| ==> |ws[i]| > 0 && NoWhitespace(ws[i])
    ensures Words(Join(ws, ' ')) == ws
  {
    if |ws| == 1 {
      WordsOfWord(ws[0]);
    } else {
      WordsJoin(ws[1..]);
      assert Join(ws, ' ') == ws[0] + " " + Join(ws[1..], ' ');
      WordsCons(ws[0], Join(ws[1..], ' '));
    }
  }

  lemma ParseFortyFiveAndAHalf()
    ensures ParseF64("45.5") == Some(45.5)
  {
    assert DigitRun("5") == 1;
    assert DigitRun(".5") == 0;
    assert DigitRun("5.5") == 1;
    assert DigitRun("45.5") == 2;
    assert "45.5"[..2] == "45" && "45.5"[2..] == ".5" && ".5"[1..] == "5";
    assert "5"[..1] == "5" && "5"[1..] == "";
    assert DigitsValue("45") == 45 && DigitsValue("5") == 5;
  }

  lemma ParseOneHundred()
    ensures ParseF64("100") == Some(100.0)
  {
    assert DigitRun("0") == 1;
    assert DigitRun("00") == 2;
    assert DigitRun("100") == 3;
    assert "100"[..3] == "100" && "100"[3..] == "";
    assert "100"[..2] == "10" && "10"[..1] == "1" && "1"[..0] == "";
    assert DigitsValue("1") == 1;
    assert DigitsValue("10") == 10;
    assert DigitsValue("100") == 100;
  }

  /** A label word, one that starts with neither a digit, a point nor a
      sign and does not end in 'W', is skipped */
  lemma SkipLabel(w: seq<string>)
    requires |w| > 0 && |w[0]| > 0 && w[0][|w[0]| - 1] != 'W'
    requires !IsDigit(w[0][0]) && w[0][0] != '.' && w[0][0] != '+' && w[0][0] != '-'
    ensures FirstPower(w) == FirstPower(w[1..])
  {
    var t := TrimEndMatches(w[0], 'W');
    assert |t| == |w[0]|;
    assert t == w[0];
    NotANumber(w[0]);
  }

  /** The words of the `rocm-smi` power line read as 45.5 W */
  lemma RocmWordsPower(w: seq<string>)
    requires w == ["Average", "Graphics", "Package", "Power", "(W):", "45.5"]
    ensures FirstPower(w) == Some(45.5)
  {
    var w5 := w[5..];
    assert w5[0] == "45.5" && |w5| == 1;
    assert TrimEndMatches("45.5", 'W') == "45.5";
    ParseFortyFiveAndAHalf();
    assert FirstPower(w5) == Some(45.5);
    SkipLabel(w[4..]);
    assert w[4..][1..] == w5;
    SkipLabel(w[3..]);
    assert w[3..][1..] == w[4..];
    SkipLabel(w[2..]);
    assert w[2..][1..] == w[3..];
    SkipLabel(w[1..]);
    assert w[1..][1..] == w[2..];
    SkipLabel(w);
  }

  /** A word that cannot be read as a power: it starts with neither a
      digit, a point nor a sign and does not end in 'W' */
  predicate IsLabel(w: string) {
    |w| > 0 && w[|w| - 1] != 'W' && !IsDigit(w[0]) && w[0] != '.' && w[0] != '+' && w[0] != '-'
  }

  /** A line of label words followed by a power word reads as that power,
      as in "Average Graphics Package Power (W): 45.5" */
  lemma {:induction false} LabelsThenPower(labels: seq<string>, power: seq<string>)
    requires forall i :: 0 <= i < |labels| ==> IsLabel(labels[i])
    requires |power| > 0 && WordPower(power[0]).Some?
    ensures FirstPower(labels + power) == WordPower(power[0])
    decreases |labels|
  {
    if |labels| > 0 {
      var w := labels + power;
      SkipLabel(w);
      assert w[1..] == labels[1..] + power;
      LabelsThenPower(labels[1..], power);
    } else {
      assert labels + power == power;
    }
  }

  /** The unit after a number is dropped: "100W" reads as 100 W */
  lemma TrimOneUnit(s: string)
    requires |s| > 0 && s[|s| - 1] != 'W'
    ensures TrimEndMatches(s + "W", 'W') == s
    ensures WordPower(s + "W") == ParseF64(s)
  {
    assert (s + "W")[..|s|] == s;
  }

  /** The power of the first line naming both "Average" and "Power" from
      which a number can be read */
  function FirstAmdLinePower(lines: seq<string>): Option<real> {
    if |lines| == 0 then None
    else if ContainsSub(lines[0], "Average") && ContainsSub(lines[0], "Power") && FirstPower(Words(lines[0])).Some? then
      FirstPower(Words(lines[0]))
    else FirstAmdLinePower(lines[1..])
  }

  /** The plain-text `rocm-smi --showpower` fallback of `get_amd_gpu_power` */
  method AmdTextPower(stdout: string) returns (r: Option<real>)
    ensures r == FirstAmdLinePower(Lines(stdout))
  {
    var lines := Lines(stdout);
    var i := 0;
    while i < |lines|
      invariant 0 <= i <= |lines|
      invariant FirstAmdLinePower(lines) == FirstAmdLinePower(lines[i..])
    {
      assert lines[i..][1..] == lines[i + 1..];
      var line := lines[i];
      if ContainsSub(line, "Average") && ContainsSub(line, "Power") {
        var power := ExtractPowerFromLine(line);
        if power.Some? {
          return power;
        }
      }
      i := i + 1;
    }
    return None;
  }

  /** `get_amd_gpu_power`: the `rocm-smi` JSON power, else the `amd-smi`
      JSON socket power, else the plain-text `rocm-smi` line; each input is
      absent when its tool failed or its output held no power */
  function AmdGpuPower(rocmJsonPower: Option<real>, amdSmiJsonPower: Option<real>, rocmText: Option<string>)
    : (r: Option<GpuInfo>)
    ensures r.Some? ==> r.value.name == "AMD GPU" && r.value.source == Amd
    ensures rocmJsonPower.Some? ==> r.Some? && r.value.powerWatts == rocmJsonPower.value
    ensures rocmJsonPower.None? && amdSmiJsonPower.Some? ==> r.Some? && r.value.powerWatts == amdSmiJsonPower.value
    ensures rocmJsonPower.None? && amdSmiJsonPower.None? ==>
      (r.Some? <==> rocmText.Some? && FirstAmdLinePower(Lines(rocmText.value)).Some?)
  {
    var p := rocmJsonPower.Or(amdSmiJsonPower).Or(
      if rocmText.Some? then FirstAmdLinePower(Lines(rocmText.value)) else None);
    if p.Some? then Some(GpuInfo(p.value, "AMD GPU", Amd)) else None
  }

  /** `get_gpu_power`: the tool of the detected source; nothing without one */
  function GetGpuPower(source: GpuSource, nvidia: Option<GpuInfo>, amd: Option<GpuInfo>): (r: Option<GpuInfo>)
    ensures source == NoGpu ==> r.None?
    ensures source == Nvidia ==> r == nvidia
    ensures source == Amd ==> r == amd
  {
    match source
    case Nvidia => nvidia
    case Amd => amd
    case NoGpu => None
  }

  /** What the GPU tools print or report when asked: `nvidia-smi`'s output,
      the power already read from `rocm-smi`'s and `amd-smi`'s JSON, and
      `rocm-smi`'s text output */
  datatype GpuToolAnswers = GpuToolAnswers(
    nvidiaStdout: Option<string>,
    rocmJsonPower: Option<real>,
    amdSmiJsonPower: Option<real>,
    rocmText: Option<string>)

  /** `get_gpu_power` run against the tools' answers: the detected tool is
      asked, and its answer always names that tool's vendor */
  function QueryGpu(source: GpuSource, tools: GpuToolAnswers): (r: Option<GpuInfo>)
    ensures r.Some? ==> r.value.source == source && source != NoGpu
    ensures source == NoGpu ==> r.None?
    ensures source == Nvidia ==> r == NvidiaGpuPower(tools.nvidiaStdout)
    ensures source == Amd ==> r == AmdGpuPower(tools.rocmJsonPower, tools.amdSmiJsonPower, tools.rocmText)
  {
    GetGpuPower(source, NvidiaGpuPower(tools.nvidiaStdout),
                AmdGpuPower(tools.rocmJsonPower, tools.amdSmiJsonPower, tools.rocmText))
  }

  // ---------------------------------------------------------------------------
  // Battery

  /** One `Win32_Battery` row: each property as the `i32` WMI gives, absent
      when unreadable */
  datatype BatteryRow = BatteryRow(chargeRemaining: Option<int>, designVoltage: Option<int>, batteryStatus: Option<int>)

  datatype BatteryInfo = BatteryInfo(chargeRemaining: nat, voltageMv: Option<nat>, isDischarging: bool)

  /** `i32 as u16` (`get_property_u16`): the low 16 bits, so the result is
      the value's residue modulo 2^16 */
  function I32AsU16(v: int): (r: nat)
    ensures r < 0x1_0000
    ensures (v - r) % 0x1_0000 == 0
    ensures 0 <= v < 0x1_0000 ==> r == v
  {
    v % 0x1_0000
  }

  /** The cast wraps: -1 reads as 65535, and 65636 as 100 */
  lemma U16CastWraps()
    ensures I32AsU16(-1) == 65535 && I32AsU16(65636) == 100 && I32AsU16(1) == 1
  {
  }

  /** `i32 as u32`: two's-complement reinterpretation */
  function I32AsU32(v: int): (r: nat)
    ensures r < 0x1_0000_0000
    ensures 0 <= v < 0x1_0000_0000 ==> r == v
    ensures -0x8000_0000 <= v < 0 ==> r == v + 0x1_0000_0000
  {
    v % 0x1_0000_0000
  }

  /** `get_battery_info`: the first row's charge (0 if unreadable), design
      voltage, and whether its status is 1 (discharging) */
  function GetBatteryInfo(wmiPresent: bool, query: Option<seq<BatteryRow>>): (r: Option<BatteryInfo>)
    ensures r.Some? <==> wmiPresent && query.Some? && |query.value| > 0
    ensures r.Some? ==> (r.value.isDischarging <==>
      query.value[0].batteryStatus.Some? && I32AsU16(query.value[0].batteryStatus.value) == 1)
    ensures r.Some? ==>
      r.value.chargeRemaining == (match query.value[0].chargeRemaining case Some(c) => I32AsU16(c) case None => 0)
    ensures r.Some? ==> (r.value.voltageMv.Some? <==> query.value[0].designVoltage.Some?)
    ensures r.Some? && r.value.voltageMv.Some? ==> r.value.voltageMv.value == I32AsU32(query.value[0].designVoltage.value)
  {
    if !wmiPresent || query.None? || |query.value| == 0 then None
    else
      var row := query.value[0];
      var voltage := if row.designVoltage.Some? then Some(I32AsU32(row.designVoltage.value)) else None;
      var charge := if row.chargeRemaining.Some? then I32AsU16(row.chargeRemaining.value) else 0;
      var status := if row.batteryStatus.Some? then I32AsU16(row.batteryStatus.value) else 0;
      Some(BatteryInfo(charge, voltage, status == 1))
  }

  /** `check_is_laptop`: some battery row is listed */
  function CheckIsLaptop(wmiPresent: bool, batteries: Option<seq<BatteryRow>>): (b: bool)
    ensures b <==> GetBatteryInfo(wmiPresent, batteries).Some?
  {
    wmiPresent && batteries.Some? && |batteries.value| > 0
  }

  // ---------------------------------------------------------------------------
  // The monitor

  /** A Windows monitor: whether WMI connected, the GPU tool, the TDP
      estimate and whether a battery was found */
  datatype WmiMonitor = WmiMonitor(wmiPresent: bool, gpuSource: GpuSource, cpuTdpEstimate: real, isLaptop: bool)

  /** `WmiMonitor::new`: never fails; without WMI it falls back to
      `sysinfo` estimation */
  function NewWmiMonitor(wmiPresent: bool, gpuSource: GpuSource, cpuCount: nat, batteries: Option<seq<BatteryRow>>)
    : (r: Result<WmiMonitor, Error>)
    ensures r.Ok?
    ensures r.value.cpuTdpEstimate == EstimateCpuTdp(cpuCount)
    ensures r.value.isLaptop <==> wmiPresent && batteries.Some? && |batteries.value| > 0
    ensures r.value.wmiPresent == wmiPresent && r.value.gpuSource == gpuSource
  {
    Ok(WmiMonitor(wmiPresent, gpuSource, EstimateCpuTdp(cpuCount), CheckIsLaptop(wmiPresent, batteries)))
  }

  /** `estimate_base_power`: motherboard, memory and storage */
  function BasePower(isLaptop: bool): (w: real)
    ensures w == (if isLaptop then 10.0 else 30.0)
  {
    if isLaptop then 10.0 else 30.0
  }

  function GpuWatts(gpu: Option<GpuInfo>): real {
    if gpu.Some? then gpu.value.powerWatts else 0.0
  }

  /** `get_power_watts`: CPU (from the WMI loads, else the `sysinfo`
      usages), plus GPU when the detected tool measured it, plus base */
  function GetPowerWatts(m: WmiMonitor, cpuQuery: Option<seq<Option<int>>>, usages: seq<real>,
                         tools: GpuToolAnswers)
    : (r: Result<real, Error>)
    ensures r.Ok?
  {
    Ok(TotalPower(m, CpuInfoOf(m.wmiPresent, cpuQuery, usages), QueryGpu(m.gpuSource, tools)))
  }

  /** The total is the CPU share plus what the detected GPU tool measured
      plus the base; without a GPU tool there is no GPU term */
  lemma PowerWattsSum(m: WmiMonitor, cpuQuery: Option<seq<Option<int>>>, usages: seq<real>, tools: GpuToolAnswers)
    ensures GetPowerWatts(m, cpuQuery, usages, tools).value
      == CalculateCpuPower(m.cpuTdpEstimate, CpuInfoOf(m.wmiPresent, cpuQuery, usages).averageLoad)
         + GpuWatts(QueryGpu(m.gpuSource, tools)) + BasePower(m.isLaptop)
    ensures m.gpuSource == NoGpu ==>
      GetPowerWatts(m, cpuQuery, usages, tools).value
      == CalculateCpuPower(m.cpuTdpEstimate, CpuInfoOf(m.wmiPresent, cpuQuery, usages).averageLoad) + BasePower(m.isLaptop)
  {
  }

  /** The sum `get_power_watts` accumulates once the CPU information and the
      GPU answer are known */
  function TotalPower(m: WmiMonitor, cpuInfo: CpuInfo, gpu: Option<GpuInfo>): real {
    var total := 0.0 + CalculateCpuPower(m.cpuTdpEstimate, cpuInfo.averageLoad);
    var total := if gpu.Some? then total + gpu.value.powerWatts else total;
    total + BasePower(m.isLaptop)
  }

  /** With WMI loads and `sysinfo` usages that are percentages and a
      non-negative TDP and GPU power, the total lies between the base plus
      the CPU's idle share and the base plus the full TDP plus the GPU */
  lemma PowerWattsBounds(m: WmiMonitor, cpuQuery: Option<seq<Option<int>>>, usages: seq<real>,
                         tools: GpuToolAnswers)
    requires m.cpuTdpEstimate >= 0.0 && GpuWatts(QueryGpu(m.gpuSource, tools)) >= 0.0
    requires LoadsArePercentages(cpuQuery) && AllWithin(usages, 0.0, 100.0)
    ensures BasePower(m.isLaptop) + 0.15 * m.cpuTdpEstimate <= GetPowerWatts(m, cpuQuery, usages, tools).value
      <= BasePower(m.isLaptop) + m.cpuTdpEstimate + GpuWatts(QueryGpu(m.gpuSource, tools))
  {
    var load := CpuInfoOf(m.wmiPresent, cpuQuery, usages).averageLoad;
    CpuInfoBounded(m.wmiPresent, cpuQuery, usages);
    CpuPowerRange(m.cpuTdpEstimate, load, load);
  }

  /** `str::replace(' ', "_")` */
  function SpacesToUnderscores(s: string): (r: string)
    ensures |r| == |s|
    ensures forall i :: 0 <= i < |s| ==> r[i] == (if s[i] == ' ' then '_' else s[i])
  {
    if |s| == 0 then [] else [if s[0] == ' ' then '_' else s[0]] + SpacesToUnderscores(s[1..])
  }

  /** The per-card component key `gpu_<name lower-cased, spaces as '_'>` */
  function GpuKey(name: string): (k: string)
    ensures |k| == |name| + 4 && k[..4] == "gpu_"
    ensures ' ' !in k
  {
    "gpu_" + SpacesToUnderscores(AsciiLowerString(name))
  }

  /** A card's key never clashes with the fixed component keys */
  lemma GpuKeyDistinct(name: string)
    ensures var key := GpuKey(name);
      key !in {"cpu", "base", "gpu", "battery_percent", "battery_discharging"}
  {
    var key := GpuKey(name);
    assert key[..4] == "gpu_";
    assert key[0] == 'g' && key[3] == '_' && |key| >= 4;
  }

  /** The keys `get_reading` fills in */
  function ReadingKeys(gpu: Option<GpuInfo>, battery: Option<BatteryInfo>): set<string> {
    {"cpu", "base"}
    + (if gpu.Some? then {"gpu", GpuKey(gpu.value.name)} else {})
    + (if battery.Some? then {"battery_percent"} else {})
    + (if battery.Some? && battery.value.isDischarging then {"battery_discharging"} else {})
  }

  /** What `get_reading` reports for the given CPU information, GPU and
      battery at `now`: the components map (CPU, base, the GPU under two
      keys, the battery charge and discharging flag), the total of CPU, GPU
      and base, a measurement only when the GPU was read, the source's tag */
  predicate IsReadingOf(m: WmiMonitor, cpuInfo: CpuInfo, gpu: Option<GpuInfo>, battery: Option<BatteryInfo>, now: int,
                        reading: PowerReading)
  {
    && reading.components.Some?
    && var c := reading.components.value;
    && c.Keys == ReadingKeys(gpu, battery)
    && c["cpu"] == CalculateCpuPower(m.cpuTdpEstimate, cpuInfo.averageLoad)
    && c["base"] == BasePower(m.isLaptop)
    && (gpu.Some? ==> c["gpu"] == gpu.value.powerWatts && c[GpuKey(gpu.value.name)] == gpu.value.powerWatts)
    && (battery.Some? ==> c["battery_percent"] == battery.value.chargeRemaining as real)
    && (battery.Some? && battery.value.isDischarging ==> c["battery_discharging"] == 1.0)
    && reading.powerWatts == c["cpu"] + (if gpu.Some? then c["gpu"] else 0.0) + c["base"]
    && (reading.isEstimated <==> gpu.None?)
    && reading.source == SourceTag(m.wmiPresent, m.gpuSource)
    && reading.timestamp == now
  }

  /** The description leaves no freedom: two readings that both fit it are
      the same reading */
  lemma ReadingDetermined(m: WmiMonitor, cpuInfo: CpuInfo, gpu: Option<GpuInfo>, battery: Option<BatteryInfo>, now: int,
                          a: PowerReading, b: PowerReading)
    requires IsReadingOf(m, cpuInfo, gpu, battery, now, a) && IsReadingOf(m, cpuInfo, gpu, battery, now, b)
    ensures a == b
  {
    var ca, cb := a.components.value, b.components.value;
    forall k | k in ca.Keys ensures ca[k] == cb[k] {
      if gpu.Some? && k == GpuKey(gpu.value.name) {
      } else if gpu.Some? && k == "gpu" {
      }
    }
    assert ca == cb;
  }

  /** `get_reading`: the reading described by `IsReadingOf` for the CPU
      information both queries use, the detected tool's GPU answer and the
      first battery row; its total is what `get_power_watts` returns, and a
      monitor without a GPU tool only ever gives estimates */
  method GetReading(m: WmiMonitor, cpuQuery: Option<seq<Option<int>>>, usages: seq<real>,
                    tools: GpuToolAnswers, batteries: Option<seq<BatteryRow>>, now: int)
    returns (r: Result<PowerReading, Error>)
    ensures r.Ok?
    ensures IsReadingOf(m, CpuInfoOf(m.wmiPresent, cpuQuery, usages), QueryGpu(m.gpuSource, tools),
                        GetBatteryInfo(m.wmiPresent, batteries), now, r.value)
    ensures Ok(r.value.powerWatts) == GetPowerWatts(m, cpuQuery, usages, tools)
    ensures IsEstimated(m) ==> r.value.isEstimated
  {
    var cpuInfo := GetCpuInfo(m.wmiPresent, cpuQuery, usages);
    var gpu := QueryGpu(m.gpuSource, tools);
    var battery := GetBatteryInfo(m.wmiPresent, batteries);
    var reading := AssembleReading(m, cpuInfo, gpu, battery, now);
    ReadingTotal(m, cpuInfo, gpu, battery, now, reading);
    r := Ok(reading);
  }

  /** A reading that fits the description totals what `get_power_watts`
      sums for the same CPU information and GPU answer */
  lemma ReadingTotal(m: WmiMonitor, cpuInfo: CpuInfo, gpu: Option<GpuInfo>, battery: Option<BatteryInfo>, now: int,
                     reading: PowerReading)
    requires IsReadingOf(m, cpuInfo, gpu, battery, now, reading)
    ensures reading.powerWatts == TotalPower(m, cpuInfo, gpu)
  {
  }

  /** The body of `get_reading` once the CPU information and the battery are
      known: components are inserted one by one and the total accumulated */
  method AssembleReading(m: WmiMonitor, cpuInfo: CpuInfo, gpu: Option<GpuInfo>, battery: Option<BatteryInfo>, now: int)
    returns (reading: PowerReading)
    ensures IsReadingOf(m, cpuInfo, gpu, battery, now, reading)
  {
    var components: map<string, real> := map[];
    var totalPower := 0.0;
    var hasRealReading := false;

    var cpuPower := CalculateCpuPower(m.cpuTdpEstimate, cpuInfo.averageLoad);
    components := components["cpu" := cpuPower];
    totalPower := totalPower + cpuPower;

    if gpu.Some? {
      GpuKeyDistinct(gpu.value.name);
      components := components["gpu" := gpu.value.powerWatts];
      components := components[GpuKey(gpu.value.name) := gpu.value.powerWatts];
      totalPower := totalPower + gpu.value.powerWatts;
      hasRealReading := true;
    }

    if battery.Some? {
      components := components["battery_percent" := battery.value.chargeRemaining as real];
      if battery.value.isDischarging {
        components := components["battery_discharging" := 1.0];
      }
    }

    var basePower := BasePower(m.isLaptop);
    components := components["base" := basePower];
    totalPower := totalPower + basePower;

    var source := SourceTag(m.wmiPresent, m.gpuSource);
    var isEstimated := !hasRealReading;
    reading := WithComponents(NewPowerReading(totalPower, source, isEstimated, now), components);
  }

  /** The reading's source tag, by WMI presence and GPU tool */
  function SourceTag(wmiPresent: bool, g: GpuSource): string {
    if wmiPresent then
      match g
      case Nvidia => "wmi+nvidia"
      case Amd => "wmi+amd"
      case NoGpu => "wmi"
    else
      match g
      case Nvidia => "sysinfo+nvidia"
      case Amd => "sysinfo+amd"
      case NoGpu => "sysinfo-estimated"
  }

  /** The monitor's display name, by WMI presence and GPU tool */
  function SourceName(wmiPresent: bool, g: GpuSource): string {
    if wmiPresent then
      match g
      case Nvidia => "Windows WMI + NVIDIA"
      case Amd => "Windows WMI + AMD"
      case NoGpu => "Windows WMI"
    else
      match g
      case Nvidia => "Windows Estimation + NVIDIA"
      case Amd => "Windows Estimation + AMD"
      case NoGpu => "Windows Estimation"
  }

  /** Each configuration has its own tag and its own name */
  lemma TagsAndNamesIdentify(w: bool, g: GpuSource, w': bool, g': GpuSource)
    ensures SourceTag(w, g) == SourceTag(w', g') <==> w == w' && g == g'
    ensures SourceName(w, g) == SourceName(w', g') <==> w == w' && g == g'
  {
  }

  /** The trait's `is_estimated`: no GPU tool was found */
  function IsEstimated(m: WmiMonitor): (e: bool)
    ensures e <==> m.gpuSource == NoGpu
  {
    m.gpuSource == NoGpu
  }

  /** A monitor without a GPU tool never obtains a GPU reading, so its
      readings are estimates, as the trait's flag says */
  lemma EstimatedMonitorGivesEstimates(m: WmiMonitor, nvidia: Option<GpuInfo>, amd: Option<GpuInfo>)
    requires IsEstimated(m)
    ensures GetGpuPower(m.gpuSource, nvidia, amd).None?
  {
  }
}
