/** Idle-power ("baseline") detection: a sliding window of recent power
    readings whose 5th percentile is taken as the machine's idle draw, and
    the surplus arithmetic that measures consumption above it. */
module Baseline {
  import opened Wrappers
  import opened Types
  import opened Sorting
  import opened Numbers

  const DEFAULT_SAMPLE_WINDOW: nat := 60
  const BASELINE_PERCENTILE: real := 0.05
  /** Fewer samples than this and detection declines to answer */
  const MIN_SAMPLES: nat := 10

  /** How many samples a window of size `maxSamples` really holds: a
      size-0 window still keeps the newest sample, because a pop on an empty
      deque does nothing and the push always happens */
  function Capacity(maxSamples: nat): (c: nat)
    ensures c >= 1 && c >= maxSamples
  {
    if maxSamples == 0 then 1 else maxSamples
  }

  function Min(a: nat, b: nat): nat {
    if a <= b then a else b
  }

  /** `VecDeque::pop_front`, result discarded: no effect on an empty deque */
  function PopFront(s: seq<real>): seq<real> {
    if |s| == 0 then s else s[1..]
  }

  // ---------------------------------------------------------------------------
  // The percentile

  /** The index of the baseline in the sorted window,
      `floor(len · BASELINE_PERCENTILE)` */
  function PercentileIndex(n: nat): (i: nat)
    ensures n > 0 ==> i < n
  {
    FloorTwentieth(n);
    ((n as real) * BASELINE_PERCENTILE).Floor
  }

  /** `floor(n · 0.05)` is `n / 20` */
  lemma FloorTwentieth(n: nat)
    ensures ((n as real) * BASELINE_PERCENTILE).Floor == n / 20
  {
    var q := n / 20;
    assert (n as real) * BASELINE_PERCENTILE == (n as real) / 20.0;
    assert (q as real) * 20.0 <= n as real < ((q + 1) as real) * 20.0;
  }

  /** The 5th-percentile sample of a non-empty window */
  function Percentile(samples: seq<real>): (p: real)
    requires |samples| > 0
    ensures p in samples
  {
    var sorted := SortAsc(samples);
    assert sorted[PercentileIndex(|samples|)] in multiset(sorted);
    sorted[PercentileIndex(|samples|)]
  }

  /** At most `floor(n · 0.05)` samples lie strictly below the baseline */
  lemma PercentileCountBelow(samples: seq<real>)
    requires |samples| > 0
    ensures CountBelow(samples, Percentile(samples)) <= |samples| / 20
  {
    var sorted := SortAsc(samples);
    var k := PercentileIndex(|samples|);
    FloorTwentieth(|samples|);
    CountBelowSorted(sorted, k);
    CountBelowMultiset(sorted, samples, sorted[k]);
  }

  /** When more than `floor(n · 0.05)` samples are below `t`, the baseline is
      below `t` too: a handful of low outliers cannot pull it down, and a
      majority of idle readings holds it at idle level */
  lemma {:induction false} PercentileBelow(samples: seq<real>, t: real)
    requires |samples| > 0
    requires CountBelow(samples, t) > |samples| / 20
    ensures Percentile(samples) < t
  {
    PercentileCountBelow(samples);
    if Percentile(samples) >= t {
      CountBelowMonotone(samples, t, Percentile(samples));
    }
  }

  /** A window of ten readings between 45 W and 49 W followed by ten between
      100 W and 145 W gives a baseline below 60 W */
  lemma IdleThenLoadWindow()
    ensures Percentile([45.0, 46.0, 47.0, 48.0, 49.0, 45.0, 46.0, 47.0, 48.0, 49.0,
                        100.0, 105.0, 110.0, 115.0, 120.0, 125.0, 130.0, 135.0, 140.0, 145.0]) < 60.0
  {
    var w := [45.0, 46.0, 47.0, 48.0, 49.0, 45.0, 46.0, 47.0, 48.0, 49.0,
              100.0, 105.0, 110.0, 115.0, 120.0, 125.0, 130.0, 135.0, 140.0, 145.0];
    CountBelowPrefixAll(w, 10, 60.0);
    PercentileBelow(w, 60.0);
  }

  // ---------------------------------------------------------------------------
  // Spread and confidence

  /** The sum of squared distances from `m` */
  function SquaredDeviations(s: seq<real>, m: real): (r: real)
    ensures r >= 0.0
  {
    if |s| == 0 then 0.0
    else
      var d := s[|s| - 1] - m;
      SquaredDeviations(s[..|s| - 1], m) + d * d
  }

  /** The population variance; `calculate_variance` returns its square root
      (0 for an empty window) */
  function Variance(s: seq<real>): (v: real)
    ensures v >= 0.0
  {
    if |s| == 0 then 0.0 else SquaredDeviations(s, Mean(s)) / (|s| as real)
  }

  /** A window whose readings are all equal has no spread */
  lemma {:induction false} ConstantSquaredDeviations(s: seq<real>, c: real)
    requires forall i :: 0 <= i < |s| ==> s[i] == c
    ensures SquaredDeviations(s, c) == 0.0
    ensures Sum(s) == (|s| as real) * c
    decreases |s|
  {
    if |s| > 0 {
      ConstantSquaredDeviations(s[..|s| - 1], c);
    }
  }

  lemma ConstantVariance(s: seq<real>, c: real)
    requires |s| > 0
    requires forall i :: 0 <= i < |s| ==> s[i] == c
    ensures Variance(s) == 0.0
  {
    ConstantSquaredDeviations(s, c);
    assert Mean(s) == c;
  }

  /** The detection confidence: the fill ratio of the window, damped by the
      standard deviation, clamped to [0, 1] */
  function Confidence(count: nat, maxSamples: nat, stdDev: real): (c: real)
    requires maxSamples > 0 && stdDev >= 0.0
    ensures 0.0 <= c <= 1.0
    ensures count <= maxSamples ==> c == (count as real / maxSamples as real) / (1.0 + stdDev / 100.0)
  {
    var sampleRatio := count as real / maxSamples as real;
    var varianceFactor := 1.0 / (1.0 + stdDev / 100.0);
    ConfidenceFactors(sampleRatio, varianceFactor, stdDev);
    Clamp(sampleRatio * varianceFactor, 0.0, 1.0)
  }

  lemma ConfidenceFactors(ratio: real, factor: real, stdDev: real)
    requires stdDev >= 0.0 && factor == 1.0 / (1.0 + stdDev / 100.0)
    ensures 0.0 < factor <= 1.0
    ensures 0.0 <= ratio <= 1.0 ==> 0.0 <= ratio * factor <= 1.0
    ensures ratio * factor == ratio / (1.0 + stdDev / 100.0)
  {
  }

  /** A full window with no spread is fully trusted */
  lemma FullSteadyWindowConfidence(n: nat)
    requires n > 0
    ensures Confidence(n, n, 0.0) == 1.0
  {
  }

  // ---------------------------------------------------------------------------
  // Surplus

  /** Power above the baseline and whether there is any; nothing without a
      baseline */
  function SurplusOf(baseline: Option<real>, currentWatts: real): (r: (real, bool))
    ensures r.0 >= 0.0
    ensures r.1 <==> r.0 > 0.0
    ensures baseline.None? ==> r == (0.0, false)
    ensures baseline.Some? ==> r.0 >= currentWatts - baseline.value
    ensures baseline.Some? && r.1 ==> r.0 == currentWatts - baseline.value
    ensures baseline.Some? && !r.1 ==> currentWatts <= baseline.value
  {
    match baseline
    case Some(b) =>
      var surplus := currentWatts - b;
      (MaxReal(surplus, 0.0), surplus > 0.0)
    case None => (0.0, false)
  }

  /** Surplus energy in Wh over `durationHours` at `powerWatts` */
  function SurplusWhOf(baseline: Option<real>, powerWatts: real, durationHours: real): (wh: real)
    ensures durationHours >= 0.0 ==> wh >= 0.0
    ensures baseline.Some? && durationHours >= 0.0 ==> wh >= (powerWatts - baseline.value) * durationHours
    ensures baseline.None? ==> wh == 0.0
    ensures baseline.Some? && powerWatts > baseline.value ==> wh == (powerWatts - baseline.value) * durationHours
    ensures baseline.Some? && powerWatts <= baseline.value ==> wh == 0.0
  {
    var (surplus, _) := SurplusOf(baseline, powerWatts);
    SurplusScale(surplus, powerWatts - (if baseline.Some? then baseline.value else 0.0), durationHours);
    surplus * durationHours
  }

  lemma SurplusScale(surplus: real, diff: real, h: real)
    requires surplus >= 0.0
    ensures h >= 0.0 ==> surplus * h >= 0.0
    ensures h >= 0.0 && surplus >= diff ==> surplus * h >= diff * h
  {
  }

  /** The surplus never exceeds the power itself when the baseline is
      non-negative */
  lemma SurplusAtMostPower(b: real, p: real)
    requires b >= 0.0 && p >= 0.0
    ensures SurplusOf(Some(b), p).0 <= p
  {
  }

  /** With a 50 W baseline: 120 W is 70 W above it; an hour at 150 W gives
      100 Wh of surplus and an hour at 40 W gives none */
  lemma SurplusExamples()
    ensures SurplusOf(Some(50.0), 120.0) == (70.0, true)
    ensures SurplusWhOf(Some(50.0), 150.0, 1.0) == 100.0
    ensures SurplusWhOf(Some(50.0), 40.0, 1.0) == 0.0
  {
  }

  // ---------------------------------------------------------------------------
  // The detector

  /** The sliding window of readings, an optional manual override and the
      last automatically detected baseline */
  class BaselineDetector {
    var samples: seq<real>
    var maxSamples: nat
    var manualBaseline: Option<real>
    var lastDetected: Option<real>

    /** The window never holds more than it has room for */
    ghost predicate Valid()
      reads this
    {
      |samples| <= Capacity(maxSamples)
    }

    /** `BaselineDetector::new`: a 60-sample window */
    constructor New()
      ensures Valid()
      ensures samples == [] && maxSamples == DEFAULT_SAMPLE_WINDOW
      ensures manualBaseline == None && lastDetected == None
    {
      samples := [];
      maxSamples := DEFAULT_SAMPLE_WINDOW;
      manualBaseline := None;
      lastDetected := None;
    }

    /** `BaselineDetector::with_window_size` */
    constructor WithWindowSize(size: nat)
      ensures Valid()
      ensures samples == [] && maxSamples == size
      ensures manualBaseline == None && lastDetected == None
    {
      samples := [];
      maxSamples := size;
      manualBaseline := None;
      lastDetected := None;
    }

    /** `add_sample`: drop the oldest reading when the window is full, then
        append the new one. The new window is the newest
        `min(old length + 1, capacity)` readings of the old window followed by
        the new reading. */
    method AddSample(powerWatts: real)
      requires Valid()
      modifies this
      ensures Valid()
      ensures maxSamples == old(maxSamples)
      ensures manualBaseline == old(manualBaseline) && lastDetected == old(lastDetected)
      ensures |samples| == Min(|old(samples)| + 1, Capacity(maxSamples))
      ensures samples == (old(samples) + [powerWatts])[|old(samples)| + 1 - |samples|..]
      ensures samples[|samples| - 1] == powerWatts
    {
      if |samples| >= maxSamples {
        samples := PopFront(samples);
      }
      samples := samples + [powerWatts];
    }

    /** `set_manual_baseline`: the override wins over detection */
    method SetManualBaseline(watts: real)
      modifies this
      ensures manualBaseline == Some(watts)
      ensures samples == old(samples) && maxSamples == old(maxSamples) && lastDetected == old(lastDetected)
      ensures GetBaseline() == Some(watts)
    {
      manualBaseline := Some(watts);
    }

    /** `clear_manual_baseline`: back to the detected value */
    method ClearManualBaseline()
      modifies this
      ensures manualBaseline == None
      ensures samples == old(samples) && maxSamples == old(maxSamples) && lastDetected == old(lastDetected)
      ensures GetBaseline() == lastDetected
    {
      manualBaseline := None;
    }

    /** `get_baseline`: the manual value when set, else the last detected */
    function GetBaseline(): (b: Option<real>)
      reads this
      ensures manualBaseline.Some? ==> b == manualBaseline
      ensures manualBaseline.None? ==> b == lastDetected
    {
      manualBaseline.Or(lastDetected)
    }

    function IsManual(): (m: bool)
      reads this
      ensures m <==> manualBaseline.Some?
    {
      manualBaseline.Some?
    }

    function SampleCount(): (n: nat)
      reads this
      ensures n == |samples|
    {
      |samples|
    }

    /** `detect_baseline`. The standard deviation of the window is passed in
        as `stdDev` (the non-negative square root of `Variance(samples)`).
        With fewer than ten readings nothing happens; otherwise the 5th
        percentile of a sorted copy becomes the detected baseline. */
    method DetectBaseline(stdDev: real) returns (r: Option<BaselineDetection>)
      requires Valid()
      requires stdDev >= 0.0 && stdDev * stdDev == Variance(samples)
      modifies this
      ensures Valid()
      ensures samples == old(samples) && maxSamples == old(maxSamples)
      ensures manualBaseline == old(manualBaseline)
      ensures |samples| < MIN_SAMPLES ==> r == None && lastDetected == old(lastDetected)
      ensures |samples| >= MIN_SAMPLES ==>
        && maxSamples > 0
        && r.Some?
        && r.value.detectedWatts == Percentile(samples)
        && r.value.sampleCount == |samples|
        && r.value.confidence == Confidence(|samples|, maxSamples, stdDev)
        && 0.0 <= r.value.confidence <= 1.0
        && lastDetected == Some(r.value.detectedWatts)
    {
      if |samples| < MIN_SAMPLES {
        return None;
      }
      var sorted := SortAsc(samples);
      var index := PercentileIndex(|sorted|);
      // `sorted.get(index)` always succeeds: the index is below the length
      var baseline := sorted[index];
      var confidence := Confidence(|samples|, maxSamples, stdDev);
      lastDetected := Some(baseline);
      r := Some(BaselineDetection(baseline, |samples|, confidence));
    }

    /** Surplus of `currentWatts` over the current baseline */
    function CalculateSurplus(currentWatts: real): (r: (real, bool))
      reads this
      ensures r == SurplusOf(GetBaseline(), currentWatts)
    {
      SurplusOf(GetBaseline(), currentWatts)
    }

    function CalculateSurplusWh(powerWatts: real, durationHours: real): (wh: real)
      reads this
      ensures wh == SurplusWhOf(GetBaseline(), powerWatts, durationHours)
    {
      SurplusWhOf(GetBaseline(), powerWatts, durationHours)
    }

    /** `reset`: forget the readings and the detection, keep the override */
    method Reset()
      modifies this
      ensures Valid()
      ensures samples == [] && lastDetected == None
      ensures manualBaseline == old(manualBaseline) && maxSamples == old(maxSamples)
    {
      samples := [];
      lastDetected := None;
    }
  }
}
