/** Arithmetic on `f64` values used throughout the power engine, over the
    reals: `min`, `max`, `clamp`, sums and means of readings. */
module Numbers {

  function MaxReal(a: real, b: real): (r: real)
    ensures r >= a && r >= b && (r == a || r == b)
  {
    if a >= b then a else b
  }

  function MinReal(a: real, b: real): (r: real)
    ensures r <= a && r <= b && (r == a || r == b)
  {
    if a <= b then a else b
  }

  /** `f64::clamp` */
  function Clamp(x: real, lo: real, hi: real): (r: real)
    requires lo <= hi
    ensures lo <= r <= hi
    ensures lo <= x <= hi ==> r == x
  {
    if x < lo then lo else if x > hi then hi else x
  }

  /** `iter().sum::<f64>()` */
  function Sum(s: seq<real>): real {
    if |s| == 0 then 0.0 else Sum(s[..|s| - 1]) + s[|s| - 1]
  }

  function Mean(s: seq<real>): real
    requires |s| > 0
  {
    Sum(s) / (|s| as real)
  }

  predicate AllWithin(s: seq<real>, lo: real, hi: real) {
    forall i :: 0 <= i < |s| ==> lo <= s[i] <= hi
  }

  predicate AllStrictlyWithin(s: seq<real>, lo: real, hi: real) {
    forall i :: 0 <= i < |s| ==> lo < s[i] < hi
  }

  /** A sum of `n` values in `[lo, hi]` lies in `[n·lo, n·hi]` */
  lemma {:induction false} SumBounds(s: seq<real>, lo: real, hi: real)
    requires AllWithin(s, lo, hi)
    ensures (|s| as real) * lo <= Sum(s) <= (|s| as real) * hi
    decreases |s|
  {
    if |s| > 0 {
      var n := (|s| - 1) as real;
      SumBounds(s[..|s| - 1], lo, hi);
      assert lo <= s[|s| - 1] <= hi;
      assert (|s| as real) * lo == n * lo + lo && (|s| as real) * hi == n * hi + hi;
    }
  }

  /** The strict version, for a non-empty sequence */
  lemma {:induction false} SumStrictBounds(s: seq<real>, lo: real, hi: real)
    requires |s| > 0 && AllStrictlyWithin(s, lo, hi)
    ensures (|s| as real) * lo < Sum(s) < (|s| as real) * hi
    decreases |s|
  {
    if |s| > 1 {
      SumStrictBounds(s[..|s| - 1], lo, hi);
    }
  }

  /** The mean of values in `[lo, hi]` is in `[lo, hi]` */
  lemma MeanBounds(s: seq<real>, lo: real, hi: real)
    requires |s| > 0 && AllWithin(s, lo, hi)
    ensures lo <= Mean(s) <= hi
  {
    SumBounds(s, lo, hi);
    DivideBounds(Sum(s), |s| as real, lo, hi);
  }

  lemma MeanStrictBounds(s: seq<real>, lo: real, hi: real)
    requires |s| > 0 && AllStrictlyWithin(s, lo, hi)
    ensures lo < Mean(s) < hi
  {
    SumStrictBounds(s, lo, hi);
    assert Sum(s) / (|s| as real) > lo by {
      assert Sum(s) > (|s| as real) * lo;
    }
    assert Sum(s) / (|s| as real) < hi by {
      assert Sum(s) < (|s| as real) * hi;
    }
  }

  lemma DivideBounds(x: real, n: real, lo: real, hi: real)
    requires n > 0.0 && n * lo <= x <= n * hi
    ensures lo <= x / n <= hi
  {
  }
  /** Pointwise larger values have a larger sum */
  lemma {:induction false} SumMonotone(s: seq<real>, t: seq<real>)
    requires |s| == |t| && forall i :: 0 <= i < |s| ==> s[i] <= t[i]
    ensures Sum(s) <= Sum(t)
    decreases |s|
  {
    if |s| > 0 {
      SumMonotone(s[..|s| - 1], t[..|t| - 1]);
    }
  }

  /** `n` copies of `x` sum to `n·x` */
  lemma {:induction false} SumConstant(s: seq<real>, x: real)
    requires forall i :: 0 <= i < |s| ==> s[i] == x
    ensures Sum(s) == (|s| as real) * x
    decreases |s|
  {
    if |s| > 0 {
      SumConstant(s[..|s| - 1], x);
    }
  }
}
