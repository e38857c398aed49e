/** The pieces of Rust's `str` API the power engine leans on: `split`,
    `split_whitespace`, `lines`, `trim`, `strip_suffix`,
    `trim_start_matches`/`trim_end_matches`, `eq_ignore_ascii_case`, and the
    integer and float parsers (`str::parse::<u64>()`, `str::parse::<f64>()`). */
module Text {
  import opened Wrappers

  const U32_MAX: nat := 0xFFFF_FFFF
  const U64_MAX: nat := 0xFFFF_FFFF_FFFF_FFFF

  // ---------------------------------------------------------------------------
  // Characters

  /** `char::is_whitespace`: the Unicode White_Space property */
  predicate IsWhitespace(c: char) {
    || c == ' ' || ('\t' <= c <= '\r')
    || c == '\U{0085}' || c == '\U{00A0}' || c == '\U{1680}'
    || ('\U{2000}' <= c <= '\U{200A}')
    || c == '\U{2028}' || c == '\U{2029}' || c == '\U{202F}' || c == '\U{205F}' || c == '\U{3000}'
  }

  predicate IsDigit(c: char) {
    '0' <= c <= '9'
  }

  function DigitValue(c: char): nat
    requires IsDigit(c)
  {
    c as int - '0' as int
  }

  function DigitChar(d: nat): (c: char)
    requires d < 10
    ensures IsDigit(c) && DigitValue(c) == d
  {
    ('0' as int + d) as char
  }

  /** `char::to_ascii_lowercase` */
  function AsciiLower(c: char): char {
    if 'A' <= c <= 'Z' then (c as int + 32) as char else c
  }

  function AsciiLowerString(s: string): (r: string)
    ensures |r| == |s|
    ensures forall i :: 0 <= i < |s| ==> r[i] == AsciiLower(s[i])
  {
    if |s| == 0 then [] else [AsciiLower(s[0])] + AsciiLowerString(s[1..])
  }

  /** `str::eq_ignore_ascii_case` */
  predicate EqIgnoreAsciiCase(a: string, b: string) {
    AsciiLowerString(a) == AsciiLowerString(b)
  }

  // ---------------------------------------------------------------------------
  // Searching

  /** The index of the first occurrence of `c` in `s`, if there is one */
  function FindChar(s: string, c: char): (r: Option<nat>)
    ensures r.None? <==> c !in s
    ensures r.Some? ==> r.value < |s| && s[r.value] == c && c !in s[..r.value]
  {
    if |s| == 0 then None
    else if s[0] == c then Some(0)
    else match FindChar(s[1..], c)
      case None => None
      case Some(i) =>
        assert s[..i + 1] == [s[0]] + s[1..][..i];
        Some(i + 1)
  }

  /** `str::contains(&str)` */
  predicate ContainsSub(s: string, sub: string)
    decreases |s|
  {
    if |sub| <= |s| && s[..|sub|] == sub then true
    else if |s| == 0 then false
    else ContainsSub(s[1..], sub)
  }

  /** `str::strip_suffix` */
  function StripSuffix(s: string, suffix: string): (r: Option<string>)
    ensures r.Some? <==> |suffix| <= |s| && s[|s| - |suffix|..] == suffix
    ensures r.Some? ==> r.value + suffix == s
  {
    if |suffix| <= |s| && s[|s| - |suffix|..] == suffix then
      assert s[..|s| - |suffix|] + s[|s| - |suffix|..] == s;
      Some(s[..|s| - |suffix|])
    else None
  }

  // ---------------------------------------------------------------------------
  // Splitting

  /** `str::split(c)` collected into a vector: the pieces between the
      occurrences of `c`; there is always at least one piece */
  function Split(s: string, c: char): (parts: seq<string>)
    ensures |parts| >= 1
    ensures forall i :: 0 <= i < |parts| ==> c !in parts[i]
    decreases |s|
  {
    match FindChar(s, c)
    case None => [s]
    case Some(i) => [s[..i]] + Split(s[i + 1..], c)
  }

  /** The first piece of a split is the longest prefix free of `c`: it ends
      at the end of `s` or just before the first `c` */
  lemma SplitFirstPiece(s: string, c: char)
    ensures var p := Split(s, c)[0];
      && |p| <= |s| && p == s[..|p|] && c !in p
      && (|p| < |s| ==> s[|p|] == c)
  {
    match FindChar(s, c)
    case None =>
      assert Split(s, c)[0] == s;
    case Some(i) =>
      assert Split(s, c)[0] == s[..i];
  }

  /** The inverse of `Split`: the pieces glued back with `c` */
  function Join(parts: seq<string>, c: char): string {
    if |parts| == 0 then ""
    else if |parts| == 1 then parts[0]
    else parts[0] + [c] + Join(parts[1..], c)
  }

  lemma {:induction false} JoinSplit(s: string, c: char)
    ensures Join(Split(s, c), c) == s
    decreases |s|
  {
    match FindChar(s, c)
    case None =>
      assert Split(s, c) == [s];
    case Some(i) =>
      var rest := Split(s[i + 1..], c);
      var parts := [s[..i]] + rest;
      assert Split(s, c) == parts;
      assert parts[0] == s[..i] && parts[1..] == rest;
      JoinSplit(s[i + 1..], c);
      calc {
        Join(parts, c);
        s[..i] + [c] + Join(rest, c);
        s[..i] + [c] + s[i + 1..];
        { assert s == s[..i] + [c] + s[i + 1..]; }
        s;
      }
  }

  /** The first `c` in `p + [c] + rest` is the one right after `p` */
  lemma FindAfterPrefix(p: string, c: char, rest: string)
    requires c !in p
    ensures FindChar(p + [c] + rest, c) == Some(|p|)
  {
    var s := p + [c] + rest;
    assert s[|p|] == c;
    assert s[..|p|] == p;
    assert c in s;
  }

  lemma {:induction false} SplitJoin(parts: seq<string>, c: char)
    requires |parts| >= 1
    requires forall i :: 0 <= i < |parts| ==> c !in parts[i]
    ensures Split(Join(parts, c), c) == parts
  {
    if |parts| > 1 {
      var tail := Join(parts[1..], c);
      var s := parts[0] + [c] + tail;
      assert Join(parts, c) == s;
      FindAfterPrefix(parts[0], c, tail);
      assert s[..|parts[0]|] == parts[0];
      assert s[|parts[0]| + 1..] == tail;
      assert Split(s, c) == [parts[0]] + Split(tail, c);
      SplitJoin(parts[1..], c);
      assert parts == [parts[0]] + parts[1..];
    } else {
      assert FindChar(parts[0], c).None?;
    }
  }

  /** `str::lines`: the pieces between '\n', without the empty piece that a
      final '\n' (or the empty string) would leave. Rust also drops the '\r'
      of a "\r\n" line ending; this model does not, so it covers text with
      '\n' line endings only. */
  function Lines(s: string): (ls: seq<string>)
    ensures forall i :: 0 <= i < |ls| ==> '\n' !in ls[i]
  {
    var parts := Split(s, '\n');
    if parts[|parts| - 1] == "" then parts[..|parts| - 1] else parts
  }

  /** The length of the run of non-whitespace characters that starts `s` */
  function WordEnd(s: string): (n: nat)
    ensures n <= |s|
    ensures forall k :: 0 <= k < n ==> !IsWhitespace(s[k])
    ensures n < |s| ==> IsWhitespace(s[n])
  {
    if |s| == 0 || IsWhitespace(s[0]) then 0 else 1 + WordEnd(s[1..])
  }

  predicate NoWhitespace(w: string) {
    forall k :: 0 <= k < |w| ==> !IsWhitespace(w[k])
  }

  /** `str::split_whitespace` collected: the maximal non-empty runs of
      non-whitespace characters, in order */
  function Words(s: string): (ws: seq<string>)
    ensures forall i :: 0 <= i < |ws| ==> |ws[i]| > 0 && NoWhitespace(ws[i])
    decreases |s|
  {
    if |s| == 0 then []
    else if IsWhitespace(s[0]) then Words(s[1..])
    else
      var n := WordEnd(s);
      [s[..n]] + Words(s[n..])
  }

  lemma {:induction false} WordsOfWord(w: string)
    requires |w| > 0 && NoWhitespace(w)
    ensures Words(w) == [w]
  {
    assert WordEnd(w) == |w|;
    assert w[..|w|] == w && w[|w|..] == [];
  }

  /** A word followed by whitespace (or nothing) is the first word */
  lemma WordsFirstWord(w: string, rest: string)
    requires |w| > 0 && NoWhitespace(w)
    requires |rest| == 0 || IsWhitespace(rest[0])
    ensures Words(w + rest) == [w] + Words(rest)
  {
    var s := w + rest;
    WordEndOf(w, rest);
    assert s[..|w|] == w && s[|w|..] == rest;
  }

  lemma {:induction false} WordEndOf(w: string, rest: string)
    requires NoWhitespace(w)
    requires |rest| == 0 || IsWhitespace(rest[0])
    ensures WordEnd(w + rest) == |w|
    decreases |w|
  {
    if |w| > 0 {
      assert (w + rest)[1..] == w[1..] + rest;
      WordEndOf(w[1..], rest);
    }
  }

  /** Leading whitespace is skipped */
  lemma WordsSkipSpace(c: char, rest: string)
    requires IsWhitespace(c)
    ensures Words([c] + rest) == Words(rest)
  {
    assert ([c] + rest)[1..] == rest;
  }

  // ---------------------------------------------------------------------------
  // Trimming

  /** `str::trim_start` */
  function TrimStart(s: string): (r: string)
    ensures |r| <= |s| && r == s[|s| - |r|..]
    ensures |r| > 0 ==> !IsWhitespace(r[0])
  {
    if |s| > 0 && IsWhitespace(s[0]) then TrimStart(s[1..]) else s
  }

  /** `str::trim_end` */
  function TrimEnd(s: string): (r: string)
    ensures |r| <= |s| && r == s[..|r|]
    ensures |r| > 0 ==> !IsWhitespace(r[|r| - 1])
  {
    if |s| > 0 && IsWhitespace(s[|s| - 1]) then TrimEnd(s[..|s| - 1]) else s
  }

  /** `str::trim` */
  function Trim(s: string): string {
    TrimEnd(TrimStart(s))
  }

  /** `str::trim_start_matches(c)` for a single character */
  function TrimStartMatches(s: string, c: char): (r: string)
    ensures |r| <= |s| && r == s[|s| - |r|..]
    ensures |r| > 0 ==> r[0] != c
    ensures forall k :: 0 <= k < |s| - |r| ==> s[k] == c
  {
    if |s| > 0 && s[0] == c then TrimStartMatches(s[1..], c) else s
  }

  /** `str::trim_end_matches(c)` for a single character */
  function TrimEndMatches(s: string, c: char): (r: string)
    ensures |r| <= |s| && r == s[..|r|]
    ensures |r| > 0 ==> r[|r| - 1] != c
    ensures forall k :: |r| <= k < |s| ==> s[k] == c
  {
    if |s| > 0 && s[|s| - 1] == c then TrimEndMatches(s[..|s| - 1], c) else s
  }

  // ---------------------------------------------------------------------------
  // Integers

  predicate AllDigits(s: string) {
    forall i :: 0 <= i < |s| ==> IsDigit(s[i])
  }

  /** The value of a string of decimal digits, most significant first */
  function DigitsValue(s: string): nat
    requires AllDigits(s)
  {
    if |s| == 0 then 0 else DigitsValue(s[..|s| - 1]) * 10 + DigitValue(s[|s| - 1])
  }

  /** Rust's `from_str` for an unsigned integer type whose largest value is
      `max`: an optional '+', then one or more ASCII digits, with no
      whitespace; a value above `max` is an overflow error */
  function ParseUnsigned(s: string, max: nat): (r: Option<nat>)
    ensures r.Some? ==> r.value <= max
  {
    var digits := if |s| > 0 && s[0] == '+' then s[1..] else s;
    if |digits| == 0 || !AllDigits(digits) then None
    else if DigitsValue(digits) > max then None
    else Some(DigitsValue(digits))
  }

  function ParseU64(s: string): Option<nat> {
    ParseUnsigned(s, U64_MAX)
  }

  function ParseU32(s: string): Option<nat> {
    ParseUnsigned(s, U32_MAX)
  }

  /** The decimal digits of `n`, without leading zeros */
  function Decimal(n: nat): (s: string)
    ensures |s| > 0 && AllDigits(s)
  {
    if n < 10 then [DigitChar(n)] else Decimal(n / 10) + [DigitChar(n % 10)]
  }

  lemma {:induction false} DecimalValue(n: nat)
    ensures DigitsValue(Decimal(n)) == n
  {
    var s := Decimal(n);
    if n >= 10 {
      DecimalValue(n / 10);
      assert s[..|s| - 1] == Decimal(n / 10);
    }
  }

  /** Printing a number and parsing it back gives the number (when it fits) */
  lemma ParseDecimal(n: nat, max: nat)
    requires n <= max
    ensures ParseUnsigned(Decimal(n), max) == Some(n)
  {
    DecimalValue(n);
    assert Decimal(n)[0] != '+';
  }

  // ---------------------------------------------------------------------------
  // Floats

  function Pow10(e: nat): (p: nat)
    ensures p >= 1
  {
    if e == 0 then 1 else 10 * Pow10(e - 1)
  }

  /** 10 raised to an integer power, as a real */
  function Scale(e: int): (r: real)
    ensures r > 0.0
  {
    if e >= 0 then Pow10(e) as real else 1.0 / (Pow10(-e) as real)
  }

  /** The length of the run of ASCII digits that starts `s` */
  function DigitRun(s: string): (n: nat)
    ensures n <= |s| && AllDigits(s[..n])
    ensures n < |s| ==> !IsDigit(s[n])
  {
    if |s| == 0 || !IsDigit(s[0]) then 0
    else
      var n := 1 + DigitRun(s[1..]);
      assert s[..n] == [s[0]] + s[1..][..n - 1];
      n
  }

  /** An exponent suffix "e[+-]digits" (or "E..."), or nothing */
  function ParseExponent(s: string): Option<int> {
    if |s| == 0 then Some(0)
    else if s[0] != 'e' && s[0] != 'E' then None
    else
      var t := s[1..];
      var neg := |t| > 0 && t[0] == '-';
      var digits := if |t| > 0 && (t[0] == '+' || t[0] == '-') then t[1..] else t;
      if |digits| == 0 || !AllDigits(digits) then None
      else
        var v: int := DigitsValue(digits);
        Some(if neg then -v else v)
  }

  /** Rust's `f64::from_str` on finite decimal notation: an optional sign,
      digits with an optional fractional part (at least one digit in all),
      and an optional exponent; no whitespace */
  function ParseF64(s: string): Option<real> {
    var neg := |s| > 0 && s[0] == '-';
    var body := if |s| > 0 && (s[0] == '+' || s[0] == '-') then s[1..] else s;
    var a := DigitRun(body);
    var intPart := body[..a];
    var rest := body[a..];
    var hasDot := |rest| > 0 && rest[0] == '.';
    var afterDot := if hasDot then rest[1..] else rest;
    var b := if hasDot then DigitRun(afterDot) else 0;
    var frac := afterDot[..b];
    if a + b == 0 then None
    else match ParseExponent(afterDot[b..])
      case None => None
      case Some(e) =>
        var mantissa := DigitsValue(intPart) as real + DigitsValue(frac) as real / Pow10(b) as real;
        var magnitude := mantissa * Scale(e);
        Some(if neg then -magnitude else magnitude)
  }

  /** A run of digits is read to its end */
  lemma {:induction false} DigitRunAll(s: string)
    requires AllDigits(s)
    ensures DigitRun(s) == |s|
    decreases |s|
  {
    if |s| > 0 {
      DigitRunAll(s[1..]);
    }
  }

  /** Parsing printed digits as a float gives the number back */
  lemma ParseF64Decimal(n: nat)
    ensures ParseF64(Decimal(n)) == Some(n as real)
  {
    var s := Decimal(n);
    DigitRunAll(s);
    DecimalValue(n);
    assert s[..|s|] == s;
    assert s[|s|..] == [];
    assert !(s[0] == '+' || s[0] == '-');
  }

  /** Trimming leaves a string without surrounding whitespace unchanged */
  lemma TrimUntouched(s: string)
    requires |s| > 0 && !IsWhitespace(s[0]) && !IsWhitespace(s[|s| - 1])
    ensures Trim(s) == s
  {
  }

  lemma TrimDecimal(n: nat)
    ensures Trim(Decimal(n)) == Decimal(n)
  {
    var s := Decimal(n);
    assert IsDigit(s[0]) && IsDigit(s[|s| - 1]);
    TrimUntouched(s);
  }
}
