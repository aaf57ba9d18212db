/** The two ways the application turns text into a number: the global
    `parseFloat` (longest numeric prefix after leading white space) and the
    `Number(string)` conversion (the whole trimmed text must be numeric).
    Values are exact: a decimal literal denotes the rational number it spells,
    so rounding to the nearest double, and literals too large for a double,
    are not modelled. */
module Numbers {
  import opened Text

  /** A JavaScript number, as far as these conversions can produce one. */
  datatype Num = Finite(value: real) | Infinite(positive: bool) | NaN {
    /** `Number.isFinite`. */
    predicate IsFinite() { Finite? }
  }

  function Pow10(n: nat): (r: real)
    ensures r >= 1.0
  {
    if n == 0 then 1.0 else 10.0 * Pow10(n - 1)
  }

  /** The value of a digit in bases up to 16; 16 for anything that is not one. */
  function DigitVal(c: char): (r: nat)
    ensures r <= 16
  {
    if '0' <= c <= '9' then c as int - '0' as int
    else if 'a' <= c <= 'f' then c as int - 'a' as int + 10
    else if 'A' <= c <= 'F' then c as int - 'A' as int + 10
    else 16
  }

  predicate IsDigitIn(c: char, base: nat) {
    DigitVal(c) < base
  }

  predicate AllDigitsIn(s: string, base: nat) {
    forall k :: 0 <= k < |s| ==> IsDigitIn(s[k], base)
  }

  /** The number a string of digits spells in `base`. */
  function DigitsValue(s: string, base: nat): (r: nat)
    requires AllDigitsIn(s, base)
  {
    if s == [] then 0 else DigitsValue(s[..|s| - 1], base) * base + DigitVal(s[|s| - 1])
  }

  /** The end of the longest run of `base` digits that starts at `i`. */
  function DigitRun(s: string, i: nat, base: nat): (r: nat)
    requires i <= |s|
    ensures i <= r <= |s|
    ensures AllDigitsIn(s[i..r], base)
    ensures r < |s| ==> !IsDigitIn(s[r], base)
    decreases |s| - i
  {
    if i < |s| && IsDigitIn(s[i], base) then DigitRun(s, i + 1, base) else i
  }

  function Scale(m: real, e: int): real {
    if e >= 0 then m * Pow10(e) else m / Pow10(-e)
  }

  predicate StartsWith(s: string, p: string) {
    |p| <= |s| && s[..|p|] == p
  }

  /** Where the digits, the optional '.' and the fraction digits after a
      sign of length `p` end. */
  datatype Mantissa = Mantissa(intEnd: nat, fracStart: nat, fracEnd: nat)

  function ScanMantissa(s: string, p: nat): (m: Mantissa)
    requires p <= |s|
    ensures p <= m.intEnd <= m.fracStart <= m.fracEnd <= |s|
    ensures m.intEnd == DigitRun(s, p, 10)
    ensures m.fracStart == m.intEnd || (m.fracStart == m.intEnd + 1 && s[m.intEnd] == '.')
    ensures m.fracEnd == (if m.fracStart == m.intEnd then m.intEnd else DigitRun(s, m.fracStart, 10))
    ensures m.intEnd < |s| && s[m.intEnd] == '.' ==> m.fracStart == m.intEnd + 1
  {
    var intEnd := DigitRun(s, p, 10);
    if intEnd < |s| && s[intEnd] == '.' then Mantissa(intEnd, intEnd + 1, DigitRun(s, intEnd + 1, 10))
    else Mantissa(intEnd, intEnd, intEnd)
  }

  /** The value of the integer and fraction digits. */
  function MantissaValue(s: string, p: nat, m: Mantissa): (v: real)
    requires p <= m.intEnd <= m.fracStart <= m.fracEnd <= |s|
    requires AllDigitsIn(s[p..m.intEnd], 10) && AllDigitsIn(s[m.fracStart..m.fracEnd], 10)
    ensures v >= 0.0
  {
    DigitsValue(s[p..m.intEnd], 10) as real + DigitsValue(s[m.fracStart..m.fracEnd], 10) as real / Pow10(m.fracEnd - m.fracStart)
  }

  /** An optional exponent `e`/`E`, optional sign, at least one digit, at `q`:
      its value and where it ends; `(0, q)` when there is none. */
  function ScanExponent(s: string, q: nat): (r: (int, nat))
    requires q <= |s|
    ensures q <= r.1 <= |s|
    ensures (q == |s| || (s[q] != 'e' && s[q] != 'E')) ==> r == (0, q)
  {
    if q < |s| && (s[q] == 'e' || s[q] == 'E') then
      var signed := q + 1 < |s| && (s[q + 1] == '+' || s[q + 1] == '-');
      var eStart := if signed then q + 2 else q + 1;
      var eEnd := DigitRun(s, eStart, 10);
      if eEnd == eStart then (0, q)
      else ((if signed && s[q + 1] == '-' then -1 else 1) * DigitsValue(s[eStart..eEnd], 10), eEnd)
    else (0, q)
  }

  function SignLength(s: string): (n: nat)
    ensures n <= 1 && n <= |s|
  {
    if |s| > 0 && (s[0] == '-' || s[0] == '+') then 1 else 0
  }

  /** The longest prefix of `s` that is a StrDecimalLiteral (optional sign,
      then `Infinity`, or digits with an optional fraction and an optional
      exponent), with its value and the length it takes. `NaN` when no prefix
      is one. */
  function ScanDecimal(s: string): (r: (Num, nat))
    ensures r.1 <= |s|
    ensures r.0 == NaN <==> r.1 == 0
  {
    var neg := |s| > 0 && s[0] == '-';
    var p := SignLength(s);
    if StartsWith(s[p..], "Infinity") then (Infinite(!neg), p + 8)
    else
      var m := ScanMantissa(s, p);
      if m.intEnd == p && m.fracEnd == m.fracStart then (NaN, 0)
      else
        var magnitude := MantissaValue(s, p, m);
        var (e, end) := ScanExponent(s, m.fracEnd);
        var v := Scale(magnitude, e);
        (Finite(if neg then -v else v), end)
  }

  /** Global `parseFloat(s)`. */
  function ParseFloat(s: string): Num {
    ScanDecimal(TrimStart(s)).0
  }

  /** A non-decimal integer literal `0x..`, `0o..` or `0b..` filling all of `t`. */
  function ScanRadix(t: string): Num {
    if |t| >= 3 && t[0] == '0' && (t[1] in "xXoObB") then
      var base := if t[1] in "xX" then 16 else if t[1] in "oO" then 8 else 2;
      var digits := t[2..];
      if AllDigitsIn(digits, base) then Finite(DigitsValue(digits, base) as real) else NaN
    else NaN
  }

  /** `Number(s)` for a string: blank text is 0, otherwise the whole trimmed
      text must be one numeric literal. */
  function StringToNumber(s: string): Num {
    var t := Trim(s);
    if t == [] then Finite(0.0)
    else if ScanRadix(t) != NaN then ScanRadix(t)
    else
      var (v, n) := ScanDecimal(t);
      if n == |t| then v else NaN
  }

  /** A number that is not below zero, as `parseFloat` can return it. */
  predicate NotNegative(n: Num) {
    match n
    case Finite(v) => v >= 0.0
    case Infinite(pos) => pos
    case NaN => true
  }

  lemma ScaleNonNegative(m: real, e: int)
    requires m >= 0.0
    ensures Scale(m, e) >= 0.0
  {
  }

  /** Without a leading minus sign `parseFloat` never yields a negative number. */
  lemma ParseFloatNotNegative(s: string)
    requires TrimStart(s) == [] || TrimStart(s)[0] != '-'
    ensures NotNegative(ParseFloat(s))
  {
    var t := TrimStart(s);
    var p := SignLength(t);
    if !StartsWith(t[p..], "Infinity") {
      var m := ScanMantissa(t, p);
      var (e, end) := ScanExponent(t, m.fracEnd);
      ScaleNonNegative(MantissaValue(t, p, m), e);
    }
  }

  /** On text that starts with a digit or a '.', `parseFloat` reads an
      unsigned mantissa and an optional exponent. */
  lemma ParseFloatUnsigned(s: string)
    requires s != [] && (IsDigitIn(s[0], 10) || s[0] == '.')
    ensures var m := ScanMantissa(s, 0);
      ParseFloat(s) == if m.intEnd == 0 && m.fracEnd == m.fracStart then NaN
                       else Finite(Scale(MantissaValue(s, 0, m), ScanExponent(s, m.fracEnd).0))
  {
    assert TrimStart(s) == s;
    assert SignLength(s) == 0;
    assert s[0..] == s;
  }

  /** The value of the decimal `ip.fp`. */
  function DecimalValue(ip: string, fp: string): real
    requires AllDigitsIn(ip, 10) && AllDigitsIn(fp, 10)
  {
    DigitsValue(ip, 10) as real + DigitsValue(fp, 10) as real / Pow10(|fp|)
  }

  /** `parseFloat` of `int "." frac`, both digit strings and not both empty,
      followed by anything that is not a digit or an exponent mark, is the
      decimal they spell. */
  lemma ParseFloatDecimal(ip: string, fp: string, rest: string)
    requires AllDigitsIn(ip, 10) && AllDigitsIn(fp, 10) && (ip != [] || fp != [])
    requires rest == [] || (!IsDigitIn(rest[0], 10) && rest[0] != 'e' && rest[0] != 'E')
    ensures ParseFloat(ip + "." + fp + rest) == Finite(DecimalValue(ip, fp))
  {
    var s := ip + "." + fp + rest;
    var n := |ip|;
    DecimalMantissa(ip, fp, rest);
    var m := ScanMantissa(s, 0);
    ParseFloatUnsigned(s);
    assert ScanExponent(s, m.fracEnd) == (0, m.fracEnd);
    ScaleZero(MantissaValue(s, 0, m));
  }

  /** The mantissa scanned from `ip "." fp rest` is exactly `ip.fp`. */
  lemma DecimalMantissa(ip: string, fp: string, rest: string)
    requires AllDigitsIn(ip, 10) && AllDigitsIn(fp, 10) && (ip != [] || fp != [])
    requires rest == [] || !IsDigitIn(rest[0], 10)
    ensures var s := ip + "." + fp + rest;
      && (IsDigitIn(s[0], 10) || s[0] == '.')
      && ScanMantissa(s, 0) == Mantissa(|ip|, |ip| + 1, |ip| + 1 + |fp|)
      && MantissaValue(s, 0, ScanMantissa(s, 0)) == DecimalValue(ip, fp)
      && (rest != [] ==> s[|ip| + 1 + |fp|] == rest[0])
  {
    var s := ip + "." + fp + rest;
    var n := |ip|;
    DecimalLayout(ip, fp, rest);
    DigitRunAt(s, 0, ip, "." + fp + rest);
    DigitRunAt(s, n + 1, fp, rest);
  }

  lemma DecimalLayout(ip: string, fp: string, rest: string)
    ensures var s := ip + "." + fp + rest;
      && s[|ip|] == '.' && s[0..] == ip + ("." + fp + rest) && s[|ip| + 1..] == fp + rest
      && s[0..|ip|] == ip && s[|ip| + 1..|ip| + 1 + |fp|] == fp
      && (rest != [] ==> s[|ip| + 1 + |fp|] == rest[0])
  {
    var s := ip + "." + fp + rest;
    assert s == ip + ("." + fp + rest);
    assert s[|ip| + 1..] == fp + rest;
  }

  /** Replacing the first ',' of `int "," frac`, both digit strings, gives
      the decimal text `int "." frac`. */
  lemma CommaDecimal(ip: string, fp: string)
    requires AllDigitsIn(ip, 10) && AllDigitsIn(fp, 10)
    ensures ReplaceFirst(ip + "," + fp, ',', '.') == ip + "." + fp
  {
    var s := ip + "," + fp;
    assert forall k :: 0 <= k < |ip| ==> s[k] == ip[k] && s[k] != ',';
    assert s[|ip|] == ',';
    assert FirstIndex(s, ',') == |ip|;
    assert s[..|ip|] == ip && s[|ip| + 1..] == fp;
  }

  /** `Number` of the decimal text `int "." frac` (digit strings, not both
      empty) is the decimal they spell: the whole text is one literal. */
  lemma StringToNumberDecimal(ip: string, fp: string)
    requires AllDigitsIn(ip, 10) && AllDigitsIn(fp, 10) && (ip != [] || fp != [])
    ensures StringToNumber(ip + "." + fp) == Finite(DecimalValue(ip, fp))
  {
    DecimalTextEnds(ip, fp);
    DecimalTextScan(ip, fp);
  }

  /** The decimal text starts and ends with a digit or its '.', so it has no
      surrounding white space and is not a radix literal. */
  lemma DecimalTextEnds(ip: string, fp: string)
    requires AllDigitsIn(ip, 10) && AllDigitsIn(fp, 10)
    ensures var s := ip + "." + fp;
            Trim(s) == s && ScanRadix(s) == NaN && (s[0] == '.' || IsDigitIn(s[0], 10))
  {
    var s := ip + "." + fp;
    assert s[0] == '.' || IsDigitIn(s[0], 10) by {
      if ip != [] { assert s[0] == ip[0]; }
    }
    assert s[|s| - 1] == '.' || IsDigitIn(s[|s| - 1], 10) by {
      if fp != [] { assert s[|s| - 1] == fp[|fp| - 1]; }
    }
    NumericEndsUntrimmed(s);
    if |s| >= 3 {
      assert s[1] == '.' || IsDigitIn(s[1], 10) by {
        if |ip| >= 2 { assert s[1] == ip[1]; }
        else if |ip| == 0 { assert s[1] == fp[0]; }
      }
    }
  }

  /** Text that starts and ends with a digit or a '.' trims to itself. */
  lemma NumericEndsUntrimmed(s: string)
    requires s != []
    requires s[0] == '.' || IsDigitIn(s[0], 10)
    requires s[|s| - 1] == '.' || IsDigitIn(s[|s| - 1], 10)
    ensures Trim(s) == s
  {
    assert !IsSpace(s[0]) && !IsSpace(s[|s| - 1]);
    assert TrimStart(s) == s;
  }

  /** The decimal scan of the decimal text takes all of it. */
  lemma DecimalTextScan(ip: string, fp: string)
    requires AllDigitsIn(ip, 10) && AllDigitsIn(fp, 10) && (ip != [] || fp != [])
    ensures var s := ip + "." + fp;
            ScanDecimal(s) == (Finite(DecimalValue(ip, fp)), |s|)
  {
    var s := ip + "." + fp;
    assert ip + "." + fp + [] == s;
    DecimalMantissa(ip, fp, []);
    var m := ScanMantissa(s, 0);
    assert m.fracEnd == |s|;
    assert SignLength(s) == 0 && s[0..] == s;
    assert !StartsWith(s, "Infinity");
    ScaleZero(MantissaValue(s, 0, m));
  }

  /** `parseFloat` of a digit string followed by a non-numeric rest is its value. */
  lemma ParseFloatInteger(ip: string, rest: string)
    requires AllDigitsIn(ip, 10) && ip != []
    requires rest == [] || (!IsDigitIn(rest[0], 10) && rest[0] != '.' && rest[0] != 'e' && rest[0] != 'E')
    ensures ParseFloat(ip + rest) == Finite(DigitsValue(ip, 10) as real)
  {
    var s := ip + rest;
    IntegerMantissa(ip, rest);
    var m := ScanMantissa(s, 0);
    ParseFloatUnsigned(s);
    assert ScanExponent(s, m.fracEnd) == (0, m.fracEnd);
    ScaleZero(MantissaValue(s, 0, m));
  }

  /** The mantissa scanned from `ip rest` is the integer `ip`, with no fraction. */
  lemma IntegerMantissa(ip: string, rest: string)
    requires AllDigitsIn(ip, 10) && ip != []
    requires rest == [] || (!IsDigitIn(rest[0], 10) && rest[0] != '.')
    ensures var s := ip + rest;
      && IsDigitIn(s[0], 10)
      && ScanMantissa(s, 0) == Mantissa(|ip|, |ip|, |ip|)
      && MantissaValue(s, 0, ScanMantissa(s, 0)) == DigitsValue(ip, 10) as real
      && (rest != [] ==> s[|ip|] == rest[0])
  {
    var s := ip + rest;
    var n := |ip|;
    IntegerLayout(ip, rest);
    DigitRunAt(s, 0, ip, rest);
    assert DigitsValue(s[n..n], 10) == 0 && Pow10(0) == 1.0;
  }

  lemma ScaleZero(v: real)
    ensures Scale(v, 0) == v
  {
    assert Pow10(0) == 1.0;
  }

  lemma IntegerLayout(ip: string, rest: string)
    requires ip != []
    ensures var s := ip + rest;
      && s[0] == ip[0] && s[0..] == ip + rest && s[0..|ip|] == ip && s[|ip|..|ip|] == []
      && (rest != [] ==> s[|ip|] == rest[0])
  {
  }

  /** The digit run starting at `i` ends exactly after the digits `d` when what
      follows them is not a digit. */
  lemma {:induction false} DigitRunAt(s: string, i: nat, d: string, rest: string)
    requires AllDigitsIn(d, 10)
    requires i <= |s| && s[i..] == d + rest
    requires rest == [] || !IsDigitIn(rest[0], 10)
    ensures DigitRun(s, i, 10) == i + |d|
    decreases |d|
  {
    if d != [] {
      assert s[i] == d[0];
      assert s[i + 1..] == d[1..] + rest;
      DigitRunAt(s, i + 1, d[1..], rest);
    } else if rest != [] {
      assert s[i] == rest[0];
    }
  }
}
