/**
 * The values VRToolkit keeps for ReShade, how one setting is rendered into a preset INI line,
 * and how the text of such a line is read back into a value.
 */
module VrToolkitIni {
  import opened Common

  /**
   * A Python value as the preset handles it: a bool, an int, a float (kept in millionths; the
   * preset writes floats with six decimals) or a string.
   */
  datatype Value = Bool(b: bool) | IntVal(i: int) | FloatVal(micro: int) | Str(s: string)

  const MICRO: nat := 1000000

  /** Python truthiness. */
  predicate Truthy(v: Value) {
    match v
    case Bool(b) => b
    case IntVal(i) => i != 0
    case FloatVal(m) => m != 0
    case Str(s) => s != ""
  }

  function Number(v: Value): real
    requires !v.Str?
  {
    match v
    case Bool(b) => if b then 1.0 else 0.0
    case IntVal(i) => i as real
    case FloatVal(m) => m as real / MICRO as real
  }

  /** Python `==` between two such values: numbers compare by value across bool, int and float. */
  predicate PyEq(a: Value, b: Value) {
    if a.Str? || b.Str? then a == b else Number(a) == Number(b)
  }

  /** An ordered Python dict from setting names to values. */
  type Dict = seq<(string, Value)>

  function Keys(d: Dict): (r: seq<string>)
    ensures |r| == |d| && forall i :: 0 <= i < |d| ==> r[i] == d[i].0
  {
    seq(|d|, i requires 0 <= i < |d| => d[i].0)
  }

  /** Python `d.get(k)`. */
  function Lookup(d: Dict, k: string): (r: Option<Value>)
    ensures r.Some? <==> k in Keys(d)
    decreases |d|
  {
    if d == [] then None
    else if d[0].0 == k then Some(d[0].1)
    else
      assert Keys(d) == [d[0].0] + Keys(d[1..]);
      Lookup(d[1..], k)
  }

  /** Python `d[k] = v` for a key already present: the value changes, the order does not. */
  function Set(d: Dict, k: string, v: Value): (r: Dict)
    ensures |r| == |d| && Keys(r) == Keys(d)
    ensures forall i :: 0 <= i < |d| ==> r[i] == (if d[i].0 == k then (k, v) else d[i])
  {
    seq(|d|, i requires 0 <= i < |d| => if d[i].0 == k then (k, v) else d[i])
  }

  /** Every key occurs once, as in a Python dict. */
  predicate UniqueKeys(d: Dict) {
    forall i, j :: 0 <= i < j < |d| ==> d[i].0 != d[j].0
  }

  /** Unique keys depend on the keys alone. */
  lemma SameKeysUnique(d: Dict, e: Dict)
    requires Keys(d) == Keys(e) && UniqueKeys(d)
    ensures UniqueKeys(e)
  {
    forall i, j | 0 <= i < j < |e|
      ensures e[i].0 != e[j].0
    {
      assert e[i].0 == Keys(e)[i] == d[i].0;
      assert e[j].0 == Keys(e)[j] == d[j].0;
    }
  }

  lemma {:induction false} LookupAt(d: Dict, i: nat)
    requires UniqueKeys(d) && i < |d|
    ensures Lookup(d, d[i].0) == Some(d[i].1)
    decreases i
  {
    if i > 0 {
      LookupAt(d[1..], i - 1);
    }
  }

  /** Setting a present key is seen by a lookup of that key and by no other lookup. */
  lemma {:induction false} LookupSet(d: Dict, k: string, v: Value, q: string)
    ensures Lookup(Set(d, k, v), q) == if q == k && k in Keys(d) then Some(v) else Lookup(d, q)
    decreases |d|
  {
    if d != [] {
      var s := Set(d, k, v);
      assert s[0] == (if d[0].0 == k then (k, v) else d[0]);
      assert s[1..] == Set(d[1..], k, v);
      assert Keys(d) == [d[0].0] + Keys(d[1..]);
      LookupSet(d[1..], k, v, q);
    }
  }

  function Pow10(e: nat): (r: nat)
    ensures r >= 1
  {
    if e == 0 then 1 else 10 * Pow10(e - 1)
  }

  /** `x` followed by `e` zeros. */
  function Shift(x: nat, e: nat): nat {
    if e == 0 then x else 10 * Shift(x, e - 1)
  }

  /** The last `w` decimal digits of `n`, with leading zeros. */
  function FixedDigits(n: nat, w: nat): (r: string)
    ensures |r| == w
    ensures forall i :: 0 <= i < |r| ==> '0' <= r[i] <= '9'
  {
    if w == 0 then "" else FixedDigits(n / 10, w - 1) + [DigitChar(n % 10)]
  }

  /** Reading back the digits gives the number, when it fits the width. */
  lemma {:induction false} FixedDigitsValue(n: nat, w: nat)
    requires n < Pow10(w)
    ensures DigitsValue(FixedDigits(n, w)) == n
  {
    if w > 0 {
      var s := FixedDigits(n, w);
      assert s[..|s| - 1] == FixedDigits(n / 10, w - 1);
      FixedDigitsValue(n / 10, w - 1);
      assert s[|s| - 1] == DigitChar(n % 10);
      DigitCharValue(n % 10);
    }
  }

  lemma DigitCharValue(d: nat)
    requires d < 10
    ensures DigitChar(d) as int - '0' as int == d
  {
  }

  function Abs(m: int): nat {
    if m < 0 then -m else m
  }

  function Sign(m: int): string {
    if m < 0 then "-" else ""
  }

  /** Python `f"{x:.6f}"` for a float of `micro` millionths. */
  function SixDecimals(micro: int): string {
    Sign(micro) + PointedDigits(Abs(micro))
  }

  /** The unsigned part of that rendering: the whole units, a point and six decimals. */
  function PointedDigits(n: nat): string {
    NatToString(n / MICRO) + "." + FixedDigits(n % MICRO, 6)
  }

  /** Digits with the trailing zeros removed, but never all of them. */
  function TrimZeros(s: string): (r: string)
    requires |s| >= 1
    ensures 1 <= |r| <= |s| && r == s[..|r|]
    decreases |s|
  {
    if |s| > 1 && s[|s| - 1] == '0' then TrimZeros(s[..|s| - 1]) else s
  }

  /** Python `str(x)` for a float of `micro` millionths: its shortest decimal, at least one fraction digit. */
  function FloatText(micro: int): string {
    Sign(micro) + NatToString(Abs(micro) / MICRO) + "." + TrimZeros(FixedDigits(Abs(micro) % MICRO, 6))
  }

  /** Python `str(v)`. */
  function PyStr(v: Value): string {
    match v
    case Bool(b) => if b then "True" else "False"
    case IntVal(i) => IntToString(i)
    case FloatVal(m) => FloatText(m)
    case Str(s) => s
  }

  /**
   * `_add_ini_value_line`: strings, ints and bools (a Python bool is an int) as `key=value`,
   * floats with six decimals; each line ends in a newline.
   */
  function IniValueLine(k: string, v: Value): string {
    k + "=" + IniText(v) + "\n"
  }

  function IniText(v: Value): string {
    if v.FloatVal? then SixDecimals(v.micro) else PyStr(v)
  }

  /** What `line.split("=", 1)` gives: the text before the first `=` and the text after it. */
  function SplitKey(line: string): (r: Option<(string, string)>)
    ensures r.Some? <==> '=' in line
    ensures r.Some? ==> '=' !in r.value.0 && line == r.value.0 + "=" + r.value.1
    decreases |line|
  {
    if line == [] then None
    else if line[0] == '=' then Some(("", line[1..]))
    else
      match SplitKey(line[1..])
      case None => None
      case Some((k, v)) => Some(([line[0]] + k, v))
  }

  lemma {:induction false} SplitKeyOf(k: string, rest: string)
    requires '=' !in k
    ensures SplitKey(k + "=" + rest) == Some((k, rest))
    decreases |k|
  {
    if k == [] {
      assert k + "=" + rest == ['='] + rest;
    } else {
      var line := k + "=" + rest;
      assert line[0] == k[0] && line[1..] == k[1..] + "=" + rest;
      SplitKeyOf(k[1..], rest);
      assert [k[0]] + k[1..] == k;
    }
  }

  predicate IsWhitespace(c: char) {
    c == ' ' || c == '\t' || c == '\n' || c == '\r'
  }

  /** Python `s.strip()` for the ASCII whitespace a line can carry. */
  function Strip(s: string): (r: string)
    ensures |r| <= |s|
    decreases |s|
  {
    if s != [] && IsWhitespace(s[0]) then Strip(s[1..])
    else if s != [] && IsWhitespace(s[|s| - 1]) then Strip(s[..|s| - 1])
    else s
  }

  /** Only digits, possibly none. */
  predicate AllDigits(s: string) {
    forall i :: 0 <= i < |s| ==> '0' <= s[i] <= '9'
  }

  /**
   * An unsigned decimal as Python `float()` reads it, in millionths: digits, or digits, a point
   * and at most six digits. Other spellings Python accepts (exponents, more decimals) give None.
   */
  function ParseDecimal(u: string): Option<int> {
    var parts := Split(u, '.');
    if |parts| == 1 && IsNumeric(u) then Some(DigitsValue(u) * MICRO)
    else if |parts| == 2 && AllDigits(parts[0]) && AllDigits(parts[1]) && |parts[1]| <= 6
            && (parts[0] != "" || parts[1] != "") then
      Some(DigitsValue(parts[0]) * MICRO + Shift(DigitsValue(parts[1]), 6 - |parts[1]|))
    else None
  }

  /** Python `float(s)`, in millionths; None where Python raises (or spellings not modelled). */
  function ParseFloat(s: string): Option<int> {
    var t := Strip(s);
    if t != [] && t[0] == '-' then
      match ParseDecimal(t[1..]) case Some(m) => Some(-m) case None => None
    else if t != [] && t[0] == '+' then ParseDecimal(t[1..])
    else ParseDecimal(t)
  }

  /**
   * How `_read_preset_ini` turns the text after `key=` into a value, as written: an int when the
   * text is all digits, a float when the part before the first point is, a string otherwise.
   * None is Python's ValueError from `float()`. The text still carries the line's newline.
   */
  function ConvertAsWritten(value: string): Option<Value> {
    if IsNumeric(Split(value, '.')[0]) then
      if IsNumeric(value) then Some(IntVal(DigitsValue(value)))
      else match ParseFloat(value) case Some(m) => Some(FloatVal(m)) case None => None
    else Some(Str(value))
  }

  /** The text without one leading minus sign. */
  function Unsigned(s: string): string {
    if s != [] && s[0] == '-' then s[1..] else s
  }

  /**
   * The conversion the reader evidently intends: the same tests on the text with its line end
   * stripped, and a leading minus sign allowed, so that every number the writer renders comes
   * back as that number.
   */
  function ConvertCorrected(value: string): Option<Value> {
    ConvertStripped(Strip(value))
  }

  function ConvertStripped(t: string): Option<Value> {
    var u := Unsigned(t);
    if IsNumeric(Split(u, '.')[0]) then
      if IsNumeric(u) then
        var n: int := DigitsValue(u);
        Some(IntVal(if u == t then n else -n))
      else match ParseFloat(t) case Some(m) => Some(FloatVal(m)) case None => None
    else Some(Str(t))
  }

  /** The conversion a reader applies to the text after `key=`: the program's, or the intended one. */
  datatype Conversion = AsWritten | Corrected

  function Convert(conv: Conversion, value: string): Option<Value> {
    match conv
    case AsWritten => ConvertAsWritten(value)
    case Corrected => ConvertCorrected(value)
  }

  /** The text after `key=` of a line. */
  function ValueText(line: string): string {
    match SplitKey(line) case Some((_, v)) => v case None => ""
  }

  /** An int setting: `ClarityRadiusTwo=3` is read back as the string "3\n", not the int 3. */
  lemma IntSettingReadAsString()
    ensures IniValueLine("ClarityRadiusTwo", IntVal(3)) == "ClarityRadiusTwo=3\n"
    ensures ConvertAsWritten(ValueText("ClarityRadiusTwo=3\n")) == Some(Str("3\n"))
  {
    IntSettingLine();
    IntSettingValueText();
    DigitLineReadAsString();
  }

  lemma IntSettingLine()
    ensures IniValueLine("ClarityRadiusTwo", IntVal(3)) == "ClarityRadiusTwo=3\n"
  {
    assert NatToString(3) == "3";
  }

  lemma IntSettingValueText()
    ensures ValueText("ClarityRadiusTwo=3\n") == "3\n"
  {
    ValueTextSplit("ClarityRadiusTwo=3\n", "ClarityRadiusTwo", "3\n");
  }

  lemma DigitLineReadAsString()
    ensures ConvertAsWritten("3\n") == Some(Str("3\n"))
  {
    SplitNoSep("3\n", '.');
    assert !IsNumeric("3\n") by {
      assert "3\n"[1] == '\n';
    }
  }

  /** The text after `key=`. */
  lemma ValueTextSplit(line: string, k: string, rest: string)
    requires '=' !in k && line == k + "=" + rest
    ensures ValueText(line) == rest
  {
    SplitKeyOf(k, rest);
  }

  /** A negative float setting is rendered with its sign and six decimals. */
  lemma NegativeSettingLine()
    ensures IniValueLine("CS_Contrast", FloatVal(-500000)) == "CS_Contrast=-0.500000\n"
  {
    SixDecimalsHalf();
  }

  lemma SixDecimalsHalf()
    ensures SixDecimals(-500000) == "-0.500000"
  {
    FixedDigitsHalf();
    assert NatToString(0) == "0";
    assert 500000 / MICRO == 0 && 500000 % MICRO == 500000;
    assert PointedDigits(500000) == "0" + "." + "500000";
  }

  lemma FixedDigitsHalf()
    ensures FixedDigits(500000, 6) == "500000"
  {
    assert FixedDigits(5, 1) == "5";
    assert FixedDigits(50, 2) == "50";
    assert FixedDigits(500, 3) == "500";
    assert FixedDigits(5000, 4) == "5000";
    assert FixedDigits(50000, 5) == "50000";
  }

  /** A negative float: `CS_Contrast=-0.500000` is read back as a string, not a float. */
  lemma NegativeSettingReadAsString()
    ensures ConvertAsWritten(ValueText("CS_Contrast=-0.500000\n")) == Some(Str("-0.500000\n"))
  {
    ValueTextSplit("CS_Contrast=-0.500000\n", "CS_Contrast", "-0.500000\n");
    NegativeTextReadAsString();
  }

  lemma NegativeTextReadAsString()
    ensures ConvertAsWritten("-0.500000\n") == Some(Str("-0.500000\n"))
  {
    SplitNegativeText();
    assert !IsNumeric("-0") by {
      assert "-0"[0] == '-';
    }
  }

  lemma SplitNegativeText()
    ensures Split("-0.500000\n", '.') == ["-0", "500000\n"]
  {
    assert "-0.500000\n" == "-0" + "." + "500000\n";
    assert '.' !in "-0" && '.' !in "500000\n";
    SplitAtPoint("-0", "500000\n");
  }

  /** Stripping a line end from a text that has no whitespace at its ends gives the text. */
  lemma StripLineEnd(t: string)
    requires t != [] && !IsWhitespace(t[0]) && !IsWhitespace(t[|t| - 1])
    ensures Strip(t + "\n") == t && Strip(t) == t
  {
    assert (t + "\n")[..|t|] == t;
  }

  /** Splitting `a.rest` at points, when neither part holds one. */
  lemma SplitAtPoint(a: string, rest: string)
    requires '.' !in a && '.' !in rest
    ensures Split(a + "." + rest, '.') == [a, rest]
  {
    assert a + "." + rest == a + ['.'] + rest;
    SplitAppend(a, rest, '.');
    SplitNoSep(rest, '.');
  }

  lemma DigitsNoPoint(s: string)
    requires AllDigits(s)
    ensures '.' !in s
  {
  }

  /** A decimal already split at its point. */
  lemma ParseSplit(u: string, a: string, f: string)
    requires Split(u, '.') == [a, f]
    requires AllDigits(a) && a != [] && |f| == 6 && AllDigits(f)
    ensures ParseDecimal(u) == Some(DigitsValue(a) * MICRO + DigitsValue(f))
  {
    var parts := Split(u, '.');
    assert |parts| == 2 && parts[0] == a && parts[1] == f;
    assert Shift(DigitsValue(f), 6 - |f|) == DigitsValue(f);
  }

  /** Digits, a point and six digits read as a decimal. */
  lemma ParsePointed(a: string, f: string)
    requires IsNumeric(a) && |f| == 6 && AllDigits(f)
    ensures ParseDecimal(a + "." + f) == Some(DigitsValue(a) * MICRO + DigitsValue(f))
  {
    DigitsNoPoint(a);
    DigitsNoPoint(f);
    SplitAtPoint(a, f);
    ParseSplit(a + "." + f, a, f);
  }

  /** What the reader sees in an unsigned six-decimal rendering followed by `suffix`. */
  lemma PointedDigitsFacts(n: nat, suffix: string)
    requires '.' !in suffix
    ensures var u := PointedDigits(n);
            u != [] && '0' <= u[0] <= '9' && '0' <= u[|u| - 1] <= '9'
            && IsNumeric(Split(u + suffix, '.')[0]) && !IsNumeric(u + suffix)
            && ParseDecimal(u) == Some(n)
  {
    PointedDigitsValue(n);
    PointedDigitsSplit(n, suffix);
    PointedDigitsEnds(n, suffix);
  }

  /** The whole units and the six decimals of the rendering. */
  lemma PointedDigitsParts(n: nat)
    ensures var a, f := NatToString(n / MICRO), FixedDigits(n % MICRO, 6);
            IsNumeric(a) && |f| == 6 && AllDigits(f) && DigitsValue(a) * MICRO + DigitsValue(f) == n
  {
    PointedDigitValues(n / MICRO, n % MICRO);
  }

  lemma PointedDigitsValue(n: nat)
    ensures ParseDecimal(PointedDigits(n)) == Some(n)
  {
    PointedDigitsParts(n);
    ParsePointedValue(NatToString(n / MICRO), FixedDigits(n % MICRO, 6), n);
  }

  lemma ParsePointedValue(a: string, f: string, n: nat)
    requires IsNumeric(a) && |f| == 6 && AllDigits(f)
    requires DigitsValue(a) * MICRO + DigitsValue(f) == n
    ensures ParseDecimal(a + "." + f) == Some(n)
  {
    ParsePointed(a, f);
  }

  lemma PointedDigitsSplit(n: nat, suffix: string)
    requires '.' !in suffix
    ensures IsNumeric(Split(PointedDigits(n) + suffix, '.')[0])
  {
    PointedDigitsParts(n);
    SplitPointed(NatToString(n / MICRO), FixedDigits(n % MICRO, 6), suffix);
  }

  lemma PointedDigitsEnds(n: nat, suffix: string)
    ensures var u := PointedDigits(n);
            u != [] && '0' <= u[0] <= '9' && '0' <= u[|u| - 1] <= '9' && !IsNumeric(u + suffix)
  {
    PointedDigitsParts(n);
    PointedNotNumeric(NatToString(n / MICRO), FixedDigits(n % MICRO, 6), suffix);
    PointedEnds(NatToString(n / MICRO), FixedDigits(n % MICRO, 6));
  }

  lemma PointedDigitValues(q: nat, r: nat)
    requires r < MICRO
    ensures var a, f := NatToString(q), FixedDigits(r, 6);
            IsNumeric(a) && |f| == 6 && AllDigits(f) && DigitsValue(a) == q && DigitsValue(f) == r
  {
    NatToStringRoundTrip(q);
    assert Pow10(6) == MICRO;
    FixedDigitsValue(r, 6);
  }

  lemma SplitPointed(a: string, f: string, suffix: string)
    requires IsNumeric(a) && AllDigits(f) && '.' !in suffix
    ensures Split(a + "." + f + suffix, '.') == [a, f + suffix]
    ensures IsNumeric(Split(a + "." + f + suffix, '.')[0])
  {
    DigitsNoPoint(a);
    DigitsNoPoint(f);
    assert '.' !in f + suffix;
    SplitAtPoint(a, f + suffix);
    assert a + "." + (f + suffix) == a + "." + f + suffix;
  }

  lemma PointedNotNumeric(a: string, f: string, suffix: string)
    ensures !IsNumeric(a + "." + f + suffix)
  {
    assert (a + "." + f + suffix)[|a|] == '.';
  }

  lemma PointedEnds(a: string, f: string)
    requires IsNumeric(a) && f != [] && AllDigits(f)
    ensures var u := a + "." + f; '0' <= u[0] <= '9' && '0' <= u[|u| - 1] <= '9'
  {
    LastOfConcat(a + ".", f);
  }

  lemma ValueTextOfLine(k: string, v: Value)
    requires '=' !in k
    ensures ValueText(IniValueLine(k, v)) == IniText(v) + "\n"
  {
    SplitKeyOf(k, IniText(v) + "\n");
    assert IniValueLine(k, v) == k + "=" + (IniText(v) + "\n");
  }

  lemma LastOfConcat(a: string, b: string)
    requires b != []
    ensures (a + b)[|a + b| - 1] == b[|b| - 1]
  {
  }

  /** The corrected reading of an int rendering. */
  lemma StrippedInt(n: int)
    ensures ConvertStripped(IntToString(n)) == Some(IntVal(n))
  {
    var a := NatToString(Abs(n));
    NatToStringRoundTrip(Abs(n));
    SplitNoSep(a, '.');
    if n < 0 {
      assert Unsigned(IntToString(n)) == a;
    }
  }




  /** With the corrected reading, every int rendering reads back as that int. */
  lemma CorrectedIntRoundTrip(k: string, n: int)
    requires '=' !in k
    ensures ConvertCorrected(ValueText(IniValueLine(k, IntVal(n)))) == Some(IntVal(n))
  {
    ValueTextOfLine(k, IntVal(n));
    CorrectedIntText(n);
  }

  lemma CorrectedIntText(n: int)
    ensures ConvertCorrected(IntToString(n) + "\n") == Some(IntVal(n))
  {
    IntEnds(n);
    StripLineEnd(IntToString(n));
    StrippedInt(n);
  }

  /** An int rendering starts with a sign or a digit and ends in a digit. */
  lemma IntEnds(n: int)
    ensures var t := IntToString(n); t != [] && !IsWhitespace(t[0]) && !IsWhitespace(t[|t| - 1])
  {
    if n < 0 {
      LastOfConcat("-", NatToString(-n));
    }
  }


  /** The corrected reading of a six-decimal rendering. */
  lemma StrippedFloat(m: int)
    ensures ConvertStripped(SixDecimals(m)) == Some(FloatVal(m))
  {
    PointedDigitsFacts(Abs(m), "");
    var u := PointedDigits(Abs(m));
    AppendEmpty(u);
    StrippedSigned(SixDecimals(m), m, u);
  }

  /** The sign of `m` and an unsigned decimal of its size read back as `m`. */
  lemma StrippedSigned(t: string, m: int, u: string)
    requires t == Sign(m) + u
    requires u != [] && '0' <= u[0] <= '9' && '0' <= u[|u| - 1] <= '9'
    requires IsNumeric(Split(u, '.')[0]) && !IsNumeric(u) && ParseDecimal(u) == Some(Abs(m))
    ensures ConvertStripped(t) == Some(FloatVal(m))
  {
    SignedValue(t, m, u);
    UnsignedOfSigned(t, m, u);
    StrippedFloatText(t, u, m);
  }

  lemma UnsignedOfSigned(t: string, m: int, u: string)
    requires t == Sign(m) + u
    requires u != [] && '0' <= u[0] <= '9'
    ensures Unsigned(t) == u
  {
  }

  /** A text whose unsigned part is a decimal with a point reads as the float `float()` makes of it. */
  lemma StrippedFloatText(t: string, u: string, y: int)
    requires Unsigned(t) == u
    requires IsNumeric(Split(u, '.')[0]) && !IsNumeric(u) && ParseFloat(t) == Some(y)
    ensures ConvertStripped(t) == Some(FloatVal(y))
  {
  }

  /** `float()` of the sign of `m` and a decimal of its size that starts and ends in a digit. */
  lemma SignedValue(t: string, m: int, u: string)
    requires t == Sign(m) + u
    requires u != [] && '0' <= u[0] <= '9' && '0' <= u[|u| - 1] <= '9'
    requires ParseDecimal(u) == Some(Abs(m))
    ensures ParseFloat(t) == Some(m)
  {
    assert t[|t| - 1] == u[|u| - 1];
    StripLineEnd(t);
    if m < 0 {
      assert t[1..] == u;
    } else {
      assert t == u;
    }
  }

  /** `float()` of a decimal that starts and ends in a digit. */
  lemma UnsignedValue(u: string, x: int)
    requires u != [] && '0' <= u[0] <= '9' && '0' <= u[|u| - 1] <= '9'
    requires ParseDecimal(u) == Some(x)
    ensures ParseFloat(u) == Some(x)
  {
    StripLineEnd(u);
  }

  /** `float()` ignores a line end. */
  lemma ParseLineEnd(t: string)
    requires t != [] && !IsWhitespace(t[0]) && !IsWhitespace(t[|t| - 1])
    ensures ParseFloat(t + "\n") == ParseFloat(t)
  {
    StripLineEnd(t);
  }

  /** With the corrected reading, every float rendering reads back as that float, signed or not. */
  lemma CorrectedFloatRoundTrip(k: string, m: int)
    requires '=' !in k
    ensures ConvertCorrected(ValueText(IniValueLine(k, FloatVal(m)))) == Some(FloatVal(m))
  {
    ValueTextOfLine(k, FloatVal(m));
    CorrectedFloatText(m);
  }

  lemma CorrectedFloatText(m: int)
    ensures ConvertCorrected(SixDecimals(m) + "\n") == Some(FloatVal(m))
  {
    SixDecimalsEnds(m);
    StripLineEnd(SixDecimals(m));
    StrippedFloat(m);
  }

  /** A six-decimal rendering starts with a sign or a digit and ends in a digit. */
  lemma SixDecimalsEnds(m: int)
    ensures var t := SixDecimals(m); t != [] && !IsWhitespace(t[0]) && !IsWhitespace(t[|t| - 1])
  {
    PointedDigitsEnds(Abs(m), "");
    var u := PointedDigits(Abs(m));
    LastOfConcat(Sign(m), u);
    assert SixDecimals(m)[0] == if m < 0 then '-' else u[0];
  }


  /** As written, a non-negative float does read back as itself: `float()` ignores the line end. */
  lemma AsWrittenFloatRoundTrip(k: string, m: int)
    requires '=' !in k && m >= 0
    ensures ConvertAsWritten(ValueText(IniValueLine(k, FloatVal(m)))) == Some(FloatVal(m))
  {
    ValueTextOfLine(k, FloatVal(m));
    AsWrittenPointed(m);
  }

  lemma AsWrittenPointed(m: int)
    requires m >= 0
    ensures ConvertAsWritten(SixDecimals(m) + "\n") == Some(FloatVal(m))
  {
    PointedDigitsFacts(m, "\n");
    var u := PointedDigits(m);
    Unsigned6(m);
    ParseLineEnd(u);
    UnsignedValue(u, m);
    AsWrittenFloatText(u, m);
  }

  lemma Unsigned6(m: int)
    requires m >= 0
    ensures SixDecimals(m) == PointedDigits(m)
  {
    assert Sign(m) == "";
  }

  /** A text with a point whose part before it is digits reads as the float `float()` makes of it. */
  lemma AsWrittenFloatText(u: string, y: int)
    requires IsNumeric(Split(u + "\n", '.')[0]) && !IsNumeric(u + "\n") && ParseFloat(u + "\n") == Some(y)
    ensures ConvertAsWritten(u + "\n") == Some(FloatVal(y))
  {
  }

  // ---------------------------------------------------------------------------------------
  // The preset file

  const PREPROCESSOR_NAME := "PreprocessorDefinitions"
  const PREPROCESSOR_PREFIX := PREPROCESSOR_NAME + "="
  const TECHNIQUES_NAME := "Techniques"
  const TECHNIQUES_SORTING := "TechniqueSorting"
  const VRT_SHADER := "VRToolkit.fx"
  const VRT_TECHNIQUE := "VRToolkit@" + VRT_SHADER
  const CLARITY_SHADER := "Clarity2.fx"
  const CLARITY_TECHNIQUE := "Clarity2@" + CLARITY_SHADER

  /** One preprocessor definition, `key=value`. */
  function Definition(p: (string, Value)): string {
    p.0 + "=" + PyStr(p.1)
  }

  function Definitions(d: Dict): (r: seq<string>)
    ensures |r| == |d| && forall i :: 0 <= i < |d| ==> r[i] == Definition(d[i])
  {
    seq(|d|, i requires 0 <= i < |d| => Definition(d[i]))
  }

  /** The first line of the preset: every preprocessor definition, in order, comma-joined. */
  function PreprocessorLine(d: Dict): string {
    PREPROCESSOR_PREFIX + Join(Definitions(d), ",") + "\n"
  }

  /** The Techniques and TechniqueSorting lines: VRToolkit, then Clarity when it is in use. */
  function TechniquesLine(name: string, useClarity: bool): string {
    name + "=" + VRT_TECHNIQUE + (if useClarity then "," + CLARITY_TECHNIQUE else "") + "\n"
  }

  /** A setting is written when it belongs to the section and differs from its default. */
  predicate Written(entry: (string, Value), defaults: Dict, keys: set<string>) {
    entry.0 in keys && !(Lookup(defaults, entry.0).Some? && PyEq(entry.1, Lookup(defaults, entry.0).value))
  }

  /** The settings of a section that are written, in the order of the settings dict. */
  function Changed(ini: Dict, defaults: Dict, keys: set<string>): (r: Dict)
    ensures forall i :: 0 <= i < |r| ==> r[i] in ini && Written(r[i], defaults, keys)
    ensures forall e :: e in ini && Written(e, defaults, keys) ==> e in r
    decreases |ini|
  {
    if ini == [] then []
    else
      var init := ini[..|ini| - 1];
      var last := ini[|ini| - 1];
      assert forall e :: e in ini ==> e in init || e == last;
      Changed(init, defaults, keys) + (if Written(last, defaults, keys) then [last] else [])
  }

  function ValueLines(d: Dict): (r: seq<string>)
    ensures |r| == |d| && forall i :: 0 <= i < |d| ==> r[i] == IniValueLine(d[i].0, d[i].1)
  {
    seq(|d|, i requires 0 <= i < |d| => IniValueLine(d[i].0, d[i].1))
  }

  /** The lines of one section's settings. */
  function SectionLines(ini: Dict, defaults: Dict, keys: set<string>): seq<string> {
    ValueLines(Changed(ini, defaults, keys))
  }

  const CLARITY_HEADER := "[" + CLARITY_SHADER + "]\n"
  const VRT_HEADER := "[" + VRT_SHADER + "]\n"

  /** The three header lines of the preset. */
  function HeaderLines(preprocessor: Dict, useClarity: bool): (r: seq<string>)
    ensures |r| == 3
  {
    [PreprocessorLine(preprocessor), TechniquesLine(TECHNIQUES_NAME, useClarity),
     TechniquesLine(TECHNIQUES_SORTING, useClarity)]
  }

  /** The Clarity section: a blank line, its header, its settings and another blank line. */
  function ClarityPart(ini: Dict, defaults: Dict, clarityKeys: set<string>, useClarity: bool): seq<string> {
    if useClarity then ["\n", CLARITY_HEADER] + SectionLines(ini, defaults, clarityKeys) + ["\n"] else []
  }

  /** The VRToolkit section: a blank line, its header and its settings. */
  function VrtPart(ini: Dict, defaults: Dict, vrtKeys: set<string>): seq<string> {
    ["\n", VRT_HEADER] + SectionLines(ini, defaults, vrtKeys)
  }

  /** `_update_preset_ini`: the lines of the preset file it writes. */
  function PresetLines(preprocessor: Dict, ini: Dict, defaults: Dict, vrtKeys: set<string>,
                       clarityKeys: set<string>, useClarity: bool): seq<string>
  {
    HeaderLines(preprocessor, useClarity) + ClarityPart(ini, defaults, clarityKeys, useClarity)
    + VrtPart(ini, defaults, vrtKeys)
  }

  /**
   * The layout of the preset: the three header lines; the Clarity section, only when Clarity is
   * used; the VRToolkit section, always, last.
   */
  lemma PresetLayout(pre: Dict, ini: Dict, defaults: Dict, vrtKeys: set<string>, clarityKeys: set<string>,
                     useClarity: bool)
    ensures var lines := PresetLines(pre, ini, defaults, vrtKeys, clarityKeys, useClarity);
            var clarity := SectionLines(ini, defaults, clarityKeys);
            var vrt := SectionLines(ini, defaults, vrtKeys);
            lines[0] == PreprocessorLine(pre)
            && lines[1] == TechniquesLine(TECHNIQUES_NAME, useClarity)
            && lines[2] == TechniquesLine(TECHNIQUES_SORTING, useClarity)
            && (useClarity ==> lines[3..6 + |clarity|] == ["\n", CLARITY_HEADER] + clarity + ["\n"])
            && (!useClarity ==> lines[3..] == ["\n", VRT_HEADER] + vrt)
            && lines[|lines| - |vrt| - 2..] == ["\n", VRT_HEADER] + vrt
  {
    var lines := PresetLines(pre, ini, defaults, vrtKeys, clarityKeys, useClarity);
    var head := HeaderLines(pre, useClarity);
    var mid := ClarityPart(ini, defaults, clarityKeys, useClarity);
    var tail := VrtPart(ini, defaults, vrtKeys);
    assert lines[..3] == head;
    assert lines[3..3 + |mid|] == mid;
    assert lines[|lines| - |tail|..] == tail;
  }

  /** Clarity is named in the technique lines exactly when it is used. */
  lemma TechniquesNameClarity(name: string, useClarity: bool)
    requires 'C' !in name
    ensures Contains(TechniquesLine(name, useClarity), CLARITY_TECHNIQUE) <==> useClarity
  {
    var line := TechniquesLine(name, useClarity);
    if useClarity {
      assert line == (name + "=" + VRT_TECHNIQUE + ",") + CLARITY_TECHNIQUE + "\n";
      ContainsInfix(name + "=" + VRT_TECHNIQUE + ",", CLARITY_TECHNIQUE, "\n");
    } else {
      assert 'C' !in VRT_TECHNIQUE;
      assert 'C' !in line;
      NotContainsFirst(line, CLARITY_TECHNIQUE);
    }
  }

  lemma {:induction false} ContainsInfix(a: string, b: string, c: string)
    ensures Contains(a + b + c, b)
    decreases |a|
  {
    if a == [] {
      assert (a + b + c)[..|b|] == b;
    } else {
      assert (a + b + c)[1..] == a[1..] + b + c;
      ContainsInfix(a[1..], b, c);
    }
  }

  lemma {:induction false} NotContainsFirst(s: string, needle: string)
    requires needle != [] && needle[0] !in s
    ensures !Contains(s, needle)
    decreases |s|
  {
    if s != [] {
      assert s[0] != needle[0];
      NotContainsFirst(s[1..], needle);
    }
  }

  /** `line` is the line of a setting of `ini` that a section with `keys` writes. */
  predicate LineOfWritten(line: string, ini: Dict, defaults: Dict, keys: set<string>) {
    exists e :: e in ini && Written(e, defaults, keys) && line == IniValueLine(e.0, e.1)
  }

  /** Every line of a section is a written setting of that section, and every such setting has its line. */
  lemma SectionLinesExact(ini: Dict, defaults: Dict, keys: set<string>)
    ensures forall line :: line in SectionLines(ini, defaults, keys) ==> LineOfWritten(line, ini, defaults, keys)
    ensures forall e :: e in ini && Written(e, defaults, keys) ==>
              IniValueLine(e.0, e.1) in SectionLines(ini, defaults, keys)
  {
    var ch := Changed(ini, defaults, keys);
    var lines := SectionLines(ini, defaults, keys);
    forall line | line in lines
      ensures LineOfWritten(line, ini, defaults, keys)
    {
      var i :| 0 <= i < |lines| && lines[i] == line;
      var e := ch[i];
      assert e in ini && Written(e, defaults, keys) && line == IniValueLine(e.0, e.1);
    }
    forall e | e in ini && Written(e, defaults, keys)
      ensures IniValueLine(e.0, e.1) in lines
    {
      var k :| 0 <= k < |ch| && ch[k] == e;
      assert lines[k] == IniValueLine(e.0, e.1);
    }
  }

  // ---------------------------------------------------------------------------------------
  // Reading the preset file back

  /** The definitions of a preprocessor line: the `PreprocessorDefinitions=` and the newlines removed, wherever they occur. */
  function DefinitionsText(line: string): string {
    ReplaceAll(ReplaceAll(line, PREPROCESSOR_PREFIX, ""), "\n", "")
  }

  /**
   * One definition: `key, value = p_def.split("=", 2)`, which raises (None) unless the text holds
   * exactly one `=`; a known key stores the value, as an int when it is all digits.
   */
  function ReadDefinition(pre: Dict, def: string): (r: Option<Dict>)
    ensures r.Some? ==> Keys(r.value) == Keys(pre)
  {
    match SplitKey(def)
    case None => None
    case Some((k, v)) =>
      if '=' in v then None
      else if k in Keys(pre) then Some(Set(pre, k, if IsNumeric(v) then IntVal(DigitsValue(v)) else Str(v)))
      else Some(pre)
  }

  /** The definitions from index `j` on; the flag says one of them raised, the dict is what was stored until then. */
  function ReadDefinitions(pre: Dict, defs: seq<string>, j: nat): (r: (Dict, bool))
    requires j <= |defs|
    ensures Keys(r.0) == Keys(pre)
    decreases |defs| - j
  {
    if j == |defs| then (pre, false)
    else match ReadDefinition(pre, defs[j])
      case None => (pre, true)
      case Some(next) => ReadDefinitions(next, defs, j + 1)
  }

  /** What the reader has gathered: the preprocessor values, the settings, and whether Clarity was seen. */
  datatype Reading = Reading(preprocessor: Dict, ini: Dict, clarityFound: bool)

  /**
   * The settings half of reading a line: the setting named before its first `=`, its text converted
   * as `conv` says (the program reads with `AsWritten`); None where `float()` raises.
   */
  function ReadIniLine(conv: Conversion, ini: Dict, line: string): (r: Option<Dict>)
    ensures r.Some? ==> Keys(r.value) == Keys(ini)
  {
    match SplitKey(line)
    case None => Some(ini)
    case Some((k, v)) =>
      if k in Keys(ini) then
        match Convert(conv, v) case None => None case Some(x) => Some(Set(ini, k, x))
      else Some(ini)
  }

  /** A Techniques line that names the Clarity technique. */
  predicate NamesClarity(line: string) {
    StartsWith(line, TECHNIQUES_NAME) && Contains(line, CLARITY_TECHNIQUE)
  }

  /** One line of the preset; the flag says it raised, and the reading is what was stored until then. */
  function ReadLine(conv: Conversion, st: Reading, line: string): (r: (Reading, bool))
    ensures Keys(r.0.preprocessor) == Keys(st.preprocessor) && Keys(r.0.ini) == Keys(st.ini)
    ensures !r.1 ==> r.0.clarityFound == (st.clarityFound || NamesClarity(line))
  {
    var defs := if StartsWith(line, PREPROCESSOR_NAME)
                then ReadDefinitions(st.preprocessor, Split(DefinitionsText(line), ','), 0)
                else (st.preprocessor, false);
    if defs.1 then (st.(preprocessor := defs.0), true)
    else
      var found := st.clarityFound || NamesClarity(line);
      match ReadIniLine(conv, st.ini, line)
      case None => (Reading(defs.0, st.ini, found), true)
      case Some(ini) => (Reading(defs.0, ini, found), false)
  }

  /** The lines from index `i` on, stopping at the first that raises. */
  function ReadLines(conv: Conversion, st: Reading, lines: seq<string>, i: nat): (r: (Reading, bool))
    requires i <= |lines|
    ensures Keys(r.0.preprocessor) == Keys(st.preprocessor) && Keys(r.0.ini) == Keys(st.ini)
    decreases |lines| - i
  {
    if i == |lines| then (st, false)
    else
      var next := ReadLine(conv, st, lines[i]);
      if next.1 then next else ReadLines(conv, next.0, lines, i + 1)
  }

  /** A file read without error has seen Clarity exactly when one of its Techniques lines names it. */
  lemma {:induction false} ClarityFoundIff(conv: Conversion, st: Reading, lines: seq<string>, i: nat)
    requires i <= |lines| && !ReadLines(conv, st, lines, i).1
    ensures ReadLines(conv, st, lines, i).0.clarityFound <==>
              st.clarityFound || exists k :: i <= k < |lines| && NamesClarity(lines[k])
    decreases |lines| - i
  {
    if i < |lines| {
      var next := ReadLine(conv, st, lines[i]);
      ClarityFoundIff(conv, next.0, lines, i + 1);
      if NamesClarity(lines[i]) {
        assert exists k :: i <= k < |lines| && NamesClarity(lines[k]);
      }
      if exists k :: i <= k < |lines| && NamesClarity(lines[k]) {
        var k :| i <= k < |lines| && NamesClarity(lines[k]);
        if k > i {
          assert exists k :: i + 1 <= k < |lines| && NamesClarity(lines[k]);
        }
      }
    }
  }

  /** A preprocessor entry the reader gives back as it was written. */
  predicate Rereadable(e: (string, Value)) {
    ',' !in e.0 && '=' !in e.0 && '\n' !in e.0 &&
    match e.1
    case IntVal(n) => n >= 0
    case Str(s) => ',' !in s && '=' !in s && '\n' !in s && !IsNumeric(s)
    case _ => false
  }

  lemma ReadDefinitionOf(cur: Dict, e: (string, Value))
    requires Rereadable(e) && e.0 in Keys(cur)
    ensures ReadDefinition(cur, Definition(e)) == Some(Set(cur, e.0, e.1))
  {
    SplitKeyOf(e.0, PyStr(e.1));
    if e.1.IntVal? {
      NatToStringRoundTrip(e.1.i);
    }
  }

  /** After the first `j` definitions of `pre`, the first `j` entries hold `pre`'s values. */
  lemma {:induction false} ReadDefinitionsOf(pre0: Dict, pre: Dict, j: nat)
    requires Keys(pre0) == Keys(pre) && UniqueKeys(pre) && j <= |pre|
    requires forall i :: 0 <= i < |pre| ==> Rereadable(pre[i])
    ensures ReadDefinitions(pre[..j] + pre0[j..], Definitions(pre), j) == (pre, false)
    decreases |pre| - j
  {
    var cur := pre[..j] + pre0[j..];
    if j == |pre| {
      assert cur == pre;
    } else {
      MixedKeyAt(pre0, pre, j);
      ReadDefinitionOf(cur, pre[j]);
      MixedStep(pre0, pre, j);
      ReadDefinitionsOf(pre0, pre, j + 1);
    }
  }

  /** The dict read so far holds the key of the next definition. */
  lemma MixedKeyAt(pre0: Dict, pre: Dict, j: nat)
    requires Keys(pre0) == Keys(pre) && j < |pre|
    ensures pre[j].0 in Keys(pre[..j] + pre0[j..])
  {
    var cur := pre[..j] + pre0[j..];
    assert cur[j].0 == pre0[j].0 == Keys(pre0)[j] == pre[j].0;
    assert Keys(cur)[j] == pre[j].0;
  }

  /** Storing the next definition moves the boundary between read and unread values by one. */
  lemma MixedStep(pre0: Dict, pre: Dict, j: nat)
    requires Keys(pre0) == Keys(pre) && UniqueKeys(pre) && j < |pre|
    ensures Set(pre[..j] + pre0[j..], pre[j].0, pre[j].1) == pre[..j + 1] + pre0[j + 1..]
  {
    var cur := pre[..j] + pre0[j..];
    var next := Set(cur, pre[j].0, pre[j].1);
    forall i | 0 <= i < |next|
      ensures next[i] == (pre[..j + 1] + pre0[j + 1..])[i]
    {
      if i < j {
        assert cur[i] == pre[i] && pre[i].0 != pre[j].0;
      } else if i > j {
        assert cur[i] == pre0[i];
        assert pre0[i].0 == Keys(pre0)[i] == pre[i].0 != pre[j].0;
      }
    }
  }


  lemma {:induction false} DefinitionsJoinFree(d: Dict, c: char)
    requires c == ',' || c == '\n'
    requires forall i :: 0 <= i < |d| ==> Rereadable(d[i])
    ensures forall i :: 0 <= i < |Definitions(d)| ==> c !in Definitions(d)[i]
  {
    forall i | 0 <= i < |d|
      ensures c !in Definition(d[i])
    {
      var e := d[i];
      assert Definition(e) == e.0 + "=" + PyStr(e.1);
      if e.1.IntVal? {
        assert forall x :: x in NatToString(e.1.i) ==> '0' <= x <= '9';
      }
    }
  }

  /**
   * The preprocessor values written on the first line of the preset read back unchanged, into a
   * dict with the same keys, when every entry is rereadable (a non-negative int, or a string that
   * is not all digits, without separators) and the definitions do not themselves contain
   * `PreprocessorDefinitions=`.
   */
  lemma PreprocessorRoundTrip(pre0: Dict, pre: Dict)
    requires Keys(pre0) == Keys(pre) && UniqueKeys(pre) && |pre| >= 1
    requires forall i :: 0 <= i < |pre| ==> Rereadable(pre[i])
    requires !Contains(Join(Definitions(pre), ",") + "\n", PREPROCESSOR_PREFIX)
    ensures StartsWith(PreprocessorLine(pre), PREPROCESSOR_NAME)
    ensures ReadDefinitions(pre0, Split(DefinitionsText(PreprocessorLine(pre)), ','), 0) == (pre, false)
  {
    var joined := Join(Definitions(pre), ",");
    var line := PreprocessorLine(pre);
    assert line == PREPROCESSOR_PREFIX + (joined + "\n");
    PrefixRemoved(joined + "\n");
    DefinitionsJoinFree(pre, '\n');
    JoinFree(Definitions(pre), ",", '\n');
    LineEndRemoved(joined);
    DefinitionsJoinFree(pre, ',');
    SplitJoin(Definitions(pre), ',');
    NothingReadYet(pre0, pre);
    ReadDefinitionsOf(pre0, pre, 0);
  }

  lemma NothingReadYet(pre0: Dict, pre: Dict)
    ensures pre[..0] + pre0[0..] == pre0
  {
  }

  /** The prefix of a preprocessor line, removed where it is the only occurrence. */
  lemma PrefixRemoved(rest: string)
    requires !Contains(rest, PREPROCESSOR_PREFIX)
    ensures StartsWith(PREPROCESSOR_PREFIX + rest, PREPROCESSOR_NAME)
    ensures ReplaceAll(PREPROCESSOR_PREFIX + rest, PREPROCESSOR_PREFIX, "") == rest
  {
    var line := PREPROCESSOR_PREFIX + rest;
    assert line[..|PREPROCESSOR_NAME|] == PREPROCESSOR_NAME;
    assert StartsWith(line, PREPROCESSOR_PREFIX);
    assert line[|PREPROCESSOR_PREFIX|..] == rest;
    ReplaceAllAbsent(rest, PREPROCESSOR_PREFIX, "");
  }

  /** The line end removed from a text without another. */
  lemma LineEndRemoved(s: string)
    requires '\n' !in s
    ensures ReplaceAll(s + "\n", "\n", "") == s
  {
    ReplaceCharIsRemove(s + "\n", '\n');
    RemoveCharAppend(s, "\n", '\n');
    RemoveCharAbsent(s, '\n');
    assert RemoveChar("\n", '\n') == "";
    AppendEmpty(s);
  }


  /** The header's technique lines name Clarity to the reader exactly when Clarity is used. */
  lemma HeaderNamesClarity(useClarity: bool)
    ensures NamesClarity(TechniquesLine(TECHNIQUES_NAME, useClarity)) <==> useClarity
    ensures !NamesClarity(TechniquesLine(TECHNIQUES_SORTING, useClarity))
  {
    TechniquesNameClarity(TECHNIQUES_NAME, useClarity);
    var line := TechniquesLine(TECHNIQUES_NAME, useClarity);
    assert line[..|TECHNIQUES_NAME|] == TECHNIQUES_NAME;
    var sorting := TechniquesLine(TECHNIQUES_SORTING, useClarity);
    assert sorting[9] == 'S' != TECHNIQUES_NAME[9];
  }

  // ---------------------------------------------------------------------------------------
  // The ReShade INI

  const RESHADE_PRESET_DIR := "reshade-shaders/Presets/"
  const TARGET_PRESET_NAME := "lmu_widget_preset.ini"
  /** The preset's path as ReShade's INI names it: the preset directory with Windows separators. */
  const PRESET_PATH := ".\\reshade-shaders\\Presets\\" + TARGET_PRESET_NAME
  const PRESET_PATH_LINE := "PresetPath=" + PRESET_PATH + "\n"
  const NO_RELOAD_NAME := "NoReloadOnInitForNonVR"
  const NO_RELOAD_LINE := NO_RELOAD_NAME + "=0\n"

  /** `_update_reshade_ini` on one line: point ReShade at the preset, and keep reloading on start-up. */
  function ReshadeIniLine(line: string): string {
    var l := if StartsWith(line, "PresetPath=") then PRESET_PATH_LINE else line;
    if StartsWith(l, NO_RELOAD_NAME) then NO_RELOAD_LINE else l
  }

  /**
   * What the rewrite does to a line: the preset path line and the reload line take fixed values,
   * every other line is kept; rewriting a rewritten line changes nothing.
   */
  lemma ReshadeIniLineMeaning(line: string)
    ensures StartsWith(line, "PresetPath=") ==> ReshadeIniLine(line) == PRESET_PATH_LINE
    ensures StartsWith(line, NO_RELOAD_NAME) ==> ReshadeIniLine(line) == NO_RELOAD_LINE
    ensures !StartsWith(line, "PresetPath=") && !StartsWith(line, NO_RELOAD_NAME) ==> ReshadeIniLine(line) == line
    ensures ReshadeIniLine(ReshadeIniLine(line)) == ReshadeIniLine(line)
  {
    assert !StartsWith(PRESET_PATH_LINE, NO_RELOAD_NAME) by {
      assert PRESET_PATH_LINE[0] == 'P' != NO_RELOAD_NAME[0];
    }
    assert StartsWith(PRESET_PATH_LINE, "PresetPath=") by {
      assert PRESET_PATH_LINE[..11] == "PresetPath=";
    }
    assert StartsWith(NO_RELOAD_LINE, NO_RELOAD_NAME) by {
      assert NO_RELOAD_LINE[..|NO_RELOAD_NAME|] == NO_RELOAD_NAME;
    }
    assert !StartsWith(NO_RELOAD_LINE, "PresetPath=") by {
      assert NO_RELOAD_LINE[0] == 'N';
    }
    if StartsWith(line, "PresetPath=") {
      assert !StartsWith(line, NO_RELOAD_NAME) by {
        assert line[0] == 'P';
      }
    }
  }

  // ---------------------------------------------------------------------------------------
  // The order ReShade's directories are removed in

  /**
   * Insert a directory into a list ordered longest first, after every entry at least as long:
   * Python's stable `sorted(..., key=len, reverse=True)`, one element at a time.
   */
  function InsertByLength(x: string, sorted: seq<string>): (r: seq<string>)
    ensures |r| == |sorted| + 1
    decreases |sorted|
  {
    if sorted == [] then [x]
    else if |sorted[0]| >= |x| then [sorted[0]] + InsertByLength(x, sorted[1..])
    else [x] + sorted
  }

  /** The directories longest path first; paths of the same length keep their order. */
  function ByLengthDesc(dirs: seq<string>): (r: seq<string>)
    ensures |r| == |dirs|
    decreases |dirs|
  {
    if dirs == [] then []
    else InsertByLength(dirs[|dirs| - 1], ByLengthDesc(dirs[..|dirs| - 1]))
  }

  lemma {:induction false} InsertPermutes(x: string, sorted: seq<string>)
    ensures multiset(InsertByLength(x, sorted)) == multiset(sorted) + multiset{x}
    decreases |sorted|
  {
    if sorted != [] && |sorted[0]| >= |x| {
      InsertPermutes(x, sorted[1..]);
      assert sorted == [sorted[0]] + sorted[1..];
    }
  }

  /** Every directory is removed, as often as it was reported. */
  lemma {:induction false} ByLengthDescPermutes(dirs: seq<string>)
    ensures multiset(ByLengthDesc(dirs)) == multiset(dirs)
    decreases |dirs|
  {
    if dirs != [] {
      ByLengthDescPermutes(dirs[..|dirs| - 1]);
      InsertPermutes(dirs[|dirs| - 1], ByLengthDesc(dirs[..|dirs| - 1]));
      assert dirs == dirs[..|dirs| - 1] + [dirs[|dirs| - 1]];
    }
  }

  predicate LongestFirst(s: seq<string>) {
    forall i, j :: 0 <= i < j < |s| ==> |s[i]| >= |s[j]|
  }

  lemma {:induction false} InsertKeepsOrder(x: string, sorted: seq<string>)
    requires LongestFirst(sorted)
    ensures LongestFirst(InsertByLength(x, sorted))
    decreases |sorted|
  {
    if sorted != [] && |sorted[0]| >= |x| {
      InsertKeepsOrder(x, sorted[1..]);
      var rest := InsertByLength(x, sorted[1..]);
      InsertMembers(x, sorted[1..]);
      forall y | y in rest
        ensures |sorted[0]| >= |y|
      {
        if y != x {
          var m :| 0 <= m < |sorted[1..]| && sorted[1..][m] == y;
          assert sorted[m + 1] == y;
        }
      }
      LongestInFront(sorted[0], rest);
    }
  }

  /** What the insertion returns holds the inserted string and the others, nothing else. */
  lemma {:induction false} InsertMembers(x: string, sorted: seq<string>)
    ensures forall y :: y in InsertByLength(x, sorted) ==> y == x || y in sorted
    decreases |sorted|
  {
    if sorted != [] && |sorted[0]| >= |x| {
      InsertMembers(x, sorted[1..]);
      assert forall y :: y in sorted[1..] ==> y in sorted;
    }
  }

  /** A string no shorter than any of a longest-first list can go in front of it. */
  lemma LongestInFront(h: string, rest: seq<string>)
    requires LongestFirst(rest) && forall y :: y in rest ==> |h| >= |y|
    ensures LongestFirst([h] + rest)
  {
    var s := [h] + rest;
    forall i, j | 0 <= i < j < |s|
      ensures |s[i]| >= |s[j]|
    {
      assert s[j] == rest[j - 1];
      if i > 0 {
        assert s[i] == rest[i - 1];
      }
    }
  }


  /** The removal order is longest path first. */
  lemma {:induction false} ByLengthDescSorted(dirs: seq<string>)
    ensures LongestFirst(ByLengthDesc(dirs))
    decreases |dirs|
  {
    if dirs != [] {
      ByLengthDescSorted(dirs[..|dirs| - 1]);
      InsertKeepsOrder(dirs[|dirs| - 1], ByLengthDesc(dirs[..|dirs| - 1]));
    }
  }

  /** The entries of one length, in order. */
  function OfLength(s: seq<string>, n: nat): seq<string>
    decreases |s|
  {
    if s == [] then [] else (if |s[0]| == n then [s[0]] else []) + OfLength(s[1..], n)
  }

  lemma {:induction false} OfLengthAppend(a: seq<string>, b: seq<string>, n: nat)
    ensures OfLength(a + b, n) == OfLength(a, n) + OfLength(b, n)
    decreases |a|
  {
    if a != [] {
      assert (a + b)[1..] == a[1..] + b;
      OfLengthAppend(a[1..], b, n);
    } else {
      assert a + b == b;
    }
  }

  lemma {:induction false} InsertOfLength(x: string, sorted: seq<string>, n: nat)
    requires LongestFirst(sorted)
    ensures OfLength(InsertByLength(x, sorted), n) == OfLength(sorted, n) + OfLength([x], n)
    decreases |sorted|
  {
    if sorted == [] {
    } else if |sorted[0]| >= |x| {
      InsertOfLength(x, sorted[1..], n);
      InsertBehindHead(x, sorted, n);
    } else {
      InsertInFront(x, sorted, n);
    }
  }

  lemma InsertBehindHead(x: string, sorted: seq<string>, n: nat)
    requires sorted != [] && |sorted[0]| >= |x|
    requires OfLength(InsertByLength(x, sorted[1..]), n) == OfLength(sorted[1..], n) + OfLength([x], n)
    ensures OfLength(InsertByLength(x, sorted), n) == OfLength(sorted, n) + OfLength([x], n)
  {
    var head, tail := [sorted[0]], sorted[1..];
    var rest := InsertByLength(x, tail);
    assert InsertByLength(x, sorted) == head + rest;
    OfLengthAppend(head, rest, n);
    HeadTail(sorted);
    OfLengthAppend(head, tail, n);
    AppendAssoc(OfLength(head, n), OfLength(tail, n), OfLength([x], n));
  }


  lemma InsertInFront(x: string, sorted: seq<string>, n: nat)
    requires LongestFirst(sorted) && sorted != [] && |sorted[0]| < |x|
    ensures OfLength(InsertByLength(x, sorted), n) == OfLength(sorted, n) + OfLength([x], n)
  {
    assert InsertByLength(x, sorted) == [x] + sorted;
    OfLengthAppend([x], sorted, n);
    if |x| == n {
      // every entry of `sorted` is shorter than x, so none has x's length
      NoneOfLength(sorted, n);
      AppendEmpty(OfLength([x], n));
      EmptyAppend(OfLength([x], n));
    } else {
      assert OfLength([x], n) == [];
      AppendEmpty(OfLength(sorted, n));
      EmptyAppend(OfLength(sorted, n));
    }
  }


  lemma {:induction false} NoneOfLength(s: seq<string>, n: nat)
    requires forall k :: 0 <= k < |s| ==> |s[k]| < n
    ensures OfLength(s, n) == []
    decreases |s|
  {
    if s != [] {
      NoneOfLength(s[1..], n);
    }
  }

  /** The sort is stable: the directories of any one length keep their original order. */
  lemma {:induction false} ByLengthDescStable(dirs: seq<string>, n: nat)
    ensures OfLength(ByLengthDesc(dirs), n) == OfLength(dirs, n)
    decreases |dirs|
  {
    if dirs != [] {
      var init := dirs[..|dirs| - 1];
      ByLengthDescStable(init, n);
      ByLengthDescSorted(init);
      InsertOfLength(dirs[|dirs| - 1], ByLengthDesc(init), n);
      OfLengthAppend(init, [dirs[|dirs| - 1]], n);
      assert init + [dirs[|dirs| - 1]] == dirs;
    }
  }

  /** A directory inside another (its path extends the other's) is removed before it. */
  lemma InnerBeforeOuter(dirs: seq<string>, inner: string, outer: string)
    requires StartsWith(inner, outer + "/")
    ensures forall i, j :: (0 <= i < |ByLengthDesc(dirs)| && 0 <= j < |ByLengthDesc(dirs)|
                            && ByLengthDesc(dirs)[i] == inner && ByLengthDesc(dirs)[j] == outer) ==> i < j
  {
    ByLengthDescSorted(dirs);
  }
}
