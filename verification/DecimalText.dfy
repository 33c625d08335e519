/**
 Decimal text: eight fractional digits at most, printed without trailing zeros.
 */
module DecimalText {
  import opened FixedPoint
  import opened Wrappers

  const PRECISION := 8

  // ---- digits ----

  predicate IsDigit(c: char) { '0' <= c <= '9' }

  predicate AllDigits(s: string) { forall i :: 0 <= i < |s| ==> IsDigit(s[i]) }

  function DigitOf(k: nat): char
    requires k < 10
  {
    '0' + k as char
  }

  function DigitVal(c: char): nat
    requires IsDigit(c)
  {
    (c - '0') as nat
  }

  /** The number a digit string denotes. */
  function Value(s: string): nat
    requires AllDigits(s)
  {
    if s == [] then 0 else Value(s[..|s| - 1]) * 10 + DigitVal(s[|s| - 1])
  }

  /** Decimal digits of a number, without leading zeros. */
  function Digits(n: nat): (s: string)
    ensures AllDigits(s) && s != []
  {
    if n < 10 then [DigitOf(n)] else Digits(n / 10) + [DigitOf(n % 10)]
  }

  function Zeros(k: nat): (s: string)
    ensures |s| == k && AllDigits(s)
  {
    seq(k, _ => '0')
  }

  function Pow10(k: nat): nat { if k == 0 then 1 else 10 * Pow10(k - 1) }

  lemma {:induction false} DigitsValue(n: nat)
    ensures Value(Digits(n)) == n
    ensures n > 0 ==> Digits(n)[0] != '0'
  {
    if n >= 10 {
      DigitsValue(n / 10);
      var s := Digits(n);
      assert s[..|s| - 1] == Digits(n / 10);
    } else {
      assert [DigitOf(n)][..0] == [];
    }
  }

  lemma TenTimes(a: nat, p: nat, b: nat)
    ensures 10 * (a * p + b) == a * (10 * p) + 10 * b
  {
  }

  lemma {:induction false} ValueConcat(s: string, t: string)
    requires AllDigits(s) && AllDigits(t)
    ensures AllDigits(s + t) && Value(s + t) == Value(s) * Pow10(|t|) + Value(t)
  {
    if t == [] {
      assert s + t == s;
    } else {
      var t' := t[..|t| - 1];
      ValueConcat(s, t');
      assert (s + t)[..|s + t| - 1] == s + t';
      TenTimes(Value(s), Pow10(|t'|), Value(t'));
    }
  }

  lemma {:induction false} ValueZeros(k: nat)
    ensures Value(Zeros(k)) == 0
  {
    if k > 0 {
      assert Zeros(k)[..k - 1] == Zeros(k - 1);
      ValueZeros(k - 1);
    }
  }

  // ---- parsing ----

  /** White space as `strings.TrimSpace` understands it. */
  predicate IsSpace(c: char) {
    var k := c as int;
    9 <= k <= 13 || k == 0x20 || k == 0x85 || k == 0xA0 || k == 0x1680 || 0x2000 <= k <= 0x200A
    || k == 0x2028 || k == 0x2029 || k == 0x202F || k == 0x205F || k == 0x3000
  }

  function TrimLeft(s: string): string {
    if s != [] && IsSpace(s[0]) then TrimLeft(s[1..]) else s
  }

  function TrimSpaceRight(s: string): string {
    if s != [] && IsSpace(s[|s| - 1]) then TrimSpaceRight(s[..|s| - 1]) else s
  }

  function TrimSpace(s: string): string { TrimSpaceRight(TrimLeft(s)) }

  /** Position of the first point, or the length. */
  function PointAt(s: string): (k: nat)
    ensures k <= |s|
    ensures forall i :: 0 <= i < k ==> s[i] != '.'
    ensures k < |s| ==> s[k] == '.'
  {
    if s == [] || s[0] == '.' then 0 else 1 + PointAt(s[1..])
  }

  /** `big.Int.SetString` in base ten: an optional sign, then digits. */
  function BigInt(s: string): Option<int> {
    var signed := s != [] && (s[0] == '-' || s[0] == '+');
    var body := if signed then s[1..] else s;
    if body == [] || !AllDigits(body) then None
    else
      var v: int := Value(body);
      Some(if signed && s[0] == '-' then -v else v)
  }

  /** The units of a text without its outer sign: whole part, point, fraction. */
  function ParseUnsigned(s: string): Option<int> {
    var k := PointAt(s);
    var whole, frac := s[..k], if k < |s| then s[k + 1..] else [];
    if (whole == [] && frac == []) || |frac| > PRECISION then None
    else BigInt((if whole == [] then "0" else whole) + frac + Zeros(PRECISION - |frac|))
  }

  /** The units a text denotes, or nothing. */
  function Parse(text: string): Option<int> {
    var s := TrimSpace(text);
    if s == [] then None
    else
      match ParseUnsigned(if s[0] == '-' || s[0] == '+' then s[1..] else s)
      case None => None
      case Some(u) => Some(if s[0] == '-' then -u else u)
  }

  // ---- printing ----

  function TrimZeros(s: string): string {
    if s != [] && s[|s| - 1] == '0' then TrimZeros(s[..|s| - 1]) else s
  }

  /** The digits of a number padded so that at least one is whole. */
  function Padded(n: nat): (s: string)
    ensures AllDigits(s) && |s| > PRECISION
  {
    var d := Digits(n);
    if |d| <= PRECISION then Zeros(PRECISION - |d| + 1) + d else d
  }

  function Whole(n: nat): string {
    var str := Padded(n);
    str[..|str| - PRECISION]
  }

  function Fraction(n: nat): string {
    var str := Padded(n);
    TrimZeros(str[|str| - PRECISION..])
  }

  /** The text of a number of units. */
  function Print(units: int): string {
    var n := if units < 0 then -units else units;
    var whole, frac := Whole(n), Fraction(n);
    if frac == [] then (if units < 0 && whole != "0" then "-" + whole else whole)
    else (if units < 0 then "-" else "") + (whole + "." + frac)
  }

  // ---- round trip ----

  lemma {:induction false} TrimZerosPads(s: string)
    ensures |TrimZeros(s)| <= |s| && s == TrimZeros(s) + Zeros(|s| - |TrimZeros(s)|)
  {
    if s != [] && s[|s| - 1] == '0' {
      TrimZerosPads(s[..|s| - 1]);
      assert Zeros(|s| - |TrimZeros(s)|) == Zeros(|s| - 1 - |TrimZeros(s)|) + ['0'];
    }
  }

  /** A text of digits, points and signs has no space to trim. */
  lemma NothingToTrim(s: string)
    requires s != [] && !IsSpace(s[0]) && !IsSpace(s[|s| - 1])
    ensures TrimSpace(s) == s
  {
  }

  lemma {:induction false} PointAfter(w: string, f: string)
    requires AllDigits(w)
    ensures PointAt(w) == |w| && PointAt(w + "." + f) == |w|
  {
    if w != [] {
      PointAfter(w[1..], f);
      assert (w + "." + f)[1..] == w[1..] + "." + f;
    }
  }

  lemma SplitParts(w: string, f: string)
    requires AllDigits(w) && w != [] && |f| <= PRECISION
    ensures ParseUnsigned(w + (if f == [] then "" else "." + f)) == BigInt(w + f + Zeros(PRECISION - |f|))
  {
    hide BigInt;
    PointAfter(w, f);
    if f == [] {
      assert w + "" == w;
    } else {
      var body := w + ("." + f);
      assert body == w + "." + f;
      assert body[..|w|] == w && body[|w| + 1..] == f;
    }
  }

  lemma BigIntDigits(d: string)
    requires d != [] && AllDigits(d)
    ensures BigInt(d) == Some(Value(d))
  {
  }

  lemma ParseUnsignedParts(w: string, f: string)
    requires AllDigits(w) && AllDigits(f) && w != [] && |f| <= PRECISION
    ensures ParseUnsigned(w + (if f == [] then "" else "." + f)) ==
      Some(Value(w) * BASE + Value(f) * Pow10(PRECISION - |f|))
  {
    hide Value, Pow10, ParseUnsigned, BigInt;
    var pad := Zeros(PRECISION - |f|);
    SplitParts(w, f);
    ValueConcat(w, f);
    ValueConcat(w + f, pad);
    ValueZeros(|pad|);
    ScaledValue(Value(w), Value(f), |f|);
    BigIntDigits(w + f + pad);
  }

  /** What a text made of an optional minus, whole digits and fractional digits denotes. */
  lemma ParseParts(neg: bool, w: string, f: string)
    requires AllDigits(w) && AllDigits(f) && w != [] && |f| <= PRECISION
    ensures var s := (if neg then "-" else "") + (w + (if f == [] then "" else "." + f));
      var u: int := Value(w) * BASE + Value(f) * Pow10(PRECISION - |f|);
      Parse(s) == Some(if neg then -u else u)
  {
    hide ParseUnsigned, TrimSpace, Value;
    var body := w + (if f == [] then "" else "." + f);
    var s := (if neg then "-" else "") + body;
    LastChar(neg, w, f, s);
    NothingToTrim(s);
    assert (if neg then s[1..] else s) == body;
    ParseUnsignedParts(w, f);
  }

  lemma LastChar(neg: bool, w: string, f: string, s: string)
    requires AllDigits(w) && AllDigits(f) && w != []
    requires s == (if neg then "-" else "") + (w + (if f == [] then "" else "." + f))
    ensures s != [] && !IsSpace(s[0]) && !IsSpace(s[|s| - 1])
    ensures neg <==> s[0] == '-'
    ensures !neg ==> s[0] != '+'
  {
  }

  lemma ScaledValue(a: nat, b: nat, k: nat)
    requires k <= PRECISION
    ensures (a * Pow10(k) + b) * Pow10(PRECISION - k) == a * BASE + b * Pow10(PRECISION - k)
  {
    Pow10Add(k, PRECISION - k);
    var x, y := Pow10(k), Pow10(PRECISION - k);
    BaseIsPower();
    assert x * y == BASE;
    assert (a * x + b) * y == a * (x * y) + b * y;
  }

  lemma {:induction false} Pow10Add(i: nat, j: nat)
    ensures Pow10(i) * Pow10(j) == Pow10(i + j)
  {
    if i > 0 {
      Pow10Add(i - 1, j);
      assert Pow10(i) * Pow10(j) == 10 * (Pow10(i - 1) * Pow10(j));
    }
  }

  lemma PaddedValue(n: nat)
    ensures Value(Padded(n)) == n
  {
    hide Value, Pow10, Digits;
    DigitsValue(n);
    var d := Digits(n);
    if |d| <= PRECISION {
      ValueConcat(Zeros(PRECISION - |d| + 1), d);
      ValueZeros(PRECISION - |d| + 1);
    }
  }

  /** The whole and fractional digits of a number of units denote it. */
  lemma PartsValue(n: nat)
    ensures var w, f := Whole(n), Fraction(n);
      && w != [] && |f| <= PRECISION && AllDigits(w) && AllDigits(f)
      && n == Value(w) * BASE + Value(f) * Pow10(PRECISION - |f|)
  {
    hide Value, Pow10, Padded, Digits;
    PaddedValue(n);
    var str := Padded(n);
    var w, last := str[..|str| - PRECISION], str[|str| - PRECISION..];
    var f := TrimZeros(last);
    TrimZerosPads(last);
    assert str == w + last;
    assert forall i :: 0 <= i < |f| ==> f[i] == last[i];
    ValueConcat(w, last);
    ValueConcat(f, Zeros(PRECISION - |f|));
    ValueZeros(PRECISION - |f|);
    BaseIsPower();
  }

  lemma BaseIsPower()
    ensures Pow10(PRECISION) == BASE
  {
    assert Pow10(4) == 10000;
    Pow10Add(4, 4);
  }

  /** Printing and parsing back gives the same number of units, for every integer. */
  lemma RoundTrip(units: int)
    ensures Parse(Print(units)) == Some(units)
  {
    hide Parse, Whole, Fraction, Value, Pow10;
    var n := if units < 0 then -units else units;
    PartsValue(n);
    ParseParts(units < 0, Whole(n), Fraction(n));
    ValueOfZero();
    PrintParts(units);
  }

  lemma ValueOfZero()
    ensures Value("0") == 0 && Value([]) == 0
  {
  }

  /** Printing joins the parts; zero never carries a minus. */
  lemma PrintParts(units: int)
    ensures var n := if units < 0 then -units else units;
      var w, f := Whole(n), Fraction(n);
      Print(units) ==
        (if units < 0 && (f != [] || w != "0") then "-" else "") + (w + (if f == [] then "" else "." + f))
  {
  }

  // ---- normal form ----

  function Joined(neg: bool, w: string, f: string): string {
    (if neg then "-" else "") + (w + (if f == [] then "" else "." + f))
  }

  /** No leading zeros, no trailing zeros of a fraction, and no minus before zero. */
  predicate NormalParts(neg: bool, w: string, f: string) {
    && AllDigits(w) && w != [] && (|w| > 1 ==> w[0] != '0')
    && AllDigits(f) && |f| <= PRECISION && (f != [] ==> f[|f| - 1] != '0')
    && (neg ==> w != "0" || f != [])
  }

  /** A text in normal form: nothing to trim, no plus, no point without a fraction, and normal parts. */
  predicate Normal(text: string) {
    var neg := text != [] && text[0] == '-';
    var body := if neg then text[1..] else text;
    var k := PointAt(body);
    && k + 1 != |body|
    && NormalParts(neg, body[..k], if k < |body| then body[k + 1..] else [])
  }

  lemma NormalJoined(neg: bool, w: string, f: string)
    requires NormalParts(neg, w, f)
    ensures Normal(Joined(neg, w, f))
  {
    hide PointAt, NormalParts;
    var body := w + (if f == [] then "" else "." + f);
    var text := Joined(neg, w, f);
    FirstChar(neg, w, f);
    assert (if neg then text[1..] else text) == body;
    PointAfter(w, f);
    if f == [] {
      assert body == w && body[..|w|] == w;
    } else {
      assert body == w + "." + f;
      assert body[..|w|] == w && body[|w| + 1..] == f;
    }
  }

  lemma FirstChar(neg: bool, w: string, f: string)
    requires NormalParts(neg, w, f)
    ensures AllDigits(w) && Joined(neg, w, f) != [] && (Joined(neg, w, f)[0] == '-' <==> neg)
  {
  }

  lemma JoinNormal(text: string) returns (neg: bool, w: string, f: string)
    requires Normal(text)
    ensures NormalParts(neg, w, f) && text == Joined(neg, w, f)
  {
    hide PointAt, NormalParts;
    neg := text != [] && text[0] == '-';
    var body := if neg then text[1..] else text;
    var k := PointAt(body);
    w, f := body[..k], if k < |body| then body[k + 1..] else [];
    if k < |body| {
      AroundPoint(body, k);
    } else {
      assert body + "" == body;
    }
    FrontChar(neg, text, body);
  }

  lemma AroundPoint(s: string, k: nat)
    requires k < |s| && s[k] == '.'
    ensures s == s[..k] + ("." + s[k + 1..])
  {
  }

  lemma FrontChar(neg: bool, text: string, body: string)
    requires if neg then text != [] && text[0] == '-' && body == text[1..] else body == text
    ensures text == (if neg then "-" else "") + body
  {
  }

  lemma {:induction false} DigitsOfValue(s: string)
    requires AllDigits(s) && s != [] && (|s| > 1 ==> s[0] != '0')
    ensures Digits(Value(s)) == s
    ensures s != "0" ==> Value(s) > 0
  {
    var init, d := s[..|s| - 1], DigitVal(s[|s| - 1]);
    if |s| == 1 {
      assert init == [] && Value(s) == d;
      assert s == [DigitOf(d)];
    } else {
      DigitsOfValue(init);
      assert Value(s) / 10 == Value(init) && Value(s) % 10 == d;
      assert s == init + [DigitOf(d)];
    }
  }

  lemma {:induction false} LeadingZeros(s: string) returns (j: nat)
    requires AllDigits(s) && s != []
    ensures j < |s| && (|s| - j > 1 ==> s[j] != '0')
    ensures s == Zeros(j) + s[j..] && Value(s) == Value(s[j..])
  {
    hide Value;
    if |s| == 1 || s[0] != '0' {
      j := 0;
    } else {
      var k := LeadingZeros(s[1..]);
      j := k + 1;
      assert s[1..][k..] == s[j..];
      assert s == Zeros(j) + s[j..];
    }
    ValueConcat(Zeros(j), s[j..]);
    ValueZeros(j);
  }

  lemma PaddedOfValue(s: string)
    requires AllDigits(s) && |s| > PRECISION && (|s| > PRECISION + 1 ==> s[0] != '0')
    ensures Padded(Value(s)) == s
  {
    hide Value, Digits;
    if |s| > PRECISION + 1 {
      DigitsOfValue(s);
    } else {
      var j := LeadingZeros(s);
      DigitsOfValue(s[j..]);
    }
  }

  lemma {:induction false} TrimPadding(f: string, k: nat)
    requires f != [] ==> f[|f| - 1] != '0'
    ensures TrimZeros(f + Zeros(k)) == f
  {
    var s := f + Zeros(k);
    if k == 0 {
      assert s == f;
    } else {
      assert s[..|s| - 1] == f + Zeros(k - 1);
      TrimPadding(f, k - 1);
    }
  }

  lemma {:induction false} TrimmedEnd(s: string)
    ensures TrimZeros(s) != [] ==> TrimZeros(s)[|TrimZeros(s)| - 1] != '0'
  {
    if s != [] && s[|s| - 1] == '0' {
      TrimmedEnd(s[..|s| - 1]);
    }
  }

  lemma WholeNormal(n: nat)
    ensures |Whole(n)| > 1 ==> Whole(n)[0] != '0'
  {
    hide Value;
    DigitsValue(n);
  }

  /** Printed text is in normal form, for every number of units. */
  lemma PrintNormal(units: int)
    ensures Normal(Print(units))
  {
    hide Parse, Value, Pow10, Digits, TrimZeros, Print, Normal;
    var n := if units < 0 then -units else units;
    var str := Padded(n);
    PartsValue(n);
    TrimmedEnd(str[|str| - PRECISION..]);
    PrintParts(units);
    WholeNormal(n);
    NormalJoined(units < 0 && (Fraction(n) != [] || Whole(n) != "0"), Whole(n), Fraction(n));
  }

  /** The digits of both parts, padded with zeros, in a row. */
  function Row(w: string, f: string): string
    requires |f| <= PRECISION
  {
    w + (f + Zeros(PRECISION - |f|))
  }

  lemma RowValue(w: string, f: string)
    requires AllDigits(w) && AllDigits(f) && |f| <= PRECISION
    ensures AllDigits(Row(w, f)) && Value(Row(w, f)) == Value(w) * BASE + Value(f) * Pow10(PRECISION - |f|)
  {
    hide Value, Pow10, Zeros;
    var pad := Zeros(PRECISION - |f|);
    ValueConcat(f, pad);
    ValueZeros(|pad|);
    ValueConcat(w, f + pad);
    BaseIsPower();
  }

  lemma RowParts(w: string, f: string, n: nat)
    requires NormalParts(false, w, f) && AllDigits(Row(w, f)) && n == Value(Row(w, f))
    ensures Whole(n) == w && Fraction(n) == f
  {
    hide Value, Pow10, Padded, TrimZeros, Zeros;
    var last := f + Zeros(PRECISION - |f|);
    var s := w + last;
    PaddedOfValue(s);
    TrimPadding(f, PRECISION - |f|);
    assert s[..|s| - PRECISION] == w && s[|s| - PRECISION..] == last;
  }

  /** Normal parts are those printed for the number they denote. */
  lemma PartsOfValue(w: string, f: string)
    requires NormalParts(false, w, f)
    ensures var n := Value(w) * BASE + Value(f) * Pow10(PRECISION - |f|);
      && Whole(n) == w && Fraction(n) == f
      && (w == "0" && f == [] <==> n == 0)
  {
    hide Value, Pow10, Whole, Fraction, Row;
    RowValue(w, f);
    RowParts(w, f, Value(Row(w, f)));
    PaddedZero();
  }

  lemma PaddedZero()
    ensures Whole(0) == "0" && Fraction(0) == []
    ensures Value("0") == 0 && Value([]) == 0
  {
    assert Padded(0) == Zeros(8) + "0" == "0" + Zeros(8);
    TrimPadding([], 8);
    assert [] + Zeros(8) == Zeros(8);
  }

  /** Exactly the texts in normal form are printed back as they were read. */
  lemma NormalExact(text: string)
    ensures Normal(text) <==> Parse(text).Some? && Print(Parse(text).value) == text
  {
    hide Parse, Print, Whole, Fraction, Normal, Value, Pow10;
    if Normal(text) {
      var neg, w, f := JoinNormal(text);
      ParseParts(neg, w, f);
      PartsOfValue(w, f);
      PrintParts(Parse(text).value);
    } else if Parse(text).Some? {
      PrintNormal(Parse(text).value);
    }
  }

  // ---- which texts are numbers ----

  ghost predicate Spaces(s: string) { forall i :: 0 <= i < |s| ==> IsSpace(s[i]) }

  predicate OptionalSign(s: string) { s == "" || s == "+" || s == "-" }

  /** A number as it may be written: signs, whole digits, a point, fractional digits. */
  datatype Form = Form(sign: string, inner: string, whole: string, point: bool, frac: string) {
    function Text(): string { sign + Body() }

    function Body(): string { inner + whole + (if point then "." else "") + frac }

    /** One sign may stand behind another; digits or a second sign must be there. */
    predicate Ok() {
      && OptionalSign(sign) && OptionalSign(inner) && (inner != "" ==> sign != "")
      && AllDigits(whole) && AllDigits(frac) && |frac| <= PRECISION && (frac != "" ==> point)
      && inner + whole + frac != ""
    }

    function Magnitude(): int
      requires Ok()
    {
      Value(whole) * BASE + Value(frac) * Pow10(PRECISION - |frac|)
    }

    function Units(): int
      requires Ok()
    {
      if (sign == "-") == (inner == "-") then Magnitude() else -Magnitude()
    }
  }

  lemma {:induction false} TrimsFront(a: string, s: string)
    requires Spaces(a)
    ensures TrimLeft(a + s) == TrimLeft(s)
  {
    if a == [] {
      assert a + s == s;
    } else {
      assert (a + s)[1..] == a[1..] + s;
      TrimsFront(a[1..], s);
    }
  }

  lemma {:induction false} TrimsBack(s: string, b: string)
    requires Spaces(b)
    ensures TrimSpaceRight(s + b) == TrimSpaceRight(s)
  {
    if b == [] {
      assert s + b == s;
    } else {
      assert (s + b)[..|s + b| - 1] == s + b[..|b| - 1];
      TrimsBack(s, b[..|b| - 1]);
    }
  }

  lemma TrimsAround(a: string, s: string, b: string)
    requires Spaces(a) && Spaces(b) && s != [] && !IsSpace(s[0]) && !IsSpace(s[|s| - 1])
    ensures TrimSpace(a + s + b) == s
  {
    assert a + s + b == a + (s + b);
    TrimsFront(a, s + b);
    assert (s + b)[0] == s[0];
    TrimsBack(s, b);
  }

  lemma {:induction false} FrontTrimmed(s: string) returns (a: string)
    ensures Spaces(a) && s == a + TrimLeft(s)
    ensures TrimLeft(s) != [] ==> !IsSpace(TrimLeft(s)[0])
  {
    if s != [] && IsSpace(s[0]) {
      var rest := FrontTrimmed(s[1..]);
      a := [s[0]] + rest;
    } else {
      a := [];
    }
  }

  lemma {:induction false} BackTrimmed(s: string) returns (b: string)
    ensures Spaces(b) && s == TrimSpaceRight(s) + b
  {
    if s != [] && IsSpace(s[|s| - 1]) {
      var rest := BackTrimmed(s[..|s| - 1]);
      b := rest + [s[|s| - 1]];
    } else {
      b := [];
    }
  }

  lemma AroundTrimmed(s: string) returns (a: string, b: string)
    ensures Spaces(a) && Spaces(b) && s == a + TrimSpace(s) + b
  {
    a := FrontTrimmed(s);
    b := BackTrimmed(TrimLeft(s));
  }

  lemma {:induction false} PointIs(s: string, k: nat)
    requires k <= |s| && (forall i :: 0 <= i < k ==> s[i] != '.') && (k < |s| ==> s[k] == '.')
    ensures PointAt(s) == k
  {
    if k > 0 {
      PointIs(s[1..], k - 1);
    }
  }

  lemma BigIntSigned(sign: string, d: string)
    requires OptionalSign(sign) && AllDigits(d) && d != []
    ensures BigInt(sign + d) == Some(if sign == "-" then -(Value(d) as int) else Value(d))
  {
    hide Value;
    assert sign != [] ==> (sign + d)[1..] == d;
    assert sign == [] ==> sign + d == d;
  }

  lemma RowDigits(w: string, f: string)
    requires AllDigits(w) && AllDigits(f) && |f| <= PRECISION
    ensures AllDigits("0" + Row(w, f)) && Value("0" + Row(w, f)) == Value(Row(w, f))
  {
    hide Value, Pow10, Row;
    RowValue(w, f);
    ValueConcat("0", Row(w, f));
    ValueOfZero();
  }

  lemma BodySplits(x: Form)
    requires x.Ok()
    ensures ParseUnsigned(x.Body()) ==
      BigInt((if x.inner + x.whole == "" then "0" else x.inner + x.whole) + x.frac + Zeros(PRECISION - |x.frac|))
  {
    hide BigInt, Value, PointAt;
    var k, s := |x.inner + x.whole|, x.Body();
    PointIs(s, k);
    assert s[..k] == x.inner + x.whole;
    assert (if k < |s| then s[k + 1..] else "") == x.frac;
  }

  /** A well-formed body is read as the number its digits and its sign denote. */
  lemma BodyParses(x: Form)
    requires x.Ok()
    ensures ParseUnsigned(x.Body()) == Some(if x.inner == "-" then -x.Magnitude() else x.Magnitude())
  {
    hide BigInt, Value, Pow10, ParseUnsigned;
    BodySplits(x);
    RowValue(x.whole, x.frac);
    RowDigits(x.whole, x.frac);
    var row := Row(x.whole, x.frac);
    var pad := Zeros(PRECISION - |x.frac|);
    assert row == x.whole + x.frac + pad;
    if x.inner + x.whole == "" {
      assert "0" + x.frac + pad == "0" + row;
      assert "" + ("0" + row) == "0" + row;
      BigIntSigned("", "0" + row);
    } else {
      assert x.inner + x.whole + x.frac + pad == x.inner + row;
      BigIntSigned(x.inner, row);
    }
  }

  lemma NoSpaces(x: Form)
    requires x.Ok()
    ensures x.Text() != "" && forall i :: 0 <= i < |x.Text()| ==> !IsSpace(x.Text()[i])
    ensures x.sign == "" ==> x.Text()[0] != '-' && x.Text()[0] != '+'
  {
    if x.sign == "" {
      assert x.Text()[0] == if x.whole != "" then x.whole[0] else '.';
    }
  }

  /** Every well-formed number, with white space around it, is read as what it denotes. */
  lemma FormParses(x: Form, a: string, b: string)
    requires x.Ok() && Spaces(a) && Spaces(b)
    ensures Parse(a + x.Text() + b) == Some(x.Units())
  {
    hide ParseUnsigned, TrimSpace, Value, Pow10, IsSpace;
    NoSpaces(x);
    TrimsAround(a, x.Text(), b);
    BodyParses(x);
    assert x.sign != "" ==> x.Text()[1..] == x.Body();
    assert x.sign == "" ==> x.Text() == x.Body();
  }

  /** A text split at its point. */
  lemma AtPoint(s: string) returns (front: string, point: bool, frac: string)
    ensures s == front + (if point then "." else "") + frac && (frac != "" ==> point)
    ensures ParseUnsigned(s) ==
      if (front == "" && frac == "") || |frac| > PRECISION then None
      else BigInt((if front == "" then "0" else front) + (frac + Zeros(PRECISION - |frac|)))
  {
    hide BigInt, Zeros, PointAt, ParseUnsigned;
    UnsignedIs(s);
    var k := PointAt(s);
    front, point, frac := s[..k], k < |s|, if k < |s| then s[k + 1..] else "";
  }

  /** A sign in front, if there is one. */
  lemma SignOff(s: string) returns (sign: string, rest: string)
    ensures s == sign + rest && OptionalSign(sign)
    ensures sign == "" <==> s == "" || (s[0] != '-' && s[0] != '+')
    ensures sign != "" ==> sign == [s[0]]
    ensures rest == if sign == "" then s else s[1..]
  {
    if s != "" && (s[0] == '-' || s[0] == '+') {
      sign, rest := [s[0]], s[1..];
    } else {
      sign, rest := "", s;
    }
  }

  /** Every text that is read as a number is a well-formed number with white space around it. */
  lemma ParsedForm(text: string) returns (x: Form, a: string, b: string)
    requires Parse(text).Some?
    ensures x.Ok() && Spaces(a) && Spaces(b) && text == a + x.Text() + b
  {
    hide TrimSpace, Value, PointAt, ParseUnsigned, BigInt, AllDigits, Spaces, Zeros;
    a, b := AroundTrimmed(text);
    var sign, rest := SignOff(TrimSpace(text));
    assert ParseUnsigned(rest).Some?;
    var front, point, frac := AtPoint(rest);
    var inner, whole := SignOff(front);
    x := Form(sign, inner, whole, point, frac);
    assert rest == x.Body();
    assert front != "" ==> rest[0] == front[0];
    AcceptedDigits(front, frac, inner, whole);
  }

  lemma AcceptedDigits(front: string, frac: string, inner: string, whole: string)
    requires |frac| <= PRECISION && front == inner + whole && OptionalSign(inner)
    requires inner == "" ==> front == "" || (front[0] != '-' && front[0] != '+')
    requires BigInt((if front == "" then "0" else front) + (frac + Zeros(PRECISION - |frac|))).Some?
    ensures AllDigits(whole) && AllDigits(frac)
  {
    hide Value, AllDigits, BigInt, Zeros;
    var tail := frac + Zeros(PRECISION - |frac|);
    if front == "" {
      assert "" + ("0" + tail) == "0" + tail;
      BigIntAccepts("", "0" + tail);
      DigitsJoin("0", tail);
      assert whole == "" && tail == whole + tail;
      DigitsJoin(whole, tail);
    } else {
      assert front + tail == inner + (whole + tail);
      BigIntAccepts(inner, whole + tail);
      DigitsJoin(whole, tail);
    }
    DigitsJoin(frac, Zeros(PRECISION - |frac|));
  }

  lemma DigitsJoin(s: string, t: string)
    requires AllDigits(s + t)
    ensures AllDigits(s) && AllDigits(t)
  {
    forall i | 0 <= i < |s|
      ensures IsDigit(s[i])
    {
      assert (s + t)[i] == s[i];
    }
    forall i | 0 <= i < |t|
      ensures IsDigit(t[i])
    {
      assert (s + t)[|s| + i] == t[i];
    }
  }

  lemma BigIntAccepts(sign: string, d: string)
    requires OptionalSign(sign) && BigInt(sign + d).Some?
    requires sign == "" ==> d == "" || (d[0] != '-' && d[0] != '+')
    ensures AllDigits(d)
  {
    hide Value;
    assert sign != "" ==> (sign + d)[1..] == d && (sign + d)[0] == sign[0];
    assert sign == "" ==> sign + d == d;
  }

  /** The text is a well-formed number with white space around it. */
  ghost predicate WellFormed(text: string) {
    exists x: Form, a: string, b: string :: x.Ok() && Spaces(a) && Spaces(b) && text == a + x.Text() + b
  }

  /** Exactly the well-formed numbers are read. */
  lemma ParseExact(text: string)
    ensures Parse(text).Some? <==> WellFormed(text)
  {
    hide Parse;
    if Parse(text).Some? {
      var x, a, b := ParsedForm(text);
    }
    if WellFormed(text) {
      var x: Form, a: string, b: string :| x.Ok() && Spaces(a) && Spaces(b) && text == a + x.Text() + b;
      FormParses(x, a, b);
    }
  }

  /** A second sign is read behind the first: two minuses cancel. */
  lemma TwoSigns()
    ensures Parse("--5") == Some(5 * BASE) && Parse("-+5") == Some(-5 * BASE) && Parse("--") == Some(0)
  {
    hide Parse;
    BaseIsPower();
    ValueOfZero();
    assert "5"[..0] == "";
    assert Value("5") == 5;
    SignedText("-", "-", "5");
    SignedText("-", "+", "5");
    SignedText("-", "-", "");
    assert "-" + "-" + "5" == "--5" && "-" + "+" + "5" == "-+5" && "-" + "-" + "" == "--";
    assert Form("-", "-", "5", false, "").Units() == 5 * BASE;
    assert Form("-", "+", "5", false, "").Units() == -5 * BASE;
    assert Form("-", "-", "", false, "").Units() == 0;
  }

  lemma SignedText(sign: string, inner: string, whole: string)
    requires Form(sign, inner, whole, false, "").Ok()
    ensures Parse(sign + inner + whole) == Some(Form(sign, inner, whole, false, "").Units())
  {
    hide Parse, Value, Pow10;
    var x := Form(sign, inner, whole, false, "");
    assert "" + x.Text() + "" == sign + inner + whole;
    FormParses(x, "", "");
  }

  // ---- the parser as a loop ----

  /** Pad a fraction with zeros, one at a time. */
  method Pad(given: string) returns (frac: string)
    requires |given| <= PRECISION
    ensures frac == given + Zeros(PRECISION - |given|)
  {
    frac := given;
    while |frac| < PRECISION
      invariant |given| <= |frac| <= PRECISION
      invariant frac == given + Zeros(|frac| - |given|)
    {
      frac := frac + "0";
    }
  }

  lemma UnsignedIs(s: string)
    ensures var k := PointAt(s);
      var whole, frac := s[..k], if k < |s| then s[k + 1..] else "";
      ParseUnsigned(s) ==
        if (whole == "" && frac == "") || |frac| > PRECISION then None
        else BigInt((if whole == "" then "0" else whole) + (frac + Zeros(PRECISION - |frac|)))
  {
    hide BigInt, Zeros;
    var k := PointAt(s);
    var whole, frac := s[..k], if k < |s| then s[k + 1..] else "";
    if |frac| <= PRECISION {
      var w := if whole == "" then "0" else whole;
      assert w + frac + Zeros(PRECISION - |frac|) == w + (frac + Zeros(PRECISION - |frac|));
    }
  }

  /** `FromString`: split, pad the fraction with zeros one at a time, and convert. */
  method FromString(text: string) returns (r: Option<int>)
    ensures r == Parse(text)
  {
    hide BigInt, TrimSpace, ParseUnsigned, Zeros;
    var s := TrimSpace(text);
    if s == [] {
      return None;
    }
    var neg := false;
    if s[0] == '-' {
      neg := true;
      s := s[1..];
    } else if s[0] == '+' {
      s := s[1..];
    }
    UnsignedIs(s);
    var k := PointAt(s);
    var whole, frac := s[..k], "";
    if k < |s| {
      frac := s[k + 1..];
    }
    if whole == "" && frac == "" {
      return None;
    }
    if whole == "" {
      whole := "0";
    }
    if |frac| > PRECISION {
      return None;
    }
    frac := Pad(frac);
    var units := BigInt(whole + frac);
    if units.None? {
      return None;
    }
    return Some(if neg then -units.value else units.value);
  }
}
