/**
 * JSON values as the front end sees them after `JSON.parse`, with the few
 * JavaScript rules the store and the hooks rely on: truthiness, `typeof`,
 * strict equality, and `parseFloat(String(v))`.
 */
module Js {
  import opened Wrappers
  import opened Text

  /** A parsed JSON value. Numbers are reals (the parser never yields NaN).
      An absent key (`undefined`) is `None` in an `Option<Json>`. */
  datatype Json =
    | JNull
    | JBool(b: bool)
    | JNum(n: real)
    | JStr(s: string)
    | JArr(items: seq<Json>)
    | JObj(fields: map<string, Json>)

  /** JavaScript truthiness of a present value. */
  predicate Truthy(v: Json) {
    match v
    case JNull => false
    case JBool(b) => b
    case JNum(n) => n != 0.0
    case JStr(s) => s != ""
    case JArr(_) => true
    case JObj(_) => true
  }

  /** Truthiness of a possibly absent value (`undefined` is falsy). */
  predicate TruthyOpt(v: Option<Json>) {
    v.Some? && Truthy(v.value)
  }

  /** `typeof v === "object"`, which also holds for `null` and arrays. */
  predicate IsObjectType(v: Json) {
    v.JNull? || v.JArr? || v.JObj?
  }

  /** `v.key` on a value that is not `null`: the field of an object, `undefined`
      for every other value (the keys read by this code are not properties
      of strings, numbers, booleans or arrays). */
  function Member(v: Json, key: string): (r: Option<Json>)
    requires !v.JNull?
    ensures r.Some? <==> v.JObj? && key in v.fields
  {
    if v.JObj? && key in v.fields then Some(v.fields[key]) else None
  }

  /** `a === b` between values that come from separately parsed messages:
      primitives compare by value, while every object or array is a fresh
      reference and so equal to nothing else. */
  predicate StrictEquals(a: Json, b: Json) {
    match (a, b)
    case (JNull, JNull) => true
    case (JBool(x), JBool(y)) => x == y
    case (JNum(x), JNum(y)) => x == y
    case (JStr(x), JStr(y)) => x == y
    case _ => false
  }

  // ---------------------------------------------------------------------------
  // parseFloat

  /** The characters `trim`, `Number` and `parseFloat` skip: ECMAScript's
      WhiteSpace (tab, vertical tab, form feed, the byte-order mark and the
      Zs space separators) and LineTerminator (LF, CR, U+2028, U+2029). */
  predicate IsSpace(c: char) {
    || c == '\t' || c == '\n' || c == '\U{000B}' || c == '\U{000C}' || c == '\r'
    || c == ' ' || c == '\U{00A0}' || c == '\U{1680}' || '\U{2000}' <= c <= '\U{200A}'
    || c == '\U{2028}' || c == '\U{2029}' || c == '\U{202F}' || c == '\U{205F}'
    || c == '\U{3000}' || c == '\U{FEFF}'
  }

  predicate IsDigit(c: char) { '0' <= c <= '9' }

  /** ASCII letters and digits are not white space. */
  lemma AlnumNotSpace(c: char)
    requires 'a' <= c <= 'z' || 'A' <= c <= 'Z' || IsDigit(c)
    ensures !IsSpace(c)
  {
  }

  /** Text that neither starts nor ends with white space is its own trim. */
  lemma TrimNothing(s: string)
    requires |s| > 0 && !IsSpace(s[0]) && !IsSpace(s[|s| - 1])
    ensures TrimStart(s) == s && TrimEnd(s) == s && Trim(s) == s
  {
  }

  function TrimStart(s: string): (r: string)
    ensures |r| <= |s| && r == s[|s| - |r|..]
    ensures |r| > 0 ==> !IsSpace(r[0])
  {
    if |s| > 0 && IsSpace(s[0]) then TrimStart(s[1..]) else s
  }

  /** The number of leading decimal digits. */
  function LeadingDigits(s: string): (n: nat)
    ensures n <= |s|
    ensures forall i :: 0 <= i < n ==> IsDigit(s[i])
    ensures n < |s| ==> !IsDigit(s[n])
  {
    if |s| > 0 && IsDigit(s[0]) then 1 + LeadingDigits(s[1..]) else 0
  }

  predicate AllDigits(ds: string) {
    forall i :: 0 <= i < |ds| ==> IsDigit(ds[i])
  }

  /** The leading run of decimal digits. */
  function DigitRun(s: string): (ds: string)
    ensures AllDigits(ds) && StartsWith(s, ds)
  {
    s[..LeadingDigits(s)]
  }

  function DigitValue(c: char): (d: nat)
    requires IsDigit(c)
    ensures d <= 9
  {
    c as int - '0' as int
  }

  /** The value of a string of decimal digits, most significant first. */
  function DigitsValue(ds: string): nat
    requires AllDigits(ds)
  {
    if |ds| == 0 then 0
    else DigitsValue(ds[..|ds| - 1]) * 10 + DigitValue(ds[|ds| - 1])
  }

  function Pow10(e: nat): (p: nat)
    ensures p >= 1
  {
    if e == 0 then 1 else 10 * Pow10(e - 1)
  }

  /** 10 raised to an integer power, as a real. */
  function Pow10Real(e: int): (p: real)
    ensures p > 0.0
  {
    if e >= 0 then Pow10(e) as real else 1.0 / (Pow10(-e) as real)
  }

  /** The exponent part `e12`, `E-3`, ... at the start of `s`, if well formed. */
  function Exponent(s: string): int {
    if |s| >= 2 && (s[0] == 'e' || s[0] == 'E') then
      var body := if s[1] == '+' || s[1] == '-' then s[2..] else s[1..];
      var ds := DigitRun(body);
      if |ds| == 0 then 0
      else if s[1] == '-' then -(DigitsValue(ds) as int)
      else DigitsValue(ds) as int
    else 0
  }

  /** Text after the white space and an optional sign. */
  function Unsigned(t: string): (u: string)
    ensures |u| <= |t|
  {
    if |t| > 0 && (t[0] == '-' || t[0] == '+') then t[1..] else t
  }

  /** What `parseFloat` needs to see to return a number: after the white space
      and an optional sign, a digit, or a point followed by a digit. */
  predicate StartsNumeric(s: string) {
    var u := Unsigned(TrimStart(s));
    (|u| > 0 && IsDigit(u[0])) || (|u| > 1 && u[0] == '.' && IsDigit(u[1]))
  }

  /** A decimal literal split into its integer digits, its fraction digits and
      the text after them. */
  datatype Literal = Literal(intDigits: string, fracDigits: string, tail: string)

  /** The digits of an unsigned literal, `12.5e3` giving `12`, `5` and `e3`. */
  function ScanLiteral(u: string): (l: Literal)
    ensures AllDigits(l.intDigits) && AllDigits(l.fracDigits)
  {
    var intDigits := DigitRun(u);
    var rest := u[|intDigits|..];
    if |rest| > 0 && rest[0] == '.' then
      var fracDigits := DigitRun(rest[1..]);
      Literal(intDigits, fracDigits, rest[1 + |fracDigits|..])
    else Literal(intDigits, "", rest)
  }

  /** The value of digits `ii.ff` times ten to the power `e`. */
  function Magnitude(intDigits: string, fracDigits: string, e: int): real
    requires AllDigits(intDigits) && AllDigits(fracDigits)
  {
    var mantissa := DigitsValue(intDigits) as real
      + DigitsValue(fracDigits) as real / (Pow10(|fracDigits|) as real);
    mantissa * Pow10Real(e)
  }

  /** The value of a scanned literal without its sign. */
  function LiteralValue(l: Literal): real
    requires AllDigits(l.intDigits) && AllDigits(l.fracDigits)
  {
    Magnitude(l.intDigits, l.fracDigits, Exponent(l.tail))
  }

  /** `parseFloat(s)`: the longest decimal literal after the leading white
      space, `None` for NaN. */
  function ParseFloat(s: string): (r: Option<real>)
  {
    SignedLiteral(TrimStart(s))
  }

  /** The decimal literal at the start of `t`, after an optional sign, with
      that sign; `None` when it has no digits. */
  function SignedLiteral(t: string): Option<real> {
    Signed(|t| > 0 && t[0] == '-', ScanLiteral(Unsigned(t)))
  }

  /** A scanned literal's value with a sign; `None` when it has no digits. */
  function Signed(negative: bool, l: Literal): Option<real>
    requires AllDigits(l.intDigits) && AllDigits(l.fracDigits)
  {
    if |l.intDigits| == 0 && |l.fracDigits| == 0 then None
    else Some(if negative then -LiteralValue(l) else LiteralValue(l))
  }

  /** `parseFloat` finds a number exactly when the text starts like one. */
  lemma ParseFloatSomeIff(s: string)
    ensures ParseFloat(s).Some? <==> StartsNumeric(s)
  {
    var u := Unsigned(TrimStart(s));
    var l := ScanLiteral(u);
    assert ParseFloat(s).Some? <==> |l.intDigits| > 0 || |l.fracDigits| > 0;
    assert |l.intDigits| > 0 <==> |u| > 0 && IsDigit(u[0]);
    if |u| > 0 && !IsDigit(u[0]) && u[0] == '.' {
      assert u[LeadingDigits(u)..] == u;
      assert |l.fracDigits| > 0 <==> |u| > 1 && IsDigit(u[1]);
    }
  }

  /** The decimal text of a natural number. */
  function NatText(n: nat): (t: string)
    ensures |t| >= 1
    ensures forall i :: 0 <= i < |t| ==> IsDigit(t[i])
  {
    if n < 10 then [('0' as int + n) as char]
    else NatText(n / 10) + [('0' as int + n % 10) as char]
  }

  lemma {:induction false} DigitsValueNatText(n: nat)
    ensures DigitsValue(NatText(n)) == n
  {
    if n >= 10 {
      DigitsValueNatText(n / 10);
      var t := NatText(n);
      assert t[..|t| - 1] == NatText(n / 10);
    }
  }

  /** Reading back the decimal text of a natural number gives the number. */
  lemma ParseFloatNatText(n: nat)
    ensures ParseFloat(NatText(n)) == Some(n as real)
  {
    var t := NatText(n);
    assert TrimStart(t) == t;
    assert Unsigned(t) == t;
    ScanAllDigits(t);
    DigitsValueNatText(n);
  }

  /** A literal made only of digits has no fraction and no exponent. */
  lemma ScanAllDigits(t: string)
    requires AllDigits(t)
    ensures ScanLiteral(t) == Literal(t, "", "")
    ensures LiteralValue(ScanLiteral(t)) == DigitsValue(t) as real
  {
    LeadingDigitsAll(t);
    assert DigitRun(t) == t;
    assert Exponent("") == 0;
  }

  lemma {:induction false} LeadingDigitsAll(t: string)
    requires forall i :: 0 <= i < |t| ==> IsDigit(t[i])
    ensures LeadingDigits(t) == |t|
  {
    if |t| > 0 {
      LeadingDigitsAll(t[1..]);
    }
  }

  /** `parseFloat(String(v))` for a JSON value: a number reads back as itself,
      a string is parsed, `true`, `false`, `null` and objects give NaN, and an
      array reads as its first element (`String` joins with commas, which
      end the literal; a `null` element prints as nothing). */
  function NumberOfText(v: Json): Option<real> {
    match v
    case JNum(n) => Some(n)
    case JStr(s) => ParseFloat(s)
    case JArr(items) =>
      if |items| == 0 || items[0].JNull? then None else NumberOfText(items[0])
    case _ => None
  }

  /** The usual "`typeof v === "number" ? v : parseFloat(String(v))`": a value
      that is a number, or whose text starts with one. */
  function NumericValue(v: Json): Option<real> {
    if v.JNum? then Some(v.n) else NumberOfText(v)
  }

  /** A reading's value as the hooks store it: a parsed JSON value, or the
      text `JSON.stringify` gives for a parsed object or array (kept
      symbolic: only its equality and its first character matter here). */
  datatype Valor = Raw(json: Json) | JsonText(source: Json)

  predicate TruthyValor(v: Valor) {
    match v
    case Raw(j) => Truthy(j)
    case JsonText(_) => true
  }

  /** `a === b` between stored values; two JSON texts are equal when they are
      the texts of the same value. */
  predicate StrictEqualsValor(a: Valor, b: Valor) {
    match (a, b)
    case (Raw(x), Raw(y)) => StrictEquals(x, y)
    case (JsonText(x), JsonText(y)) => x == y
    case _ => false
  }

  /** `typeof v === "number" ? v : parseFloat(String(v))` on a stored value;
      the JSON text of an object or array starts with `{` or `[` and so is NaN. */
  function NumericValor(v: Valor): Option<real> {
    match v
    case Raw(j) => NumericValue(j)
    case JsonText(_) => None
  }

  // ---------------------------------------------------------------------------
  // ToNumber, as `<` and `>` against a number apply it

  /** White space removed from the end only. */
  function TrimEnd(s: string): (r: string)
    ensures |r| <= |s| && r == s[..|r|]
    ensures |r| > 0 ==> !IsSpace(r[|r| - 1])
    ensures |r| < |s| ==> IsSpace(s[|r|])
  {
    if |s| > 0 && IsSpace(s[|s| - 1]) then
      var r := TrimEnd(s[..|s| - 1]);
      assert s[..|s| - 1][..|r|] == s[..|r|];
      r
    else s
  }

  /** `s.trim()`: white space removed from both ends. */
  function Trim(s: string): (r: string)
    ensures |r| <= |s|
    ensures |r| > 0 ==> !IsSpace(r[0]) && !IsSpace(r[|r| - 1])
  {
    TrimEnd(TrimStart(s))
  }

  /** An exponent part that runs to the end of the text: `e` or `E`, an
      optional sign and at least one digit. */
  predicate WholeExponent(tail: string) {
    && |tail| >= 2 && (tail[0] == 'e' || tail[0] == 'E')
    && var body := if tail[1] == '+' || tail[1] == '-' then tail[2..] else tail[1..];
       |body| > 0 && AllDigits(body)
  }

  /** `Number(s)` for decimal text: white space at both ends is ignored, text
      that is then empty is 0, and otherwise the whole of it must be one
      signed decimal literal; anything else is NaN (`None`). */
  function StringToNumber(s: string): (r: Option<real>)
    ensures Trim(s) == "" ==> r == Some(0.0)
  {
    var t := Trim(s);
    if t == "" then Some(0.0)
    else if WholeLiteral(t) then SignedLiteral(t)
    else None
  }

  /** Nothing follows the literal at the start of `t` but a whole exponent. */
  predicate WholeLiteral(t: string) {
    var tail := ScanLiteral(Unsigned(t)).tail;
    tail == "" || WholeExponent(tail)
  }

  /** `Number(v)`, which `v < c` and `v > c` apply when `c` is a number:
      numbers as they are, booleans as 1 and 0, `null` as 0, text as
      `StringToNumber`, an object as NaN, and an array as the text `String`
      gives it: empty is 0, one element reads as that element (`null` as
      empty text, a boolean as NaN), more elements hold a comma and are NaN. */
  function ToNumber(v: Json): Option<real> {
    match v
    case JNull => Some(0.0)
    case JBool(b) => Some(if b then 1.0 else 0.0)
    case JNum(n) => Some(n)
    case JStr(s) => StringToNumber(s)
    case JArr(items) =>
      if |items| == 0 then Some(0.0)
      else if |items| == 1 && !items[0].JBool? then
        assert items[0] in items;
        ToNumber(items[0])
      else None
    case JObj(_) => None
  }

  lemma {:induction false} LeadingDigitsStop(u: string, w: string)
    requires w == [] || !IsDigit(w[0])
    ensures LeadingDigits(u + w) == LeadingDigits(u)
  {
    if |u| > 0 {
      assert (u + w)[1..] == u[1..] + w;
      LeadingDigitsStop(u[1..], w);
    } else {
      assert u + w == w;
    }
  }

  /** A digit run stops before trailing white space. */
  lemma DigitRunBeforeSpace(u: string, w: string)
    requires w == [] || IsSpace(w[0])
    ensures DigitRun(u + w) == DigitRun(u)
    ensures (u + w)[|DigitRun(u)|..] == u[|DigitRun(u)|..] + w
  {
    LeadingDigitsStop(u, w);
    var n := LeadingDigits(u);
    assert (u + w)[..n] == u[..n];
    assert (u + w)[n..] == u[n..] + w;
  }

  /** Trailing white space does not change the literal `parseFloat` scans. */
  lemma ScanBeforeSpace(u: string, w: string)
    requires w == [] || IsSpace(w[0])
    ensures ScanLiteral(u + w).intDigits == ScanLiteral(u).intDigits
    ensures ScanLiteral(u + w).fracDigits == ScanLiteral(u).fracDigits
    ensures ScanLiteral(u + w).tail == ScanLiteral(u).tail + w
  {
    DigitRunBeforeSpace(u, w);
    var rest := u[|DigitRun(u)|..];
    if |rest| > 0 && rest[0] == '.' {
      assert (rest + w)[0] == '.';
      FractionBeforeSpace(rest, w);
    } else if rest == [] {
      assert rest + w == w;
    } else {
      assert (rest + w)[0] == rest[0];
    }
  }

  /** The fraction digits after a point stop before trailing white space. */
  lemma FractionBeforeSpace(rest: string, w: string)
    requires |rest| > 0 && rest[0] == '.'
    requires w == [] || IsSpace(w[0])
    ensures DigitRun((rest + w)[1..]) == DigitRun(rest[1..])
    ensures (rest + w)[1 + |DigitRun(rest[1..])|..] == rest[1 + |DigitRun(rest[1..])|..] + w
  {
    assert (rest + w)[1..] == rest[1..] + w;
    DigitRunBeforeSpace(rest[1..], w);
    var m := |DigitRun(rest[1..])|;
    assert (rest + w)[1 + m..] == rest[1..][m..] + w;
    assert rest[1..][m..] == rest[1 + m..];
  }

  /** Trailing white space after a whole exponent, or on its own, leaves the
      exponent as it was. */
  lemma ExponentBeforeSpace(tail: string, w: string)
    requires tail == "" || WholeExponent(tail)
    requires w == [] || IsSpace(w[0])
    ensures Exponent(tail + w) == Exponent(tail)
  {
    if tail == "" {
      assert tail + w == w;
    } else {
      var k := if tail[1] == '+' || tail[1] == '-' then 2 else 1;
      assert (tail + w)[0] == tail[0] && (tail + w)[1] == tail[1];
      DigitsBeforeSpace(tail, w, k);
    }
  }

  /** The digits of a whole exponent end where the white space starts. */
  lemma DigitsBeforeSpace(tail: string, w: string, k: nat)
    requires k < |tail| && AllDigits(tail[k..])
    requires w == [] || IsSpace(w[0])
    ensures DigitRun((tail + w)[k..]) == DigitRun(tail[k..]) == tail[k..]
  {
    var body := tail[k..];
    assert (tail + w)[k..] == body + w;
    LeadingDigitsAll(body);
    LeadingDigitsStop(body, w);
  }

  /** Trimming both ends leaves the start-trimmed text minus trailing space. */
  lemma TrimSplit(s: string) returns (w: string)
    ensures TrimStart(s) == Trim(s) + w
    ensures w == [] || IsSpace(w[0])
  {
    var t0 := TrimStart(s);
    var t := TrimEnd(t0);
    w := t0[|t|..];
    assert t0 == t0[..|t|] + w;
  }

  lemma UnsignedBeforeSpace(t: string, w: string)
    requires t != ""
    ensures Unsigned(t + w) == Unsigned(t) + w
  {
    if t[0] == '-' || t[0] == '+' {
      assert (t + w)[1..] == t[1..] + w;
    }
  }

  /** A whole literal followed by white space scans to the same digits and
      exponent. */
  lemma ScanWholeBeforeSpace(u: string, w: string)
    requires w == [] || IsSpace(w[0])
    requires ScanLiteral(u).tail == "" || WholeExponent(ScanLiteral(u).tail)
    ensures ScanLiteral(u + w).intDigits == ScanLiteral(u).intDigits
    ensures ScanLiteral(u + w).fracDigits == ScanLiteral(u).fracDigits
    ensures LiteralValue(ScanLiteral(u + w)) == LiteralValue(ScanLiteral(u))
  {
    ScanBeforeSpace(u, w);
    ExponentBeforeSpace(ScanLiteral(u).tail, w);
    SameLiteralValue(ScanLiteral(u + w), ScanLiteral(u));
  }

  lemma SameLiteralValue(a: Literal, b: Literal)
    requires AllDigits(a.intDigits) && AllDigits(a.fracDigits)
    requires a.intDigits == b.intDigits && a.fracDigits == b.fracDigits
    requires Exponent(a.tail) == Exponent(b.tail)
    ensures AllDigits(b.intDigits) && AllDigits(b.fracDigits)
    ensures LiteralValue(a) == LiteralValue(b)
  {
  }

  /** Trailing white space after a whole literal changes nothing. */
  lemma SignedLiteralBeforeSpace(t: string, w: string)
    requires t != "" && WholeLiteral(t)
    requires w == [] || IsSpace(w[0])
    ensures SignedLiteral(t + w) == SignedLiteral(t)
  {
    var u := Unsigned(t);
    UnsignedBeforeSpace(t, w);
    ScanWholeBeforeSpace(u, w);
    assert (t + w)[0] == t[0];
    SameSigned(t[0] == '-', ScanLiteral(u + w), ScanLiteral(u));
  }

  lemma SameSigned(negative: bool, a: Literal, b: Literal)
    requires AllDigits(a.intDigits) && AllDigits(a.fracDigits)
    requires AllDigits(b.intDigits) && AllDigits(b.fracDigits)
    requires a.intDigits == b.intDigits && a.fracDigits == b.fracDigits
    requires LiteralValue(a) == LiteralValue(b)
    ensures Signed(negative, a) == Signed(negative, b)
  {
  }

  /** Where `Number` finds a number in non-blank text, `parseFloat` finds the
      same one. */
  lemma StringToNumberAgrees(s: string)
    requires Trim(s) != "" && StringToNumber(s).Some?
    ensures ParseFloat(s) == StringToNumber(s)
  {
    var w := TrimSplit(s);
    SignedLiteralBeforeSpace(Trim(s), w);
  }

  /** The decimal text of a natural number reads back as that number. */
  lemma StringToNumberNatText(n: nat)
    ensures StringToNumber(NatText(n)) == Some(n as real)
  {
    var t := NatText(n);
    assert TrimStart(t) == t;
    assert TrimEnd(t) == t;
    assert Unsigned(t) == t;
    ScanAllDigits(t);
    DigitsValueNatText(n);
  }

  /** Text that only starts with a number: `parseFloat` reads the number,
      while `Number`, and so `<` and `>`, see NaN. */
  lemma TrailingTextIsNaN()
    ensures ParseFloat("12abc") == Some(12.0)
    ensures StringToNumber("12abc").None?
  {
    AlnumNotSpace('1');
    AlnumNotSpace('c');
    TrimNothing("12abc");
    assert Unsigned("12abc") == "12abc";
    assert LeadingDigits("12abc") == 2;
    assert ScanLiteral("12abc") == Literal("12", "", "abc");
    assert DigitsValue("12") == 12;
    assert Exponent("abc") == 0;
  }

  // ---------------------------------------------------------------------------
  // Rounding and time

  /** `Math.floor` on a real. */
  function Floor(x: real): int { x.Floor }

  /** `Math.round(v * 100) / 100`: the nearest multiple of 0.01, halves upward. */
  function Round2(v: real): (r: real)
    ensures v - 0.005 < r <= v + 0.005
  {
    Floor(v * 100.0 + 0.5) as real / 100.0
  }

  /** Rounding twice is rounding once. */
  lemma Round2Idempotent(v: real)
    ensures Round2(Round2(v)) == Round2(v)
  {
    var k := Floor(v * 100.0 + 0.5);
    assert Round2(v) * 100.0 == k as real;
    assert Floor(k as real + 0.5) == k;
  }

  /** `parseFloat(v.toFixed(2))`: the nearest multiple of 0.01, halves away from zero. */
  function Fixed2(v: real): (r: real)
    ensures v - 0.005 <= r <= v + 0.005
    ensures v >= 0.0 ==> r == Round2(v)
  {
    if v < 0.0 then -Round2(-v) else Round2(v)
  }

  /** `toFixed` rounds the magnitude, so a value and its negation round to
      opposite results. */
  lemma Fixed2Odd(v: real)
    ensures Fixed2(-v) == -Fixed2(v)
  {
  }

  /** `Math.trunc`, which `new Date(n)` applies to a time value. */
  function Trunc(x: real): int {
    if x >= 0.0 then x.Floor else -((-x).Floor)
  }

  /** A numeric timestamp below 10^12 is taken as seconds, any other as milliseconds. */
  function SecondsOrMillis(n: real): (ms: int)
    ensures n < 1000000000000.0 ==> ms == Trunc(n * 1000.0)
    ensures n >= 1000000000000.0 ==> ms == Trunc(n)
  {
    Trunc(if n < 1000000000000.0 then n * 1000.0 else n)
  }

  /** Since 10^9 seconds (September 2001), one instant sent as whole seconds
      or as milliseconds is read as the same time; a millisecond time before
      10^12 is misread as seconds. */
  lemma SecondsOrMillisAgree(s: int, m: int)
    requires 1000000000 <= s < 1000000000000
    requires 0 < m < 1000000000000
    ensures SecondsOrMillis(s as real) == SecondsOrMillis((s * 1000) as real) == s * 1000
    ensures SecondsOrMillis(m as real) == m * 1000 != m
  {
    assert (s as real) * 1000.0 == (s * 1000) as real;
    assert (m as real) * 1000.0 == (m * 1000) as real;
  }
}
