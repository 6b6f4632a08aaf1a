/**
 * The tabular data both halves of the system exchange: a cell is one JSON
 * scalar, a record maps column names to cells, and a sample (TabularSample)
 * is an ordered list of column names with an ordered list of records.
 */
module Data {
  import opened Wrappers

  /** One JSON scalar of a record. Fractional numbers are not modelled. */
  datatype Cell = Int(i: int) | Text(s: string) | Null | Undefined

  type Record = map<string, Cell>

  datatype Sample = Sample(columns: seq<string>, records: seq<Record>)

  /** r[col] in JavaScript: undefined when the record has no such key. */
  function Get(r: Record, col: string): Cell {
    if col in r then r[col] else Undefined
  }

  /** rows.map((r) => r[col]) */
  function ColumnValues(rows: seq<Record>, col: string): (ys: seq<Cell>)
    ensures |ys| == |rows|
    ensures forall i :: 0 <= i < |rows| ==> ys[i] == Get(rows[i], col)
  {
    seq(|rows|, i requires 0 <= i < |rows| => Get(rows[i], col))
  }

  function DigitChar(d: nat): char
    requires d < 10
  {
    ('0' as int + d) as char
  }

  /** Decimal rendering of a natural number: its digits, without leading zeros. */
  function NatToString(n: nat): (s: string)
    ensures |s| >= 1 && AllDigits(s) && DigitsValue(s) == n
    ensures s[0] == '0' ==> s == "0"
  {
    if n < 10 then [DigitChar(n)]
    else
      var s := NatToString(n / 10) + [DigitChar(n % 10)];
      assert s[..|s| - 1] == NatToString(n / 10);
      s
  }

  /** String(c) in JavaScript. */
  function CellString(c: Cell): string {
    match c
    case Int(i) => if i < 0 then "-" + NatToString(-i) else NatToString(i)
    case Text(s) => s
    case Null => "null"
    case Undefined => "undefined"
  }

  /** Truthiness of a cell in JavaScript. */
  predicate Truthy(c: Cell) {
    match c
    case Int(i) => i != 0
    case Text(s) => s != ""
    case Null => false
    case Undefined => false
  }

  predicate IsDigit(c: char) { '0' <= c <= '9' }

  predicate AllDigits(s: string) { forall i :: 0 <= i < |s| ==> IsDigit(s[i]) }

  function Pow10(n: nat): (p: nat)
    ensures p >= 1
  {
    if n == 0 then 1 else 10 * Pow10(n - 1)
  }

  /** Number(s) for a string of decimal digits. */
  function DigitsValue(s: string): (v: nat)
    requires AllDigits(s)
    ensures v < Pow10(|s|)
  {
    if s == [] then 0 else DigitsValue(s[..|s| - 1]) * 10 + (s[|s| - 1] as int - '0' as int)
  }

  /** A JavaScript number. */
  datatype JsNum = NaN | Fin(v: real) | PosInf | NegInf

  /**
   * Number(c): integers are themselves, null is 0, undefined is NaN; a text
   * cell is read when it is empty (0) or an optionally signed run of digits.
   */
  function ToNumber(c: Cell): JsNum {
    match c
    case Int(i) => Fin(i as real)
    case Null => Fin(0.0)
    case Undefined => NaN
    case Text(s) =>
      if s == "" then Fin(0.0)
      else if AllDigits(s) then Fin(DigitsValue(s) as real)
      else if |s| > 1 && (s[0] == '-' || s[0] == '+') && AllDigits(s[1..]) then
        Fin(if s[0] == '-' then -(DigitsValue(s[1..]) as real) else DigitsValue(s[1..]) as real)
      else NaN
  }

  /** Number(String(i)) == i: an integer cell's text reads back as the integer. */
  lemma IntTextRoundTrip(i: int)
    ensures ToNumber(Text(CellString(Int(i)))) == Fin(i as real)
  {
    if i < 0 {
      var s := CellString(Int(i));
      assert s[1..] == NatToString(-i);
      assert !IsDigit(s[0]);
    }
  }

  /** JavaScript's white space and line terminators, which parseInt skips. */
  predicate IsJsSpace(c: char) {
    || '\t' <= c <= '\r' || c == ' ' || c == '\U{a0}' || c == '\U{1680}' || '\U{2000}' <= c <= '\U{200a}'
    || c == '\U{2028}' || c == '\U{2029}' || c == '\U{202f}' || c == '\U{205f}' || c == '\U{3000}' || c == '\U{feff}'
  }

  /** Leading JavaScript white space removed. */
  function JsTrimStart(s: string): (r: string)
    ensures |r| <= |s| && (r != [] ==> !IsJsSpace(r[0]))
  {
    if s != [] && IsJsSpace(s[0]) then JsTrimStart(s[1..]) else s
  }

  /** The longest run of decimal digits that starts s. */
  function DigitPrefix(s: string): (d: string)
    ensures |d| <= |s| && d == s[..|d|] && AllDigits(d)
    ensures |d| < |s| ==> !IsDigit(s[|d|])
  {
    if s != [] && IsDigit(s[0]) then [s[0]] + DigitPrefix(s[1..]) else []
  }

  /**
   * parseInt(s, 10): skip leading white space, take one optional sign, then
   * the longest run of digits; None is NaN, when that run is empty.
   */
  function ParseInt(s: string): (r: Option<int>)
  {
    SignedDigits(JsTrimStart(s))
  }

  /** One optional sign, then the digits that follow it. */
  function SignedDigits(t: string): (r: Option<int>)
  {
    if t != [] && t[0] == '-' then Negated(LeadingDigits(t[1..]))
    else if t != [] && t[0] == '+' then LeadingDigits(t[1..])
    else LeadingDigits(t)
  }

  /** The value of the longest run of digits that starts u; None when it is empty. */
  function LeadingDigits(u: string): (r: Option<int>)
  {
    var d := DigitPrefix(u);
    if d == [] then None else Some(DigitsValue(d))
  }

  function Negated(n: Option<int>): Option<int> {
    if n.Some? then Some(-n.value) else None
  }

  lemma {:induction false} JsTrimSpaces(ws: string, x: string)
    requires forall i :: 0 <= i < |ws| ==> IsJsSpace(ws[i])
    requires x == [] || !IsJsSpace(x[0])
    ensures JsTrimStart(ws + x) == x
  {
    if ws != [] {
      assert (ws + x)[1..] == ws[1..] + x;
      JsTrimSpaces(ws[1..], x);
    }
  }

  lemma {:induction false} DigitPrefixOf(d: string, rest: string)
    requires AllDigits(d) && (rest == [] || !IsDigit(rest[0]))
    ensures DigitPrefix(d + rest) == d
  {
    if d != [] {
      assert (d + rest)[1..] == d[1..] + rest;
      DigitPrefixOf(d[1..], rest);
    }
  }

  lemma LeadingDigitsOf(d: string, rest: string)
    requires d != [] && AllDigits(d) && (rest == [] || !IsDigit(rest[0]))
    ensures LeadingDigits(d + rest) == Some(DigitsValue(d))
  {
    DigitPrefixOf(d, rest);
  }

  /**
   * Leading white space, an optional sign, digits, then anything that does
   * not start with a digit: parseInt reads the signed value of the digits.
   */
  lemma ParseIntDigits(ws: string, sign: string, d: string, rest: string)
    requires forall i :: 0 <= i < |ws| ==> IsJsSpace(ws[i])
    requires sign == "" || sign == "+" || sign == "-"
    requires d != [] && AllDigits(d) && (rest == [] || !IsDigit(rest[0]))
    ensures ParseInt(ws + sign + d + rest) == Some(if sign == "-" then -(DigitsValue(d) as int) else DigitsValue(d))
  {
    SignDigitsRest(sign, d, rest);
    ParseIntAfterSpaces(ws, sign + (d + rest));
    Regroup(ws, sign, d, rest);
  }

  /** After the white space: the text starts with no white space and reads as the signed digits. */
  lemma SignDigitsRest(sign: string, d: string, rest: string)
    requires sign == "" || sign == "+" || sign == "-"
    requires d != [] && AllDigits(d) && (rest == [] || !IsDigit(rest[0]))
    ensures !IsJsSpace((sign + (d + rest))[0])
    ensures SignedDigits(sign + (d + rest)) == Some(if sign == "-" then -(DigitsValue(d) as int) else DigitsValue(d))
  {
    var u := d + rest;
    assert u[0] == d[0];
    LeadingDigitsOf(d, rest);
    SignedDigitsOf(sign, u);
    SignNotSpace((sign + u)[0]);
  }

  lemma Regroup(a: string, b: string, c: string, e: string)
    ensures a + b + c + e == a + (b + (c + e))
  {
  }

  lemma ParseIntAfterSpaces(ws: string, x: string)
    requires forall i :: 0 <= i < |ws| ==> IsJsSpace(ws[i])
    requires x == [] || !IsJsSpace(x[0])
    ensures ParseInt(ws + x) == SignedDigits(x)
  {
    JsTrimSpaces(ws, x);
  }

  /** The sign only negates, or not, the digits that follow it. */
  lemma SignedDigitsOf(sign: string, u: string)
    requires sign == "" || sign == "+" || sign == "-"
    requires u != [] && IsDigit(u[0])
    ensures (sign + u)[0] == if sign == "" then u[0] else sign[0]
    ensures SignedDigits(sign + u) == if sign == "-" then Negated(LeadingDigits(u)) else LeadingDigits(u)
  {
    if sign == "" {
      assert sign + u == u;
    } else {
      assert (sign + u)[1..] == u;
    }
  }

  /** A run of digits alone, as a number input holds, is read as its value. */
  lemma ParseIntPlain(d: string)
    requires d != [] && AllDigits(d)
    ensures ParseInt(d) == Some(DigitsValue(d))
  {
    ParseIntDigits("", "", d, "");
    assert "" + "" + d + "" == d;
  }

  lemma SignNotSpace(c: char)
    requires IsDigit(c) || c == '+' || c == '-'
    ensures !IsJsSpace(c)
  {
  }

  /** Without a digit after the white space and the sign, parseInt gives NaN. */
  lemma ParseIntNaN(ws: string, sign: string, rest: string)
    requires forall i :: 0 <= i < |ws| ==> IsJsSpace(ws[i])
    requires sign == "" || sign == "+" || sign == "-"
    requires rest == [] || !(IsDigit(rest[0]) || IsJsSpace(rest[0]) || (sign == "" && (rest[0] == '+' || rest[0] == '-')))
    ensures ParseInt(ws + sign + rest) == None
  {
    var x := sign + rest;
    assert ws + sign + rest == ws + x;
    JsTrimSpaces(ws, x);
    if sign != "" {
      assert x[1..] == rest;
    }
  }

  /** n * k for a positive integer k. */
  function Times(n: JsNum, k: nat): JsNum
    requires k > 0
  {
    match n
    case Fin(v) => Fin(v * k as real)
    case _ => n
  }

  function Min2(a: JsNum, b: JsNum): JsNum {
    if a.NaN? || b.NaN? then NaN
    else if a.NegInf? || b.PosInf? then a
    else if b.NegInf? || a.PosInf? then b
    else if a.v <= b.v then a else b
  }

  function Max2(a: JsNum, b: JsNum): JsNum {
    if a.NaN? || b.NaN? then NaN
    else if a.PosInf? || b.NegInf? then a
    else if b.PosInf? || a.NegInf? then b
    else if a.v >= b.v then a else b
  }

  /** Math.min(...xs): +Infinity for no arguments, NaN if any argument is NaN. */
  function MathMin(xs: seq<JsNum>): JsNum {
    if xs == [] then PosInf else Min2(xs[0], MathMin(xs[1..]))
  }

  /** Math.max(...xs): -Infinity for no arguments, NaN if any argument is NaN. */
  function MathMax(xs: seq<JsNum>): JsNum {
    if xs == [] then NegInf else Max2(xs[0], MathMax(xs[1..]))
  }

  /** Of finite numbers, Math.min gives the smallest and Math.max the largest, both among them. */
  lemma {:induction false} Extremes(xs: seq<JsNum>)
    requires xs != [] && forall i :: 0 <= i < |xs| ==> xs[i].Fin?
    ensures MathMin(xs).Fin? && MathMin(xs) in xs && forall i :: 0 <= i < |xs| ==> MathMin(xs).v <= xs[i].v
    ensures MathMax(xs).Fin? && MathMax(xs) in xs && forall i :: 0 <= i < |xs| ==> xs[i].v <= MathMax(xs).v
  {
    if |xs| > 1 {
      Extremes(xs[1..]);
      assert forall i :: 1 <= i < |xs| ==> xs[i] == xs[1..][i - 1];
    }
  }

  /** Math.min and Math.max of the same non-empty finite list span an interval: min <= max. */
  lemma ExtremesOrdered(xs: seq<JsNum>)
    requires xs != [] && forall i :: 0 <= i < |xs| ==> xs[i].Fin?
    ensures MathMin(xs).Fin? && MathMax(xs).Fin? && MathMin(xs).v <= MathMax(xs).v
  {
    Extremes(xs);
  }
}
