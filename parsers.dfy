/**
 * The client's time-string parsers: a fixed parser for YYYYMMDDTHHMM and a
 * parser driven by a strftime-like pattern (%Y %m %d %H %M %S). A parsed
 * date is the list of arguments handed to the Date constructor; the
 * constructor's own normalisation (a month index of -1 rolling back a year)
 * is not part of the model.
 */
module Parsers {
  import opened Wrappers
  import opened Data

  /** Arguments of `new Date(...)`: year, month index (0-based), day, hour, minute, second. */
  datatype Components = Components(year: int, monthIndex: int, day: int, hour: int, minute: int, second: int)

  /** v written with exactly w digits, zero-padded on the left. */
  function PadDigits(v: nat, w: nat): (s: string)
    requires v < Pow10(w)
    ensures |s| == w && AllDigits(s)
  {
    if w == 0 then "" else PadDigits(v / 10, w - 1) + [DigitChar(v % 10)]
  }

  lemma {:induction false} PadDigitsValue(v: nat, w: nat)
    requires v < Pow10(w)
    ensures DigitsValue(PadDigits(v, w)) == v
  {
    if w > 0 {
      var s := PadDigits(v, w);
      assert s[..|s| - 1] == PadDigits(v / 10, w - 1);
      PadDigitsValue(v / 10, w - 1);
    }
  }

  // ---------------------------------------------------------------------
  // parseByFormat: compiling the pattern

  datatype Field = Year | Month | Day | Hour | Minute | Second

  /** %Y is four digits, every other token two. */
  function Width(f: Field): nat {
    if f == Year then 4 else 2
  }

  /** The token table: the letter after `%` that names a field. */
  function TokenField(c: char): Option<Field> {
    match c
    case 'Y' => Some(Year)
    case 'm' => Some(Month)
    case 'd' => Some(Day)
    case 'H' => Some(Hour)
    case 'M' => Some(Minute)
    case 'S' => Some(Second)
    case _ => None
  }

  function TokenLetter(f: Field): (c: char)
    ensures TokenField(c) == Some(f)
  {
    match f
    case Year => 'Y'
    case Month => 'm'
    case Day => 'd'
    case Hour => 'H'
    case Minute => 'M'
    case Second => 'S'
  }

  /**
   * One piece of the compiled regular expression: a named group of
   * Width(field) digits, or one escaped character that matches itself.
   */
  datatype Item = Group(field: Field) | Lit(c: char)

  type Pattern = seq<Item>

  /**
   * The regular expression built from a format: `%` followed by a token
   * letter becomes a group; every other character, a `%` before another
   * letter and a trailing `%` included, becomes a literal.
   */
  function Compile(fmt: string): Pattern
    decreases |fmt|
  {
    if fmt == [] then []
    else if fmt[0] == '%' && |fmt| >= 2 && TokenField(fmt[1]).Some? then
      [Group(TokenField(fmt[1]).value)] + Compile(fmt[2..])
    else [Lit(fmt[0])] + Compile(fmt[1..])
  }

  /** The loop that appends to reStr, advancing i by two after a token and by one otherwise. */
  method CompilePattern(fmt: string) returns (p: Pattern)
    ensures p == Compile(fmt)
  {
    p := [];
    var i := 0;
    while i < |fmt|
      invariant 0 <= i <= |fmt|
      invariant p + Compile(fmt[i..]) == Compile(fmt)
    {
      CompileAt(fmt, i);
      if fmt[i] == '%' && i + 1 < |fmt| {
        var tok := TokenField(fmt[i + 1]);
        if tok.Some? {
          assert (p + [Group(tok.value)]) + Compile(fmt[i + 2..]) == p + ([Group(tok.value)] + Compile(fmt[i + 2..]));
          p := p + [Group(tok.value)];
          i := i + 2;
          continue;
        }
      }
      assert (p + [Lit(fmt[i])]) + Compile(fmt[i + 1..]) == p + ([Lit(fmt[i])] + Compile(fmt[i + 1..]));
      p := p + [Lit(fmt[i])];
      i := i + 1;
    }
    assert fmt[i..] == [] && Compile(fmt[i..]) == [];
    assert p + [] == p;
  }

  /** Compiling from position i: a token becomes a group and skips two characters, anything else a literal. */
  lemma CompileAt(fmt: string, i: nat)
    requires i < |fmt|
    ensures fmt[i] == '%' && i + 1 < |fmt| && TokenField(fmt[i + 1]).Some? ==>
              Compile(fmt[i..]) == [Group(TokenField(fmt[i + 1]).value)] + Compile(fmt[i + 2..])
    ensures !(fmt[i] == '%' && i + 1 < |fmt| && TokenField(fmt[i + 1]).Some?) ==>
              Compile(fmt[i..]) == [Lit(fmt[i])] + Compile(fmt[i + 1..])
  {
    var t := fmt[i..];
    assert t[0] == fmt[i] && t[1..] == fmt[i + 1..];
    if i + 1 < |fmt| {
      assert t[1] == fmt[i + 1] && t[2..] == fmt[i + 2..];
    }
  }

  /** The format a pattern was compiled from. */
  function Source(p: Pattern): string {
    if p == [] then ""
    else (match p[0] case Group(f) => ['%', TokenLetter(f)] case Lit(c) => [c]) + Source(p[1..])
  }

  /** Compiling loses nothing: every character of the format is accounted for, in order. */
  lemma {:induction false} CompileLossless(fmt: string)
    ensures Source(Compile(fmt)) == fmt
    decreases |fmt|
  {
    if fmt != [] {
      var p := Compile(fmt);
      if fmt[0] == '%' && |fmt| >= 2 && TokenField(fmt[1]).Some? {
        assert p[1..] == Compile(fmt[2..]);
        CompileLossless(fmt[2..]);
        assert fmt == ['%', fmt[1]] + fmt[2..];
      } else {
        assert p[1..] == Compile(fmt[1..]);
        CompileLossless(fmt[1..]);
        assert fmt == [fmt[0]] + fmt[1..];
      }
    }
  }

  /** Without a `%` that starts a token, every character is a literal matching itself. */
  lemma {:induction false} CompileLiterals(fmt: string)
    requires forall i :: 0 <= i < |fmt| - 1 && fmt[i] == '%' ==> TokenField(fmt[i + 1]).None?
    ensures |Compile(fmt)| == |fmt|
    ensures forall i :: 0 <= i < |fmt| ==> Compile(fmt)[i] == Lit(fmt[i])
    decreases |fmt|
  {
    if fmt != [] {
      assert forall i :: 0 <= i < |fmt[1..]| - 1 && fmt[1..][i] == '%' ==> fmt[i + 1] == '%';
      CompileLiterals(fmt[1..]);
    }
  }

  /** The fields a pattern has groups for. */
  function Fields(p: Pattern): set<Field> {
    set i | 0 <= i < |p| && p[i].Group? :: p[i].field
  }

  /** No field has two groups: the only patterns `new RegExp` accepts. */
  predicate DistinctGroups(p: Pattern) {
    forall i, j :: 0 <= i < j < |p| && p[i].Group? && p[j].Group? ==> p[i].field != p[j].field
  }

  /** The number of characters a pattern matches. */
  function PatternWidth(p: Pattern): nat {
    if p == [] then 0 else (match p[0] case Group(f) => Width(f) case Lit(_) => 1) + PatternWidth(p[1..])
  }

  // ---------------------------------------------------------------------
  // parseByFormat: matching

  /**
   * re.exec(s) for the anchored regular expression ^pattern$: the captured
   * groups as numbers, or None. Every item has a fixed width, so a sequence
   * of items matches in exactly one way or not at all.
   */
  function Match(p: Pattern, s: string): Option<map<Field, nat>>
    decreases |p|
  {
    if p == [] then (if s == [] then Some(map[]) else None)
    else match p[0]
      case Lit(c) => if s != [] && s[0] == c then Match(p[1..], s[1..]) else None
      case Group(f) =>
        var w := Width(f);
        if |s| >= w && AllDigits(s[..w]) then
          match Match(p[1..], s[w..])
          case None => None
          case Some(g) => Some(g[f := DigitsValue(s[..w])])
        else None
  }

  lemma FieldsTail(p: Pattern)
    requires p != []
    ensures Fields(p) == Fields(p[1..]) + (if p[0].Group? then {p[0].field} else {})
  {
    forall f | f in Fields(p) ensures f in Fields(p[1..]) + (if p[0].Group? then {p[0].field} else {}) {
      var i :| 0 <= i < |p| && p[i].Group? && p[i].field == f;
      if i > 0 { assert p[1..][i - 1] == p[i]; }
    }
    forall f | f in Fields(p[1..]) ensures f in Fields(p) {
      var i :| 0 <= i < |p[1..]| && p[1..][i].Group? && p[1..][i].field == f;
      assert p[i + 1] == p[1..][i];
    }
    if p[0].Group? { assert p[0].field in Fields(p); }
  }

  /** A match consumes exactly the pattern's width, captures exactly its fields, and each capture fits its width. */
  lemma {:induction false} MatchShape(p: Pattern, s: string)
    requires Match(p, s).Some?
    ensures |s| == PatternWidth(p)
    ensures Match(p, s).value.Keys == Fields(p)
    ensures forall f :: f in Fields(p) ==> Match(p, s).value[f] < Pow10(Width(f))
    decreases |p|
  {
    if p != [] {
      FieldsTail(p);
      match p[0]
      case Lit(c) => MatchShape(p[1..], s[1..]);
      case Group(f) => MatchShape(p[1..], s[Width(f)..]);
    }
  }

  /** Matching is anchored at both ends: text before or after a matching string makes it fail. */
  lemma MatchAnchored(p: Pattern, s: string, extra: string)
    requires Match(p, s).Some? && extra != []
    ensures Match(p, s + extra).None? && Match(p, extra + s).None?
  {
    MatchShape(p, s);
    if Match(p, s + extra).Some? { MatchShape(p, s + extra); }
    if Match(p, extra + s).Some? { MatchShape(p, extra + s); }
  }

  // ---------------------------------------------------------------------
  // parseByFormat: the result

  /** The outcome of parseByFormat: a date, null, or the exception `new RegExp` raises. */
  datatype Parse = Parsed(date: Components) | NoDate | Throws

  /** Absent fields default to 1970-01-01 00:00:00; a month or day of 0 becomes 1. */
  function Assemble(g: map<Field, nat>): Components {
    var y := if Year in g then g[Year] else 1970;
    var mo := if Month in g then g[Month] else 1;
    var d := if Day in g then g[Day] else 1;
    var h := if Hour in g then g[Hour] else 0;
    var mi := if Minute in g then g[Minute] else 0;
    var sec := if Second in g then g[Second] else 0;
    Components(y, (if mo == 0 then 1 else mo) - 1, if d == 0 then 1 else d, h, mi, sec)
  }

  /** Every parsed date has fields inside what the digit groups can hold. */
  predicate InRange(c: Components) {
    && 0 <= c.year <= 9999 && 0 <= c.monthIndex <= 98 && 1 <= c.day <= 99
    && 0 <= c.hour <= 99 && 0 <= c.minute <= 99 && 0 <= c.second <= 99
  }

  /** Assembling captures that fit their widths gives a date in range. */
  lemma AssembleInRange(p: Pattern, g: map<Field, nat>)
    requires g.Keys == Fields(p)
    requires forall f :: f in Fields(p) ==> g[f] < Pow10(Width(f))
    ensures InRange(Assemble(g))
  {
    assert Pow10(2) == 100 && Pow10(4) == 10000;
  }

  function ParseByFormat(input: Cell, fmt: string): (r: Parse)
    ensures fmt == "" || input == Null || input == Undefined ==> r == NoDate
    ensures r.Parsed? ==> InRange(r.date)
    ensures r == Throws <==> fmt != "" && input != Null && input != Undefined && !DistinctGroups(Compile(fmt))
  {
    if fmt == "" || input.Null? || input.Undefined? then NoDate
    else
      var p := Compile(fmt);
      if !DistinctGroups(p) then Throws
      else match Match(p, CellString(input))
        case None => NoDate
        case Some(g) =>
          if Fields(p) == {} then NoDate
          else
            MatchShape(p, CellString(input));
            AssembleInRange(p, g);
            Parsed(Assemble(g))
  }

  /** A pattern with no group never yields a date: `m.groups` is undefined. */
  lemma NoTokenNoDate(input: Cell, fmt: string)
    requires Fields(Compile(fmt)) == {}
    ensures ParseByFormat(input, fmt) != Parsed(Assemble(map[]))
    ensures ParseByFormat(input, fmt).NoDate? || ParseByFormat(input, fmt).Throws?
  {
  }

  /** Fields the format has no token for take their defaults. */
  lemma Defaults(input: Cell, fmt: string)
    requires ParseByFormat(input, fmt).Parsed?
    ensures var d, G := ParseByFormat(input, fmt).date, Fields(Compile(fmt));
      && (Year !in G ==> d.year == 1970) && (Month !in G ==> d.monthIndex == 0)
      && (Day !in G ==> d.day == 1) && (Hour !in G ==> d.hour == 0)
      && (Minute !in G ==> d.minute == 0) && (Second !in G ==> d.second == 0)
  {
    MatchShape(Compile(fmt), CellString(input));
  }

  // ---------------------------------------------------------------------
  // Round trip

  /** Every group's field has a value that fits its width. */
  predicate Fits(p: Pattern, vals: map<Field, nat>) {
    forall i :: 0 <= i < |p| && p[i].Group? ==> p[i].field in vals && vals[p[i].field] < Pow10(Width(p[i].field))
  }

  /** The string a pattern describes when each group is written as its value, zero-padded. */
  function Render(p: Pattern, vals: map<Field, nat>): string
    requires Fits(p, vals)
  {
    if p == [] then ""
    else
      assert forall i :: 0 <= i < |p[1..]| ==> p[1..][i] == p[i + 1];
      (match p[0] case Group(f) => PadDigits(vals[f], Width(f)) case Lit(c) => [c]) + Render(p[1..], vals)
  }

  /** Matching a rendered string recovers exactly the values of the pattern's fields. */
  lemma {:induction false} MatchRender(p: Pattern, vals: map<Field, nat>)
    requires Fits(p, vals)
    ensures Match(p, Render(p, vals)) == Some(map f | f in Fields(p) :: vals[f])
    decreases |p|
  {
    if p == [] {
      assert Fields(p) == {};
    } else {
      assert forall i :: 0 <= i < |p[1..]| ==> p[1..][i] == p[i + 1];
      MatchRender(p[1..], vals);
      FieldsTail(p);
      if p[0].Lit? {
        MatchRenderLit(p, vals);
      } else {
        MatchRenderGroup(p, vals);
      }
    }
  }

  /** A literal first item matches its own character and leaves the rest to the tail. */
  lemma MatchRenderLit(p: Pattern, vals: map<Field, nat>)
    requires p != [] && p[0].Lit? && Fits(p, vals) && Fits(p[1..], vals)
    requires Match(p[1..], Render(p[1..], vals)) == Some(map f | f in Fields(p[1..]) :: vals[f])
    requires Fields(p) == Fields(p[1..])
    ensures Match(p, Render(p, vals)) == Some(map f | f in Fields(p) :: vals[f])
  {
    var s := Render(p, vals);
    assert s == [p[0].c] + Render(p[1..], vals);
    assert s[0] == p[0].c && s[1..] == Render(p[1..], vals);
  }

  /** A group first item reads back its zero-padded value and adds it to the tail's captures. */
  lemma MatchRenderGroup(p: Pattern, vals: map<Field, nat>)
    requires p != [] && p[0].Group? && Fits(p, vals) && Fits(p[1..], vals)
    requires Match(p[1..], Render(p[1..], vals)) == Some(map f | f in Fields(p[1..]) :: vals[f])
    requires Fields(p) == Fields(p[1..]) + {p[0].field}
    ensures Match(p, Render(p, vals)) == Some(map f | f in Fields(p) :: vals[f])
  {
    var f := p[0].field;
    assert f in vals && vals[f] < Pow10(Width(f));
    var digits := PadDigits(vals[f], Width(f));
    var rest := Render(p[1..], vals);
    var s := Render(p, vals);
    assert s == digits + rest;
    assert s[..Width(f)] == digits && s[Width(f)..] == rest;
    PadDigitsValue(vals[f], Width(f));
    var m1 := map g | g in Fields(p[1..]) :: vals[g];
    assert Match(p, s) == Some(m1[f := vals[f]]);
    CapturesExtend(Fields(p[1..]), f, vals);
  }

  /** Adding one field's value to the captures of the others gives the captures of all. */
  lemma CapturesExtend(F: set<Field>, f: Field, vals: map<Field, nat>)
    requires F <= vals.Keys && f in vals
    ensures (map g | g in F :: vals[g])[f := vals[f]] == map g | g in F + {f} :: vals[g]
  {
  }

  /**
   * For a format with each token at most once and at least one token, the
   * string made by writing each component zero-padded in place of its token
   * parses back to exactly those components, with absent ones defaulted.
   */
  lemma FormatRoundTrip(fmt: string, vals: map<Field, nat>)
    requires DistinctGroups(Compile(fmt)) && Fields(Compile(fmt)) != {}
    requires Fits(Compile(fmt), vals)
    requires Month in Fields(Compile(fmt)) ==> vals[Month] >= 1
    requires Day in Fields(Compile(fmt)) ==> vals[Day] >= 1
    ensures var G := Fields(Compile(fmt));
      ParseByFormat(Text(Render(Compile(fmt), vals)), fmt) == Parsed(Components(
        if Year in G then vals[Year] else 1970,
        if Month in G then vals[Month] - 1 else 0,
        if Day in G then vals[Day] else 1,
        if Hour in G then vals[Hour] else 0,
        if Minute in G then vals[Minute] else 0,
        if Second in G then vals[Second] else 0))
  {
    var p := Compile(fmt);
    var g := map f | f in Fields(p) :: vals[f];
    assert fmt != "";
    MatchRender(p, vals);
    assert ParseByFormat(Text(Render(p, vals)), fmt) == Parsed(Assemble(g));
    AssembleFitted(Fields(p), vals);
  }

  /** Assembling the values of the fields a format has: each present field is taken, the month less one. */
  lemma AssembleFitted(G: set<Field>, vals: map<Field, nat>)
    requires G <= vals.Keys
    requires Month in G ==> vals[Month] >= 1
    requires Day in G ==> vals[Day] >= 1
    ensures Assemble(map f | f in G :: vals[f]) == Components(
        if Year in G then vals[Year] else 1970,
        if Month in G then vals[Month] - 1 else 0,
        if Day in G then vals[Day] else 1,
        if Hour in G then vals[Hour] else 0,
        if Minute in G then vals[Minute] else 0,
        if Second in G then vals[Second] else 0)
  {
  }

  // ---------------------------------------------------------------------
  // parseCompactYYYYMMDDTHHMM and its agreement with parseByFormat

  /** ^([0-9]{4})([0-9]{2})([0-9]{2})T([0-9]{2})([0-9]{2})$ */
  const CompactRegex: Pattern := [Group(Year), Group(Month), Group(Day), Lit('T'), Group(Hour), Group(Minute)]

  /** String(s) against the fixed regular expression; the month is passed on as mo - 1 and seconds as 0. */
  function ParseCompact(c: Cell): (r: Option<Components>)
  {
    match Match(CompactRegex, CellString(c))
    case None => None
    case Some(g) =>
      MatchShape(CompactRegex, CellString(c));
      assert CompactRegex[0].field == Year && CompactRegex[1].field == Month && CompactRegex[2].field == Day;
      assert CompactRegex[4].field == Hour && CompactRegex[5].field == Minute;
      Some(CompactDate(g))
  }

  /** The date the compact parser builds from its five captures: month less one, seconds 0. */
  function CompactDate(g: map<Field, nat>): Components
    requires {Year, Month, Day, Hour, Minute} <= g.Keys
  {
    Components(g[Year], g[Month] as int - 1, g[Day], g[Hour], g[Minute], 0)
  }

  lemma CompactRegexShape()
    ensures Fields(CompactRegex) == {Year, Month, Day, Hour, Minute}
    ensures DistinctGroups(CompactRegex)
    ensures PatternWidth(CompactRegex) == 13
  {
    var p := CompactRegex;
    assert p[0].field == Year && p[1].field == Month && p[2].field == Day && p[4].field == Hour && p[5].field == Minute;
    assert p[1..][1..][1..][1..][1..][1..] == [];
  }

  /** The compact parser accepts only 13-character strings with the `T` at position 8. */
  lemma CompactShape(c: Cell)
    requires ParseCompact(c).Some?
    ensures |CellString(c)| == 13 && CellString(c)[8] == 'T'
    ensures var d := ParseCompact(c).value; 0 <= d.year <= 9999 && -1 <= d.monthIndex <= 98 && 0 <= d.day <= 99 && d.second == 0
  {
    var s := CellString(c);
    MatchShape(CompactRegex, s);
    CompactRegexShape();
    CompactSeparator(s);
    assert Pow10(2) == 100 && Pow10(4) == 10000;
  }

  /** Past the four year digits and the two month and two day digits comes the `T`. */
  lemma CompactSeparator(s: string)
    requires Match(CompactRegex, s).Some?
    ensures |s| > 8 && s[8] == 'T'
  {
    var p := CompactRegex;
    var p1 := p[1..];
    var p2 := p1[1..];
    var p3 := p2[1..];
    assert p[0] == Group(Year) && p1[0] == Group(Month) && p2[0] == Group(Day) && p3[0] == Lit('T');
    var s1 := s[4..];
    assert Match(p1, s1).Some?;
    var s2 := s1[2..];
    assert Match(p2, s2).Some?;
    var s3 := s2[2..];
    assert Match(p3, s3).Some?;
    assert s3[0] == s[8];
  }

  /** Writing the five components zero-padded around the `T` gives a string the compact parser reads back. */
  lemma CompactRoundTrip(vals: map<Field, nat>)
    requires {Year, Month, Day, Hour, Minute} <= vals.Keys
    requires vals[Year] < 10000 && vals[Month] < 100 && vals[Day] < 100 && vals[Hour] < 100 && vals[Minute] < 100
    ensures Fits(CompactRegex, vals)
    ensures ParseCompact(Text(Render(CompactRegex, vals))) ==
      Some(Components(vals[Year], vals[Month] as int - 1, vals[Day], vals[Hour], vals[Minute], 0))
  {
    CompactFits(vals);
    CompactRegexShape();
    var s := Render(CompactRegex, vals);
    RenderedCapture(CompactRegex, vals, Year);
    RenderedCapture(CompactRegex, vals, Month);
    RenderedCapture(CompactRegex, vals, Day);
    RenderedCapture(CompactRegex, vals, Hour);
    RenderedCapture(CompactRegex, vals, Minute);
    CompactCaptures(Text(s));
    CompactDateSame(Match(CompactRegex, s).value, vals);
  }

  /** A rendered pattern matches, and each of its groups captures the value written there. */
  lemma RenderedCapture(p: Pattern, vals: map<Field, nat>, f: Field)
    requires Fits(p, vals) && f in Fields(p)
    ensures Match(p, Render(p, vals)).Some? && f in Match(p, Render(p, vals)).value
    ensures Match(p, Render(p, vals)).value[f] == vals[f]
  {
    MatchRender(p, vals);
  }

  /** The compact date depends only on the five captures. */
  lemma CompactDateSame(g: map<Field, nat>, h: map<Field, nat>)
    requires {Year, Month, Day, Hour, Minute} <= g.Keys && {Year, Month, Day, Hour, Minute} <= h.Keys
    requires g[Year] == h[Year] && g[Month] == h[Month] && g[Day] == h[Day] && g[Hour] == h[Hour] && g[Minute] == h[Minute]
    ensures CompactDate(g) == CompactDate(h)
  {
  }

  /** Five components below their widths' limits fit the compact groups. */
  lemma CompactFits(vals: map<Field, nat>)
    requires {Year, Month, Day, Hour, Minute} <= vals.Keys
    requires vals[Year] < 10000 && vals[Month] < 100 && vals[Day] < 100 && vals[Hour] < 100 && vals[Minute] < 100
    ensures Fits(CompactRegex, vals)
  {
    assert Pow10(2) == 100 && Pow10(4) == 10000;
    forall i | 0 <= i < |CompactRegex| && CompactRegex[i].Group?
      ensures CompactRegex[i].field in vals && vals[CompactRegex[i].field] < Pow10(Width(CompactRegex[i].field))
    {
      assert CompactRegex[i].field in {Year, Month, Day, Hour, Minute};
    }
  }

  /** The format that spells out the compact pattern. */
  const CompactFormat := "%Y%m%dT%H%M"

  lemma CompactPattern()
    ensures Compile(CompactFormat) == CompactRegex
  {
    var f := CompactFormat;
    assert f[2..] == "%m%dT%H%M" && f[4..] == "%dT%H%M" && f[6..] == "T%H%M";
    assert f[7..] == "%H%M" && f[9..] == "%M" && f[11..] == "";
  }

  /**
   * The two entry points agree on every input except in the month and day
   * fallback: with format %Y%m%dT%H%M, parseByFormat accepts exactly what
   * the compact parser accepts, and turns a month or day of 00 into 1 where
   * the compact parser passes the month index -1 or the day 0 on.
   */
  lemma CompactAgreement(c: Cell)
    ensures ParseCompact(c).None? <==> ParseByFormat(c, CompactFormat) == NoDate
    ensures ParseCompact(c).Some? ==>
      var a := ParseCompact(c).value;
      ParseByFormat(c, CompactFormat) == Parsed(a.(monthIndex := if a.monthIndex < 0 then 0 else a.monthIndex,
                                                     day := if a.day == 0 then 1 else a.day))
    ensures ParseCompact(c).Some? && ParseCompact(c).value.monthIndex >= 0 && ParseCompact(c).value.day >= 1
      ==> ParseByFormat(c, CompactFormat) == Parsed(ParseCompact(c).value)
  {
    CompactPattern();
    CompactRegexShape();
    var s := CellString(c);
    if c.Null? || c.Undefined? {
      assert Match(CompactRegex, s).None? by {
        if Match(CompactRegex, s).Some? { MatchShape(CompactRegex, s); }
      }
    } else if Match(CompactRegex, s).Some? {
      CompactAssembled(c);
    }
  }

  /** On a string the compact regular expression matches, parseByFormat assembles the same captures. */
  lemma CompactAssembled(c: Cell)
    requires !c.Null? && !c.Undefined? && Match(CompactRegex, CellString(c)).Some?
    requires Compile(CompactFormat) == CompactRegex && DistinctGroups(CompactRegex)
    requires Fields(CompactRegex) == {Year, Month, Day, Hour, Minute}
    ensures ParseCompact(c).Some?
    ensures var a := ParseCompact(c).value;
      ParseByFormat(c, CompactFormat) == Parsed(a.(monthIndex := if a.monthIndex < 0 then 0 else a.monthIndex,
                                                     day := if a.day == 0 then 1 else a.day))
  {
    var g := Match(CompactRegex, CellString(c)).value;
    CompactByFormat(c);
    CompactCaptures(c);
    AssembleCompact(g);
  }

  /** parseByFormat with the compact format assembles the captures of the compact regular expression. */
  lemma CompactByFormat(c: Cell)
    requires !c.Null? && !c.Undefined? && Match(CompactRegex, CellString(c)).Some?
    requires Compile(CompactFormat) == CompactRegex && DistinctGroups(CompactRegex)
    requires Fields(CompactRegex) == {Year, Month, Day, Hour, Minute}
    ensures ParseByFormat(c, CompactFormat) == Parsed(Assemble(Match(CompactRegex, CellString(c)).value))
  {
    MatchShape(CompactRegex, CellString(c));
  }

  /** The compact parser passes the five captures on, the month less one. */
  lemma CompactCaptures(c: Cell)
    requires Match(CompactRegex, CellString(c)).Some?
    requires Fields(CompactRegex) == {Year, Month, Day, Hour, Minute}
    ensures var g := Match(CompactRegex, CellString(c)).value;
      g.Keys == {Year, Month, Day, Hour, Minute} && ParseCompact(c) == Some(CompactDate(g))
  {
    MatchShape(CompactRegex, CellString(c));
  }

  /** Assembling the five compact captures: a month or day of 0 falls back to 1. */
  lemma AssembleCompact(g: map<Field, nat>)
    requires g.Keys == {Year, Month, Day, Hour, Minute}
    ensures var a := CompactDate(g);
      Assemble(g) == a.(monthIndex := if a.monthIndex < 0 then 0 else a.monthIndex, day := if a.day == 0 then 1 else a.day)
  {
  }
}
