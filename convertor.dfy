/** The flexible timestamp parser (internal/pkg/service/convertor/service.go,
    copied verbatim as parseFlexibleTime/excelDateToTime in
    internal/pkg/service/importer/service.go): a number is a spreadsheet serial
    date in the 1900 date system; any other text is tried against eight
    layouts in a fixed order. */
module Convertor {
  import opened Wrappers
  import opened Civil

  /** The library parsers the convertor relies on: strconv.ParseFloat(s, 64)
      and time.Parse(time.RFC3339, s), the latter giving the parsed instant. */
  datatype Parsers = Parsers(parseFloat: string -> Option<real>, parseRfc3339: string -> Option<Instant>)

  /** "unsupported time format %q". */
  datatype TimeError = UnsupportedTimeFormat(raw: string)

  // ---------------------------------------------------------------------
  // Layouts and Go's time.Parse for the seven fixed-width ones.

  datatype Layout =
    | Rfc3339        // time.RFC3339
    | DateTimeT      // "2006-01-02T15:04:05"
    | DateTimeSpace  // "2006-01-02 15:04:05"
    | DateOnly       // "2006-01-02"
    | SlashDateTime  // "02/01/2006 15:04:05"
    | SlashDate      // "02/01/2006"
    | DotDateTime    // "02.01.2006 15:04:05"
    | DotDate        // "02.01.2006"

  /** The order in which ParseFlexibleTime tries the layouts. */
  const Layouts: seq<Layout> :=
    [Rfc3339, DateTimeT, DateTimeSpace, DateOnly, SlashDateTime, SlashDate, DotDateTime, DotDate]

  /** Layout elements: "2006" four-digit year, "01" two-digit month, "02"
      two-digit day, "15" hour of one or two digits, "04" two-digit minute,
      "05" two-digit second, and literal characters. */
  datatype Token = Year4 | Month2 | Day2 | Hour | Minute2 | Second2 | Lit(c: char)

  function Pattern(layout: Layout): seq<Token>
    requires layout != Rfc3339
  {
    match layout
    case DateTimeT =>
      [Year4, Lit('-'), Month2, Lit('-'), Day2, Lit('T'), Hour, Lit(':'), Minute2, Lit(':'), Second2]
    case DateTimeSpace =>
      [Year4, Lit('-'), Month2, Lit('-'), Day2, Lit(' '), Hour, Lit(':'), Minute2, Lit(':'), Second2]
    case DateOnly =>
      [Year4, Lit('-'), Month2, Lit('-'), Day2]
    case SlashDateTime =>
      [Day2, Lit('/'), Month2, Lit('/'), Year4, Lit(' '), Hour, Lit(':'), Minute2, Lit(':'), Second2]
    case SlashDate =>
      [Day2, Lit('/'), Month2, Lit('/'), Year4]
    case DotDateTime =>
      [Day2, Lit('.'), Month2, Lit('.'), Year4, Lit(' '), Hour, Lit(':'), Minute2, Lit(':'), Second2]
    case DotDate =>
      [Day2, Lit('.'), Month2, Lit('.'), Year4]
  }

  predicate IsDigit(c: char)
  {
    '0' <= c <= '9'
  }

  function DigitValue(c: char): int
    requires IsDigit(c)
  {
    c as int - '0' as int
  }

  predicate DigitAt(s: string, i: nat)
  {
    i < |s| && IsDigit(s[i])
  }

  function Num2(s: string): int
    requires DigitAt(s, 0) && DigitAt(s, 1)
  {
    10 * DigitValue(s[0]) + DigitValue(s[1])
  }

  function Num4(s: string): int
    requires DigitAt(s, 0) && DigitAt(s, 1) && DigitAt(s, 2) && DigitAt(s, 3)
  {
    1000 * DigitValue(s[0]) + 100 * DigitValue(s[1]) + 10 * DigitValue(s[2]) + DigitValue(s[3])
  }

  predicate AllDigits(s: string)
  {
    forall i :: 0 <= i < |s| ==> IsDigit(s[i])
  }

  /** The decimal value of a string of digits. */
  function Num(s: string): int
    requires AllDigits(s)
  {
    if s == [] then 0 else 10 * Num(s[..|s| - 1]) + DigitValue(s[|s| - 1])
  }

  function Pow10(n: nat): int
  {
    if n == 0 then 1 else 10 * Pow10(n - 1)
  }

  /** The number of digits at the start of s. */
  function LeadingDigits(s: string): (n: nat)
    ensures n <= |s| && AllDigits(s[..n])
    ensures n < |s| ==> !IsDigit(s[n])
  {
    if s == [] || !IsDigit(s[0]) then 0
    else
      var n := 1 + LeadingDigits(s[1..]);
      assert s[..n] == [s[0]] + s[1..][..n - 1];
      n
  }

  /** Nanoseconds of a fractional-second digit string: only the first nine
      digits count, and fewer are scaled up. */
  function FracNanos(digits: string): int
    requires AllDigits(digits)
  {
    var m := if |digits| > 9 then 9 else |digits|;
    Num(digits[..m]) * Pow10(9 - m)
  }

  /** A space in a layout matches any run of spaces in the value. */
  function TrimSpaces(s: string): (r: string)
    ensures |r| <= |s|
    ensures r == [] || r[0] != ' '
  {
    if s != [] && s[0] == ' ' then TrimSpaces(s[1..]) else s
  }

  /** The fields time.Parse collects. */
  datatype Fields = Fields(year: int, month: int, day: int, hour: int, minute: int, second: int, nanos: int)

  /** The fields before any layout element is read; every layout here sets
      year, month and day, and the date-only ones leave the time at midnight. */
  const Start: Fields := Fields(0, 1, 1, 0, 0, 0, 0)

  /** Reads value s against the layout elements, as time.Parse does. */
  function Scan(tokens: seq<Token>, s: string, f: Fields): Option<Fields>
    decreases |tokens|
  {
    if tokens == [] then
      // Anything left over is "extra text".
      if s == [] then Some(f) else None
    else
      var rest := tokens[1..];
      match tokens[0]
      case Year4 =>
        if DigitAt(s, 0) && DigitAt(s, 1) && DigitAt(s, 2) && DigitAt(s, 3)
        then Scan(rest, s[4..], f.(year := Num4(s))) else None
      case Month2 =>
        if DigitAt(s, 0) && DigitAt(s, 1) then Scan(rest, s[2..], f.(month := Num2(s))) else None
      case Day2 =>
        if DigitAt(s, 0) && DigitAt(s, 1) then Scan(rest, s[2..], f.(day := Num2(s))) else None
      case Hour =>
        if !DigitAt(s, 0) then None
        else if DigitAt(s, 1) then Scan(rest, s[2..], f.(hour := Num2(s)))
        else Scan(rest, s[1..], f.(hour := DigitValue(s[0])))
      case Minute2 =>
        if DigitAt(s, 0) && DigitAt(s, 1) then Scan(rest, s[2..], f.(minute := Num2(s))) else None
      case Second2 =>
        if !(DigitAt(s, 0) && DigitAt(s, 1)) then None
        else
          var after := s[2..];
          // A fractional second the layout does not ask for is still accepted.
          if |after| >= 2 && (after[0] == '.' || after[0] == ',') && IsDigit(after[1]) then
            var n := LeadingDigits(after[1..]);
            Scan(rest, after[1 + n..], f.(second := Num2(s), nanos := FracNanos(after[1..][..n])))
          else
            Scan(rest, after, f.(second := Num2(s)))
      case Lit(c) =>
        if c == ' ' then
          if s != [] && s[0] != ' ' then None else Scan(rest, TrimSpaces(s), f)
        else if s != [] && s[0] == c then Scan(rest, s[1..], f)
        else None
  }

  /** The range checks of time.Parse: month 1-12, a day that exists in that
      month and year, hour below 24, minute and second below 60. */
  predicate ValidFields(f: Fields)
  {
    ValidDate(f.year, f.month, f.day) &&
    0 <= f.hour < 24 && 0 <= f.minute < 60 && 0 <= f.second < 60 && 0 <= f.nanos < NanosPerSecond
  }

  function FieldsInstant(f: Fields): Instant
    requires ValidFields(f)
  {
    InstantOf(f.year, f.month, f.day, f.hour, f.minute, f.second, f.nanos)
  }

  /** time.Parse(layout, raw), as an optional instant (UTC for the fixed layouts). */
  function ParseLayout(layout: Layout, raw: string, p: Parsers): Option<Instant>
  {
    if layout == Rfc3339 then p.parseRfc3339(raw)
    else
      match Scan(Pattern(layout), raw, Start)
      case Some(f) => if ValidFields(f) then Some(FieldsInstant(f)) else None
      case None => None
  }

  /** The loop over the layouts: the first one that parses wins. */
  function FirstMatch(layouts: seq<Layout>, raw: string, p: Parsers): (r: Option<Instant>)
    ensures r.Some? ==> exists i :: 0 <= i < |layouts| && ParseLayout(layouts[i], raw, p) == r
  {
    if layouts == [] then None
    else
      match ParseLayout(layouts[0], raw, p)
      case Some(t) => Some(t)
      case None =>
        var rest := FirstMatch(layouts[1..], raw, p);
        assert forall i :: 0 <= i < |layouts| - 1 ==> layouts[1..][i] == layouts[i + 1];
        rest
  }

  /** ParseFlexibleTime: numeric text is a serial date and never reaches the
      layouts; other text gets the first matching layout's instant, or an
      error naming the raw text. */
  function ParseFlexibleTime(raw: string, p: Parsers): (r: Result<Instant, TimeError>)
    ensures p.parseFloat(raw).Some? ==> r == Success(ExcelDateToTimeAsWritten(p.parseFloat(raw).value, false))
    ensures r.Failure? ==> p.parseFloat(raw).None? && r.error == UnsupportedTimeFormat(raw)
  {
    match p.parseFloat(raw)
    case Some(num) => Success(ExcelDateToTimeAsWritten(num, false))
    case None =>
      match FirstMatch(Layouts, raw, p)
      case Some(t) => Success(t)
      case None => Failure(UnsupportedTimeFormat(raw))
  }

  /** ParseFlexibleTime with the serial-date conversion corrected: text is
      handled as before, numbers go through ExcelDateToTime. */
  function ParseFlexibleTimeCorrected(raw: string, p: Parsers): (r: Result<Instant, TimeError>)
    ensures p.parseFloat(raw).None? ==> r == ParseFlexibleTime(raw, p)
    ensures p.parseFloat(raw).Some? ==> r == Success(ExcelDateToTime(p.parseFloat(raw).value, false))
  {
    match p.parseFloat(raw)
    case Some(num) => Success(ExcelDateToTime(num, false))
    case None => ParseFlexibleTime(raw, p)
  }

  /** The first-match search returns t exactly when some layout gives t and
      every earlier layout fails. */
  lemma {:induction false} FirstMatchIsFirst(layouts: seq<Layout>, raw: string, p: Parsers, t: Instant)
    ensures FirstMatch(layouts, raw, p) == Some(t) <==>
            exists i :: 0 <= i < |layouts| && ParseLayout(layouts[i], raw, p) == Some(t) &&
                        forall j :: 0 <= j < i ==> ParseLayout(layouts[j], raw, p).None?
  {
    if layouts != [] {
      FirstMatchIsFirst(layouts[1..], raw, p, t);
      if ParseLayout(layouts[0], raw, p).None? {
        if FirstMatch(layouts, raw, p) == Some(t) {
          var i :| 0 <= i < |layouts| - 1 && ParseLayout(layouts[1..][i], raw, p) == Some(t) &&
                   forall j :: 0 <= j < i ==> ParseLayout(layouts[1..][j], raw, p).None?;
          assert forall j :: 0 <= j < i + 1 ==> ParseLayout(layouts[j], raw, p).None? by {
            forall j | 0 <= j < i + 1 ensures ParseLayout(layouts[j], raw, p).None? {
              if j > 0 { assert layouts[j] == layouts[1..][j - 1]; }
            }
          }
        }
        if exists i :: 0 <= i < |layouts| && ParseLayout(layouts[i], raw, p) == Some(t) &&
                       forall j :: 0 <= j < i ==> ParseLayout(layouts[j], raw, p).None? {
          var i :| 0 <= i < |layouts| && ParseLayout(layouts[i], raw, p) == Some(t) &&
                   forall j :: 0 <= j < i ==> ParseLayout(layouts[j], raw, p).None?;
          assert i > 0;
          assert ParseLayout(layouts[1..][i - 1], raw, p) == Some(t);
          assert forall j :: 0 <= j < i - 1 ==> ParseLayout(layouts[1..][j], raw, p).None? by {
            forall j | 0 <= j < i - 1 ensures ParseLayout(layouts[1..][j], raw, p).None? {
              assert layouts[1..][j] == layouts[j + 1];
            }
          }
        }
      }
    }
  }

  /** The search fails exactly when every layout fails. */
  lemma {:induction false} FirstMatchFails(layouts: seq<Layout>, raw: string, p: Parsers)
    ensures FirstMatch(layouts, raw, p).None? <==> forall i :: 0 <= i < |layouts| ==> ParseLayout(layouts[i], raw, p).None?
  {
    if layouts != [] {
      FirstMatchFails(layouts[1..], raw, p);
      assert forall i :: 1 <= i < |layouts| ==> layouts[i] == layouts[1..][i - 1];
    }
  }

  /** Non-numeric text: ParseFlexibleTime succeeds with t exactly when layout
      i of the fixed list gives t and the layouts before it fail, and reports
      the raw text exactly when all eight fail. */
  lemma FlexibleTimeLayoutOrder(raw: string, p: Parsers, t: Instant)
    requires p.parseFloat(raw).None?
    ensures ParseFlexibleTime(raw, p) == Success(t) <==>
            exists i :: 0 <= i < |Layouts| && ParseLayout(Layouts[i], raw, p) == Some(t) &&
                        forall j :: 0 <= j < i ==> ParseLayout(Layouts[j], raw, p).None?
    ensures ParseFlexibleTime(raw, p) == Failure(UnsupportedTimeFormat(raw)) <==>
            forall i :: 0 <= i < |Layouts| ==> ParseLayout(Layouts[i], raw, p).None?
  {
    FirstMatchIsFirst(Layouts, raw, p, t);
    FirstMatchFails(Layouts, raw, p);
  }

  // ---------------------------------------------------------------------
  // Rendering fields in a layout, and reading them back.

  function DigitChar(d: int): char
    requires 0 <= d <= 9
  {
    ('0' as int + d) as char
  }

  function Pad2(n: int): string
    requires 0 <= n < 100
  {
    [DigitChar(n / 10), DigitChar(n % 10)]
  }

  function Pad4(n: int): string
    requires 0 <= n < 10000
  {
    Pad2(n / 100) + Pad2(n % 100)
  }

  /** Fields small enough to be written with the layouts' digit widths. */
  predicate Renderable(f: Fields)
  {
    0 <= f.year < 10000 && 0 <= f.month < 100 && 0 <= f.day < 100 &&
    0 <= f.hour < 100 && 0 <= f.minute < 100 && 0 <= f.second < 100
  }

  function RenderToken(t: Token, f: Fields): string
    requires Renderable(f)
  {
    match t
    case Year4 => Pad4(f.year)
    case Month2 => Pad2(f.month)
    case Day2 => Pad2(f.day)
    case Hour => Pad2(f.hour)
    case Minute2 => Pad2(f.minute)
    case Second2 => Pad2(f.second)
    case Lit(c) => [c]
  }

  function Render(tokens: seq<Token>, f: Fields): string
    requires Renderable(f)
  {
    if tokens == [] then [] else RenderToken(tokens[0], f) + Render(tokens[1..], f)
  }

  /** g with the field token t names taken from f. */
  function AssignOne(t: Token, f: Fields, g: Fields): Fields
  {
    match t
    case Year4 => g.(year := f.year)
    case Month2 => g.(month := f.month)
    case Day2 => g.(day := f.day)
    case Hour => g.(hour := f.hour)
    case Minute2 => g.(minute := f.minute)
    case Second2 => g.(second := f.second)
    case Lit(_) => g
  }

  /** g with every field the tokens name taken from f. */
  function Assign(tokens: seq<Token>, f: Fields, g: Fields): Fields
  {
    if tokens == [] then g else Assign(tokens[1..], f, AssignOne(tokens[0], f, g))
  }

  /** Each field is f's when some token names it and g's otherwise. */
  lemma {:induction false} AssignTakes(tokens: seq<Token>, f: Fields, g: Fields)
    ensures var a := Assign(tokens, f, g);
            a.year == (if Year4 in tokens then f.year else g.year) &&
            a.month == (if Month2 in tokens then f.month else g.month) &&
            a.day == (if Day2 in tokens then f.day else g.day) &&
            a.hour == (if Hour in tokens then f.hour else g.hour) &&
            a.minute == (if Minute2 in tokens then f.minute else g.minute) &&
            a.second == (if Second2 in tokens then f.second else g.second) &&
            a.nanos == g.nanos
  {
    if tokens != [] {
      AssignTakes(tokens[1..], f, AssignOne(tokens[0], f, g));
      assert forall t :: t in tokens <==> t == tokens[0] || t in tokens[1..];
    }
  }

  /** Layout shapes whose rendering reads back unambiguously: seconds come
      last (so no fraction can follow) and no two spaces are adjacent. */
  predicate Printable(tokens: seq<Token>)
  {
    forall i :: 0 <= i < |tokens| - 1 ==> tokens[i] != Second2 && !(tokens[i] == Lit(' ') && tokens[i + 1] == Lit(' '))
  }

  lemma Pad2Reads(n: int, tail: string)
    requires 0 <= n < 100
    ensures var s := Pad2(n) + tail; DigitAt(s, 0) && DigitAt(s, 1) && Num2(s) == n && s[2..] == tail
  {
  }

  lemma Pad4Reads(n: int, tail: string)
    requires 0 <= n < 10000
    ensures var s := Pad4(n) + tail;
            DigitAt(s, 0) && DigitAt(s, 1) && DigitAt(s, 2) && DigitAt(s, 3) && Num4(s) == n && s[4..] == tail
  {
    var s := Pad4(n) + tail;
    var low := Pad2(n % 100) + tail;
    assert s == Pad2(n / 100) + low;
    Pad2Reads(n / 100, low);
    Pad2Reads(n % 100, tail);
    assert s[2..] == low;
    assert Num4(s) == 100 * Num2(s) + Num2(low);
  }

  /** One layout element reads back what it rendered. */
  lemma ScanOne(tokens: seq<Token>, f: Fields, g: Fields, tail: string)
    requires Renderable(f) && tokens != []
    requires tokens[0] == Second2 ==> tail == []
    requires tokens[0] == Lit(' ') ==> tail == [] || tail[0] != ' '
    ensures Scan(tokens, RenderToken(tokens[0], f) + tail, g) == Scan(tokens[1..], tail, AssignOne(tokens[0], f, g))
  {
    var s := RenderToken(tokens[0], f) + tail;
    match tokens[0]
    case Year4 => Pad4Reads(f.year, tail);
    case Month2 => Pad2Reads(f.month, tail);
    case Day2 => Pad2Reads(f.day, tail);
    case Hour => Pad2Reads(f.hour, tail);
    case Minute2 => Pad2Reads(f.minute, tail);
    case Second2 => Pad2Reads(f.second, tail);
    case Lit(c) =>
      assert s[1..] == tail;
      if c == ' ' {
        assert TrimSpaces(s) == TrimSpaces(tail) == tail;
      }
  }

  lemma RenderStart(tokens: seq<Token>, f: Fields)
    requires Renderable(f) && tokens != [] && tokens[0] != Lit(' ')
    ensures Render(tokens, f) != [] && Render(tokens, f)[0] != ' '
  {
  }

  /** Reading a layout's rendering of f sets exactly the fields the layout names. */
  lemma {:induction false} ScanRender(tokens: seq<Token>, f: Fields, g: Fields)
    requires Renderable(f) && Printable(tokens)
    ensures Scan(tokens, Render(tokens, f), g) == Some(Assign(tokens, f, g))
    decreases |tokens|
  {
    if tokens != [] {
      var rest := tokens[1..];
      assert Printable(rest);
      if tokens[0] == Lit(' ') && rest != [] {
        RenderStart(rest, f);
      }
      ScanOne(tokens, f, g, Render(rest, f));
      ScanRender(rest, f, AssignOne(tokens[0], f, g));
    }
  }

  predicate HasTime(layout: Layout)
  {
    layout == DateTimeT || layout == DateTimeSpace || layout == SlashDateTime || layout == DotDateTime
  }

  /** The text of f in a fixed layout. */
  function Format(layout: Layout, f: Fields): string
    requires layout != Rfc3339 && Renderable(f)
  {
    Render(Pattern(layout), f)
  }

  /** Writing a valid date-time in one of the seven fixed layouts and parsing
      it with that layout gives back its instant (at midnight for the
      date-only layouts). */
  lemma LayoutRoundTrip(layout: Layout, f: Fields, p: Parsers)
    requires layout != Rfc3339
    requires ValidFields(f) && 0 <= f.year < 10000
    ensures var t := if HasTime(layout) then InstantOf(f.year, f.month, f.day, f.hour, f.minute, f.second, 0)
                     else DayStart(f.year, f.month, f.day);
            ParseLayout(layout, Format(layout, f), p) == Some(t)
  {
    var g := if HasTime(layout) then f.(nanos := 0) else Fields(f.year, f.month, f.day, 0, 0, 0, 0);
    LayoutScan(layout, f);
    ParseFixed(layout, Format(layout, f), p, g);
  }

  /** A fixed layout reads back the fields it wrote: the whole date-time, or
      the date at midnight. */
  lemma LayoutScan(layout: Layout, f: Fields)
    requires layout != Rfc3339 && Renderable(f)
    ensures Scan(Pattern(layout), Format(layout, f), Start) ==
            Some(if HasTime(layout) then f.(nanos := 0) else Fields(f.year, f.month, f.day, 0, 0, 0, 0))
  {
    PatternPrintable(layout);
    PatternNames(layout);
    ScanFormatted(Pattern(layout), f);
  }

  lemma ParseFixed(layout: Layout, s: string, p: Parsers, g: Fields)
    requires layout != Rfc3339 && Scan(Pattern(layout), s, Start) == Some(g) && ValidFields(g)
    ensures ParseLayout(layout, s, p) == Some(FieldsInstant(g))
  {
  }

  /** Reading back the rendering of f in a printable layout that names the
      date gives f's date, and f's time of day as far as the layout names it. */
  lemma ScanFormatted(tokens: seq<Token>, f: Fields)
    requires Renderable(f) && Printable(tokens)
    requires Year4 in tokens && Month2 in tokens && Day2 in tokens
    ensures Scan(tokens, Render(tokens, f), Start) ==
            Some(Fields(f.year, f.month, f.day,
                        if Hour in tokens then f.hour else 0,
                        if Minute2 in tokens then f.minute else 0,
                        if Second2 in tokens then f.second else 0, 0))
  {
    ScanRender(tokens, f, Start);
    AssignTakes(tokens, f, Start);
  }

  lemma PatternPrintable(layout: Layout)
    requires layout != Rfc3339
    ensures Printable(Pattern(layout))
  {
  }

  /** Every fixed layout names the date, and the date-time ones the time of day. */
  lemma PatternNames(layout: Layout)
    requires layout != Rfc3339
    ensures var tokens := Pattern(layout);
            Year4 in tokens && Month2 in tokens && Day2 in tokens &&
            (HasTime(layout) <==> Hour in tokens && Minute2 in tokens && Second2 in tokens)
  {
    var tokens := Pattern(layout);
    if HasTime(layout) {
      assert tokens[6] == Hour && tokens[8] == Minute2 && tokens[10] == Second2;
    }
    match layout
    case DateTimeT =>
      assert tokens[0] == Year4 && tokens[2] == Month2 && tokens[4] == Day2;
    case DateTimeSpace =>
      assert tokens[0] == Year4 && tokens[2] == Month2 && tokens[4] == Day2;
    case DateOnly =>
      assert tokens[0] == Year4 && tokens[2] == Month2 && tokens[4] == Day2;
    case SlashDateTime =>
      assert tokens[4] == Year4 && tokens[2] == Month2 && tokens[0] == Day2;
    case SlashDate =>
      assert tokens[4] == Year4 && tokens[2] == Month2 && tokens[0] == Day2;
    case DotDateTime =>
      assert tokens[4] == Year4 && tokens[2] == Month2 && tokens[0] == Day2;
    case DotDate =>
      assert tokens[4] == Year4 && tokens[2] == Month2 && tokens[0] == Day2;
  }

  // ---------------------------------------------------------------------
  // Serial dates (excelDateToTime).

  /** 1900 date system: serial 1 is 1900-01-01, so day 0 is 1899-12-31; the
      fictitious 1900-02-29 (serial 60) is skipped by the decrement. */
  const Epoch1900: Instant := DayStart(1899, 12, 31)

  /** 1904 date system: serial 0 is 1904-01-01. */
  const Epoch1904: Instant := DayStart(1904, 1, 1)

  /** Whole days after the epoch: floor(serial), less one from serial 61 on
      in the 1900 system. */
  function SerialDays(serial: real, date1904: bool): (days: int)
    ensures serial.Floor - 1 <= days <= serial.Floor
    ensures days == serial.Floor <==> date1904 || serial.Floor < 61
  {
    var days := serial.Floor;
    if !date1904 && days >= 61 then days - 1 else days
  }

  /** frac(serial) · 24h, in whole nanoseconds (truncated, as the Duration conversion does). */
  function TimeOfDay(serial: real): (ns: int)
    ensures 0 <= ns < NanosPerDay
  {
    ((serial - serial.Floor as real) * NanosPerDay as real).Floor
  }

  /** The spreadsheet serial date `serial` as an instant; it never fails. The
      result lies within the day the serial's whole part designates. */
  function ExcelDateToTime(serial: real, date1904: bool): (t: Instant)
    ensures var midnight := (if date1904 then Epoch1904 else Epoch1900) + SerialDays(serial, date1904) * NanosPerDay;
            midnight <= t < midnight + NanosPerDay
  {
    var epoch := if date1904 then Epoch1904 else Epoch1900;
    epoch + SerialDays(serial, date1904) * NanosPerDay + TimeOfDay(serial)
  }

  /** Reference values of the 1900 date system: 1 is 1900-01-01, 59 is
      1900-02-28, 61 is 1900-03-01, 44927 is 2023-01-01 and 45000.5 is noon
      on 2023-03-15; the fictitious 60 lands on 1900-03-01 like 61. */
  lemma Serial1900Anchors()
    ensures ExcelDateToTime(1.0, false) == DayStart(1900, 1, 1)
    ensures ExcelDateToTime(59.0, false) == DayStart(1900, 2, 28)
    ensures ExcelDateToTime(60.0, false) == DayStart(1900, 3, 1)
    ensures ExcelDateToTime(61.0, false) == DayStart(1900, 3, 1)
    ensures ExcelDateToTime(44927.0, false) == DayStart(2023, 1, 1)
    ensures ExcelDateToTime(45000.5, false) == InstantOf(2023, 3, 15, 12, 0, 0, 0)
  {
    assert DayNumber(1899, 12, 31) == 693594;
    assert DayNumber(1900, 1, 1) == 693595 && DayNumber(1900, 2, 28) == 693653 && DayNumber(1900, 3, 1) == 693654;
    assert DayNumber(2023, 1, 1) == 738520 && DayNumber(2023, 3, 15) == 738593;
    assert TimeOfDay(45000.5) == 12 * NanosPerHour;
  }

  /** Reference values of the 1904 date system, which has no correction:
      0 is 1904-01-01 and 61 is 1904-03-02. */
  lemma Serial1904Anchors()
    ensures ExcelDateToTime(0.0, true) == DayStart(1904, 1, 1)
    ensures ExcelDateToTime(61.0, true) == DayStart(1904, 3, 2)
  {
  }

  /** The serial of an instant: whole days since 1899-12-30 (1900 system) or
      1904-01-01, plus the fraction of the day elapsed. */
  function ToSerial(t: Instant, date1904: bool): real
  {
    var epochDay := if date1904 then DayNumber(1904, 1, 1) else DayNumber(1899, 12, 30);
    (t / NanosPerDay - epochDay) as real + (t % NanosPerDay) as real / NanosPerDay as real
  }

  /** Every instant (from 1900-03-01 on, in the 1900 system) is recovered
      from its serial. */
  lemma ExcelRoundTrip(t: Instant, date1904: bool)
    requires !date1904 ==> t >= DayStart(1900, 3, 1)
    ensures ExcelDateToTime(ToSerial(t, date1904), date1904) == t
  {
    var epochDay := if date1904 then DayNumber(1904, 1, 1) else DayNumber(1899, 12, 30);
    var whole := t / NanosPerDay - epochDay;
    var frac := (t % NanosPerDay) as real / NanosPerDay as real;
    assert 0.0 <= frac < 1.0;
    var serial := ToSerial(t, date1904);
    assert serial.Floor == whole;
    assert TimeOfDay(serial) == t % NanosPerDay;
  }

  /** From serial 61 on, a later serial never gives an earlier instant. */
  lemma ExcelDateMonotone(s1: real, s2: real)
    requires 61.0 <= s1 <= s2
    ensures ExcelDateToTime(s1, false) <= ExcelDateToTime(s2, false)
  {
    if s1.Floor == s2.Floor {
      assert (s1 - s1.Floor as real) * NanosPerDay as real <= (s2 - s2.Floor as real) * NanosPerDay as real;
    }
  }

  // ---------------------------------------------------------------------
  // excelDateToTime as written, with its two defects.

  const MinInt64: int := -0x8000_0000_0000_0000
  const MaxInt64: int := 0x7fff_ffff_ffff_ffff

  /** Two's-complement wrap-around of a 64-bit signed integer (time.Duration). */
  function Wrap64(x: int): (w: int)
    ensures MinInt64 <= w <= MaxInt64
    ensures MinInt64 <= x <= MaxInt64 ==> w == x
  {
    (x - MinInt64) % 0x1_0000_0000_0000_0000 + MinInt64
  }

  /** The epoch the source uses for the 1900 system. */
  const Epoch1900AsWritten: Instant := DayStart(1899, 12, 30)

  /** `time.Duration(days)` for a whole number of days: the number itself
      within the int64 range; beyond it Go's float-to-integer conversion is
      implementation-defined, and on amd64 it gives MinInt64. */
  function DurationOfDays(days: int): (d: int)
    ensures MinInt64 <= d <= MaxInt64
    ensures MinInt64 <= days <= MaxInt64 ==> d == days
  {
    if MinInt64 <= days <= MaxInt64 then days else MinInt64
  }

  /** excelDateToTime exactly as written: epoch 1899-12-30 together with the
      decrement from day 61, and `time.Duration(days) * 24 * time.Hour`
      computed in 64-bit arithmetic. The day offset added to the epoch is
      always an int64. */
  function ExcelDateToTimeAsWritten(serial: real, date1904: bool): (t: Instant)
    ensures -106751 <= SerialDays(serial, date1904) <= 106751 ==>
              t == (if date1904 then Epoch1904 else Epoch1900AsWritten)
                   + SerialDays(serial, date1904) * NanosPerDay + TimeOfDay(serial)
    ensures var epoch := if date1904 then Epoch1904 else Epoch1900AsWritten;
            epoch + MinInt64 <= t - TimeOfDay(serial) <= epoch + MaxInt64
  {
    var epoch := if date1904 then Epoch1904 else Epoch1900AsWritten;
    var days := SerialDays(serial, date1904);
    epoch + Wrap64(Wrap64(DurationOfDays(days) * 24) * NanosPerHour) + TimeOfDay(serial)
  }

  /** A day count outside int64 becomes MinInt64, which times 24 wraps to 0:
      such a serial lands on the epoch day itself. */
  lemma AsWrittenBeyondInt64(serial: real, date1904: bool)
    requires !(MinInt64 <= SerialDays(serial, date1904) <= MaxInt64)
    ensures ExcelDateToTimeAsWritten(serial, date1904) ==
            (if date1904 then Epoch1904 else Epoch1900AsWritten) + TimeOfDay(serial)
  {
    assert Wrap64(MinInt64 * 24) == 0;
    assert Wrap64(0 * NanosPerHour) == 0;
  }

  /** As written, serials 60.x and 61.x both fall on 1900-02-28. */
  lemma AsWrittenSixtyAndSixtyOne(s1: real, s2: real)
    requires s1.Floor == 60 && s2.Floor == 61
    ensures var d := DayStart(1900, 2, 28);
            d <= ExcelDateToTimeAsWritten(s1, false) < d + NanosPerDay &&
            d <= ExcelDateToTimeAsWritten(s2, false) < d + NanosPerDay
  {
  }

  /** As written, every serial of the 1900 system comes out one day before
      the instant of the corrected conversion (when no overflow occurs); only
      for serial 60, the fictitious 1900-02-29, does that give the date Excel
      shows as 1900-02-28. */
  lemma AsWrittenOneDayEarly(serial: real)
    requires -106751 <= serial.Floor <= 106752
    ensures ExcelDateToTimeAsWritten(serial, false) == ExcelDateToTime(serial, false) - NanosPerDay
  {
  }

  /** The 1904 path has no epoch defect: without overflow it agrees with the
      corrected conversion. */
  lemma AsWrittenAgreesFor1904(serial: real)
    requires -106751 <= serial.Floor <= 106751
    ensures ExcelDateToTimeAsWritten(serial, true) == ExcelDateToTime(serial, true)
  {
  }

  /** Serial 44927 is 2023-01-01, but the code gives 2022-12-31. */
  lemma AsWrittenSerial44927()
    ensures ExcelDateToTimeAsWritten(44927.0, false) == DayStart(2022, 12, 31)
    ensures ExcelDateToTime(44927.0, false) == DayStart(2023, 1, 1)
  {
    assert DayNumber(1899, 12, 30) == 693593 && DayNumber(1899, 12, 31) == 693594;
    assert DayNumber(2022, 12, 31) == 738519 && DayNumber(2023, 1, 1) == 738520;
    assert SerialDays(44927.0, false) == 44926;
    assert TimeOfDay(44927.0) == 0;
    assert Wrap64(44926 * 24) == 44926 * 24;
    assert Wrap64(44926 * 24 * NanosPerHour) == 44926 * NanosPerDay;
  }

  /** Past 106752 days the 64-bit duration overflows: serial 106753 (a date
      in 2192) lands before 1899-12-30, earlier than serial 106752. */
  lemma AsWrittenOverflows()
    ensures ExcelDateToTimeAsWritten(106753.0, false) < Epoch1900AsWritten
    ensures ExcelDateToTimeAsWritten(106753.0, false) < ExcelDateToTimeAsWritten(106752.0, false)
    ensures ExcelDateToTime(106753.0, false) == DayStart(2192, 4, 10)
  {
    assert Wrap64(106752 * 24) == 2562048;
    assert Wrap64(2562048 * NanosPerHour) == 9223372800000000000 - 0x1_0000_0000_0000_0000;
  }

  /** Numeric text, within the no-overflow range, is read one day earlier
      than the corrected reading; other text is read the same way by both. */
  lemma FlexibleTimeOneDayEarly(raw: string, p: Parsers)
    requires p.parseFloat(raw).Some? ==> -106751 <= p.parseFloat(raw).value.Floor <= 106752
    ensures p.parseFloat(raw).Some? ==>
              ParseFlexibleTime(raw, p).Success? && ParseFlexibleTimeCorrected(raw, p).Success? &&
              ParseFlexibleTime(raw, p).value == ParseFlexibleTimeCorrected(raw, p).value - NanosPerDay
    ensures p.parseFloat(raw).None? ==> ParseFlexibleTime(raw, p) == ParseFlexibleTimeCorrected(raw, p)
  {
    if p.parseFloat(raw).Some? {
      AsWrittenOneDayEarly(p.parseFloat(raw).value);
    }
  }
}
