/**
 * The field normalisers of the processing job (`parse_date`, `parse_time`,
 * `parse_int`, `parse_float`, `safe_join`). Each is total: where Python would
 * raise inside the `try`, the model returns the same default the `except`
 * returns.
 */
module Fields {
  import opened Wrappers
  import opened Text
  import opened Json

  datatype Date = Date(year: int, month: int, day: int)
  datatype Time = Time(hour: int, minute: int)

  predicate IsLeapYear(y: int)
  {
    y % 4 == 0 && (y % 100 != 0 || y % 400 == 0)
  }

  function DaysInMonth(y: int, m: int): (n: int)
    requires 1 <= m <= 12
    ensures 28 <= n <= 31
    ensures m == 2 ==> (n == 29 <==> IsLeapYear(y))
  {
    if m == 2 then (if IsLeapYear(y) then 29 else 28)
    else if m == 4 || m == 6 || m == 9 || m == 11 then 30
    else 31
  }

  /** A date that Python's `datetime.date` accepts. */
  predicate ValidDate(d: Date)
  {
    1 <= d.year <= 9999 && 1 <= d.month <= 12 && 1 <= d.day <= DaysInMonth(d.year, d.month)
  }

  predicate ValidTime(t: Time)
  {
    0 <= t.hour <= 23 && 0 <= t.minute <= 59
  }

  // ---------------------------------------------------------------------
  // The fields `strptime` reads: each directive accepts exactly the
  // spellings of its regular expression in CPython's `_strptime`.
  // ---------------------------------------------------------------------

  /** `%d`: "01" to "31", "1" to "9", or a space followed by "1" to "9". */
  function DayField(t: string): (r: Option<int>)
    ensures r.Some? ==> 1 <= r.value <= 31 && '.' !in t
  {
    if |t| == 2 && AllDigits(t) && 1 <= DigitsValue(t) <= 31 then Some(DigitsValue(t))
    else if |t| == 1 && IsDigit(t[0]) && t[0] != '0' then Some(DigitValue(t[0]))
    else if |t| == 2 && t[0] == ' ' && IsDigit(t[1]) && t[1] != '0' then Some(DigitValue(t[1]))
    else None
  }

  /** `%m`: "01" to "12" or "1" to "9". */
  function MonthField(t: string): (r: Option<int>)
    ensures r.Some? ==> 1 <= r.value <= 12 && '.' !in t
  {
    if |t| == 2 && AllDigits(t) && 1 <= DigitsValue(t) <= 12 then Some(DigitsValue(t))
    else if |t| == 1 && IsDigit(t[0]) && t[0] != '0' then Some(DigitValue(t[0]))
    else None
  }

  /** `%Y`: exactly four digits. */
  function YearField(t: string): (r: Option<int>)
    ensures r.Some? ==> 0 <= r.value && |t| == 4
  {
    if |t| == 4 && AllDigits(t) then Some(DigitsValue(t)) else None
  }

  /** `%H`: "00" to "23" or a single digit. */
  function HourField(t: string): (r: Option<int>)
    ensures r.Some? ==> 0 <= r.value <= 23 && ':' !in t
  {
    if |t| == 2 && AllDigits(t) && DigitsValue(t) <= 23 then Some(DigitsValue(t))
    else if |t| == 1 && IsDigit(t[0]) then Some(DigitValue(t[0]))
    else None
  }

  /** `%M`: "00" to "59" or a single digit. */
  function MinuteField(t: string): (r: Option<int>)
    ensures r.Some? ==> 0 <= r.value <= 59
  {
    if |t| == 2 && AllDigits(t) && DigitsValue(t) <= 59 then Some(DigitsValue(t))
    else if |t| == 1 && IsDigit(t[0]) then Some(DigitValue(t[0]))
    else None
  }

  /** The date three fields spell, if they are well formed and the date exists. */
  function DateOfFields(a: string, b: string, c: string): Option<Date>
  {
    match (DayField(a), MonthField(b), YearField(c))
    case (Some(d), Some(m), Some(y)) =>
      if ValidDate(Date(y, m, d)) then Some(Date(y, m, d)) else None
    case _ => None
  }

  /** `strptime(s, '%d.%m.%Y')`, `None` where it raises ValueError. */
  function ParseDateText(s: string): Option<Date>
  {
    match IndexOf(s, '.')
    case None => None
    case Some(i) =>
      var rest := s[i + 1..];
      match IndexOf(rest, '.')
      case None => None
      case Some(j) => DateOfFields(s[..i], rest[..j], rest[j + 1..])
  }

  /**
   * `parse_date`: `None` for a falsy value, for a value that is not a string
   * (strptime raises TypeError) and for text strptime rejects.
   */
  function ParseDate(v: Value): (r: Option<Date>)
    ensures r.Some? ==> ValidDate(r.value) && v.Str? && v.s != ""
  {
    if !Truthy(v) then None
    else match v
      case Str(s) => ParseDateText(s)
      case _ => None
  }

  /** `strptime(s, '%H:%M')`, `None` where it raises ValueError. */
  function ParseTimeText(s: string): Option<Time>
  {
    match IndexOf(s, ':')
    case None => None
    case Some(i) => TimeOfFields(s[..i], s[i + 1..])
  }

  /** The time two fields spell, if both are well formed. */
  function TimeOfFields(a: string, b: string): Option<Time>
  {
    match (HourField(a), MinuteField(b))
    case (Some(h), Some(m)) => Some(Time(h, m))
    case _ => None
  }

  /** `parse_time`: `None` for a falsy or non-string value and for rejected text. */
  function ParseTime(v: Value): (r: Option<Time>)
    ensures r.Some? ==> ValidTime(r.value) && v.Str? && v.s != ""
  {
    if !Truthy(v) then None
    else match v
      case Str(s) => ParseTimeText(s)
      case _ => None
  }

  /** `s` is made of the three fields `a`, `b`, `c` separated by dots and they spell `d`. */
  ghost predicate SpellsDate(s: string, d: Date)
  {
    exists a: string, b: string, c: string ::
      && s == a + "." + b + "." + c
      && DayField(a) == Some(d.day)
      && MonthField(b) == Some(d.month)
      && YearField(c) == Some(d.year)
  }

  /** The three fields of a date that exists. */
  lemma DateOfFieldsSome(a: string, b: string, c: string, d: Date)
    requires DateOfFields(a, b, c) == Some(d)
    ensures ValidDate(d) && DayField(a) == Some(d.day) && MonthField(b) == Some(d.month) && YearField(c) == Some(d.year)
  {
  }

  /** Text cut at its first two dots. */
  lemma SplitDots(a: string, b: string, c: string)
    requires '.' !in a && '.' !in b
    ensures ParseDateText(a + "." + b + "." + c) == DateOfFields(a, b, c)
  {
    var rest := b + "." + c;
    var s := a + "." + b + "." + c;
    assert s == a + ['.'] + rest;
    IndexOfAfter(a, '.', rest);
    assert s[..|a|] == a && s[|a| + 1..] == rest;
    assert rest == b + ['.'] + c;
    IndexOfAfter(b, '.', c);
    assert rest[..|b|] == b && rest[|b| + 1..] == c;
  }

  /** Accepted text is three dot-free fields around two dots. */
  lemma ParseDateTextSplit(s: string) returns (a: string, b: string, c: string)
    requires ParseDateText(s).Some?
    ensures s == a + "." + b + "." + c && ParseDateText(s) == DateOfFields(a, b, c)
  {
    var i := IndexOf(s, '.').value;
    var rest := s[i + 1..];
    var j := IndexOf(rest, '.').value;
    a, b, c := s[..i], rest[..j], rest[j + 1..];
    assert ParseDateText(s) == DateOfFields(a, b, c);
    SplitAt(s, i);
    SplitAt(rest, j);
    assert s == a + "." + (b + "." + c);
  }

  lemma ParseDateSound(s: string, d: Date)
    requires ParseDate(Str(s)) == Some(d)
    ensures ValidDate(d) && SpellsDate(s, d)
  {
    assert ParseDateText(s) == Some(d);
    var a, b, c := ParseDateTextSplit(s);
    DateOfFieldsSome(a, b, c, d);
  }

  lemma ParseDateComplete(s: string, d: Date, a: string, b: string, c: string)
    requires ValidDate(d) && s == a + "." + b + "." + c
    requires DayField(a) == Some(d.day) && MonthField(b) == Some(d.month) && YearField(c) == Some(d.year)
    ensures ParseDate(Str(s)) == Some(d)
  {
    SplitDots(a, b, c);
    assert DateOfFields(a, b, c) == Some(d);
    assert s != [];
  }

  /** `parse_date` on text gives a date exactly when the text spells that date and it exists. */
  lemma ParseDateMeaning(s: string, d: Date)
    ensures ParseDate(Str(s)) == Some(d) <==> ValidDate(d) && SpellsDate(s, d)
  {
    if ParseDate(Str(s)) == Some(d) {
      ParseDateSound(s, d);
    }
    if ValidDate(d) && SpellsDate(s, d) {
      var a: string, b: string, c: string :|
        && s == a + "." + b + "." + c
        && DayField(a) == Some(d.day)
        && MonthField(b) == Some(d.month)
        && YearField(c) == Some(d.year);
      ParseDateComplete(s, d, a, b, c);
    }
  }

  /** `s` is an hour field and a minute field separated by a colon, spelling `t`. */
  ghost predicate SpellsTime(s: string, t: Time)
  {
    exists a: string, b: string ::
      && s == a + ":" + b
      && HourField(a) == Some(t.hour)
      && MinuteField(b) == Some(t.minute)
  }

  /** Text cut at its first colon. */
  lemma SplitColon(a: string, b: string)
    requires ':' !in a
    ensures ParseTimeText(a + ":" + b) == TimeOfFields(a, b)
  {
    var s := a + ":" + b;
    assert s == a + [':'] + b;
    IndexOfAfter(a, ':', b);
    assert s[..|a|] == a && s[|a| + 1..] == b;
  }

  /** `parse_time` on text gives a time exactly when the text spells it. */
  lemma ParseTimeMeaning(s: string, t: Time)
    ensures ParseTime(Str(s)) == Some(t) <==> SpellsTime(s, t)
  {
    if ParseTime(Str(s)) == Some(t) {
      var i := IndexOf(s, ':').value;
      var a, b := s[..i], s[i + 1..];
      assert s == a + ":" + b;
      assert TimeOfFields(a, b) == Some(t);
      assert HourField(a) == Some(t.hour) && MinuteField(b) == Some(t.minute);
    }
    if SpellsTime(s, t) {
      var a: string, b: string :|
        && s == a + ":" + b
        && HourField(a) == Some(t.hour)
        && MinuteField(b) == Some(t.minute);
      SplitColon(a, b);
      assert s != [];
    }
  }

  // ---------------------------------------------------------------------
  // The two-digit rendering dd.mm.yyyy / HH:MM and its round trips.
  // ---------------------------------------------------------------------

  function TwoDigits(n: nat): string
  {
    ZeroPad(NatToDigits(n), 2)
  }

  function FormatDate(d: Date): string
    requires ValidDate(d)
  {
    TwoDigits(d.day) + "." + TwoDigits(d.month) + "." + ZeroPad(NatToDigits(d.year), 4)
  }

  function FormatTime(t: Time): string
    requires ValidTime(t)
  {
    TwoDigits(t.hour) + ":" + TwoDigits(t.minute)
  }

  /** A number padded with zeros to a width it fits in reads back as itself. */
  lemma PaddedValue(n: nat, width: nat)
    requires 1 <= width && n < Pow10(width)
    ensures |ZeroPad(NatToDigits(n), width)| == width
    ensures AllDigits(ZeroPad(NatToDigits(n), width))
    ensures DigitsValue(ZeroPad(NatToDigits(n), width)) == n
  {
    var s := NatToDigits(n);
    DigitsLength(n, width, Pow10(width));
    DigitsRoundTrip(n);
    if |s| < width {
      LeadingZeros(width - |s|, s);
    }
  }

  lemma FormatDateRoundTrip(d: Date)
    requires ValidDate(d)
    ensures ParseDate(Str(FormatDate(d))) == Some(d)
  {
    assert Pow10(2) == 100 && Pow10(4) == 10000;
    PaddedValue(d.day, 2);
    PaddedValue(d.month, 2);
    PaddedValue(d.year, 4);
    var a, b, c := TwoDigits(d.day), TwoDigits(d.month), ZeroPad(NatToDigits(d.year), 4);
    assert DayField(a) == Some(d.day);
    assert MonthField(b) == Some(d.month);
    assert YearField(c) == Some(d.year);
    assert SpellsDate(FormatDate(d), d);
    ParseDateMeaning(FormatDate(d), d);
  }

  lemma FormatTimeRoundTrip(t: Time)
    requires ValidTime(t)
    ensures ParseTime(Str(FormatTime(t))) == Some(t)
  {
    assert Pow10(2) == 100;
    PaddedValue(t.hour, 2);
    PaddedValue(t.minute, 2);
    var a, b := TwoDigits(t.hour), TwoDigits(t.minute);
    assert HourField(a) == Some(t.hour);
    assert MinuteField(b) == Some(t.minute);
    assert SpellsTime(FormatTime(t), t);
    ParseTimeMeaning(FormatTime(t), t);
  }

  // ---------------------------------------------------------------------
  // parse_int
  // ---------------------------------------------------------------------

  /** The ASCII characters Python's `str.isspace` accepts. */
  predicate IsSpace(c: char)
  {
    c == ' ' || '\t' <= c <= '\r' || '\U{1C}' <= c <= '\U{1F}'
  }

  predicate AllSpace(s: string)
  {
    forall i :: 0 <= i < |s| ==> IsSpace(s[i])
  }

  function TrimLeft(s: string): string
  {
    if s != [] && IsSpace(s[0]) then TrimLeft(s[1..]) else s
  }

  function TrimRight(s: string): string
  {
    if s != [] && IsSpace(s[|s| - 1]) then TrimRight(s[..|s| - 1]) else s
  }

  function Strip(s: string): string
  {
    TrimRight(TrimLeft(s))
  }

  predicate DigitsOrUnderscores(t: string)
  {
    forall i :: 0 <= i < |t| ==> IsDigit(t[i]) || t[i] == '_'
  }

  /** Digits with single underscores between them, the body `int()` accepts. */
  predicate Underscored(t: string)
  {
    && |t| > 0 && IsDigit(t[0]) && IsDigit(t[|t| - 1])
    && DigitsOrUnderscores(t)
    && forall i :: 0 <= i < |t| - 1 ==> !(t[i] == '_' && t[i + 1] == '_')
  }

  function WithoutUnderscores(t: string): (r: string)
    requires DigitsOrUnderscores(t)
    ensures AllDigits(r)
  {
    if t == [] then []
    else (if t[0] == '_' then [] else [t[0]]) + WithoutUnderscores(t[1..])
  }

  /** `int(s)` on a string: `None` where it raises ValueError. */
  function IntText(s: string): Option<int>
  {
    SignedDigits(Strip(s))
  }

  /** An optional sign followed by underscored digits. */
  function SignedDigits(t: string): Option<int>
  {
    if |t| > 0 && (t[0] == '+' || t[0] == '-') && Underscored(t[1..]) then
      var n: int := DigitsValue(WithoutUnderscores(t[1..]));
      Some(if t[0] == '-' then -n else n)
    else if Underscored(t) then Some(DigitsValue(WithoutUnderscores(t)))
    else None
  }

  /** `int(r)` on a float: truncation toward zero. */
  function Truncate(r: real): (n: int)
    ensures r >= 0.0 ==> 0 <= n && n as real <= r < n as real + 1.0
    ensures r < 0.0 ==> n <= 0 && n as real - 1.0 < r <= n as real
  {
    if r >= 0.0 then r.Floor else -((-r).Floor)
  }

  /** `parse_int`: 0 for `None` and for anything `int()` rejects. */
  function ParseInt(v: Value): (n: int)
    ensures v.Null? || v.Array? || v.Object? ==> n == 0
    ensures v.Int? ==> n == v.i
    ensures v.Bool? ==> n == (if v.b then 1 else 0)
    ensures v.Float? ==> n == Truncate(v.r)
    ensures v.Str? && IntText(v.s).Some? ==> n == IntText(v.s).value
    ensures v.Str? && IntText(v.s).None? ==> n == 0
  {
    match v
    case Null => 0
    case Bool(b) => if b then 1 else 0
    case Int(i) => i
    case Float(r) => Truncate(r)
    case Str(s) => IntText(s).GetOr(0)
    case _ => 0
  }

  lemma {:induction false} DigitsHaveNoUnderscores(t: string)
    requires AllDigits(t)
    ensures DigitsOrUnderscores(t) && WithoutUnderscores(t) == t
  {
    if t != [] {
      DigitsHaveNoUnderscores(t[1..]);
      assert t == [t[0]] + t[1..];
    }
  }

  lemma {:induction false} TrimLeftSpaces(w: string, t: string)
    requires AllSpace(w) && t != [] && !IsSpace(t[0])
    ensures TrimLeft(w + t) == t
  {
    if w != [] {
      assert (w + t)[1..] == w[1..] + t;
      TrimLeftSpaces(w[1..], t);
    }
  }

  lemma {:induction false} TrimRightSpaces(t: string, w: string)
    requires AllSpace(w) && t != [] && !IsSpace(t[|t| - 1])
    ensures TrimRight(t + w) == t
  {
    if w != [] {
      assert (t + w)[..|t + w| - 1] == t + w[..|w| - 1];
      TrimRightSpaces(t, w[..|w| - 1]);
    } else {
      assert t + w == t;
    }
  }

  /** Stripping removes exactly the surrounding whitespace. */
  lemma StripSpaces(before: string, t: string, after: string)
    requires AllSpace(before) && AllSpace(after)
    requires t != [] && !IsSpace(t[0]) && !IsSpace(t[|t| - 1])
    ensures Strip(before + t + after) == t
  {
    TrimLeftSpaces(before, t + after);
    assert before + t + after == before + (t + after);
    TrimRightSpaces(t, after);
  }

  lemma SignedDigitsNat(m: nat)
    ensures SignedDigits(NatToDigits(m)) == Some(m)
    ensures SignedDigits("-" + NatToDigits(m)) == Some(-(m as int))
  {
    var d := NatToDigits(m);
    DigitsHaveNoUnderscores(d);
    DigitsRoundTrip(m);
    assert Underscored(d);
    var t := "-" + d;
    assert t[1..] == d;
    assert WithoutUnderscores(t[1..]) == d;
    assert |t| > 0 && t[0] == '-' && Underscored(t[1..]);
    assert !(d[0] == '+' || d[0] == '-');
  }

  lemma IntTextDecimal(n: int)
    ensures IntText(IntToDecimal(n)) == Some(n)
  {
    var t := IntToDecimal(n);
    StripSpaces([], t, []);
    assert [] + t + [] == t;
    SignedDigitsNat(if n < 0 then -n else n);
  }

  /**
   * `parse_int` reads back the decimal spelling of any integer, however much
   * whitespace surrounds it.
   */
  lemma ParseIntRoundTrip(n: int, before: string, after: string)
    requires AllSpace(before) && AllSpace(after)
    ensures ParseInt(Str(before + IntToDecimal(n) + after)) == n
  {
    var t := IntToDecimal(n);
    StripSpaces(before, t, after);
    StripSpaces([], t, []);
    assert [] + t + [] == t;
    IntTextDecimal(n);
  }

  // ---------------------------------------------------------------------
  // parse_float (its textual part) and safe_join
  // ---------------------------------------------------------------------

  /** `s.replace(',', '.')` */
  function CommaToDot(s: string): (r: string)
    ensures |r| == |s| && ',' !in r
    ensures forall i :: 0 <= i < |s| && s[i] != ',' ==> r[i] == s[i]
    ensures forall i :: 0 <= i < |s| && s[i] == ',' ==> r[i] == '.'
  {
    seq(|s|, i requires 0 <= i < |s| => if s[i] == ',' then '.' else s[i])
  }

  /**
   * What `parse_float` hands to `float()`: a number it already knows, or the
   * text to convert (0.0 when `float()` rejects it).
   */
  datatype Coord = Number(r: real) | Spelled(t: string)

  /**
   * `parse_float`. `None` gives 0.0; a float or an integer survives the
   * `str`/`float` round trip; a string has its commas turned into dots; the
   * `str()` of a boolean, list or dict never converts, so gives 0.0.
   */
  function ParseFloat(v: Value): (c: Coord)
    ensures c.Spelled? ==> v.Str? && ',' !in c.t && |c.t| == |v.s|
    ensures v.Str? ==> c == Spelled(CommaToDot(v.s))
    ensures v.Float? ==> c == Number(v.r)
    ensures v.Int? ==> c == Number(v.i as real)
    ensures !(v.Str? || v.Float? || v.Int?) ==> c == Number(0.0)
  {
    match v
    case Null => Number(0.0)
    case Float(r) => Number(r)
    case Int(i) => Number(i as real)
    case Str(s) => Spelled(CommaToDot(s))
    case _ => Number(0.0)
  }

  /** `str(item)` for every item that is not `None`, in their original order. */
  function Rendered(items: seq<Value>, render: Value -> string): (r: seq<string>)
    ensures |r| <= |items|
    ensures forall k :: 0 <= k < |r| ==> exists x :: x in items && !x.Null? && r[k] == PyStr(x, render)
  {
    if items == [] then []
    else (if items[0].Null? then [] else [PyStr(items[0], render)]) + Rendered(items[1..], render)
  }

  /** `", ".join(parts)` */
  function JoinComma(parts: seq<string>): string
  {
    if parts == [] then ""
    else if |parts| == 1 then parts[0]
    else parts[0] + ", " + JoinComma(parts[1..])
  }

  /** `safe_join`: a list is joined, `None` gives "", anything else is `str(value)`. */
  function SafeJoin(v: Value, render: Value -> string): (r: string)
    ensures v.Null? ==> r == ""
    ensures !v.Null? && !v.Array? ==> r == PyStr(v, render)
  {
    match v
    case Array(items) => JoinComma(Rendered(items, render))
    case Null => ""
    case _ => PyStr(v, render)
  }

  /** Cuts a string at every ", ", the inverse of `JoinComma` for comma-free parts. */
  function SplitComma(s: string): seq<string>
    decreases |s|
  {
    if s == "" then []
    else match IndexOf(s, ',')
      case None => [s]
      case Some(i) => [s[..i]] + (if i + 2 <= |s| then SplitComma(s[i + 2..]) else [])
  }

  lemma {:induction false} JoinSplit(parts: seq<string>)
    requires forall k :: 0 <= k < |parts| ==> parts[k] != "" && ',' !in parts[k]
    ensures SplitComma(JoinComma(parts)) == parts
  {
    if |parts| >= 2 {
      var p, tail := parts[0], JoinComma(parts[1..]);
      var s := p + ", " + tail;
      assert s == p + [','] + (" " + tail);
      IndexOfAfter(p, ',', " " + tail);
      assert s[..|p|] == p && s[|p| + 2..] == tail;
      JoinSplit(parts[1..]);
      assert parts == [p] + parts[1..];
    }
  }

  /** Dropping the `None` items never reorders the others. */
  lemma {:induction false} RenderedAppend(xs: seq<Value>, ys: seq<Value>, render: Value -> string)
    ensures Rendered(xs + ys, render) == Rendered(xs, render) + Rendered(ys, render)
  {
    if xs != [] {
      assert (xs + ys)[1..] == xs[1..] + ys;
      RenderedAppend(xs[1..], ys, render);
    } else {
      assert xs + ys == ys;
    }
  }

  /**
   * `safe_join` keeps every non-None item, in order: cutting its result at the
   * separators gives back the items' strings, when none of them is empty or
   * contains a comma.
   */
  lemma SafeJoinRoundTrip(items: seq<Value>, render: Value -> string)
    requires forall x :: x in items && !x.Null? ==> PyStr(x, render) != "" && ',' !in PyStr(x, render)
    ensures SplitComma(SafeJoin(Array(items), render)) == Rendered(items, render)
  {
    JoinSplit(Rendered(items, render));
  }
  // ---------------------------------------------------------------------
  // Two concrete dates: one that exists and one that does not.
  // ---------------------------------------------------------------------

  lemma Year2024()
    ensures YearField("2024") == Some(2024)
  {
    assert DigitsValue("2") == 2;
    assert "20"[..1] == "2";
    assert "202"[..2] == "20";
    assert "2024"[..3] == "202";
  }

  lemma ParseDateMarchFirst()
    ensures ParseDate(Str("01.03.2024")) == Some(Date(2024, 3, 1))
  {
    Year2024();
    assert "01"[..1] == "0" && "03"[..1] == "0";
    TwoDigitsValue("01");
    TwoDigitsValue("03");
    assert DayField("01") == Some(1);
    assert MonthField("03") == Some(3);
    assert "01.03.2024" == "01" + "." + "03" + "." + "2024";
    ParseDateComplete("01.03.2024", Date(2024, 3, 1), "01", "03", "2024");
  }

  lemma NoFebruary31()
    ensures DateOfFields("31", "02", "2024") == None
  {
    Year2024();
    assert "31"[..1] == "3" && "02"[..1] == "0";
    TwoDigitsValue("31");
    TwoDigitsValue("02");
    assert DayField("31") == Some(31);
    assert MonthField("02") == Some(2);
  }

  /** "31.02.2024" is well formed but names no date. */
  lemma ParseDateRejectsFebruary31()
    ensures ParseDate(Str("31.02.2024")) == None
  {
    NoFebruary31();
    assert "31.02.2024" == "31" + "." + "02" + "." + "2024";
    SplitDots("31", "02", "2024");
  }
}
