/** `_format_date` of the distributor stock interpreter: an ISO 8601 calendar date in
    extended format (section 4.1.2.2 of ISO 8601:2004, `YYYY-MM-DD`), optionally followed
    by a time of day, rendered as strftime's `%d/%m/%y`. */
module IsoDate {
  import opened Text

  datatype Date = Date(year: nat, month: nat, day: nat)

  predicate IsLeapYear(y: nat) {
    y % 4 == 0 && (y % 100 != 0 || y % 400 == 0)
  }

  function DaysInMonth(y: nat, m: nat): (n: nat)
    requires 1 <= m <= 12
    ensures 28 <= n <= 31
  {
    if m == 2 then (if IsLeapYear(y) then 29 else 28)
    else if m == 4 || m == 6 || m == 9 || m == 11 then 30
    else 31
  }

  /** The dates Python's `datetime` can hold (years 1 to 9999 of the proleptic
      Gregorian calendar). */
  predicate ValidDate(d: Date) {
    1 <= d.year <= 9999 && 1 <= d.month <= 12 && 1 <= d.day <= DaysInMonth(d.year, d.month)
  }

  /** The number written with exactly `n` digits at `s[i..i+n]`, if they all are digits. */
  function Number(s: string, i: nat, n: nat): Option<nat>
    requires i + n <= |s|
  {
    if AllDigits(s[i..i + n]) then Some(DigitsValue(s[i..i + n])) else None
  }

  /** `YYYY-MM-DD`, exactly ten characters, naming a date that exists. */
  function ParseCalendarDate(s: string): Option<Date>
    requires |s| == 10
  {
    match (Number(s, 0, 4), Number(s, 5, 2), Number(s, 8, 2))
    case (Some(y), Some(m), Some(d)) =>
      var date := Date(y, m, d);
      if s[4] == '-' && s[7] == '-' && ValidDate(date) then Some(date) else None
    case _ => None
  }

  /** `HH:MM` or `HH:MM:SS` on the 24-hour clock. */
  predicate ValidClock(t: string) {
    (|t| == 5 || |t| == 8) &&
    Number(t, 0, 2).Some? && Number(t, 0, 2).value < 24 && t[2] == ':' &&
    Number(t, 3, 2).Some? && Number(t, 3, 2).value < 60 &&
    (|t| == 8 ==> t[5] == ':' && Number(t, 6, 2).Some? && Number(t, 6, 2).value < 60)
  }

  /** A UTC offset `+HH:MM` or `-HH:MM` of less than a day. The two fields are not checked
      on their own: `timedelta` takes any two-digit hours and minutes, and `timezone` only
      bounds their total, so `+05:75` is accepted. */
  predicate ValidOffset(o: string) {
    |o| == 6 && (o[0] == '+' || o[0] == '-') &&
    Number(o, 1, 2).Some? && o[3] == ':' && Number(o, 4, 2).Some? &&
    Number(o, 1, 2).value * 60 + Number(o, 4, 2).value < 24 * 60
  }

  /** The time of day after the date: a clock, optionally followed by an offset. */
  predicate ValidTimeOfDay(t: string) {
    ValidClock(t) || (|t| >= 6 && ValidClock(t[..|t| - 6]) && ValidOffset(t[|t| - 6..]))
  }

  /** `datetime.fromisoformat` on the subset modelled here: the calendar date, then
      nothing, or `T` or a space and a time of day. The date is what `_format_date`
      uses of the result. */
  function ParseIso(s: string): Option<Date> {
    if |s| < 10 then None
    else match ParseCalendarDate(s[..10])
      case None => None
      case Some(d) =>
        if |s| == 10 then Some(d)
        else if (s[10] == 'T' || s[10] == ' ') && ValidTimeOfDay(s[11..]) then Some(d)
        else None
  }

  function PadFour(n: nat): (s: string)
    requires n < 10000
    ensures |s| == 4 && AllDigits(s)
  {
    PadTwo(n / 100) + PadTwo(n % 100)
  }

  /** The extended-format calendar date `YYYY-MM-DD` of a date. */
  function IsoString(d: Date): (s: string)
    requires ValidDate(d)
    ensures |s| == 10
  {
    PadFour(d.year) + "-" + PadTwo(d.month) + "-" + PadTwo(d.day)
  }

  /** strftime's `%d/%m/%y`. */
  function DayMonthYear(d: Date): string
    requires ValidDate(d)
  {
    PadTwo(d.day) + "/" + PadTwo(d.month) + "/" + PadTwo(d.year % 100)
  }

  /** `_format_date`: `None` stands for JSON null. The `if not date` guard catches null and
      the empty string; a string that does not parse is reported, never raised. */
  function FormatDate(date: Option<string>): string {
    match date
    case None => "No date available"
    case Some(s) =>
      if s == "" then "No date available"
      else match ParseIso(s)
        case Some(d) => DayMonthYear(d)
        case None => "Invalid date: " + s
  }

  /** The shape of a `DD/MM/YY` string. */
  predicate IsDayMonthYear(r: string) {
    |r| == 8 && r[2] == '/' && r[5] == '/' &&
    AllDigits(r[0..2]) && AllDigits(r[3..5]) && AllDigits(r[6..8])
  }

  // ---------------------------------------------------------------- lemmas

  lemma {:induction false} TwoDigitsValue(t: string)
    requires |t| == 2 && AllDigits(t)
    ensures DigitsValue(t) == DigitValue(t[0]) * 10 + DigitValue(t[1])
  {
    assert t[..1] == [t[0]] && t[..1][..0] == [];
    assert DigitsValue(t[..1]) == DigitValue(t[0]);
  }

  /** Zero-padding the value of a two-digit string writes that string again. */
  lemma {:induction false} PadTwoOfDigits(t: string)
    requires |t| == 2 && AllDigits(t)
    ensures DigitsValue(t) < 100 && PadTwo(DigitsValue(t)) == t
  {
    TwoDigitsValue(t);
    var p := PadTwo(DigitsValue(t));
    TwoDigitsValue(p);
    assert DigitValue(p[0]) == DigitValue(t[0]);
    assert DigitValue(p[1]) == DigitValue(t[1]);
  }

  lemma {:induction false} FourDigitsValue(t: string)
    requires |t| == 4 && AllDigits(t)
    ensures DigitsValue(t) == DigitsValue(t[..2]) * 100 + DigitsValue(t[2..])
  {
    var a, b, c, e := t[0], t[1], t[2], t[3];
    assert t[..3] == [a, b, c] && t[..3][..2] == [a, b] && t[..2] == [a, b];
    assert t[2..] == [c, e] && t[2..][..1] == [c] && [c][..0] == [];
    TwoDigitsValue(t[..2]);
    TwoDigitsValue(t[2..]);
    assert DigitsValue(t[..3]) == DigitsValue(t[..2]) * 10 + DigitValue(c);
  }

  lemma {:induction false} PadFourOfDigits(t: string)
    requires |t| == 4 && AllDigits(t)
    ensures DigitsValue(t) < 10000 && PadFour(DigitsValue(t)) == t
  {
    FourDigitsValue(t);
    PadTwoOfDigits(t[..2]);
    PadTwoOfDigits(t[2..]);
    var v := DigitsValue(t);
    assert v / 100 == DigitsValue(t[..2]) && v % 100 == DigitsValue(t[2..]);
    assert t == t[..2] + t[2..];
  }

  lemma {:induction false} NumberOfPadTwo(s: string, i: nat, n: nat)
    requires n < 100 && i + 2 <= |s| && s[i..i + 2] == PadTwo(n)
    ensures Number(s, i, 2) == Some(n)
  {
  }

  lemma {:induction false} NumberOfPadFour(s: string, n: nat)
    requires n < 10000 && 4 <= |s| && s[..4] == PadFour(n)
    ensures Number(s, 0, 4) == Some(n)
  {
    var t := s[0..4];
    assert t == PadTwo(n / 100) + PadTwo(n % 100);
    assert t[..2] == PadTwo(n / 100) && t[2..] == PadTwo(n % 100);
    FourDigitsValue(t);
  }

  /** The parser reads back every date the renderer writes. */
  lemma {:induction false} ParseIsoString(d: Date)
    requires ValidDate(d)
    ensures ParseIso(IsoString(d)) == Some(d)
  {
    var s := IsoString(d);
    assert s[..10] == s;
    NumberOfPadFour(s, d.year);
    NumberOfPadTwo(s, 5, d.month);
    NumberOfPadTwo(s, 8, d.day);
  }

  /** A calendar date followed by `T` or a space and a well-formed time of day parses to
      that date. */
  lemma {:induction false} ParseIsoWithTime(d: Date, sep: char, t: string)
    requires ValidDate(d) && (sep == 'T' || sep == ' ') && ValidTimeOfDay(t)
    ensures ParseIso(IsoString(d) + [sep] + t) == Some(d)
  {
    var s := IsoString(d) + [sep] + t;
    ParseIsoString(d);
    assert IsoString(d)[..10] == IsoString(d);
    assert s[..10] == IsoString(d);
    assert s[11..] == t;
  }

  /** Whatever parses is a real date whose ISO rendering is the first ten characters. */
  lemma {:induction false} ParseIsoSound(s: string)
    requires ParseIso(s).Some?
    ensures ValidDate(ParseIso(s).value) && IsoString(ParseIso(s).value) == s[..10]
  {
    var d := ParseIso(s).value;
    var p := s[..10];
    assert ParseCalendarDate(p) == Some(d);
    PadFourOfDigits(p[0..4]);
    PadTwoOfDigits(p[5..7]);
    PadTwoOfDigits(p[8..10]);
    assert p == p[0..4] + [p[4]] + p[5..7] + [p[7]] + p[8..10];
  }

  /** For a parsable input, `_format_date` only rearranges its digits: day, month and the
      last two digits of the year, in that order. */
  lemma {:induction false} FormatDateRearranges(s: string)
    requires ParseIso(s).Some?
    ensures FormatDate(Some(s)) == s[8..10] + "/" + s[5..7] + "/" + s[2..4]
  {
    var d := ParseIso(s).value;
    var p := s[..10];
    assert ParseCalendarDate(p) == Some(d);
    PadTwoOfDigits(p[5..7]);
    PadTwoOfDigits(p[8..10]);
    FourDigitsValue(p[0..4]);
    PadTwoOfDigits(p[0..4][2..]);
    assert p[0..4][2..] == s[2..4];
    assert d.year % 100 == DigitsValue(s[2..4]);
    assert p[5..7] == s[5..7] && p[8..10] == s[8..10];
  }

  /** `_format_date` of a valid ISO date, with or without a time of day, is that date
      as `DD/MM/YY`. */
  lemma {:induction false} FormatDateOfIso(d: Date, suffix: string)
    requires ValidDate(d)
    requires suffix == "" || (|suffix| > 1 && (suffix[0] == 'T' || suffix[0] == ' ') &&
                              ValidTimeOfDay(suffix[1..]))
    ensures FormatDate(Some(IsoString(d) + suffix)) == DayMonthYear(d)
  {
    if suffix == "" {
      assert IsoString(d) + suffix == IsoString(d);
      ParseIsoString(d);
    } else {
      assert suffix == [suffix[0]] + suffix[1..];
      assert IsoString(d) + suffix == IsoString(d) + [suffix[0]] + suffix[1..];
      ParseIsoWithTime(d, suffix[0], suffix[1..]);
    }
  }

  /** An offset is bounded by its total only: any two-digit hours and minutes are
      accepted while they make less than a day, so `+05:75` is valid and `+23:60` is
      not. */
  lemma {:induction false} OffsetBoundedByTotal(sign: char, h: nat, m: nat)
    requires (sign == '+' || sign == '-') && h < 100 && m < 100
    ensures ValidOffset([sign] + PadTwo(h) + ":" + PadTwo(m)) <==> h * 60 + m < 24 * 60
  {
    var o := [sign] + PadTwo(h) + ":" + PadTwo(m);
    assert o[1..3] == PadTwo(h) && o[4..6] == PadTwo(m);
    NumberOfPadTwo(o, 1, h);
    NumberOfPadTwo(o, 4, m);
  }

  lemma {:induction false} ClockOf(h: nat, m: nat)
    requires h < 24 && m < 60
    ensures ValidClock(PadTwo(h) + ":" + PadTwo(m))
  {
    var c := PadTwo(h) + ":" + PadTwo(m);
    assert c[0..2] == PadTwo(h) && c[3..5] == PadTwo(m);
    NumberOfPadTwo(c, 0, h);
    NumberOfPadTwo(c, 3, m);
  }

  /** A date with a clock and an offset of less than a day in total is formatted, not
      reported as invalid, whatever the offset's minutes field holds: with `5` and `75`
      this is `"2024-05-01T10:00+05:75"` becoming `"01/05/24"`. */
  lemma {:induction false} OffsetMinutesUnchecked(d: Date, h: nat, m: nat, sign: char, oh: nat, om: nat)
    requires ValidDate(d) && h < 24 && m < 60
    requires (sign == '+' || sign == '-') && oh < 100 && om < 100 && oh * 60 + om < 24 * 60
    ensures FormatDate(Some(IsoString(d) + "T" + PadTwo(h) + ":" + PadTwo(m) + [sign] + PadTwo(oh) + ":" + PadTwo(om)))
      == DayMonthYear(d)
  {
    var c := PadTwo(h) + ":" + PadTwo(m);
    var o := [sign] + PadTwo(oh) + ":" + PadTwo(om);
    ClockOf(h, m);
    OffsetBoundedByTotal(sign, oh, om);
    var t := c + o;
    assert t[..|t| - 6] == c && t[|t| - 6..] == o;
    FormatDateOfIso(d, ['T'] + t);
    assert IsoString(d) + "T" + PadTwo(h) + ":" + PadTwo(m) + [sign] + PadTwo(oh) + ":" + PadTwo(om)
      == IsoString(d) + (['T'] + t);
  }

  /** Every outcome of `_format_date`: the empty-input text, the invalid-date report
      carrying the input, or an eight-character `DD/MM/YY`. */
  lemma {:induction false} FormatDateOutcomes(date: Option<string>)
    ensures var r := FormatDate(date);
      && (r == "No date available" <==> date.None? || date.value == "")
      && (date.Some? && date.value != "" && ParseIso(date.value).None? ==>
            r == "Invalid date: " + date.value)
      && (date.Some? && ParseIso(date.value).Some? ==> IsDayMonthYear(r))
  {
    var r := FormatDate(date);
    if date.Some? && date.value != "" {
      match ParseIso(date.value)
      case Some(d) =>
        ParseIsoSound(date.value);
        var a, b, c := PadTwo(d.day), PadTwo(d.month), PadTwo(d.year % 100);
        assert r == a + "/" + b + "/" + c;
        assert r[0..2] == a && r[3..5] == b && r[6..8] == c;
      case None =>
        assert r[0] == 'I';
    }
  }
}
