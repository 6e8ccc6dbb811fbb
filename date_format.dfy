/** `formatDateFR` (static/dashboard.js:27-35, copied as static/profile.js:11-19):
    a date written as `DD/MM/YYYY`. Parsing the text with `new Date(iso)` is
    the browser's; the model takes its outcome (the local calendar date, or
    none when the text does not parse) as an input. */
module DateFormat {
  import opened Decimal
  import opened JsValues

  /** What `getFullYear()`, `getMonth()` and `getDate()` return: the month is
      0-based, the day of the month 1-based. */
  datatype DateParts = DateParts(year: int, month: int, day: int)

  predicate ValidParts(d: DateParts) {
    0 <= d.month <= 11 && 1 <= d.day <= 31
  }

  type CalendarDate = d: DateParts | ValidParts(d) witness DateParts(1970, 0, 1)

  /** `String(n).padStart(2, "0")`. */
  function TwoDigits(n: nat): string {
    PadStart(NatToString(n), 2, '0')
  }

  /** The text written for a date that parsed. */
  function FormatParts(d: CalendarDate): string {
    TwoDigits(d.day) + "/" + TwoDigits(d.month + 1) + "/" + IntToString(d.year)
  }

  /** `formatDateFR(iso)`, with `parsed` the outcome of `new Date(iso)`. */
  function FormatDateFR(iso: Value, parsed: Option<CalendarDate>, fmt: NumberFormat): (r: string)
    ensures !Truthy(iso) ==> r == ""
    ensures Truthy(iso) && parsed.None? ==> r == JsString(iso, fmt)
    ensures Truthy(iso) && parsed.Some? ==> ReadDateFR(r) == Some(parsed.value)
    ensures Truthy(iso) && parsed.Some? && 1000 <= parsed.value.year <= 9999 ==> |r| == 10
  {
    if !Truthy(iso) then ""
    else match parsed
      case None => JsString(iso, fmt)
      case Some(d) =>
        FormatPartsFacts(d);
        FormatParts(d)
  }

  /** Reads `DD/MM/YYYY` back into date parts; the year may have any number
      of digits and a minus sign. */
  function ReadDateFR(s: string): Option<DateParts> {
    if |s| >= 7 && s[2] == '/' && s[5] == '/'
       && AllDigits(s[..2]) && AllDigits(s[3..5]) && IntText(s[6..])
    then Some(DateParts(ParseInt(s[6..]), ParseNat(s[3..5]) - 1, ParseNat(s[..2])))
    else None
  }

  /** Day and month always take exactly two digits, and read back as themselves. */
  lemma TwoDigitsRoundTrip(n: nat)
    requires 1 <= n <= 99
    ensures |TwoDigits(n)| == 2 && AllDigits(TwoDigits(n)) && ParseNat(TwoDigits(n)) == n
  {
    var t := NatToString(n);
    ParseNatToString(n);
    if n < 10 {
      NatToStringLength(n, 0);
      ParseNatLeadingZero(t);
      assert TwoDigits(n) == "0" + t;
    } else {
      NatToStringLength(n, 1);
    }
  }

  /** Where the fields of `DD/MM/Y…` sit once the text is joined. */
  lemma JoinedFields(dd: string, mm: string, yy: string)
    requires |dd| == 2 && |mm| == 2
    ensures var s := dd + "/" + mm + "/" + yy;
      |s| == 6 + |yy| && s[2] == '/' && s[5] == '/' && s[..2] == dd && s[3..5] == mm && s[6..] == yy
  {
  }

  /** Any two-digit day and month and any year text read back field by field. */
  lemma ReadJoined(dd: string, mm: string, yy: string)
    requires |dd| == 2 && |mm| == 2 && AllDigits(dd) && AllDigits(mm) && yy != [] && IntText(yy)
    ensures ReadDateFR(dd + "/" + mm + "/" + yy) == Some(DateParts(ParseInt(yy), ParseNat(mm) - 1, ParseNat(dd)))
  {
    JoinedFields(dd, mm, yy);
  }

  /** Fields that read as the day, the 1-based month and the year of `d`
      join into text that reads back as `d`. */
  lemma ReadFields(d: CalendarDate, dd: string, mm: string, yy: string)
    requires |dd| == 2 && |mm| == 2 && AllDigits(dd) && AllDigits(mm) && yy != [] && IntText(yy)
    requires ParseNat(dd) == d.day && ParseNat(mm) == d.month + 1 && ParseInt(yy) == d.year
    ensures ReadDateFR(dd + "/" + mm + "/" + yy) == Some(d)
  {
    ReadJoined(dd, mm, yy);
  }

  /** The formatted date reads back as the date it was formatted from,
      whatever the sign of the year. */
  lemma ReadFormatParts(d: CalendarDate)
    ensures ReadDateFR(FormatParts(d)) == Some(d)
  {
    TwoDigitsRoundTrip(d.day);
    TwoDigitsRoundTrip(d.month + 1);
    ParseIntToString(d.year);
    ReadFields(d, TwoDigits(d.day), TwoDigits(d.month + 1), IntToString(d.year));
  }

  lemma FormatPartsFacts(d: CalendarDate)
    ensures ReadDateFR(FormatParts(d)) == Some(d)
    ensures 1000 <= d.year <= 9999 ==> |FormatParts(d)| == 10
  {
    ReadFormatParts(d);
    if 1000 <= d.year <= 9999 { FormatPartsLength(d); }
  }

  /** A four-digit year gives the ten characters `DD/MM/YYYY`. */
  lemma FormatPartsLength(d: CalendarDate)
    requires 1000 <= d.year <= 9999
    ensures |FormatParts(d)| == 10
  {
    TwoDigitsRoundTrip(d.day);
    TwoDigitsRoundTrip(d.month + 1);
    NatToStringLength(d.year, 3);
  }
}
