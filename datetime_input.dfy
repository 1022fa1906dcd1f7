/** The text forms of a date and time the create forms use: the value of a
    `datetime-local` input (`YYYY-MM-DDTHH:MM`) and the string sent to the
    backend (`YYYY-MM-DDTHH:MM:SS.000Z`, the local time written as if it were
    UTC). Both are built from the local-time components of a JavaScript `Date`;
    the event and announcement forms carry identical copies of the input
    formatter, modelled once here. */
module DateTimeInput {
  import opened Text
  import opened Http

  /** What the local-time getters of a `Date` return: `getFullYear`,
      `getMonth` (0 for January), `getDate`, `getHours`, `getMinutes`,
      `getSeconds`; or an invalid date, whose time value is NaN. */
  datatype LocalDate =
    | InvalidDate
    | LocalDate(year: int, month: nat, day: nat, hours: nat, minutes: nat, seconds: nat)

  /** The ranges the getters of a valid date keep to, with a year not before 0. */
  predicate Ordinary(d: LocalDate) {
    d.LocalDate? && 0 <= d.year && d.month < 12 && 1 <= d.day <= 31
    && d.hours < 24 && d.minutes < 60 && d.seconds < 60
  }

  /** `String(n).padStart(2, '0')` */
  function Pad2(n: nat): (r: string)
    ensures AllDigits(r) && |r| >= 2
    ensures |r| == 2 <==> n < 100
  {
    if n < 10 then ['0', DigitChar(n)] else NatToString(n)
  }

  /** Everything after the year: `-MM-DDTHH:MM`. */
  function MonthToMinutes(d: LocalDate): string
    requires d.LocalDate?
  {
    "-" + Pad2(d.month + 1) + "-" + Pad2(d.day) + "T" + Pad2(d.hours) + ":" + Pad2(d.minutes)
  }

  /** `formatLocalDateTimeForInput`: "" for an invalid date. */
  function FormatLocalDateTimeForInput(d: LocalDate): (r: string)
    ensures d.InvalidDate? <==> r == ""
  {
    match d
    case InvalidDate => ""
    case LocalDate(year, _, _, _, _, _) => IntToString(year) + MonthToMinutes(d)
  }

  /** `formatDateTimeForBackend(s)`, `parsed` being what `new Date(s)` reads
      back. An invalid date does not throw: every getter gives NaN, which
      `String` renders as "NaN". */
  function FormatDateTimeForBackend(s: string, parsed: LocalDate): (r: string)
    ensures s == "" <==> r == ""
    ensures s != "" && parsed.LocalDate? ==> FormatLocalDateTimeForInput(parsed) <= r
  {
    if s == "" then ""
    else
      match parsed
      case InvalidDate => "NaN-NaN-NaNTNaN:NaN:NaN.000Z"
      case LocalDate(_, _, _, _, _, seconds) =>
        FormatLocalDateTimeForInput(parsed) + (":" + Pad2(seconds) + ".000Z")
  }

  /** The fields written in a `YYYY-MM-DDTHH:MM` string; `month` counts from 1. */
  datatype Fields = Fields(year: nat, month: nat, day: nat, hours: nat, minutes: nat)

  function TwoDigits(a: char, b: char): nat
    requires IsDigit(a) && IsDigit(b)
  {
    10 * DigitValue(a) + DigitValue(b)
  }

  /** Reads a `YYYY-MM-DDTHH:MM` string (a year of any number of digits). */
  function ParseLocalDateTime(s: string): Option<Fields> {
    if |s| < 13 then None
    else
      var y := s[..|s| - 12];
      var t := s[|s| - 12..];
      if AllDigits(y) && t[0] == '-' && t[3] == '-' && t[6] == 'T' && t[9] == ':'
         && IsDigit(t[1]) && IsDigit(t[2]) && IsDigit(t[4]) && IsDigit(t[5])
         && IsDigit(t[7]) && IsDigit(t[8]) && IsDigit(t[10]) && IsDigit(t[11])
      then Some(Fields(ParseNat(y), TwoDigits(t[1], t[2]), TwoDigits(t[4], t[5]),
                       TwoDigits(t[7], t[8]), TwoDigits(t[10], t[11])))
      else None
  }

  /** A two-character padded number reads back as itself. */
  lemma Pad2Reads(n: nat)
    requires n < 100
    ensures |Pad2(n)| == 2 && TwoDigits(Pad2(n)[0], Pad2(n)[1]) == n
  {
    if n >= 10 {
      assert NatToString(n) == NatToString(n / 10) + [DigitChar(n % 10)];
      assert NatToString(n / 10) == [DigitChar(n / 10)];
    }
  }

  /** The part after the year reads back as month (counted from 1), day,
      hours and minutes: each is written as exactly two digits between the
      separators the reader expects. */
  lemma MonthToMinutesReads(d: LocalDate)
    requires Ordinary(d)
    ensures var t := MonthToMinutes(d);
      && |t| == 12 && t[0] == '-' && t[3] == '-' && t[6] == 'T' && t[9] == ':'
      && IsDigit(t[1]) && IsDigit(t[2]) && IsDigit(t[4]) && IsDigit(t[5])
      && IsDigit(t[7]) && IsDigit(t[8]) && IsDigit(t[10]) && IsDigit(t[11])
      && TwoDigits(t[1], t[2]) == d.month + 1 && TwoDigits(t[4], t[5]) == d.day
      && TwoDigits(t[7], t[8]) == d.hours && TwoDigits(t[10], t[11]) == d.minutes
  {
    var a, b, c, e := Pad2(d.month + 1), Pad2(d.day), Pad2(d.hours), Pad2(d.minutes);
    Pad2Reads(d.month + 1);
    Pad2Reads(d.day);
    Pad2Reads(d.hours);
    Pad2Reads(d.minutes);
    assert MonthToMinutes(d) == ['-', a[0], a[1], '-', b[0], b[1], 'T', c[0], c[1], ':', e[0], e[1]];
  }

  /** Month, day, hour and minute are each written as exactly two digits, so
      the input value of an ordinary date reads back as its components: year,
      month counted from 1, day, hours and minutes. */
  lemma {:induction false} FormatThenParse(d: LocalDate)
    requires Ordinary(d)
    ensures ParseLocalDateTime(FormatLocalDateTimeForInput(d)) ==
      Some(Fields(d.year, d.month + 1, d.day, d.hours, d.minutes))
  {
    var y := IntToString(d.year);
    var t := MonthToMinutes(d);
    var s := FormatLocalDateTimeForInput(d);
    MonthToMinutesReads(d);
    assert s == y + t;
    assert s[..|s| - 12] == y;
    assert s[|s| - 12..] == t;
    ParseNatToString(d.year);
  }

  /** `formatDateTimeForInput(s)`: "" for an empty string, else the input value
      of what `new Date(s)` reads back (`parsed`), which is "" for an invalid
      date. The announcement form and the event card carry identical copies. */
  function FormatDateTimeForInput(s: string, parsed: LocalDate): (r: string)
    ensures s == "" || parsed.InvalidDate? ==> r == ""
    ensures s != "" && parsed.LocalDate? ==> r == FormatLocalDateTimeForInput(parsed) && r != ""
  {
    if s == "" then "" else FormatLocalDateTimeForInput(parsed)
  }

  /** An input value the page wrote itself, read back as the date it came
      from, is shown unchanged, and that date reads back from the shown text. */
  lemma InputValueKept(d: LocalDate)
    requires Ordinary(d)
    ensures FormatDateTimeForInput(FormatLocalDateTimeForInput(d), d) == FormatLocalDateTimeForInput(d)
    ensures ParseLocalDateTime(FormatDateTimeForInput(FormatLocalDateTimeForInput(d), d)) ==
      Some(Fields(d.year, d.month + 1, d.day, d.hours, d.minutes))
  {
    FormatThenParse(d);
  }

  /** The backend string of an ordinary date keeps the entered local time: with
      the seconds and the `.000Z` suffix (eight characters) dropped, it reads
      back as the same components. */
  lemma {:induction false} BackendKeepsLocalTime(s: string, d: LocalDate)
    requires s != "" && Ordinary(d)
    ensures var r := FormatDateTimeForBackend(s, d);
      |r| >= 8 && ParseLocalDateTime(r[..|r| - 8]) == Some(Fields(d.year, d.month + 1, d.day, d.hours, d.minutes))
  {
    var r := FormatDateTimeForBackend(s, d);
    var input := FormatLocalDateTimeForInput(d);
    Pad2Reads(d.seconds);
    assert r == input + (":" + Pad2(d.seconds) + ".000Z");
    assert r[..|r| - 8] == input;
    FormatThenParse(d);
  }
}
