/** Proleptic Gregorian dates as Python's `datetime.date` has them, the day
    before a date, and the few text forms of dates and times the program
    reads and writes. */
module Calendar {
  import opened Common

  datatype Date = Date(year: int, month: int, day: int)

  /** A date with a clock time to the minute; seconds and fractions are not needed here. */
  datatype DateTime = DateTime(date: Date, hour: int, minute: int)

  predicate IsLeap(y: int) {
    y % 4 == 0 && (y % 100 != 0 || y % 400 == 0)
  }

  function DaysInMonth(y: int, m: int): int {
    if m == 2 then (if IsLeap(y) then 29 else 28)
    else if m == 4 || m == 6 || m == 9 || m == 11 then 30
    else 31
  }

  /** The dates `datetime.date` can hold: years 1 to 9999. */
  predicate Valid(d: Date) {
    1 <= d.year <= 9999 && 1 <= d.month <= 12 && 1 <= d.day <= DaysInMonth(d.year, d.month)
  }

  predicate ValidDateTime(t: DateTime) {
    Valid(t.date) && 0 <= t.hour < 24 && 0 <= t.minute < 60
  }

  /** `date.min`. */
  const MinDate := Date(1, 1, 1)

  /** `a < b` on dates. */
  predicate Before(a: Date, b: Date) {
    a.year < b.year
    || (a.year == b.year && (a.month < b.month || (a.month == b.month && a.day < b.day)))
  }

  /** `d - timedelta(days=1)`; `date.min` has no predecessor (Python raises `OverflowError`). */
  function PrevDay(d: Date): (p: Date)
    requires Valid(d) && d != MinDate
    ensures Valid(p) && Before(p, d)
  {
    if d.day > 1 then Date(d.year, d.month, d.day - 1)
    else if d.month > 1 then Date(d.year, d.month - 1, DaysInMonth(d.year, d.month - 1))
    else Date(d.year - 1, 12, 31)
  }

  /** No valid date lies strictly between `PrevDay(d)` and `d`. */
  lemma NothingBetween(x: Date, d: Date)
    requires Valid(d) && d != MinDate && Valid(x) && Before(x, d)
    ensures x == PrevDay(d) || Before(x, PrevDay(d))
  {
  }

  lemma BeforeTrans(a: Date, b: Date, c: Date)
    requires Before(a, b) && Before(b, c)
    ensures Before(a, c)
  {
  }

  // ---------------------------------------------------------------------------
  // Text forms

  function Pad2(n: int): (s: string)
    requires 0 <= n < 100
    ensures |s| == 2 && AllDigits(s)
  {
    [DigitChar(n / 10), DigitChar(n % 10)]
  }

  function Pad4(n: int): (s: string)
    requires 0 <= n < 10000
    ensures |s| == 4 && AllDigits(s)
  {
    Pad2(n / 100) + Pad2(n % 100)
  }

  /** Two digits at position `i`. */
  predicate TwoDigits(s: string, i: nat) {
    i + 2 <= |s| && IsDigit(s[i]) && IsDigit(s[i + 1])
  }

  function Two(s: string, i: nat): int
    requires TwoDigits(s, i)
  {
    10 * DigitValue(s[i]) + DigitValue(s[i + 1])
  }

  lemma TwoOfPad2(n: int)
    requires 0 <= n < 100
    ensures Two(Pad2(n), 0) == n
  {
  }

  /** `d.strftime('%d-%m-%Y')`, the year written with four digits. */
  function FormatDmy(d: Date): (s: string)
    requires Valid(d)
    ensures |s| == 10
  {
    Pad2(d.day) + "-" + Pad2(d.month) + "-" + Pad4(d.year)
  }

  /** `datetime.strptime(s, '%d-%m-%Y').date()` for the zero-padded form; `None`
      is the `ValueError`. */
  function ParseDmy(s: string): (r: Option<Date>)
    ensures r.Some? ==> Valid(r.value)
  {
    if |s| == 10 && s[2] == '-' && s[5] == '-'
       && TwoDigits(s, 0) && TwoDigits(s, 3) && TwoDigits(s, 6) && TwoDigits(s, 8) then
      var d := Date(100 * Two(s, 6) + Two(s, 8), Two(s, 3), Two(s, 0));
      if Valid(d) then Some(d) else None
    else None
  }

  /** Reading back a formatted date gives the date. */
  lemma {:induction false} ParseFormatDmy(d: Date)
    requires Valid(d)
    ensures ParseDmy(FormatDmy(d)) == Some(d)
  {
    var s := FormatDmy(d);
    assert s[0..2] == Pad2(d.day) && s[3..5] == Pad2(d.month) && s[6..10] == Pad4(d.year);
    assert s[6..8] == Pad2(d.year / 100) && s[8..10] == Pad2(d.year % 100);
    Pad2At(s, 0, d.day);
    Pad2At(s, 3, d.month);
    Pad2At(s, 6, d.year / 100);
    Pad2At(s, 8, d.year % 100);
  }

  /** `dt.strftime('%I:%M %p')`: twelve-hour clock with AM/PM. The hour reads
      back between 1 and 12 and agrees with the 24-hour hour modulo 12, the
      minutes read back unchanged, and the suffix is "AM" exactly before noon. */
  function Clock12(t: DateTime): (s: string)
    requires ValidDateTime(t)
    ensures |s| == 8 && s[2] == ':' && s[5] == ' '
    ensures TwoDigits(s, 0) && 1 <= Two(s, 0) <= 12 && Two(s, 0) % 12 == t.hour % 12
    ensures TwoDigits(s, 3) && Two(s, 3) == t.minute
    ensures s[6..] == "AM" <==> t.hour < 12
    ensures s[6..] == "PM" <==> t.hour >= 12
  {
    var h := if t.hour % 12 == 0 then 12 else t.hour % 12;
    var s := Pad2(h) + ":" + Pad2(t.minute) + " " + (if t.hour < 12 then "AM" else "PM");
    assert s[0..2] == Pad2(h) && s[3..5] == Pad2(t.minute);
    Pad2At(s, 0, h);
    Pad2At(s, 3, t.minute);
    s
  }

  /** `datetime.fromisoformat(s)` for `YYYY-MM-DD` alone or followed by a
      separator and `HH:MM`; what comes after the minutes is not examined. */
  function ParseIso(s: string): (r: Option<DateTime>)
    ensures r.Some? ==> ValidDateTime(r.value)
  {
    if |s| >= 10 && s[4] == '-' && s[7] == '-'
       && TwoDigits(s, 0) && TwoDigits(s, 2) && TwoDigits(s, 5) && TwoDigits(s, 8) then
      var d := Date(100 * Two(s, 0) + Two(s, 2), Two(s, 5), Two(s, 8));
      if !Valid(d) then None
      else if |s| == 10 then Some(DateTime(d, 0, 0))
      else if |s| >= 16 && s[13] == ':' && TwoDigits(s, 11) && TwoDigits(s, 14) then
        var t := DateTime(d, Two(s, 11), Two(s, 14));
        if ValidDateTime(t) then Some(t) else None
      else None
    else None
  }

  /** `dt.isoformat()` cut after the minutes. */
  function FormatIso(t: DateTime): (s: string)
    requires ValidDateTime(t)
    ensures |s| == 16
  {
    Pad4(t.date.year) + "-" + Pad2(t.date.month) + "-" + Pad2(t.date.day)
    + "T" + Pad2(t.hour) + ":" + Pad2(t.minute)
  }

  /** The date fields of a written stamp sit where `ParseIso` looks for them. */
  lemma IsoDateFields(t: DateTime, tail: string)
    requires ValidDateTime(t)
    ensures var s := FormatIso(t) + tail;
            |s| >= 16 && s[4] == '-' && s[7] == '-'
            && TwoDigits(s, 0) && TwoDigits(s, 2) && TwoDigits(s, 5) && TwoDigits(s, 8)
            && 100 * Two(s, 0) + Two(s, 2) == t.date.year
            && Two(s, 5) == t.date.month && Two(s, 8) == t.date.day
  {
    var s := FormatIso(t) + tail;
    var y := t.date.year;
    assert s[0..2] == Pad2(y / 100) && s[2..4] == Pad2(y % 100);
    assert s[5..7] == Pad2(t.date.month) && s[8..10] == Pad2(t.date.day);
    Pad2At(s, 0, y / 100);
    Pad2At(s, 2, y % 100);
    Pad2At(s, 5, t.date.month);
    Pad2At(s, 8, t.date.day);
  }

  /** The time fields of a written stamp sit where `ParseIso` looks for them. */
  lemma IsoTimeFields(t: DateTime, tail: string)
    requires ValidDateTime(t)
    ensures var s := FormatIso(t) + tail;
            |s| >= 16 && s[13] == ':' && TwoDigits(s, 11) && TwoDigits(s, 14)
            && Two(s, 11) == t.hour && Two(s, 14) == t.minute
  {
    var s := FormatIso(t) + tail;
    assert s[11..13] == Pad2(t.hour) && s[14..16] == Pad2(t.minute);
    Pad2At(s, 11, t.hour);
    Pad2At(s, 14, t.minute);
  }

  /** An ISO stamp reads back as the date and time it was written from, and
      whatever follows the minutes (seconds, fractions) does not change that. */
  lemma ParseFormatIso(t: DateTime, tail: string)
    requires ValidDateTime(t)
    ensures ParseIso(FormatIso(t) + tail) == Some(t)
  {
    IsoDateFields(t, tail);
    IsoTimeFields(t, tail);
  }

  /** Two padded digits inside a longer text read back as their number. */
  lemma Pad2At(s: string, i: nat, n: int)
    requires 0 <= n < 100 && i + 2 <= |s| && s[i..i + 2] == Pad2(n)
    ensures TwoDigits(s, i) && Two(s, i) == n
  {
    assert s[i] == Pad2(n)[0] && s[i + 1] == Pad2(n)[1];
    TwoOfPad2(n);
  }
}
