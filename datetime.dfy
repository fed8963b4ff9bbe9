/** Timestamp text: the `YYYY-MM-DD` and `HH:MM` formats, and the splitting of a backend
    timestamp `YYYY-MM-DDTHH:MM[:SS[.fff]]` into a date and a clock time. */
module DateTime {
  import opened Js

  /** The form's `^\d{4}-\d{2}-\d{2}$`. */
  predicate IsDateText(s: string) {
    && |s| == 10
    && IsDigit(s[0]) && IsDigit(s[1]) && IsDigit(s[2]) && IsDigit(s[3])
    && s[4] == '-' && IsDigit(s[5]) && IsDigit(s[6])
    && s[7] == '-' && IsDigit(s[8]) && IsDigit(s[9])
  }

  /** The form's `^\d{2}:\d{2}$`. */
  predicate IsClockText(s: string) {
    |s| == 5 && IsDigit(s[0]) && IsDigit(s[1]) && s[2] == ':' && IsDigit(s[3]) && IsDigit(s[4])
  }

  function TwoDigits(a: char, b: char): nat
    requires IsDigit(a) && IsDigit(b)
  {
    ((a as int) - ('0' as int)) * 10 + ((b as int) - ('0' as int))
  }

  /** Minutes since midnight of an `HH:MM` text. */
  function ClockMinutes(t: string): nat
    requires IsClockText(t)
  {
    TwoDigits(t[0], t[1]) * 60 + TwoDigits(t[3], t[4])
  }

  datatype CalendarDate = CalendarDate(year: int, month: nat, day: nat)

  function DateOf(s: string): CalendarDate
    requires IsDateText(s)
  {
    CalendarDate(
      TwoDigits(s[0], s[1]) * 100 + TwoDigits(s[2], s[3]),
      TwoDigits(s[5], s[6]),
      TwoDigits(s[8], s[9]))
  }

  /** Month 1-12, day 1-31: what `Date` accepts in a date part. */
  predicate DateInRange(s: string)
    requires IsDateText(s)
  {
    1 <= DateOf(s).month <= 12 && 1 <= DateOf(s).day <= 31
  }

  /** Hour 0-23, minute 0-59. */
  predicate ClockInRange(t: string)
    requires IsClockText(t)
  {
    TwoDigits(t[0], t[1]) <= 23 && TwoDigits(t[3], t[4]) <= 59
  }

  /** What may follow `HH:MM`: nothing, `:SS`, or `:SS.` and a fraction. */
  predicate IsSecondsSuffix(r: string) {
    || r == []
    || (&& |r| >= 3 && r[0] == ':' && IsDigit(r[1]) && IsDigit(r[2]) && TwoDigits(r[1], r[2]) <= 59
        && (|r| == 3 || (|r| >= 5 && r[3] == '.' && AllDigits(r[4..]))))
  }

  /** A fixed-format timestamp without a zone designator: a `YYYY-MM-DD` date with month
      1-12 and day 1-31, a `T`, an `HH:MM` time and an optional seconds part. */
  predicate IsLocalTimestamp(s: string) {
    && |s| >= 16
    && IsDateText(s[..10]) && DateInRange(s[..10])
    && s[10] == 'T'
    && IsClockText(s[11..16]) && ClockInRange(s[11..16])
    && IsSecondsSuffix(s[16..])
  }

  datatype DateTimeParts = DateTimeParts(date: string, time: string)

  /** `parseDateTime` with one fixed zone for both parts: the date is the `YYYY-MM-DD`
      prefix and the time the `HH:MM` that follows the `T`. It is defined exactly on the
      fixed-format, zone-less timestamps (`IsLocalTimestamp`); `None` stands for the
      `RangeError` that `toISOString` throws, and also for the timestamps with a zone
      designator or without a time, which this model does not read. */
  function ParseDateTime(iso: string): (r: Option<DateTimeParts>)
    ensures r.Some? <==> IsLocalTimestamp(iso)
    ensures r.Some? ==> IsDateText(r.value.date) && IsClockText(r.value.time)
    ensures r.Some? ==> iso == r.value.date + "T" + r.value.time + iso[16..]
  {
    if IsLocalTimestamp(iso) then Some(DateTimeParts(iso[..10], iso[11..16])) else None
  }

  /** Splitting undoes joining: a date and a clock time written as a timestamp come back unchanged. */
  lemma ParseDateTimeRoundTrip(date: string, time: string, seconds: string)
    requires IsDateText(date) && DateInRange(date)
    requires IsClockText(time) && ClockInRange(time)
    requires IsSecondsSuffix(seconds)
    ensures ParseDateTime(date + "T" + time + seconds) == Some(DateTimeParts(date, time))
  {
    var s := date + "T" + time + seconds;
    assert s[..10] == date;
    assert s[11..16] == time;
    assert s[16..] == seconds;
  }

  lemma ParseDateTimeExample()
    ensures ParseDateTime("2025-11-18T21:00:00") == Some(DateTimeParts("2025-11-18", "21:00"))
  {
    ParseDateTimeRoundTrip("2025-11-18", "21:00", ":00");
    assert "2025-11-18" + "T" + "21:00" + ":00" == "2025-11-18T21:00:00";
  }

  // ---------------------------------------------------------------- the code as written
  // `parseDateTime` reads the date from `toISOString()` (UTC) but the time from
  // `toTimeString()` (the host's zone). The functions below follow that, for a host zone
  // `offset` minutes east of UTC.

  predicate IsLeapYear(y: int) {
    (y % 4 == 0 && y % 100 != 0) || y % 400 == 0
  }

  function DaysInMonth(y: int, m: nat): nat {
    if m == 2 then (if IsLeapYear(y) then 29 else 28)
    else if m == 4 || m == 6 || m == 9 || m == 11 then 30
    else 31
  }

  function PrevDay(d: CalendarDate): CalendarDate {
    if d.day > 1 then CalendarDate(d.year, d.month, d.day - 1)
    else if d.month > 1 then CalendarDate(d.year, d.month - 1, DaysInMonth(d.year, d.month - 1))
    else CalendarDate(d.year - 1, 12, 31)
  }

  function NextDay(d: CalendarDate): CalendarDate {
    if d.day < DaysInMonth(d.year, d.month) then CalendarDate(d.year, d.month, d.day + 1)
    else if d.month < 12 then CalendarDate(d.year, d.month + 1, 1)
    else CalendarDate(d.year + 1, 1, 1)
  }

  /** The year as `toISOString` writes it: four digits, or a sign and six digits. */
  function IsoYear(y: int): string {
    if 0 <= y <= 9999 then PadNat(y, 4)
    else if y < 0 then "-" + PadNat(-y, 6)
    else "+" + PadNat(y, 6)
  }

  function IsoDate(d: CalendarDate): string {
    IsoYear(d.year) + "-" + PadNat(d.month, 2) + "-" + PadNat(d.day, 2)
  }

  /** `parseDateTime` as written, on a host `offset` minutes east of UTC. */
  function ParseDateTimeInZone(iso: string, offset: int): (r: Option<DateTimeParts>)
    requires -1440 < offset < 1440
    ensures r.Some? <==> IsLocalTimestamp(iso)
    ensures r.Some? ==> r.value.time == iso[11..16]
    ensures r.Some? && ClockMinutes(iso[11..16]) < offset ==> r.value.date == IsoDate(PrevDay(DateOf(iso[..10])))
    ensures r.Some? && 0 <= ClockMinutes(iso[11..16]) - offset < 1440 ==> r.value.date == iso[..10]
    ensures r.Some? && ClockMinutes(iso[11..16]) - offset >= 1440 ==> r.value.date == IsoDate(NextDay(DateOf(iso[..10])))
  {
    if !IsLocalTimestamp(iso) then None
    else
      var local := DateOf(iso[..10]);
      var time := iso[11..16];
      var utcMinutes := ClockMinutes(time) - offset;
      var date :=
        if utcMinutes < 0 then IsoDate(PrevDay(local))
        else if utcMinutes >= 1440 then IsoDate(NextDay(local))
        else iso[..10];
      Some(DateTimeParts(date, time))
  }

  /** On a UTC host the code as written and the fixed-zone model agree. */
  lemma ParseDateTimeInZoneUtc(iso: string)
    ensures ParseDateTimeInZone(iso, 0) == ParseDateTime(iso)
  {
    if IsLocalTimestamp(iso) {
      assert ClockMinutes(iso[11..16]) < 1440;
    }
  }

  /** On a UTC+8 host, 03:00 on 18 November is reported as 03:00 on 17 November:
      the date and the time describe different days. */
  lemma ParseDateTimeInZoneSplitsDay()
    ensures ParseDateTimeInZone("2025-11-18T03:00:00", 480) == Some(DateTimeParts("2025-11-17", "03:00"))
    ensures ParseDateTime("2025-11-18T03:00:00") == Some(DateTimeParts("2025-11-18", "03:00"))
  {
    var iso := "2025-11-18T03:00:00";
    assert iso[..10] == "2025-11-18";
    assert iso[11..16] == "03:00";
    assert iso[16..] == ":00";
    assert DateOf(iso[..10]) == CalendarDate(2025, 11, 18);
    assert NatToString(2025) == "2025" by {
      assert NatToString(2) == "2";
      assert NatToString(20) == "20";
      assert NatToString(202) == "202";
    }
    assert NatToString(11) == "11" by { assert NatToString(1) == "1"; }
    assert NatToString(17) == "17" by { assert NatToString(1) == "1"; }
    assert IsoDate(CalendarDate(2025, 11, 17)) == "2025-11-17";
  }
}
