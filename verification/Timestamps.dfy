/** Datetimes with an optional UTC offset: normalising them to UTC, printing and parsing them in ISO 8601. */
module Timestamps {
  import opened Support
  import opened Base64Url

  datatype Date = Date(year: int, month: int, day: int)

  /** A wall-clock reading; no offset means it is taken as UTC. */
  datatype DateTime = DateTime(date: Date, clock: Time, offset: Option<Time>)

  // ---- The calendar ------------------------------------------------------------- //

  predicate Leap(year: int) {
    year % 4 == 0 && (year % 100 != 0 || year % 400 == 0)
  }

  function DaysInMonth(year: int, month: int): int {
    if month == 2 then if Leap(year) then 29 else 28
    else if month in {4, 6, 9, 11} then 30
    else 31
  }

  predicate ValidDate(d: Date) {
    1 <= d.year <= 9999 && 1 <= d.month <= 12 && 1 <= d.day <= DaysInMonth(d.year, d.month)
  }

  predicate Valid(t: DateTime) {
    && ValidDate(t.date)
    && 0 <= t.clock < DAY
    && (t.offset.Some? ==> -DAY < t.offset.value < DAY)
  }

  function DaysBeforeYear(year: int): int {
    (year - 1) * 365 + (year - 1) / 4 - (year - 1) / 100 + (year - 1) / 400
  }

  function DaysBeforeMonth(year: int, month: int): int
    requires 1 <= month <= 13
    decreases month
  {
    if month == 1 then 0 else DaysBeforeMonth(year, month - 1) + DaysInMonth(year, month - 1)
  }

  /** The day count of a date; the first of January of the year 1 is day 1. */
  function Ordinal(d: Date): int
    requires ValidDate(d)
  {
    DaysBeforeYear(d.year) + DaysBeforeMonth(d.year, d.month) + d.day
  }

  lemma DaysBeforeMonths(year: int)
    ensures DaysBeforeMonth(year, 2) == 31
    ensures DaysBeforeMonth(year, 3) == if Leap(year) then 60 else 59
    ensures DaysBeforeMonth(year, 12) == if Leap(year) then 335 else 334
  {
    assert DaysBeforeMonth(year, 5) == DaysBeforeMonth(year, 3) + 61;
    assert DaysBeforeMonth(year, 8) == DaysBeforeMonth(year, 5) + 92;
    assert DaysBeforeMonth(year, 11) == DaysBeforeMonth(year, 8) + 92;
  }

  /** Where each month starts within its year. */
  lemma MonthStarts(year: int, month: int)
    requires 1 <= year <= 9999 && 1 <= month <= 12
    ensures Ordinal(Date(year, month, 1)) - Ordinal(Date(year, 1, 1))
            == [0, 31, 59, 90, 120, 151, 181, 212, 243, 273, 304, 334][month - 1]
               + if month > 2 && Leap(year) then 1 else 0
    ensures Leap(year) <==> year % 400 == 0 || (year % 4 == 0 && year % 100 != 0)
  {
    DaysBeforeMonths(year);
    assert DaysBeforeMonth(year, 4) == DaysBeforeMonth(year, 3) + 31;
    assert DaysBeforeMonth(year, 5) == DaysBeforeMonth(year, 4) + 30;
    assert DaysBeforeMonth(year, 6) == DaysBeforeMonth(year, 5) + 31;
    assert DaysBeforeMonth(year, 7) == DaysBeforeMonth(year, 6) + 30;
    assert DaysBeforeMonth(year, 8) == DaysBeforeMonth(year, 7) + 31;
    assert DaysBeforeMonth(year, 9) == DaysBeforeMonth(year, 8) + 31;
    assert DaysBeforeMonth(year, 10) == DaysBeforeMonth(year, 9) + 30;
    assert DaysBeforeMonth(year, 11) == DaysBeforeMonth(year, 10) + 31;
  }

  /** Day counts as published for the proleptic Gregorian calendar. */
  lemma KnownOrdinals(d: Date)
    requires ValidDate(d)
    ensures d == Date(1, 1, 1) ==> Ordinal(d) == 1
    ensures d == Date(1900, 3, 1) ==> Ordinal(d) == 693655
    ensures d == Date(1970, 1, 1) ==> Ordinal(d) == 719163
    ensures d == Date(2000, 2, 29) ==> Ordinal(d) == 730179
    ensures d == Date(9999, 12, 31) ==> Ordinal(d) == 3652059
  {
    DaysBeforeMonths(d.year);
  }

  /** The instant a datetime denotes. */
  function Instant(t: DateTime): Time
    requires Valid(t)
  {
    At(Ordinal(t.date), UtcClock(t))
  }

  /** So many microseconds after the start of a day, or before it. */
  function At(days: int, clock: Time): Time {
    days * DAY + clock
  }

  /** The clock less the offset, which may fall outside the day. */
  function UtcClock(t: DateTime): Time {
    t.clock - if t.offset.Some? then t.offset.value else 0
  }

  /** The instant is the wall clock less the offset: half past midnight at +01:00 is half past eleven in UTC. */
  lemma InstantIs(t: DateTime)
    requires Valid(t)
    ensures Instant(t) == Ordinal(t.date) * (24 * HOUR) + t.clock - (if t.offset.Some? then t.offset.value else 0)
    ensures t == DateTime(Date(2024, 1, 1), 30 * MINUTE, Some(HOUR)) ==>
              Normalize(t) == Some(DateTime(Date(2023, 12, 31), 23 * HOUR + 30 * MINUTE, Some(0)))
  {
  }

  function NextDay(d: Date): Option<Date>
    requires ValidDate(d)
  {
    if d.day < DaysInMonth(d.year, d.month) then Some(Date(d.year, d.month, d.day + 1))
    else if d.month < 12 then Some(Date(d.year, d.month + 1, 1))
    else if d.year < 9999 then Some(Date(d.year + 1, 1, 1))
    else None
  }

  function PreviousDay(d: Date): Option<Date>
    requires ValidDate(d)
  {
    if d.day > 1 then Some(Date(d.year, d.month, d.day - 1))
    else if d.month > 1 then Some(Date(d.year, d.month - 1, DaysInMonth(d.year, d.month - 1)))
    else if d.year > 1 then Some(Date(d.year - 1, 12, 31))
    else None
  }

  lemma YearLength(year: int)
    ensures DaysBeforeYear(year + 1) - DaysBeforeYear(year) == if Leap(year) then 366 else 365
  {
    assert DaysBeforeYear(year + 1) == year * 365 + year / 4 - year / 100 + year / 400;
    Quotients(year, 4);
    Quotients(year, 100);
    Quotients(year, 400);
    LeapCount(year);
  }

  lemma LeapCount(year: int)
    ensures (if year % 4 == 0 then 1 else 0) - (if year % 100 == 0 then 1 else 0) + (if year % 400 == 0 then 1 else 0)
            == if Leap(year) then 1 else 0
  {
  }

  lemma Quotients(year: int, n: int)
    requires n == 4 || n == 100 || n == 400
    ensures year / n - (year - 1) / n == if year % n == 0 then 1 else 0
  {
  }

  lemma MonthEnd(year: int, month: int)
    requires 1 <= year <= 9999 && 1 <= month < 12
    ensures Ordinal(Date(year, month + 1, 1)) == Ordinal(Date(year, month, DaysInMonth(year, month))) + 1
  {
  }

  lemma YearEnd(year: int)
    requires 1 <= year < 9999
    ensures Ordinal(Date(year + 1, 1, 1)) == Ordinal(Date(year, 12, 31)) + 1
  {
    YearLength(year);
    DaysBeforeMonths(year);
  }

  lemma NextDayIsOneMore(d: Date)
    requires ValidDate(d)
    ensures NextDay(d).Some? ==> ValidDate(NextDay(d).value) && Ordinal(NextDay(d).value) == Ordinal(d) + 1
    ensures NextDay(d).None? <==> d == Date(9999, 12, 31)
  {
    if d.day == DaysInMonth(d.year, d.month) {
      if d.month < 12 {
        MonthEnd(d.year, d.month);
      } else if d.year < 9999 {
        YearEnd(d.year);
      }
    }
  }

  lemma PreviousDayIsOneLess(d: Date)
    requires ValidDate(d)
    ensures PreviousDay(d).Some? ==> ValidDate(PreviousDay(d).value) && Ordinal(PreviousDay(d).value) == Ordinal(d) - 1
    ensures PreviousDay(d).None? <==> d == Date(1, 1, 1)
  {
    if d.day == 1 {
      if d.month > 1 {
        MonthEnd(d.year, d.month - 1);
      } else if d.year > 1 {
        YearEnd(d.year - 1);
      }
    }
  }

  // ---- Normalising to UTC ---------------------------------------------------------- //

  /** The same instant read in UTC; None where the calendar ends. */
  function Normalize(t: DateTime): Option<DateTime>
    requires Valid(t)
  {
    var clock := UtcClock(t);
    if clock < 0 then AtDate(PreviousDay(t.date), clock + DAY)
    else if clock >= DAY then AtDate(NextDay(t.date), clock - DAY)
    else AtDate(Some(t.date), clock)
  }

  function AtDate(d: Option<Date>, clock: Time): Option<DateTime> {
    if d.None? then None else Some(DateTime(d.value, clock, Some(0)))
  }

  lemma DayShift(days: int, clock: Time)
    ensures At(days + 1, clock - DAY) == At(days, clock) == At(days - 1, clock + DAY)
  {
  }

  /** A reading of a neighbouring day, or of the same one, that stands for the same instant. */
  lemma SameInstant(t: DateTime, d: Date, clock: Time)
    requires Valid(t) && ValidDate(d) && 0 <= clock < DAY
    requires At(Ordinal(d), clock) == At(Ordinal(t.date), UtcClock(t))
    ensures var r := DateTime(d, clock, Some(0));
            Valid(r) && Instant(r) == Instant(t)
  {
  }

  /** Normalising keeps the instant. */
  lemma NormalizeKeepsTheInstant(t: DateTime)
    requires Valid(t) && Normalize(t).Some?
    ensures var r := Normalize(t).value;
            Valid(r) && r.offset == Some(0) && Instant(r) == Instant(t)
  {
    var r, clock := Normalize(t).value, UtcClock(t);
    DayShift(Ordinal(t.date), clock);
    if clock < 0 {
      PreviousDayIsOneLess(t.date);
    } else if clock >= DAY {
      NextDayIsOneMore(t.date);
    }
    SameInstant(t, r.date, r.clock);
  }

  /** It fails just for the readings that fall off either end of the calendar. */
  lemma NormalizeFailsAtTheEnds(t: DateTime)
    requires Valid(t)
    ensures Normalize(t).None? <==>
              (t.date == Date(1, 1, 1) && UtcClock(t) < 0) || (t.date == Date(9999, 12, 31) && UtcClock(t) >= DAY)
  {
    if UtcClock(t) < 0 {
      PreviousDayIsOneLess(t.date);
    } else if UtcClock(t) >= DAY {
      NextDayIsOneMore(t.date);
    }
  }

  // ---- ISO 8601 -------------------------------------------------------------------------- //

  function Pow10(width: nat): nat {
    if width == 0 then 1 else 10 * Pow10(width - 1)
  }

  /** A number in so many decimal digits, the most significant first. */
  function Digits(n: nat, width: nat): (t: Text)
    ensures |t| == width
  {
    if width == 0 then [] else Digits(n / 10, width - 1) + [48 + n % 10]
  }

  function ReadDigits(t: Text): Option<nat>
    decreases |t|
  {
    if t == [] then Some(0)
    else
      var front := ReadDigits(t[..|t| - 1]);
      var last := t[|t| - 1];
      if front.None? || !(48 <= last <= 57) then None else Some(front.value * 10 + (last - 48))
  }

  lemma {:induction false} DigitsRead(n: nat, width: nat)
    requires n < Pow10(width)
    ensures ReadDigits(Digits(n, width)) == Some(n)
  {
    if width > 0 {
      assert Digits(n, width)[..width - 1] == Digits(n / 10, width - 1);
      DigitsRead(n / 10, width - 1);
    }
  }

  const DASH: CodePoint := 45
  const COLON: CodePoint := 58
  const LETTER_T: CodePoint := 84
  const DOT: CodePoint := 46
  const PLUS: CodePoint := 43

  /** isoformat: the fraction only when there is one. */
  function Iso(t: DateTime): Text
    requires Valid(t) && t.offset == Some(0)
  {
    DateText(t.date) + [LETTER_T] + ClockText(t.clock) + [PLUS] + Digits(0, 2) + [COLON] + Digits(0, 2)
  }

  function DateText(d: Date): (t: Text)
    requires ValidDate(d)
    ensures |t| == 10
  {
    Fields(Digits(d.year, 4), Digits(d.month, 2), Digits(d.day, 2), DASH)
  }

  /** Three texts with a separator between them. */
  function Fields(a: Text, b: Text, c: Text, separator: CodePoint): (t: Text)
    ensures |t| == |a| + |b| + |c| + 2
  {
    a + [separator] + b + [separator] + c
  }

  function ClockText(clock: Time): (t: Text)
    requires 0 <= clock < DAY
    ensures |t| == if clock % SECOND == 0 then 8 else 15
  {
    PartsText(clock / HOUR, clock / MINUTE % 60, clock / SECOND % 60, clock % SECOND)
  }

  function PartsText(h: nat, m: nat, s: nat, us: nat): (t: Text)
    ensures |t| == if us == 0 then 8 else 15
  {
    Fields(Digits(h, 2), Digits(m, 2), Digits(s, 2), COLON) + if us == 0 then [] else [DOT] + Digits(us, 6)
  }

  /** fromisoformat on the forms isoformat prints: with or without a fraction, with or without an offset. */
  function ReadIso(t: Text): (r: Option<DateTime>)
    ensures r.Some? ==> Valid(r.value)
  {
    if |t| < 19 || t[10] != LETTER_T then None
    else
      var fraction := |t| >= 26 && t[19] == DOT;
      var end := if fraction then 26 else 19;
      var date := ReadDate(t[..10]);
      var clock := ReadClock(t[11..end]);
      var offset := ReadOffset(t[end..]);
      if date.None? || clock.None? || offset.None? then None
      else Some(DateTime(date.value, clock.value, offset.value))
  }

  function ReadDate(t: Text): (r: Option<Date>)
    requires |t| == 10
    ensures r.Some? ==> ValidDate(r.value)
  {
    var (y, m, d) := (ReadDigits(t[..4]), ReadDigits(t[5..7]), ReadDigits(t[8..10]));
    if t[4] != DASH || t[7] != DASH || y.None? || m.None? || d.None? then None
    else if ValidDate(Date(y.value, m.value, d.value)) then Some(Date(y.value, m.value, d.value))
    else None
  }

  /** Microseconds since midnight. */
  function ClockOf(h: nat, m: nat, s: nat, us: nat): (clock: Time)
    requires h < 24 && m < 60 && s < 60 && us < SECOND
    ensures 0 <= clock < DAY
  {
    ((h * 60 + m) * 60 + s) * SECOND + us
  }

  function ReadClock(t: Text): (r: Option<Time>)
    requires |t| == 8 || |t| == 15
    ensures r.Some? ==> 0 <= r.value < DAY
  {
    var (h, m, s) := (ReadDigits(t[..2]), ReadDigits(t[3..5]), ReadDigits(t[6..8]));
    var us := if |t| == 15 then ReadDigits(t[9..15]) else Some(0);
    if t[2] != COLON || t[5] != COLON || h.None? || m.None? || s.None? || us.None? then None
    else if h.value >= 24 || m.value >= 60 || s.value >= 60 || us.value >= SECOND then None
    else Some(ClockOf(h.value, m.value, s.value, us.value))
  }

  /** Nothing, or a sign and HH:MM. */
  function ReadOffset(t: Text): (r: Option<Option<Time>>)
    ensures r.Some? && r.value.Some? ==> -DAY < r.value.value < DAY
  {
    if t == [] then Some(None)
    else if |t| != 6 || (t[0] != PLUS && t[0] != DASH) || t[3] != COLON then None
    else
      var (h, m) := (ReadDigits(t[1..3]), ReadDigits(t[4..6]));
      if h.None? || m.None? || h.value >= 24 || m.value >= 60 then None
      else Some(Some((h.value * HOUR + m.value * MINUTE) * (if t[0] == PLUS then 1 else -1)))
  }

  lemma PowersOfTen()
    ensures Pow10(2) == 100 && Pow10(4) == 10_000 && Pow10(6) == SECOND
  {
    assert Pow10(3) == 1000;
    assert Pow10(5) == 100_000;
  }

  lemma FieldsRead(a: Text, b: Text, c: Text, separator: CodePoint, rest: Text)
    ensures var (t, i, j, k) := (Fields(a, b, c, separator) + rest, |a|, |a| + 1 + |b|, |a| + |b| + |c| + 2);
            && t[..i] == a && t[i] == separator
            && t[i + 1..j] == b && t[j] == separator
            && t[j + 1..k] == c && t[k..] == rest
  {
  }

  lemma DateReads(d: Date)
    requires ValidDate(d)
    ensures ReadDate(DateText(d)) == Some(d)
  {
    PowersOfTen();
    DigitsRead(d.year, 4);
    DigitsRead(d.month, 2);
    DigitsRead(d.day, 2);
    FieldsRead(Digits(d.year, 4), Digits(d.month, 2), Digits(d.day, 2), DASH, []);
    assert DateText(d) + [] == DateText(d);
  }

  /** A clock reading is its hours, minutes, seconds and microseconds. */
  lemma ClockParts(clock: Time)
    requires 0 <= clock < DAY
    ensures 0 <= clock / HOUR < 24 && 0 <= clock / MINUTE % 60 < 60 && 0 <= clock / SECOND % 60 < 60
    ensures ClockOf(clock / HOUR, clock / MINUTE % 60, clock / SECOND % 60, clock % SECOND) == clock
  {
    var s, m := clock / SECOND, clock / MINUTE;
    assert m == s / 60;
    assert clock / HOUR == m / 60;
  }

  lemma PartsRead(h: nat, m: nat, s: nat, us: nat)
    requires h < 24 && m < 60 && s < 60 && us < SECOND
    ensures ReadClock(PartsText(h, m, s, us)) == Some(ClockOf(h, m, s, us))
  {
    PowersOfTen();
    DigitsRead(h, 2);
    DigitsRead(m, 2);
    DigitsRead(s, 2);
    DigitsRead(us, 6);
    var rest := if us == 0 then [] else [DOT] + Digits(us, 6);
    FieldsRead(Digits(h, 2), Digits(m, 2), Digits(s, 2), COLON, rest);
    assert PartsText(h, m, s, us)[8..] == rest;
    if us != 0 {
      assert PartsText(h, m, s, us)[9..15] == rest[1..] == Digits(us, 6);
    }
  }

  lemma ClockReads(clock: Time)
    requires 0 <= clock < DAY
    ensures ReadClock(ClockText(clock)) == Some(clock)
  {
    ClockParts(clock);
    PartsRead(clock / HOUR, clock / MINUTE % 60, clock / SECOND % 60, clock % SECOND);
  }

  lemma ZeroOffsetReads()
    ensures ReadOffset([PLUS] + Digits(0, 2) + [COLON] + Digits(0, 2)) == Some(Some(0))
  {
    PowersOfTen();
    DigitsRead(0, 2);
    var t := [PLUS] + Digits(0, 2) + [COLON] + Digits(0, 2);
    assert t[1..3] == Digits(0, 2) && t[4..6] == Digits(0, 2);
  }

  /** Printing a UTC datetime and parsing it gives it back, field by field. */
  lemma IsoReads(t: DateTime)
    requires Valid(t) && t.offset == Some(0)
    ensures ReadIso(Iso(t)) == Some(t)
  {
    DateReads(t.date);
    ClockReads(t.clock);
    ZeroOffsetReads();
    var s, tail := Iso(t), [PLUS] + Digits(0, 2) + [COLON] + Digits(0, 2);
    var n := |ClockText(t.clock)|;
    assert s == DateText(t.date) + [LETTER_T] + ClockText(t.clock) + tail;
    assert s[..10] == DateText(t.date);
    assert s[11..11 + n] == ClockText(t.clock);
    assert s[11 + n..] == tail;
    if t.clock % SECOND == 0 {
      assert s[19] == tail[0];
    } else {
      assert s[19] == ClockText(t.clock)[8];
    }
  }

  /** 2024-02-29T12:34:56.000789+00:00, as isoformat prints it. */
  lemma KnownIsoText()
    ensures var clock := 12 * HOUR + 34 * MINUTE + 56 * SECOND + 789;
            Iso(DateTime(Date(2024, 2, 29), clock, Some(0)))
            == [50, 48, 50, 52, 45, 48, 50, 45, 50, 57] + [84]
               + [49, 50, 58, 51, 52, 58, 53, 54, 46, 48, 48, 48, 55, 56, 57]
               + [43, 48, 48, 58, 48, 48]
  {
    var clock := 12 * HOUR + 34 * MINUTE + 56 * SECOND + 789;
    KnownDateText();
    KnownPartsText();
    assert clock / HOUR == 12 && clock / MINUTE % 60 == 34 && clock / SECOND % 60 == 56 && clock % SECOND == 789;
    assert Digits(0, 2) == [48, 48];
    assert [PLUS] + [48, 48] + [COLON] + [48, 48] == [43, 48, 48, 58, 48, 48];
    ZoneTextLast(DateText(Date(2024, 2, 29)) + [LETTER_T] + ClockText(clock));
  }

  lemma ZoneTextLast(front: Text)
    ensures front + [PLUS] + Digits(0, 2) + [COLON] + Digits(0, 2)
            == front + ([PLUS] + Digits(0, 2) + [COLON] + Digits(0, 2))
  {
  }

  lemma KnownDateText()
    ensures DateText(Date(2024, 2, 29)) == [50, 48, 50, 52, 45, 48, 50, 45, 50, 57]
  {
    assert Digits(20, 2) == [50, 48] && Digits(2, 2) == [48, 50] && Digits(29, 2) == [50, 57];
    assert Digits(202, 3) == [50, 48, 50];
    assert Digits(2024, 4) == [50, 48, 50, 52];
  }

  /** Hours, minutes, seconds, and the fraction only when there is one. */
  lemma KnownPartsText()
    ensures PartsText(12, 34, 56, 789) == [49, 50, 58, 51, 52, 58, 53, 54, 46, 48, 48, 48, 55, 56, 57]
    ensures PartsText(12, 34, 56, 0) == [49, 50, 58, 51, 52, 58, 53, 54]
  {
    KnownFraction();
    KnownFields();
    var time: Text := [49, 50, 58, 51, 52, 58, 53, 54];
    assert PartsText(12, 34, 56, 0) == time + [];
    assert PartsText(12, 34, 56, 789) == time + ([DOT] + Digits(789, 6));
  }

  lemma KnownFields()
    ensures Fields(Digits(12, 2), Digits(34, 2), Digits(56, 2), COLON) == [49, 50, 58, 51, 52, 58, 53, 54]
  {
    assert Digits(1, 1) == [49] && Digits(3, 1) == [51] && Digits(5, 1) == [53];
    assert Digits(12, 2) == [49, 50] && Digits(34, 2) == [51, 52] && Digits(56, 2) == [53, 54];
  }

  lemma KnownFraction()
    ensures Digits(789, 6) == [48, 48, 48, 55, 56, 57]
  {
    assert Digits(0, 3) == [48, 48, 48];
    assert Digits(7, 4) == [48, 48, 48, 55];
    assert Digits(78, 5) == [48, 48, 48, 55, 56];
  }

  /** No offset, +05:30 and -05:30. */
  lemma KnownOffsets()
    ensures ReadOffset([]) == Some(None)
    ensures ReadOffset([43, 48, 53, 58, 51, 48]) == Some(Some(5 * HOUR + 30 * MINUTE))
    ensures ReadOffset([45, 48, 53, 58, 51, 48]) == Some(Some(-5 * HOUR - 30 * MINUTE))
  {
    SignedOffset(43, 48, 53, 51, 48);
    SignedOffset(45, 48, 53, 51, 48);
  }

  lemma SignedOffset(sign: CodePoint, a: CodePoint, b: CodePoint, c: CodePoint, d: CodePoint)
    requires (sign == PLUS || sign == DASH) && 48 <= a <= 57 && 48 <= b <= 57 && 48 <= c <= 57 && 48 <= d <= 57
    requires (a - 48) * 10 + (b - 48) < 24 && (c - 48) * 10 + (d - 48) < 60
    ensures var away := ((a - 48) * 10 + (b - 48)) * HOUR + ((c - 48) * 10 + (d - 48)) * MINUTE;
            ReadOffset([sign, a, b, COLON, c, d]) == Some(Some(if sign == PLUS then away else -away))
  {
    TwoDigitsRead(a, b);
    TwoDigitsRead(c, d);
    var t: Text := [sign, a, b, COLON, c, d];
    assert t[1..3] == [a, b] && t[4..6] == [c, d];
  }

  lemma TwoDigitsRead(a: CodePoint, b: CodePoint)
    requires 48 <= a <= 57 && 48 <= b <= 57
    ensures ReadDigits([a, b]) == Some((a - 48) * 10 + (b - 48))
  {
    var one: Text, two: Text := [a], [a, b];
    assert one[..0] == [] && two[..1] == one;
    assert ReadDigits([]) == Some(0) && ReadDigits(one) == Some(a - 48);
  }

  predicate Printable(t: Text) {
    forall i :: 0 <= i < |t| ==> 32 <= t[i] <= 126
  }

  /** Only printable ASCII is printed. */
  lemma {:induction false} DigitsPrintable(n: nat, width: nat)
    ensures Printable(Digits(n, width))
  {
    if width > 0 {
      DigitsPrintable(n / 10, width - 1);
    }
  }

  lemma FieldsPrintable(a: Text, b: Text, c: Text, separator: CodePoint)
    requires Printable(a) && Printable(b) && Printable(c) && 32 <= separator <= 126
    ensures Printable(Fields(a, b, c, separator))
  {
  }

  lemma ClockPrintable(clock: Time)
    requires 0 <= clock < DAY
    ensures Printable(ClockText(clock))
  {
    var (h, m, s) := (clock / HOUR, clock / MINUTE % 60, clock / SECOND % 60);
    DigitsPrintable(h, 2);
    DigitsPrintable(m, 2);
    DigitsPrintable(s, 2);
    DigitsPrintable(clock % SECOND, 6);
    FieldsPrintable(Digits(h, 2), Digits(m, 2), Digits(s, 2), COLON);
  }

  lemma IsoPrintable(t: DateTime)
    requires Valid(t) && t.offset == Some(0)
    ensures Printable(Iso(t))
  {
    DigitsPrintable(t.date.year, 4);
    DigitsPrintable(t.date.month, 2);
    DigitsPrintable(t.date.day, 2);
    FieldsPrintable(Digits(t.date.year, 4), Digits(t.date.month, 2), Digits(t.date.day, 2), DASH);
    ClockPrintable(t.clock);
    DigitsPrintable(0, 2);
  }

}
