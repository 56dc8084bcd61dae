/** lib/booking-helpers.ts: the total duration of a service and the bounds of
    the date picker. The clock is a parameter: `today` is the calendar date
    that `new Date()` would read. */
module BookingHelpers {
  import opened Types

  // ---------------------------------------------------------------------------
  // Duration

  /** `getTotalDuration`: the service's duration plus its buffer, where a null
      buffer (like a zero one, `buffer_minutes || 0`) adds nothing. */
  function TotalDuration(service: Service): (minutes: int)
    ensures service.bufferMinutes.None? ==> minutes == service.durationMinutes
    ensures service.bufferMinutes.Some? ==> minutes == service.durationMinutes + service.bufferMinutes.value
  {
    match service.bufferMinutes
    case None => service.durationMinutes
    case Some(buffer) => service.durationMinutes + buffer
  }

  /** A non-negative buffer never shortens the bookable window. */
  lemma TotalDurationCoversService(service: Service)
    requires service.bufferMinutes.Some? ==> service.bufferMinutes.value >= 0
    ensures TotalDuration(service) >= service.durationMinutes
    ensures TotalDuration(service) == service.durationMinutes <==> service.bufferMinutes.None? || service.bufferMinutes.value == 0
  {
  }

  // ---------------------------------------------------------------------------
  // Calendar dates (proleptic Gregorian, as JavaScript's Date uses)

  /** A calendar date; `month` runs 1..12 (JavaScript's `getMonth` is this minus one). */
  datatype CalendarDate = CalendarDate(year: int, month: int, day: int)

  predicate IsLeapYear(year: int)
  {
    (year % 4 == 0 && year % 100 != 0) || year % 400 == 0
  }

  function DaysInMonth(year: int, month: int): (days: int)
    requires 1 <= month <= 12
    ensures 28 <= days <= 31
  {
    if month == 2 then (if IsLeapYear(year) then 29 else 28)
    else if month == 4 || month == 6 || month == 9 || month == 11 then 30
    else 31
  }

  predicate ValidDate(d: CalendarDate)
  {
    1 <= d.month <= 12 && 1 <= d.day <= DaysInMonth(d.year, d.month)
  }

  /** Months since the start of year 0: the month a date lies in, on one axis. */
  function MonthIndex(d: CalendarDate): int
  {
    d.year * 12 + d.month - 1
  }

  /** Calendar order. */
  predicate Before(a: CalendarDate, b: CalendarDate)
  {
    a.year < b.year
    || (a.year == b.year && a.month < b.month)
    || (a.year == b.year && a.month == b.month && a.day < b.day)
  }

  /** `date.setMonth(date.getMonth() + k)`: the month moves by `k` (carrying
      into the year), the day of the month is kept, and a day past the end of
      the target month rolls over into the month after it (31 May + 3 months
      is 31 August, but 30 November + 3 months is 2 March). */
  function AddMonths(d: CalendarDate, k: nat): (r: CalendarDate)
    requires ValidDate(d)
    ensures ValidDate(r)
    ensures var target := CalendarDate((MonthIndex(d) + k) / 12, (MonthIndex(d) + k) % 12 + 1, 1);
            if d.day <= DaysInMonth(target.year, target.month)
            then MonthIndex(r) == MonthIndex(d) + k && r.day == d.day
            else MonthIndex(r) == MonthIndex(d) + k + 1 && r.day == d.day - DaysInMonth(target.year, target.month)
  {
    var monthIndex := MonthIndex(d) + k;
    var year := monthIndex / 12;
    var month := monthIndex % 12 + 1;
    var days := DaysInMonth(year, month);
    if d.day <= days then CalendarDate(year, month, d.day)
    else if month == 12 then CalendarDate(year + 1, 1, d.day - days)
    else CalendarDate(year, month + 1, d.day - days)
  }

  /** Three months on is always strictly later, and at most four months on. */
  lemma {:induction false} ThreeMonthsLater(today: CalendarDate)
    requires ValidDate(today)
    ensures Before(today, AddMonths(today, 3))
    ensures MonthIndex(today) + 3 <= MonthIndex(AddMonths(today, 3)) <= MonthIndex(today) + 4
  {
    var r := AddMonths(today, 3);
    assert today.year * 12 <= MonthIndex(today) < MonthIndex(r) < (r.year + 1) * 12;
    assert r.year >= today.year;
    if r.year == today.year {
      assert r.month > today.month;
    }
  }

  // ---------------------------------------------------------------------------
  // ISO formatting: `toISOString().split("T")[0]`

  function DigitChar(n: int): char
    requires 0 <= n <= 9
  {
    ('0' as int + n) as char
  }

  predicate IsDigitChar(c: char)
  {
    '0' <= c <= '9'
  }

  function Pow10(width: nat): (p: nat)
    ensures p >= 1
  {
    if width == 0 then 1 else 10 * Pow10(width - 1)
  }

  /** The last `width` decimal digits of `n`, zero-padded on the left. */
  function Pad(n: nat, width: nat): (s: string)
    ensures |s| == width
    ensures forall i :: 0 <= i < |s| ==> IsDigitChar(s[i])
  {
    if width == 0 then [] else Pad(n / 10, width - 1) + [DigitChar(n % 10)]
  }

  /** The number a string of decimal digits spells. */
  function DigitsValue(s: string): nat
    requires forall i :: 0 <= i < |s| ==> IsDigitChar(s[i])
  {
    if s == [] then 0
    else
      var last := s[|s| - 1];
      assert IsDigitChar(last);
      10 * DigitsValue(s[..|s| - 1]) + (last as int - '0' as int)
  }

  /** Padding loses nothing when the number fits the width. */
  lemma {:induction false} PadRoundTrip(n: nat, width: nat)
    requires n < Pow10(width)
    ensures DigitsValue(Pad(n, width)) == n
  {
    if width > 0 {
      var s := Pad(n, width);
      assert s[..|s| - 1] == Pad(n / 10, width - 1);
      PadRoundTrip(n / 10, width - 1);
    }
  }

  /** The year as `toISOString` writes it: four digits for years 0..9999,
      otherwise a sign and six digits. */
  function IsoYear(year: int): string
  {
    if 0 <= year <= 9999 then Pad(year, 4)
    else if year < 0 then "-" + Pad(-year, 6)
    else "+" + Pad(year, 6)
  }

  /** The "YYYY-MM-DD" text of a date. */
  function IsoDate(d: CalendarDate): string
    requires ValidDate(d)
  {
    IsoYear(d.year) + ("-" + (Pad(d.month, 2) + ("-" + Pad(d.day, 2))))
  }

  /** Reads back a "YYYY-MM-DD" text; anything of another shape is rejected. */
  function ParseIsoDate(s: string): (d: Option<CalendarDate>)
    ensures d.Some? ==> ValidDate(d.value)
  {
    if |s| == 10 && s[4] == '-' && s[7] == '-'
       && (forall i :: 0 <= i < 10 && i != 4 && i != 7 ==> IsDigitChar(s[i]))
    then
      var date := CalendarDate(DigitsValue(s[..4]), DigitsValue(s[5..7]), DigitsValue(s[8..]));
      if ValidDate(date) then Some(date) else None
    else None
  }

  /** For four-digit years the text is exactly ten characters, dashes at
      positions 4 and 7 and digits elsewhere, and it reads back to the date. */
  lemma IsoDateRoundTrip(d: CalendarDate)
    requires ValidDate(d) && 0 <= d.year <= 9999
    ensures |IsoDate(d)| == 10
    ensures IsoDate(d)[4] == '-' && IsoDate(d)[7] == '-'
    ensures forall i :: 0 <= i < 10 && i != 4 && i != 7 ==> IsDigitChar(IsoDate(d)[i])
    ensures ParseIsoDate(IsoDate(d)) == Some(d)
  {
    var s := IsoDate(d);
    assert s[..4] == Pad(d.year, 4);
    assert s[5..7] == Pad(d.month, 2);
    assert s[8..] == Pad(d.day, 2);
    PadRoundTrip(d.year, 4);
    PadRoundTrip(d.month, 2);
    PadRoundTrip(d.day, 2);
  }

  // ---------------------------------------------------------------------------
  // Text order of the ISO dates
  //
  // Nothing in the code compares the date texts; the browser reads `min` and
  // `max` as dates. `IsoDateOrder` shows that for years 0..9999 the text
  // order of the ISO dates is the calendar order, so the two readings agree.

  /** Lexicographic order of strings by code unit. */
  predicate LexLess(a: string, b: string)
  {
    |b| > 0 && (|a| == 0 || a[0] < b[0] || (a[0] == b[0] && LexLess(a[1..], b[1..])))
  }

  /** Comparing two concatenations whose first parts have the same length
      compares the first parts, and the second parts only on a tie. */
  lemma {:induction false} LexLessConcat(x: string, u: string, y: string, v: string)
    requires |x| == |y|
    ensures LexLess(x + u, y + v) <==> LexLess(x, y) || (x == y && LexLess(u, v))
  {
    if x != [] {
      assert (x + u)[0] == x[0] && (y + v)[0] == y[0];
      assert (x + u)[1..] == x[1..] + u;
      assert (y + v)[1..] == y[1..] + v;
      LexLessConcat(x[1..], u, y[1..], v);
      if x[0] == y[0] && x[1..] == y[1..] {
        assert x == [x[0]] + x[1..] && y == [y[0]] + y[1..];
      }
    } else {
      assert x + u == u && y + v == v;
    }
  }

  /** Zero-padded numerals of one width compare as the numbers do. */
  lemma {:induction false} PadOrder(a: nat, b: nat, width: nat)
    requires a < Pow10(width) && b < Pow10(width)
    ensures LexLess(Pad(a, width), Pad(b, width)) <==> a < b
    ensures Pad(a, width) == Pad(b, width) <==> a == b
  {
    if width == 0 {
      assert Pad(a, width) == [] == Pad(b, width);
    } else {
      var pa, pb := Pad(a / 10, width - 1), Pad(b / 10, width - 1);
      PadOrder(a / 10, b / 10, width - 1);
      LexLessConcat(pa, [DigitChar(a % 10)], pb, [DigitChar(b % 10)]);
      if Pad(a, width) == Pad(b, width) {
        PadRoundTrip(a, width);
        PadRoundTrip(b, width);
      }
    }
  }

  /** On four-digit years, the ISO text order is the calendar order. */
  lemma IsoDateOrder(a: CalendarDate, b: CalendarDate)
    requires ValidDate(a) && ValidDate(b)
    requires 0 <= a.year <= 9999 && 0 <= b.year <= 9999
    ensures LexLess(IsoDate(a), IsoDate(b)) <==> Before(a, b)
  {
    PadOrder(a.year, b.year, 4);
    PadOrder(a.month, b.month, 2);
    PadOrder(a.day, b.day, 2);
    var dayA, dayB := "-" + Pad(a.day, 2), "-" + Pad(b.day, 2);
    var monthA, monthB := "-" + (Pad(a.month, 2) + dayA), "-" + (Pad(b.month, 2) + dayB);
    LexLessConcat("-", Pad(a.day, 2), "-", Pad(b.day, 2));
    LexLessConcat(Pad(a.month, 2), dayA, Pad(b.month, 2), dayB);
    LexLessConcat("-", Pad(a.month, 2) + dayA, "-", Pad(b.month, 2) + dayB);
    LexLessConcat(Pad(a.year, 4), monthA, Pad(b.year, 4), monthB);
  }

  // ---------------------------------------------------------------------------
  // The date picker's bounds

  /** `getMinBookingDate`: today, as "YYYY-MM-DD". */
  function MinBookingDate(today: CalendarDate): string
    requires ValidDate(today)
  {
    IsoDate(today)
  }

  /** `getMaxBookingDate`: today moved three calendar months on, as "YYYY-MM-DD". */
  function MaxBookingDate(today: CalendarDate): string
    requires ValidDate(today)
  {
    IsoDate(AddMonths(today, 3))
  }

  /** The minimum is a ten-character "YYYY-MM-DD" that reads back to today. */
  lemma MinBookingDateIsToday(today: CalendarDate)
    requires ValidDate(today) && 0 <= today.year <= 9999
    ensures |MinBookingDate(today)| == 10
    ensures ParseIsoDate(MinBookingDate(today)) == Some(today)
  {
    IsoDateRoundTrip(today);
  }

  /** The maximum is strictly after the minimum, as dates and as the strings
      the date input compares, and lies three (or, after a month-end roll-over,
      four) months on. */
  lemma MaxBookingDateAfterMin(today: CalendarDate)
    requires ValidDate(today) && 0 <= today.year <= 9998
    ensures ParseIsoDate(MaxBookingDate(today)) == Some(AddMonths(today, 3))
    ensures Before(today, AddMonths(today, 3))
    ensures LexLess(MinBookingDate(today), MaxBookingDate(today))
  {
    var max := AddMonths(today, 3);
    ThreeMonthsLater(today);
    assert max.year <= today.year + 1;
    IsoDateRoundTrip(max);
    IsoDateOrder(today, max);
  }
}
