/**
  The RFC 3339 timestamps of the SLI pipeline: the strict parser, the printer behind
  `datetime.isoformat()` in UTC, and the laws connecting them.

  An instant is a count of microseconds since 0001-01-01T00:00:00Z, the smallest value the
  source's `datetime` can hold.
 */
module Timestamps {
  import opened Wrappers

  // A JSON member where a timestamp is expected: falsy, truthy but not a string, or a string.
  datatype Field = Falsy | NotText | Text(text: string)

  // `Invalid` is the TypeError/ValueError outcome, `OutOfRange` the OverflowError of a value
  // whose UTC form leaves the years 1 to 9999.
  datatype Parsed = Absent | At(micros: int) | Invalid | OutOfRange

  // The groups of a string that has the accepted shape; `offset` is in minutes.
  datatype Stamp = Stamp(year: nat, month: nat, day: nat, hour: nat, minute: nat, second: nat,
                         fraction: string, offset: int)

  /* ---------- decimal digits ---------- */

  predicate IsDigit(c: char) {
    '0' <= c <= '9'
  }

  predicate AllDigits(s: string) {
    forall i :: 0 <= i < |s| ==> IsDigit(s[i])
  }

  function Number(s: string): nat
    requires AllDigits(s)
  {
    if s == "" then 0 else 10 * Number(s[..|s| - 1]) + (s[|s| - 1] as int - '0' as int)
  }

  function Pow10(k: nat): (p: nat)
    ensures p >= 1
  {
    if k == 0 then 1 else 10 * Pow10(k - 1)
  }

  lemma PowersOfTen()
    ensures Pow10(2) == 100 && Pow10(3) == 1000 && Pow10(4) == 10_000 && Pow10(6) == 1_000_000
  {
    assert Pow10(1) == 10;
    assert Pow10(5) == 10 * Pow10(4);
  }

  // n in decimal, zero-padded to k digits.
  function Padded(n: nat, k: nat): (s: string)
    requires n < Pow10(k)
    ensures |s| == k && AllDigits(s) && Number(s) == n
  {
    if k == 0 then "" else Padded(n / 10, k - 1) + [('0' as int + n % 10) as char]
  }

  function DigitRun(s: string): (n: nat)
    ensures n <= |s| && AllDigits(s[..n])
    ensures n < |s| ==> !IsDigit(s[n])
  {
    if s == "" || !IsDigit(s[0]) then 0
    else
      var n := 1 + DigitRun(s[1..]);
      assert s[..n] == [s[0]] + s[1..][..n - 1];
      n
  }

  lemma ShiftByDigit(x: nat, p: nat, y: nat, z: nat)
    ensures 10 * (x * p + y) + z == x * (10 * p) + (10 * y + z)
  {
  }

  lemma {:induction false} NumberConcat(a: string, b: string)
    requires AllDigits(a) && AllDigits(b)
    ensures AllDigits(a + b)
    ensures Number(a + b) == Number(a) * Pow10(|b|) + Number(b)
  {
    if b == "" {
      assert a + b == a;
    } else {
      var front, last := b[..|b| - 1], b[|b| - 1] as int - '0' as int;
      assert (a + b)[..|a + b| - 1] == a + front;
      assert (a + b)[|a + b| - 1] == b[|b| - 1];
      NumberConcat(a, front);
      ShiftByDigit(Number(a), Pow10(|front|), Number(front), last);
    }
  }

  lemma {:induction false} NumberBound(s: string)
    requires AllDigits(s)
    ensures Number(s) < Pow10(|s|)
  {
    if s != "" {
      NumberBound(s[..|s| - 1]);
    }
  }

  function Zeros(k: nat): (s: string)
    ensures |s| == k && forall i :: 0 <= i < k ==> s[i] == '0'
  {
    seq(k, i => '0')
  }

  /* ---------- the proleptic Gregorian calendar ---------- */

  predicate IsLeap(year: nat) {
    year % 4 == 0 && (year % 100 != 0 || year % 400 == 0)
  }

  function DaysInMonth(year: nat, month: nat): (n: nat)
    requires 1 <= month <= 12
    ensures 28 <= n <= 31
  {
    if month == 2 then (if IsLeap(year) then 29 else 28)
    else if month == 4 || month == 6 || month == 9 || month == 11 then 30
    else 31
  }

  function DaysBeforeYear(year: nat): nat
    requires year >= 1
  {
    var y := year - 1;
    y * 365 + y / 4 - y / 100 + y / 400
  }

  function DaysBeforeMonth(year: nat, month: nat): nat
    requires 1 <= month <= 13
  {
    if month == 1 then 0 else DaysBeforeMonth(year, month - 1) + DaysInMonth(year, month - 1)
  }

  predicate ValidDate(year: nat, month: nat, day: nat) {
    year >= 1 && 1 <= month <= 12 && 1 <= day <= DaysInMonth(year, month)
  }

  // Days since 0001-01-01.
  function DayNumber(year: nat, month: nat, day: nat): nat
    requires ValidDate(year, month, day)
  {
    DaysBeforeYear(year) + DaysBeforeMonth(year, month) + day - 1
  }

  // The day number of 10000-01-01.
  const MAX_DAY: nat := 3_652_059

  lemma MonthsOfYear(year: nat)
    ensures DaysBeforeMonth(year, 13) == if IsLeap(year) then 366 else 365
  {
    var leapDay := if IsLeap(year) then 1 else 0;
    assert DaysBeforeMonth(year, 2) == 31;
    assert DaysBeforeMonth(year, 3) == 59 + leapDay;
    assert DaysBeforeMonth(year, 5) == 120 + leapDay;
    assert DaysBeforeMonth(year, 7) == 181 + leapDay;
    assert DaysBeforeMonth(year, 9) == 243 + leapDay;
    assert DaysBeforeMonth(year, 11) == 304 + leapDay;
  }

  function MonthOffset(month: nat, leap: bool): int {
    (367 * month - 362) / 12 - if month <= 2 then 0 else if leap then 1 else 2
  }

  lemma MonthStep(month: nat, leap: bool)
    requires 1 <= month <= 12
    ensures MonthOffset(month + 1, leap) - MonthOffset(month, leap)
            == if month == 2 then (if leap then 29 else 28) else if month in {4, 6, 9, 11} then 30 else 31
  {
  }

  lemma {:induction false} MonthsBefore(year: nat, month: nat)
    requires 1 <= month <= 13
    ensures DaysBeforeMonth(year, month) == MonthOffset(month, IsLeap(year))
  {
    if month > 1 {
      MonthsBefore(year, month - 1);
      MonthStep(month - 1, IsLeap(year));
    }
  }

  /** Day numbers in closed form (Reingold and Dershowitz, Calendrical Calculations). */
  lemma CalendarIsGregorian(year: nat, month: nat, day: nat)
    requires ValidDate(year, month, day)
    ensures var leap := (year % 4 == 0 && year % 100 != 0) || year % 400 == 0;
            DayNumber(year, month, day)
            == 365 * (year - 1) + (year - 1) / 4 - (year - 1) / 100 + (year - 1) / 400
               + (367 * month - 362) / 12 - (if month <= 2 then 0 else if leap then 1 else 2) + day - 1
  {
    MonthsBefore(year, month);
    LeapRule(year);
  }

  lemma LeapRule(year: nat)
    ensures IsLeap(year) <==> (year % 4 == 0 && year % 100 != 0) || year % 400 == 0
  {
    assert year % 400 == 0 ==> year % 4 == 0;
  }

  lemma LeapDays(y: nat)
    ensures (y + 1) / 4 == y / 4 + if (y + 1) % 4 == 0 then 1 else 0
    ensures (y + 1) / 100 == y / 100 + if (y + 1) % 100 == 0 then 1 else 0
    ensures (y + 1) / 400 == y / 400 + if (y + 1) % 400 == 0 then 1 else 0
    ensures (y + 1) % 400 == 0 ==> (y + 1) % 100 == 0
    ensures (y + 1) % 100 == 0 ==> (y + 1) % 4 == 0
  {
  }

  lemma YearLength(year: nat)
    requires year >= 1
    ensures DaysBeforeYear(year + 1) == DaysBeforeYear(year) + DaysBeforeMonth(year, 13)
    ensures DaysBeforeMonth(year, 13) >= 365
  {
    MonthsOfYear(year);
    LeapDays(year - 1);
  }

  function YearFrom(day: nat, year: nat): (y: nat)
    requires year >= 1 && DaysBeforeYear(year) <= day
    ensures y >= year && DaysBeforeYear(y) <= day < DaysBeforeYear(y + 1)
    decreases day - DaysBeforeYear(year)
  {
    YearLength(year);
    if day < DaysBeforeYear(year + 1) then year else YearFrom(day, year + 1)
  }

  function MonthFrom(year: nat, rest: nat, month: nat): (m: nat)
    requires 1 <= month <= 12 && DaysBeforeMonth(year, month) <= rest < DaysBeforeMonth(year, 13)
    ensures month <= m <= 12
    ensures DaysBeforeMonth(year, m) <= rest < DaysBeforeMonth(year, m + 1)
    decreases 13 - month
  {
    if rest < DaysBeforeMonth(year, month + 1) then month else MonthFrom(year, rest, month + 1)
  }

  lemma {:induction false} YearsGrow(a: nat, b: nat)
    requires 1 <= a <= b
    ensures DaysBeforeYear(a) <= DaysBeforeYear(b)
    decreases b - a
  {
    if a < b {
      YearLength(a);
      YearsGrow(a + 1, b);
    }
  }

  // The calendar date of a day number.
  function DateOf(day: nat): (date: (nat, nat, nat))
    ensures ValidDate(date.0, date.1, date.2)
    ensures DayNumber(date.0, date.1, date.2) == day
    ensures day < MAX_DAY ==> date.0 <= 9999
  {
    var year := YearFrom(day, 1);
    YearLength(year);
    var rest := day - DaysBeforeYear(year);
    var month := MonthFrom(year, rest, 1);
    assert day < MAX_DAY ==> year <= 9999 by {
      if year > 9999 {
        YearsGrow(10000, year);
        assert DaysBeforeYear(10000) == MAX_DAY;
      }
    }
    (year, month, rest - DaysBeforeMonth(year, month) + 1)
  }

  /* ---------- the accepted shape ---------- */

  predicate IsSpace(c: char) {
    c == ' ' || '\t' <= c <= '\r' || 0x1c <= c as int <= 0x1f
  }

  function Strip(s: string): string {
    if s == "" then ""
    else if IsSpace(s[0]) then Strip(s[1..])
    else if IsSpace(s[|s| - 1]) then Strip(s[..|s| - 1])
    else s
  }

  // "dddd-dd-ddTdd:dd:dd"
  predicate IsHead(s: string) {
    && |s| == 19
    && AllDigits(s[0..4]) && s[4] == '-' && AllDigits(s[5..7]) && s[7] == '-' && AllDigits(s[8..10])
    && s[10] == 'T'
    && AllDigits(s[11..13]) && s[13] == ':' && AllDigits(s[14..16]) && s[16] == ':'
    && AllDigits(s[17..19])
  }

  // "Z", or a sign and "dd:dd"; the value is the offset in minutes.
  function Zone(s: string): Option<int> {
    if s == "Z" then Some(0)
    else if |s| == 6 && (s[0] == '+' || s[0] == '-') && AllDigits(s[1..3]) && s[3] == ':' && AllDigits(s[4..6])
    then
      var minutes := Number(s[1..3]) * 60 + Number(s[4..6]);
      Some(if s[0] == '-' then -minutes else minutes)
    else None
  }

  // An optional fraction and a zone: the fraction digits and the offset.
  function Tail(rest: string): (tail: Option<(string, int)>)
    ensures tail.Some? ==> AllDigits(tail.value.0) && |tail.value.0| <= 9
  {
    if rest != "" && rest[0] == '.' then
      var run := DigitRun(rest[1..]);
      var zone := Zone(rest[1..][run..]);
      if !(1 <= run <= 9) || zone.None? then None else Some((rest[1..][..run], zone.value))
    else
      var zone := Zone(rest);
      if zone.None? then None else Some(("", zone.value))
  }

  // The numbers in a head, and what follows it.
  function Groups(head: string, tail: (string, int)): Stamp
    requires IsHead(head)
  {
    Stamp(Number(head[0..4]), Number(head[5..7]), Number(head[8..10]), Number(head[11..13]), Number(head[14..16]),
          Number(head[17..19]), tail.0, tail.1)
  }

  // The source's regular expression, with its groups.
  function Match(s: string): (stamp: Option<Stamp>)
    ensures stamp.Some? ==> AllDigits(stamp.value.fraction) && |stamp.value.fraction| <= 9
  {
    if |s| < 20 || !IsHead(s[..19]) then None
    else
      var tail := Tail(s[19..]);
      if tail.None? then None else Some(Groups(s[..19], tail.value))
  }

  // What `datetime.fromisoformat` demands of the numbers.
  predicate ValidStamp(stamp: Stamp) {
    && ValidDate(stamp.year, stamp.month, stamp.day)
    && stamp.hour < 24 && stamp.minute < 60 && stamp.second < 60
    && -1440 < stamp.offset < 1440
  }

  // Whole seconds, in UTC, of a valid stamp.
  function UtcSeconds(stamp: Stamp): int
    requires ValidStamp(stamp)
  {
    DayNumber(stamp.year, stamp.month, stamp.day) * 86400
    + stamp.hour * 3600 + stamp.minute * 60 + stamp.second - stamp.offset * 60
  }

  // The last microsecond of the year 9999.
  const MAX_MICROS: int := 315_537_897_599_999_999

  predicate InRange(micros: int) {
    0 <= micros <= MAX_MICROS
  }

  // The fraction, padded with zeros and cut to six digits.
  function Micros(stamp: Stamp): int
    requires ValidStamp(stamp) && AllDigits(stamp.fraction)
  {
    UtcSeconds(stamp) * 1_000_000 + Number((stamp.fraction + Zeros(6))[..6])
  }

  // The parser.
  function Parse(field: Field): Parsed {
    if field.Falsy? || field == Text("") then Absent
    else if field.NotText? then Invalid
    else
      var matched := Match(Strip(field.text));
      if matched.None? || !ValidStamp(matched.value) then Invalid
      else
        var micros := Micros(matched.value);
        if InRange(micros) then At(micros) else OutOfRange
  }

  /* ---------- what a timestamp denotes, to the nanosecond ---------- */

  // All nine fraction digits count here; nothing is cut.
  function Nanos(stamp: Stamp): int
    requires ValidStamp(stamp) && AllDigits(stamp.fraction) && |stamp.fraction| <= 9
  {
    UtcSeconds(stamp) * 1_000_000_000 + Number(stamp.fraction + Zeros(9 - |stamp.fraction|))
  }

  // An accepted text is a shape match with numbers in range; its denotation is then defined.
  predicate Denotes(text: string, nanos: int) {
    var matched := Match(Strip(text));
    matched.Some? && ValidStamp(matched.value) && Nanos(matched.value) == nanos
  }

  lemma CutIsPrefix(fraction: string)
    requires AllDigits(fraction) && |fraction| <= 9
    ensures (fraction + Zeros(6))[..6] == (fraction + Zeros(9 - |fraction|))[..6]
  {
  }

  lemma CutIsFloor(stamp: Stamp)
    requires ValidStamp(stamp) && AllDigits(stamp.fraction) && |stamp.fraction| <= 9
    ensures Micros(stamp) == Nanos(stamp) / 1000
  {
    var all := stamp.fraction + Zeros(9 - |stamp.fraction|);
    CutIsPrefix(stamp.fraction);
    FloorOfPrefix(all);
    FloorOfSum(UtcSeconds(stamp), Number(all));
  }

  lemma FloorOfSum(seconds: int, rest: nat)
    ensures (seconds * 1_000_000_000 + rest) / 1000 == seconds * 1_000_000 + rest / 1000
  {
  }

  lemma FloorOfPrefix(all: string)
    requires AllDigits(all) && |all| == 9
    ensures Number(all[..6]) == Number(all) / 1000
  {
    var tail := all[6..];
    assert all == all[..6] + tail;
    NumberConcat(all[..6], tail);
    NumberBound(tail);
    PowersOfTen();
  }

  /** A parsed timestamp is the denoted instant cut down to whole microseconds, for every number
      of fraction digits and every offset. */
  lemma ParseIsFloor(text: string, micros: int)
    requires Parse(Text(text)) == At(micros)
    ensures exists nanos :: Denotes(text, nanos) && micros == nanos / 1000
  {
    var stamp := Match(Strip(text)).value;
    CutIsFloor(stamp);
    assert Denotes(text, Nanos(stamp));
  }

  /** Parsing never reorders two timestamps. */
  lemma ParseMonotone(a: string, b: string, na: int, nb: int, ta: int, tb: int)
    requires Denotes(a, na) && Denotes(b, nb) && na <= nb
    requires Parse(Text(a)) == At(ta) && Parse(Text(b)) == At(tb)
    ensures ta <= tb
  {
    ParseIsFloor(a, ta);
    ParseIsFloor(b, tb);
  }

  /** What is rejected: a text denotes an instant and still does not parse exactly when that
      instant, in UTC, leaves the years 1 to 9999. */
  lemma ParseAccepts(text: string, nanos: int)
    requires text != "" && Denotes(text, nanos)
    ensures Parse(Text(text)) == if 0 <= nanos <= MAX_MICROS * 1000 + 999 then At(nanos / 1000) else OutOfRange
  {
    CutIsFloor(Match(Strip(text)).value);
  }

  /* ---------- what is accepted ---------- */

  datatype WrittenZone = Utc | Offset(sign: char, hours: string, minutes: string)
  {
    function Text(): string {
      if Utc? then "Z" else [sign] + hours + ":" + minutes
    }

    predicate Formed() {
      Offset? ==>
        (sign == '+' || sign == '-') && AllDigits(hours) && AllDigits(minutes) && |hours| == |minutes| == 2
    }
  }

  // The part of a timestamp up to the seconds.
  function Head(y: string, mo: string, d: string, h: string, mi: string, s: string): string {
    y + "-" + mo + "-" + d + "T" + h + ":" + mi + ":" + s
  }

  // The part after the head.
  function Ending(fraction: string, zone: string): string {
    (if fraction == "" then "" else "." + fraction) + zone
  }

  // A timestamp put together from its parts, as a writer would do it.
  datatype Written = Written(year: string, month: string, day: string, hour: string, minute: string,
                             second: string, fraction: string, zone: WrittenZone)
  {
    function Text(): string {
      Head(year, month, day, hour, minute, second) + Ending(fraction, zone.Text())
    }

    predicate Formed() {
      && AllDigits(year) && AllDigits(month) && AllDigits(day) && AllDigits(hour) && AllDigits(minute)
      && AllDigits(second) && AllDigits(fraction)
      && |year| == 4 && |month| == |day| == |hour| == |minute| == |second| == 2 && |fraction| <= 9 && zone.Formed()
    }

    // The numbers are those of a date in the calendar, a time of day, and an offset of less than a day.
    predicate Dated()
      requires Formed()
    {
      && Number(year) >= 1 && 1 <= Number(month) <= 12
      && 1 <= Number(day) <= DaysInMonth(Number(year), Number(month))
      && Number(hour) <= 23 && Number(minute) <= 59 && Number(second) <= 59
      && (zone.Offset? ==> Number(zone.hours) * 60 + Number(zone.minutes) < 1440)
    }

    // What the parts are as numbers; an offset counts minutes ahead of UTC.
    function Numbers(): Stamp
      requires Formed()
    {
      Stamp(Number(year), Number(month), Number(day), Number(hour), Number(minute), Number(second), fraction,
            if zone.Utc? then 0
            else
              var minutes := Number(zone.hours) * 60 + Number(zone.minutes);
              if zone.sign == '+' then minutes else -minutes)
    }
  }

  lemma {:induction false} DigitRunStops(a: string, b: string)
    requires b != "" && !IsDigit(b[0])
    ensures DigitRun(a + b) == DigitRun(a)
  {
    if a == "" {
      assert a + b == b;
    } else {
      DigitRunStops(a[1..], b);
      assert (a + b)[1..] == a[1..] + b;
    }
  }

  lemma OffsetParts(sign: char, hh: string, mm: string)
    requires |hh| == |mm| == 2
    ensures var zone := [sign] + hh + ":" + mm;
            && |zone| == 6 && zone[0] == sign && zone[1..3] == hh && zone[3] == ':' && zone[4..6] == mm
  {
  }

  lemma ZoneOfParts(zone: string, hh: string, mm: string)
    requires |zone| == 6 && (zone[0] == '+' || zone[0] == '-') && zone[1..3] == hh && zone[3] == ':' && zone[4..6] == mm
    requires AllDigits(hh) && AllDigits(mm)
    ensures var minutes := Number(hh) * 60 + Number(mm);
            Zone(zone) == Some(if zone[0] == '-' then -minutes else minutes)
  {
  }

  lemma ZoneOfOffset(sign: char, hh: string, mm: string)
    requires sign == '+' || sign == '-'
    requires AllDigits(hh) && AllDigits(mm) && |hh| == |mm| == 2
    ensures var minutes := Number(hh) * 60 + Number(mm);
            Zone([sign] + hh + ":" + mm) == Some(if sign == '-' then -minutes else minutes)
  {
    OffsetParts(sign, hh, mm);
    ZoneOfParts([sign] + hh + ":" + mm, hh, mm);
  }

  lemma DigitsInZone(digits: string, zone: string)
    requires zone != "" && !IsDigit(zone[0])
    ensures var run := DigitRun(digits);
            && DigitRun(digits + zone) == run
            && (digits + zone)[..run] == digits[..run] && (digits + zone)[run..] == digits[run..] + zone
  {
    DigitRunStops(digits, zone);
  }

  // The tail of a text with a fraction, and of one without.
  lemma TailOfFraction(rest: string, zone: string)
    requires rest != "" && rest[0] == '.' && zone != "" && !IsDigit(zone[0])
    ensures var digits := rest[1..];
            var run := DigitRun(digits);
            var offset := Zone(digits[run..] + zone);
            Tail(rest + zone) == if 1 <= run <= 9 && offset.Some? then Some((digits[..run], offset.value)) else None
  {
    assert (rest + zone)[1..] == rest[1..] + zone;
    DigitsInZone(rest[1..], zone);
  }

  lemma TailOfZone(rest: string, zone: string)
    requires rest + zone != "" && (rest + zone)[0] != '.'
    ensures var offset := Zone(rest + zone);
            Tail(rest + zone) == if offset.Some? then Some(("", offset.value)) else None
  {
  }

  lemma ZoneOfWritten(zone: WrittenZone)
    requires zone.Formed()
    ensures var s := zone.Text();
            && s != "" && (s[0] == 'Z' || s[0] == '+' || s[0] == '-') && Zone(s).Some?
            && (zone.Utc? ==> Zone(s) == Some(0))
            && (zone.Offset? ==>
                  var minutes := Number(zone.hours) * 60 + Number(zone.minutes);
                  Zone(s) == Some(if zone.sign == '+' then minutes else -minutes))
  {
    if zone.Offset? {
      ZoneOfOffset(zone.sign, zone.hours, zone.minutes);
    }
  }

  lemma WrittenOfZone(s: string) returns (zone: WrittenZone)
    requires Zone(s).Some?
    ensures zone.Formed() && zone.Text() == s
  {
    if s == "Z" {
      zone := Utc;
    } else {
      zone := Offset(s[0], s[1..3], s[4..6]);
      assert s == [s[0]] + s[1..3] + ":" + s[4..6];
    }
  }

  // The tail of a written timestamp.
  lemma TailOfWritten(fraction: string, zone: string)
    requires AllDigits(fraction) && |fraction| <= 9 && Zone(zone).Some?
    requires zone != "" && (zone[0] == 'Z' || zone[0] == '+' || zone[0] == '-')
    ensures Ending(fraction, zone) != "" && Tail(Ending(fraction, zone)) == Some((fraction, Zone(zone).value))
  {
    if fraction == "" {
      TailOfZone("", zone);
      assert "" + zone == zone;
    } else {
      var rest := "." + fraction;
      assert rest[1..] == fraction;
      TailOfFraction(rest, zone);
      assert fraction[..|fraction|] == fraction && fraction[|fraction|..] + zone == zone;
    }
  }

  lemma WrittenOfTail(rest: string) returns (fraction: string, zone: string)
    requires Tail(rest).Some?
    ensures Tail(rest).value.0 == fraction && AllDigits(fraction) && |fraction| <= 9 && Zone(zone).Some?
    ensures rest == Ending(fraction, zone)
  {
    if rest != "" && rest[0] == '.' {
      var digits := rest[1..];
      var run := DigitRun(digits);
      fraction, zone := digits[..run], digits[run..];
      assert digits == fraction + zone;
      assert rest == "." + digits;
    } else {
      fraction, zone := "", rest;
    }
  }

  lemma HeadParts(y: string, mo: string, d: string, h: string, mi: string, s: string)
    requires AllDigits(y) && AllDigits(mo) && AllDigits(d) && AllDigits(h) && AllDigits(mi) && AllDigits(s)
    requires |y| == 4 && |mo| == |d| == |h| == |mi| == |s| == 2
    ensures IsHead(Head(y, mo, d, h, mi, s))
    ensures var head := Head(y, mo, d, h, mi, s);
            && head[0..4] == y && head[5..7] == mo && head[8..10] == d
            && head[11..13] == h && head[14..16] == mi && head[17..19] == s
  {
    var head := Head(y, mo, d, h, mi, s);
    assert head[0..4] == y;
    assert head[5..7] == mo;
    assert head[8..10] == d;
    assert head[11..13] == h;
    assert head[14..16] == mi;
    assert head[17..19] == s;
  }

  lemma MatchOfParts(head: string, rest: string)
    requires IsHead(head) && rest != ""
    ensures Match(head + rest) == if Tail(rest).Some? then Some(Groups(head, Tail(rest).value)) else None
  {
    assert (head + rest)[..19] == head && (head + rest)[19..] == rest;
  }

  lemma HeadOfWritten(w: Written)
    requires w.Formed()
    ensures var head := Head(w.year, w.month, w.day, w.hour, w.minute, w.second);
            IsHead(head) && Groups(head, (w.fraction, w.Numbers().offset)) == w.Numbers()
  {
    HeadParts(w.year, w.month, w.day, w.hour, w.minute, w.second);
  }

  lemma EndingOfWritten(w: Written)
    requires w.Formed()
    ensures var rest := Ending(w.fraction, w.zone.Text());
            rest != "" && Tail(rest) == Some((w.fraction, w.Numbers().offset))
  {
    ZoneOfWritten(w.zone);
    TailOfWritten(w.fraction, w.zone.Text());
  }

  lemma MatchOfTail(s: string, head: string, rest: string, tail: (string, int), stamp: Stamp)
    requires IsHead(head) && rest != "" && s == head + rest && Tail(rest) == Some(tail) && Groups(head, tail) == stamp
    ensures Match(s) == Some(stamp)
  {
    MatchOfParts(head, rest);
  }

  /** A timestamp put together from its parts has the accepted shape, with exactly those parts as its
      groups. */
  lemma MatchOfWritten(w: Written)
    requires w.Formed()
    ensures Match(w.Text()) == Some(w.Numbers())
  {
    HeadOfWritten(w);
    EndingOfWritten(w);
    MatchOfTail(w.Text(), Head(w.year, w.month, w.day, w.hour, w.minute, w.second),
                Ending(w.fraction, w.zone.Text()), (w.fraction, w.Numbers().offset), w.Numbers());
  }

  lemma HeadOfParts(head: string)
    requires IsHead(head)
    ensures head == Head(head[0..4], head[5..7], head[8..10], head[11..13], head[14..16], head[17..19])
  {
  }

  /** And every text of the accepted shape is put together that way. */
  lemma WrittenOfMatch(s: string) returns (w: Written)
    requires Match(s).Some?
    ensures w.Formed() && w.Text() == s
  {
    var head, rest := s[..19], s[19..];
    var fraction, zone := WrittenOfTail(rest);
    var z := WrittenOfZone(zone);
    w := Written(head[0..4], head[5..7], head[8..10], head[11..13], head[14..16], head[17..19], fraction, z);
    HeadOfParts(head);
    assert s == head + rest;
  }

  predicate Accepts(s: string) {
    Match(s).Some? && ValidStamp(Match(s).value)
  }

  // A valid timestamp, spelled out.
  ghost predicate Spells(s: string, w: Written) {
    w.Formed() && w.Dated() && w.Text() == s
  }

  lemma DatedIff(w: Written)
    requires w.Formed()
    ensures ValidStamp(w.Numbers()) <==> w.Dated()
  {
  }

  lemma AcceptsWritten(s: string, w: Written)
    requires w.Formed() && w.Text() == s
    ensures Accepts(s) <==> w.Dated()
  {
    MatchOfWritten(w);
    DatedIff(w);
  }

  lemma AcceptedIff(s: string)
    ensures Accepts(s) <==> exists w :: Spells(s, w)
  {
    if Accepts(s) {
      var w := WrittenOfMatch(s);
      AcceptsWritten(s, w);
      assert Spells(s, w);
    }
    if w :| Spells(s, w) {
      AcceptsWritten(s, w);
    }
  }

  lemma InvalidParse(text: string)
    requires text != ""
    ensures Parse(Text(text)) == Invalid <==> !Accepts(Strip(text))
  {
  }

  /** Exactly which texts are invalid: those that are not, up to blanks around them, a date in the
      calendar, a time of day, up to nine fraction digits and a zone. */
  lemma InvalidIff(text: string)
    requires text != ""
    ensures Parse(Text(text)) == Invalid <==> !exists w :: Spells(Strip(text), w)
  {
    InvalidParse(text);
    AcceptedIff(Strip(text));
  }

  /* ---------- offsets ---------- */

  // Not blank at either end.
  predicate Solid(s: string) {
    s != "" && !IsSpace(s[0]) && !IsSpace(s[|s| - 1])
  }

  lemma StripKeeps(s: string)
    requires s != "" && !IsSpace(s[0]) && !IsSpace(s[|s| - 1])
    ensures Strip(s) == s
  {
  }

  const SPACES: string := " \t\n\U{0b}\U{0c}\r\U{1c}\U{1d}\U{1e}\U{1f}"

  lemma SpacesAre(c: char)
    ensures IsSpace(c) <==> c in SPACES
  {
    assert SPACES[0] == ' ' && SPACES[1] == '\t' && SPACES[2] == '\n' && SPACES[3] as int == 11;
    assert SPACES[4] as int == 12 && SPACES[5] == '\r' && SPACES[6] as int == 28 && SPACES[7] as int == 29;
    assert SPACES[8] as int == 30 && SPACES[9] as int == 31;
  }

  ghost predicate Blank(s: string) {
    forall i :: 0 <= i < |s| ==> IsSpace(s[i])
  }

  // A text as what it strips to, between blanks.
  ghost predicate Around(s: string, before: string, inner: string, after: string) {
    s == before + inner + after && Blank(before) && Blank(after)
  }

  lemma AroundMore(c: char, s: string, before: string, inner: string, after: string)
    requires Around(s, before, inner, after) && IsSpace(c)
    ensures Around([c] + s, [c] + before, inner, after) && Around(s + [c], before, inner, after + [c])
  {
  }

  /** Stripping takes the blanks at both ends and nothing else. */
  lemma {:induction false} StripMeans(s: string) returns (before: string, after: string)
    ensures Around(s, before, Strip(s), after) && (Strip(s) == "" || Solid(Strip(s)))
    decreases |s|
  {
    before, after := "", "";
    if s != "" && IsSpace(s[0]) {
      before, after := StripMeans(s[1..]);
      AroundMore(s[0], s[1..], before, Strip(s[1..]), after);
      before := [s[0]] + before;
      assert s == [s[0]] + s[1..];
    } else if s != "" && IsSpace(s[|s| - 1]) {
      before, after := StripMeans(s[..|s| - 1]);
      AroundMore(s[|s| - 1], s[..|s| - 1], before, Strip(s[..|s| - 1]), after);
      after := after + [s[|s| - 1]];
      assert s == s[..|s| - 1] + [s[|s| - 1]];
    }
  }

  // Blanks in front of a text go whichever solid text follows it.
  lemma {:induction false} StripFront(s: string, a: string, b: string) returns (t: string)
    requires Solid(a) && Solid(b)
    ensures Strip(s + a) == t + a && Strip(s + b) == t + b
  {
    if s != "" && IsSpace(s[0]) {
      t := StripFront(s[1..], a, b);
      assert (s + a)[1..] == s[1..] + a && (s + b)[1..] == s[1..] + b;
    } else {
      t := s;
      StripKeeps(s + a);
      StripKeeps(s + b);
    }
  }

  lemma OnlyUtc(x: string)
    ensures x != "" ==> Zone(x + "Z").None?
  {
    var zone := x + "Z";
    if |zone| == 6 {
      assert zone[4..6][1] == zone[5] == 'Z';
    }
  }

  lemma TailInZone(rest: string, zone: string, minutes: int)
    requires Tail(rest + "Z").Some? && zone != "" && (zone[0] == '+' || zone[0] == '-') && Zone(zone) == Some(minutes)
    ensures Tail(rest + "Z").value.1 == 0 && Tail(rest + zone) == Some((Tail(rest + "Z").value.0, minutes))
  {
    if rest != "" && rest[0] == '.' {
      TailOfFraction(rest, "Z");
      TailOfFraction(rest, zone);
      var left := rest[1..][DigitRun(rest[1..])..];
      OnlyUtc(left);
      assert left + zone == zone && left + "Z" == "Z";
    } else {
      TailOfZone(rest, "Z");
      OnlyUtc(rest);
      assert rest + zone == zone && rest + "Z" == "Z";
      TailOfZone(rest, zone);
    }
  }

  // With another zone only the offset of a match changes.
  lemma MatchInZone(t: string, zone: string, minutes: int)
    requires Match(t + "Z").Some? && zone != "" && (zone[0] == '+' || zone[0] == '-') && Zone(zone) == Some(minutes)
    ensures Match(t + "Z").value.offset == 0
    ensures Match(t + zone) == Some(Match(t + "Z").value.(offset := minutes))
  {
    var rest := t[19..];
    assert (t + "Z")[..19] == t[..19] == (t + zone)[..19];
    assert (t + "Z")[19..] == rest + "Z" && (t + zone)[19..] == rest + zone;
    TailInZone(rest, zone, minutes);
  }

  lemma InZone(s: string, zone: string, minutes: int, nanos: int)
    requires Denotes(s + "Z", nanos) && Solid(zone) && (zone[0] == '+' || zone[0] == '-')
    requires Zone(zone) == Some(minutes) && -1440 < minutes < 1440
    ensures Denotes(s + zone, nanos - minutes * 60_000_000_000)
  {
    var t := StripFront(s, "Z", zone);
    MatchInZone(t, zone, minutes);
    Shifted(Match(t + "Z").value, minutes);
  }

  lemma Shifted(stamp: Stamp, minutes: int)
    requires ValidStamp(stamp) && AllDigits(stamp.fraction) && |stamp.fraction| <= 9
    requires stamp.offset == 0 && -1440 < minutes < 1440
    ensures ValidStamp(stamp.(offset := minutes))
    ensures Nanos(stamp.(offset := minutes)) == Nanos(stamp) - minutes * 60_000_000_000
  {
    assert UtcSeconds(stamp.(offset := minutes)) == UtcSeconds(stamp) - minutes * 60;
  }

  // A zone written as an offset of less than a day, "+hh:mm" or "-hh:mm".
  ghost predicate IsOffset(zone: string, sign: char, hh: string, mm: string) {
    && |zone| == 6 && zone[0] == sign && zone[1..3] == hh && zone[3] == ':' && zone[4..6] == mm
    && (sign == '+' || sign == '-') && AllDigits(hh) && AllDigits(mm) && Number(hh) * 60 + Number(mm) < 1440
  }

  lemma OffsetMinutes(zone: string, sign: char, hh: string, mm: string) returns (minutes: int)
    requires IsOffset(zone, sign, hh, mm)
    ensures minutes == if sign == '+' then Number(hh) * 60 + Number(mm) else -(Number(hh) * 60 + Number(mm))
    ensures Solid(zone) && (zone[0] == '+' || zone[0] == '-') && Zone(zone) == Some(minutes) && -1440 < minutes < 1440
  {
    minutes := if sign == '+' then Number(hh) * 60 + Number(mm) else -(Number(hh) * 60 + Number(mm));
    ZoneOfParts(zone, hh, mm);
    assert zone[5] == mm[1];
  }

  /** An offset of +hh:mm names the instant that is hh:mm earlier than the same text in UTC, and -hh:mm
      the instant that much later. */
  lemma OffsetShifts(s: string, zone: string, sign: char, hh: string, mm: string, nanos: int)
    requires Denotes(s + "Z", nanos) && IsOffset(zone, sign, hh, mm)
    ensures var shift := (Number(hh) * 60 + Number(mm)) * 60_000_000_000;
            Denotes(s + zone, if sign == '+' then nanos - shift else nanos + shift)
  {
    var minutes := OffsetMinutes(zone, sign, hh, mm);
    InZone(s, zone, minutes, nanos);
  }

  // A whole number of microseconds passes through the cut.
  lemma ParsedWhole(text: string, nanos: int, shift: int)
    requires text != "" && Denotes(text, nanos + shift * 1000)
    ensures Parse(Text(text)) == if InRange(nanos / 1000 + shift) then At(nanos / 1000 + shift) else OutOfRange
  {
    ParseAccepts(text, nanos + shift * 1000);
    assert (nanos + shift * 1000) / 1000 == nanos / 1000 + shift;
  }

  lemma ParseInZone(s: string, zone: string, minutes: int, moved: int, micros: int)
    requires Parse(Text(s + "Z")) == At(micros) && Solid(zone) && (zone[0] == '+' || zone[0] == '-')
    requires Zone(zone) == Some(minutes) && -1440 < minutes < 1440 && moved == micros - minutes * 60_000_000
    ensures Parse(Text(s + zone)) == if InRange(moved) then At(moved) else OutOfRange
  {
    ParseIsFloor(s + "Z", micros);
    var nanos :| Denotes(s + "Z", nanos) && micros == nanos / 1000;
    InZone(s, zone, minutes, nanos);
    ParsedWhole(s + zone, nanos, -minutes * 60_000_000);
  }

  /** So the parsed microseconds differ by exactly the offset, unless that leaves the years 1 to 9999. */
  lemma ParseShifts(s: string, zone: string, sign: char, hh: string, mm: string, micros: int) returns (moved: int)
    requires Parse(Text(s + "Z")) == At(micros) && IsOffset(zone, sign, hh, mm)
    ensures var shift := (Number(hh) * 60 + Number(mm)) * 60_000_000;
            moved == if sign == '+' then micros - shift else micros + shift
    ensures Parse(Text(s + zone)) == if InRange(moved) then At(moved) else OutOfRange
  {
    var minutes := OffsetMinutes(zone, sign, hh, mm);
    moved := micros - minutes * 60_000_000;
    ParseInZone(s, zone, minutes, moved, micros);
  }

  /* ---------- printing ---------- */

  // The fraction of a printed instant, six digits unless it is zero.
  function Digits(us: nat): string
    requires us < Pow10(6)
  {
    if us == 0 then "" else Padded(us, 6)
  }

  // `isoformat()` of an instant in UTC: the fraction appears only when it is not zero.
  function Print(micros: int): string
    requires InRange(micros)
  {
    var us, seconds := micros % 1_000_000, micros / 1_000_000;
    var (year, month, day) := DateOf(seconds / 86400);
    var clock := seconds % 86400;
    PowersOfTen();
    Head(Padded(year, 4), Padded(month, 2), Padded(day, 2),
         Padded(clock / 3600, 2), Padded(clock / 60 % 60, 2), Padded(clock % 60, 2)) + Ending(Digits(us), "+00:00")
  }

  /* ---------- round trip ---------- */

  lemma ZoneOfUtc()
    ensures Zone("+00:00") == Some(0)
  {
    assert "+00:00"[1..3] == "00" && "+00:00"[4..6] == "00";
    assert "00"[..1] == "0" && "0"[..0] == "";
    assert Number("00") == 0;
  }

  lemma MatchPrinted(head: string, us: nat)
    requires IsHead(head) && us < Pow10(6)
    ensures Match(head + Ending(Digits(us), "+00:00")) == Some(Groups(head, (Digits(us), 0)))
  {
    ZoneOfUtc();
    TailOfWritten(Digits(us), "+00:00");
    MatchOfParts(head, Ending(Digits(us), "+00:00"));
  }

  lemma SixDigits(us: nat)
    requires us < Pow10(6)
    ensures AllDigits((Digits(us) + Zeros(6))[..6]) && Number((Digits(us) + Zeros(6))[..6]) == us
  {
    if us == 0 {
      ZerosArePadding(6);
      assert ("" + Zeros(6))[..6] == Padded(0, 6);
    } else {
      assert (Padded(us, 6) + Zeros(6))[..6] == Padded(us, 6);
    }
  }

  function StampOf(micros: int): (stamp: Stamp)
    requires InRange(micros)
    ensures ValidStamp(stamp) && UtcSeconds(stamp) == micros / 1_000_000
    ensures stamp.year <= 9999
  {
    var us, seconds := micros % 1_000_000, micros / 1_000_000;
    var (year, month, day) := DateOf(seconds / 86400);
    var clock := seconds % 86400;
    PowersOfTen();
    ClockParts(clock);
    Stamp(year, month, day, clock / 3600, clock / 60 % 60, clock % 60, Digits(us), 0)
  }

  lemma MatchOfPrint(micros: int)
    requires InRange(micros)
    ensures Print(micros) != "" && Match(Strip(Print(micros))) == Some(StampOf(micros))
  {
    var stamp := StampOf(micros);
    PowersOfTen();
    HeadParts(Padded(stamp.year, 4), Padded(stamp.month, 2), Padded(stamp.day, 2),
              Padded(stamp.hour, 2), Padded(stamp.minute, 2), Padded(stamp.second, 2));
    var head := Head(Padded(stamp.year, 4), Padded(stamp.month, 2), Padded(stamp.day, 2),
                     Padded(stamp.hour, 2), Padded(stamp.minute, 2), Padded(stamp.second, 2));
    var us := micros % 1_000_000;
    assert Print(micros) == head + Ending(Digits(us), "+00:00");
    StripKeeps(Print(micros));
    MatchPrinted(head, us);
  }

  /** Parsing a printed instant returns it, whatever its fraction. */
  lemma RoundTrip(micros: int)
    requires InRange(micros)
    ensures Parse(Text(Print(micros))) == At(micros)
  {
    MatchOfPrint(micros);
    MicrosOfStamp(micros);
  }

  lemma MicrosOfStamp(micros: int)
    requires InRange(micros)
    ensures AllDigits(StampOf(micros).fraction) && Micros(StampOf(micros)) == micros
  {
    PowersOfTen();
    SixDigits(micros % 1_000_000);
  }

  lemma ClockParts(clock: nat)
    ensures clock / 3600 * 3600 + clock / 60 % 60 * 60 + clock % 60 == clock
  {
    assert clock / 60 / 60 == clock / 3600;
  }

  lemma {:induction false} ZerosArePadding(k: nat)
    ensures Zeros(k) == Padded(0, k)
  {
    if k > 0 {
      ZerosArePadding(k - 1);
    }
  }
}
