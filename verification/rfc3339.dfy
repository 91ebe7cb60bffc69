/** The timestamps of a replay request: written as time.RFC3339Nano in UTC, read with any numeric
    offset, section 5.6 of RFC 3339. */
module Timestamps {
  import opened Text

  // ---- The calendar -----------------------------------------------------------------

  const DAY := 86_400
  const SECOND := 1_000_000_000

  /** Nanoseconds since the start of year 1, UTC. */
  type Time = nat

  predicate IsLeap(y: nat) {
    y % 4 == 0 && (y % 100 != 0 || y % 400 == 0)
  }

  function DaysIn(y: nat, m: nat): nat {
    if m == 2 then (if IsLeap(y) then 29 else 28)
    else if m == 4 || m == 6 || m == 9 || m == 11 then 30
    else 31
  }

  function DaysBeforeMonth(y: nat, m: nat): nat {
    if m <= 1 then 0 else DaysBeforeMonth(y, m - 1) + DaysIn(y, m - 1)
  }

  /** Days from the start of year 1 to the start of year y, by the closed formula. */
  function DaysBeforeYear(y: nat): int {
    365 * (y - 1) + (y - 1) / 4 - (y - 1) / 100 + (y - 1) / 400
  }

  lemma MonthsOf(y: nat)
    ensures DaysBeforeMonth(y, 13) == 337 + DaysIn(y, 2)
  {
    var february := DaysIn(y, 2);
    assert DaysBeforeMonth(y, 2) == 31;
    assert DaysBeforeMonth(y, 4) == 62 + february;
    assert DaysBeforeMonth(y, 6) == 123 + february;
    assert DaysBeforeMonth(y, 8) == 184 + february;
    assert DaysBeforeMonth(y, 10) == 245 + february;
    assert DaysBeforeMonth(y, 12) == 306 + february;
  }

  /** The months as everyone knows them, and the day on which Unix time begins. */
  lemma Calendar(y: nat)
    ensures DaysIn(y, 1) == 31 && DaysIn(y, 3) == 31 && DaysIn(y, 4) == 30 && DaysIn(y, 5) == 31
    ensures DaysIn(y, 6) == 30 && DaysIn(y, 7) == 31 && DaysIn(y, 8) == 31 && DaysIn(y, 9) == 30
    ensures DaysIn(y, 10) == 31 && DaysIn(y, 11) == 30 && DaysIn(y, 12) == 31
    ensures DaysIn(2024, 2) == 29 && DaysIn(2023, 2) == 28 && DaysIn(2000, 2) == 29 && DaysIn(1900, 2) == 28
    ensures DaysBeforeYear(1970) == 719_162
  {
  }

  lemma Multiples(y: nat)
    ensures y % 400 == 0 ==> y % 100 == 0
    ensures y % 100 == 0 ==> y % 4 == 0
  {
    if y % 400 == 0 {
      Quotient(y, 100, 4 * (y / 400), 0);
    }
    if y % 100 == 0 {
      Quotient(y, 4, 25 * (y / 100), 0);
    }
  }

  /** The closed formula counts the months of each year. */
  lemma YearIsItsMonths(y: nat)
    requires y >= 1
    ensures DaysBeforeYear(y + 1) == DaysBeforeYear(y) + DaysBeforeMonth(y, 13)
    ensures DaysBeforeMonth(y, 13) == if IsLeap(y) then 366 else 365
  {
    MonthsOf(y);
    QuotientStep(y, 4);
    QuotientStep(y, 100);
    QuotientStep(y, 400);
    Multiples(y);
  }

  lemma QuotientStep(y: nat, k: nat)
    requires y >= 1 && k >= 1
    ensures y / k == (y - 1) / k + if y % k == 0 then 1 else 0
  {
    var q, r := (y - 1) / k, (y - 1) % k;
    assert y == q * k + (r + 1);
    if r + 1 == k {
      assert y == (q + 1) * k;
      Quotient(y, k, q + 1, 0);
    } else {
      Quotient(y, k, q, r + 1);
    }
  }

  lemma Quotient(y: nat, k: nat, q: nat, r: nat)
    requires k >= 1 && r < k && y == q * k + r
    ensures y / k == q && y % k == r
  {
    var d := y / k - q;
    assert y == (y / k) * k + y % k;
    assert d * k == r - y % k;
    Multiple(d, k);
  }

  lemma Multiple(d: int, k: int)
    requires k >= 1
    ensures d >= 1 ==> d * k >= k
    ensures d <= -1 ==> d * k <= -k
  {
  }

  function YearFrom(days: nat, y: nat): (r: nat)
    requires y >= 1 && DaysBeforeYear(y) <= days
    ensures r >= y && DaysBeforeYear(r) <= days < DaysBeforeYear(r + 1)
    decreases days - DaysBeforeYear(y)
  {
    YearIsItsMonths(y);
    if days < DaysBeforeYear(y + 1) then y else YearFrom(days, y + 1)
  }

  function MonthFrom(y: nat, day: nat, m: nat): (r: nat)
    requires 1 <= m <= 12 && DaysBeforeMonth(y, m) <= day < DaysBeforeMonth(y, 13)
    ensures m <= r <= 12 && DaysBeforeMonth(y, r) <= day < DaysBeforeMonth(y, r + 1)
    decreases 13 - m
  {
    if day < DaysBeforeMonth(y, m + 1) then m else MonthFrom(y, day, m + 1)
  }

  datatype Civil = Civil(year: nat, month: nat, day: nat, hour: nat, minute: nat, second: nat, nanos: nat)

  predicate ValidCivil(c: Civil) {
    && 1 <= c.month <= 12 && 1 <= c.day <= DaysIn(c.year, c.month)
    && c.hour < 24 && c.minute < 60 && c.second < 60 && c.nanos < SECOND
  }

  function DayOf(c: Civil): int {
    DaysBeforeYear(c.year) + DaysBeforeMonth(c.year, c.month) + c.day - 1
  }

  function ClockSeconds(c: Civil): int {
    c.hour * 3600 + c.minute * 60 + c.second
  }

  /** The instant, negative for dates of year 0. */
  function TimeOf(c: Civil): int {
    (DayOf(c) * DAY + ClockSeconds(c)) * SECOND + c.nanos
  }

  function DateOf(days: nat): (c: Civil)
    ensures ValidCivil(c) && c.year >= 1 && DayOf(c) == days && ClockSeconds(c) == 0 && c.nanos == 0
    ensures DaysBeforeYear(c.year) <= days < DaysBeforeYear(c.year + 1)
  {
    var year := YearFrom(days, 1);
    YearIsItsMonths(year);
    var inYear: nat := days - DaysBeforeYear(year);
    var month := MonthFrom(year, inYear, 1);
    Civil(year, month, inYear - DaysBeforeMonth(year, month) + 1, 0, 0, 0, 0)
  }

  function WithClock(c: Civil, rest: nat, nanos: nat): (r: Civil)
    requires ValidCivil(c) && rest < DAY && nanos < SECOND
    ensures ValidCivil(r) && r.year == c.year && DayOf(r) == DayOf(c) && ClockSeconds(r) == rest && r.nanos == nanos
  {
    var minutes := rest / 60;
    c.(hour := minutes / 60, minute := minutes % 60, second := rest % 60, nanos := nanos)
  }

  function CivilOf(t: Time): (c: Civil)
    ensures ValidCivil(c) && c.year >= 1 && TimeOf(c) == t
    ensures DaysBeforeYear(c.year) <= t / SECOND / DAY < DaysBeforeYear(c.year + 1)
  {
    var seconds := t / SECOND;
    WithClock(DateOf(seconds / DAY), seconds % DAY, t % SECOND)
  }

  /** Times whose year has four digits, which are those that the format can express. */
  predicate FourDigitYear(t: Time) {
    t < DaysBeforeYear(10_000) * DAY * SECOND
  }

  lemma {:induction false} YearsMonotone(y: nat, z: nat)
    requires 1 <= y <= z
    ensures DaysBeforeYear(y) <= DaysBeforeYear(z)
    decreases z - y
  {
    if y < z {
      YearIsItsMonths(y);
      YearsMonotone(y + 1, z);
    }
  }

  lemma ProductLe(a: int, b: int, k: nat)
    requires a <= b
    ensures a * k <= b * k
  {
    assert b * k == a * k + (b - a) * k;
  }

  lemma QuotientBelow(t: nat, k: nat, d: int)
    requires k >= 1
    ensures t / k < d <==> t < d * k
  {
    var q, r := t / k, t % k;
    assert t == q * k + r;
    if q < d {
      ProductLe(q + 1, d, k);
      assert (q + 1) * k == q * k + k;
    } else {
      ProductLe(d, q, k);
    }
  }

  lemma FourDigitDays(t: Time)
    ensures FourDigitYear(t) <==> t / SECOND / DAY < DaysBeforeYear(10_000)
  {
    var d := DaysBeforeYear(10_000);
    QuotientBelow(t, SECOND, d * DAY);
    QuotientBelow(t / SECOND, DAY, d);
  }

  lemma FourDigitIff(t: Time)
    ensures FourDigitYear(t) <==> CivilOf(t).year < 10_000
  {
    var year := CivilOf(t).year;
    FourDigitDays(t);
    if year < 10_000 {
      YearsMonotone(year + 1, 10_000);
    } else {
      YearsMonotone(10_000, year);
    }
  }

  // ---- Digits -----------------------------------------------------------------------

  function Pow10(n: nat): nat {
    if n == 0 then 1 else 10 * Pow10(n - 1)
  }

  /** `n` with leading zeros, in `width` digits. */
  function Pad(n: nat, width: nat): (s: string)
    ensures |s| == width
  {
    if width == 0 then "" else Pad(n / 10, width - 1) + [DigitChar(n % 10)]
  }

  lemma {:induction false} NumberPad(n: nat, width: nat)
    requires n < Pow10(width)
    ensures AllDigits(Pad(n, width)) && DigitsValue(Pad(n, width)) == n
  {
    if width > 0 {
      NumberPad(n / 10, width - 1);
      DigitsValueSnoc(Pad(n / 10, width - 1), DigitChar(n % 10));
    }
  }

  /** Without trailing zeros. */
  function TrimZeros(s: string): string {
    if s != "" && s[|s| - 1] == '0' then TrimZeros(s[..|s| - 1]) else s
  }

  /** The first `width` digits of a fraction, filled up with zeros. */
  function Widen(s: string, width: nat): (r: string)
    ensures |r| == width
    decreases width - |s|, |s|
  {
    if |s| > width then s[..width]
    else if |s| == width then s
    else Widen(s + "0", width)
  }

  lemma {:induction false} WidenTrim(s: string, width: nat)
    requires |s| <= width
    ensures Widen(TrimZeros(s), width) == Widen(s, width)
  {
    if s != "" && s[|s| - 1] == '0' {
      var t := s[..|s| - 1];
      WidenTrim(t, width);
      assert t + "0" == s;
    }
  }

  lemma {:induction false} TrimDigitsOnly(s: string)
    requires AllDigits(s)
    ensures AllDigits(TrimZeros(s)) && |TrimZeros(s)| <= |s|
  {
    if s != "" && s[|s| - 1] == '0' {
      TrimDigitsOnly(s[..|s| - 1]);
    }
  }

  lemma {:induction false} TrimKeepsValue(s: string)
    requires AllDigits(s) && DigitsValue(s) > 0
    ensures TrimZeros(s) != ""
  {
    if s[|s| - 1] == '0' {
      TrimKeepsValue(s[..|s| - 1]);
    }
  }

  // ---- Text -------------------------------------------------------------------------

  function Fraction(nanos: nat): string {
    if nanos == 0 then "" else "." + TrimZeros(Pad(nanos, 9))
  }

  function Clock(c: Civil): (s: string)
    ensures |s| == 19
  {
    Pad(c.year, 4) + "-" + Pad(c.month, 2) + "-" + Pad(c.day, 2) + "T" +
    Pad(c.hour, 2) + ":" + Pad(c.minute, 2) + ":" + Pad(c.second, 2)
  }

  function CivilText(c: Civil, zone: string): string {
    Clock(c) + (Fraction(c.nanos) + zone)
  }

  function Format(t: Time): string
    requires FourDigitYear(t)
  {
    CivilText(CivilOf(t), "Z")
  }

  function ParseFraction(s: string): Option<nat> {
    if s == "" then Some(0)
    else if s[0] == '.' && |s| > 1 && AllDigits(s[1..]) then
      DigitsKept(s[1..], 9);
      Some(DigitsValue(Widen(s[1..], 9)))
    else None
  }

  lemma {:induction false} DigitsKept(s: string, width: nat)
    requires AllDigits(s)
    ensures AllDigits(Widen(s, width))
    decreases width - |s|, |s|
  {
    if |s| < width {
      DigitsKept(s + "0", width);
    }
  }

  function ParseClock(s: string, nanos: nat): Option<Civil>
    requires |s| == 19
  {
    if s[4] == '-' && s[7] == '-' && s[10] == 'T' && s[13] == ':' && s[16] == ':' &&
       AllDigits(s[..4]) && AllDigits(s[5..7]) && AllDigits(s[8..10]) &&
       AllDigits(s[11..13]) && AllDigits(s[14..16]) && AllDigits(s[17..])
    then Some(Civil(DigitsValue(s[..4]), DigitsValue(s[5..7]), DigitsValue(s[8..10]),
                    DigitsValue(s[11..13]), DigitsValue(s[14..16]), DigitsValue(s[17..]), nanos))
    else None
  }

  /** Seconds east of UTC; time.Parse lets 24 hours and 60 minutes pass. */
  function ParseZone(s: string): Option<int> {
    if s == "Z" then Some(0)
    else if |s| != 6 || (s[0] != '+' && s[0] != '-') || s[3] != ':' then None
    else if !AllDigits(s[1..3]) || !AllDigits(s[4..]) then None
    else
      var hours, minutes := DigitsValue(s[1..3]), DigitsValue(s[4..]);
      if hours > 24 || minutes > 60 then None
      else Some(if s[0] == '-' then -(hours * 3600 + minutes * 60) else hours * 3600 + minutes * 60)
  }

  /** Where the fraction of a second ends, if there is one. */
  function FractionEnd(s: string): (n: nat)
    ensures n <= |s|
  {
    if s != "" && s[0] == '.' then 1 + DigitRun(s[1..]) else 0
  }

  /** The parts after the seconds. */
  function ParseTail(s: string): Option<(nat, int)> {
    var n := FractionEnd(s);
    match ParseFraction(s[..n])
    case None => None
    case Some(nanos) =>
      (match ParseZone(s[n..])
       case None => None
       case Some(offset) => Some((nanos, offset)))
  }

  /** time.Parse; a date outside the calendar is refused. */
  function Parse(s: string): Option<int> {
    if |s| < 20 then None
    else
      match ParseTail(s[19..])
      case None => None
      case Some((nanos, offset)) =>
        (match ParseClock(s[..19], nanos)
         case None => None
         case Some(c) => if ValidCivil(c) then Some(TimeOf(c) - offset * SECOND) else None)
  }

  lemma FractionRoundTrip(nanos: nat)
    requires nanos < SECOND
    ensures ParseFraction(Fraction(nanos)) == Some(nanos)
  {
    if nanos > 0 {
      assert Pow10(9) == SECOND;
      NumberPad(nanos, 9);
      var digits := Pad(nanos, 9);
      TrimDigitsOnly(digits);
      TrimKeepsValue(digits);
      WidenTrim(digits, 9);
      assert Fraction(nanos)[1..] == TrimZeros(digits);
    }
  }

  lemma ClockLayout(y: string, mo: string, d: string, h: string, mi: string, sec: string)
    requires |y| == 4 && |mo| == 2 && |d| == 2 && |h| == 2 && |mi| == 2 && |sec| == 2
    ensures var s := y + "-" + mo + "-" + d + "T" + h + ":" + mi + ":" + sec;
            && |s| == 19 && s[..4] == y && s[5..7] == mo && s[8..10] == d
            && s[11..13] == h && s[14..16] == mi && s[17..] == sec
            && s[4] == '-' && s[7] == '-' && s[10] == 'T' && s[13] == ':' && s[16] == ':'
  {
  }

  lemma TwoDigits(n: nat)
    requires n < 100
    ensures AllDigits(Pad(n, 2)) && DigitsValue(Pad(n, 2)) == n
  {
    assert Pow10(2) == 100;
    NumberPad(n, 2);
  }

  lemma FourDigits(n: nat)
    requires n < 10_000
    ensures AllDigits(Pad(n, 4)) && DigitsValue(Pad(n, 4)) == n
  {
    assert Pow10(4) == 10_000;
    NumberPad(n, 4);
  }

  lemma ClockRoundTrip(c: Civil)
    requires ValidCivil(c) && c.year < 10_000
    ensures ParseClock(Clock(c), c.nanos) == Some(c)
  {
    FourDigits(c.year);
    TwoDigits(c.month);
    TwoDigits(c.day);
    TwoDigits(c.hour);
    TwoDigits(c.minute);
    TwoDigits(c.second);
    ClockLayout(Pad(c.year, 4), Pad(c.month, 2), Pad(c.day, 2), Pad(c.hour, 2), Pad(c.minute, 2), Pad(c.second, 2));
  }

  /** Nothing, or a point and digits. */
  predicate IsFraction(s: string) {
    s == "" || (|s| > 1 && s[0] == '.' && AllDigits(s[1..]))
  }

  lemma FractionShape(nanos: nat)
    requires nanos < SECOND
    ensures IsFraction(Fraction(nanos))
  {
    if nanos > 0 {
      assert Pow10(9) == SECOND;
      NumberPad(nanos, 9);
      TrimDigitsOnly(Pad(nanos, 9));
      TrimKeepsValue(Pad(nanos, 9));
      assert Fraction(nanos)[1..] == TrimZeros(Pad(nanos, 9));
    }
  }

  lemma ZoneHead(zone: string)
    requires ParseZone(zone).Some?
    ensures zone != "" && zone[0] != '.' && !IsDigit(zone[0])
  {
  }

  /** Hours and minutes east of UTC count forward, west backward. */
  lemma ZoneMeans(hours: nat, minutes: nat)
    requires hours <= 24 && minutes <= 60
    ensures ParseZone("+" + Pad(hours, 2) + ":" + Pad(minutes, 2)) == Some(hours * 3600 + minutes * 60)
    ensures ParseZone("-" + Pad(hours, 2) + ":" + Pad(minutes, 2)) == Some(-(hours * 3600 + minutes * 60))
  {
    TwoDigits(hours);
    TwoDigits(minutes);
    ZoneLayout("+", Pad(hours, 2), Pad(minutes, 2));
    ZoneLayout("-", Pad(hours, 2), Pad(minutes, 2));
  }

  lemma ZoneLayout(sign: string, hours: string, minutes: string)
    requires |sign| == 1 && |hours| == 2 && |minutes| == 2
    ensures var s := sign + hours + ":" + minutes;
            |s| == 6 && s[0] == sign[0] && s[1..3] == hours && s[3] == ':' && s[4..] == minutes
  {
  }

  lemma TailParts(fraction: string, zone: string, nanos: nat, offset: int)
    requires IsFraction(fraction) && ParseFraction(fraction) == Some(nanos) && ParseZone(zone) == Some(offset)
    ensures ParseTail(fraction + zone) == Some((nanos, offset))
  {
    var s := fraction + zone;
    ZoneHead(zone);
    if fraction == "" {
      assert s == zone;
    } else {
      DigitRunStops(fraction[1..], zone);
      assert s[1..] == fraction[1..] + zone;
    }
    assert FractionEnd(s) == |fraction|;
    assert s[..|fraction|] == fraction && s[|fraction|..] == zone;
  }

  lemma TextParts(clock: string, tail: string, c: Civil, nanos: nat, offset: int)
    requires |clock| == 19 && tail != "" && ParseTail(tail) == Some((nanos, offset))
    requires ParseClock(clock, nanos) == Some(c) && ValidCivil(c)
    ensures Parse(clock + tail) == Some(TimeOf(c) - offset * SECOND)
  {
    var s := clock + tail;
    assert s[..19] == clock && s[19..] == tail;
  }

  /** A calendar date with any offset reads as the instant it names. */
  lemma CivilRoundTrip(c: Civil, zone: string, offset: int)
    requires ValidCivil(c) && c.year < 10_000 && ParseZone(zone) == Some(offset)
    ensures Parse(CivilText(c, zone)) == Some(TimeOf(c) - offset * SECOND)
  {
    FractionShape(c.nanos);
    FractionRoundTrip(c.nanos);
    ZoneHead(zone);
    TailParts(Fraction(c.nanos), zone, c.nanos, offset);
    ClockRoundTrip(c);
    TextParts(Clock(c), Fraction(c.nanos) + zone, c, c.nanos, offset);
  }

  /** A cursor loses nothing of the timestamp it was made from. */
  lemma FormatRoundTrip(t: Time)
    requires FourDigitYear(t)
    ensures Parse(Format(t)) == Some(t)
  {
    FourDigitIff(t);
    CivilRoundTrip(CivilOf(t), "Z", 0);
  }
}
