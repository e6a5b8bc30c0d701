/** Civil dates from Unix time, against the Gregorian calendar counted day by day. */
module CivilDate {
  import opened Bytes

  datatype Date = Date(year: int, month: int, day: int)

  /** The arithmetic of `date`: Euclidean divisions throughout. */
  function FromSeconds(seconds: int): Date {
    FromDays(seconds / 86_400)
  }

  function FromDays(days: int): Date {
    var z := days + 719_468;
    var era := z / 146_097;
    AtEra(era, z - era * 146_097)
  }

  /** The date of day `doe` of the 400-year cycle `era`. */
  function AtEra(era: int, doe: int): Date {
    var yoe := (doe - doe / 1460 + doe / 36_524 - doe / 146_096) / 365;
    var doy := doe - (365 * yoe + yoe / 4 - yoe / 100);
    var mp := (5 * doy + 2) / 153;
    var day := doy - (153 * mp + 2) / 5 + 1;
    var month := if mp < 10 then mp + 3 else mp - 9;
    var year := yoe + era * 400 + (if month <= 2 then 1 else 0);
    Date(year, month, day)
  }

  // The calendar (RFC 3339 section 5.7 and Appendix C) ---------------------------

  predicate Leap(year: int) {
    year % 4 == 0 && (year % 100 != 0 || year % 400 == 0)
  }

  function YearLength(year: int): int {
    if Leap(year) then 366 else 365
  }

  function MonthLength(year: int, month: int): int {
    if month == 2 then (if Leap(year) then 29 else 28)
    else if month == 4 || month == 6 || month == 9 || month == 11 then 30
    else 31
  }

  predicate Valid(d: Date) {
    1 <= d.month <= 12 && 1 <= d.day <= MonthLength(d.year, d.month)
  }

  /** Days from 1970-01-01 to the first of January of `year`, one year at a time. */
  function DaysToYear(year: int): int
    decreases if year >= 1970 then year - 1970 else 1970 - year
  {
    if year == 1970 then 0
    else if year > 1970 then DaysToYear(year - 1) + YearLength(year - 1)
    else DaysToYear(year + 1) - YearLength(year)
  }

  /** Days of `year` before `month`, one month at a time. */
  function DaysToMonth(year: int, month: int): int
    decreases month
  {
    if month <= 1 then 0 else DaysToMonth(year, month - 1) + MonthLength(year, month - 1)
  }

  /** Days from 1970-01-01 to a date. */
  function DayCount(d: Date): int {
    DaysToYear(d.year) + DaysToMonth(d.year, d.month) + d.day - 1
  }

  /** The calendar day after a date. */
  function NextDay(d: Date): Date {
    if d.day < MonthLength(d.year, d.month) then d.(day := d.day + 1)
    else if d.month < 12 then Date(d.year, d.month + 1, 1)
    else Date(d.year + 1, 1, 1)
  }

  // Closed form of the year count --------------------------------------------------

  /** Leap days in the years up to and including `year`, counted from year 0. */
  function Leaps(year: int): int {
    year / 4 - year / 100 + year / 400
  }

  lemma OneMoreYear(year: int)
    ensures Leaps(year) == Leaps(year - 1) + (if Leap(year) then 1 else 0)
  {
    QuotientStep(year, 4);
    QuotientStep(year, 100);
    QuotientStep(year, 400);
    Multiples(year);
  }

  lemma QuotientStep(n: int, d: int)
    requires d == 4 || d == 100 || d == 400
    ensures n / d == (n - 1) / d + (if n % d == 0 then 1 else 0)
  {
  }

  lemma Multiples(n: int)
    ensures n % 400 == 0 ==> n % 100 == 0
    ensures n % 100 == 0 ==> n % 4 == 0
  {
  }

  lemma {:induction false} YearClosedForm(year: int)
    ensures DaysToYear(year) == 365 * (year - 1970) + Leaps(year - 1) - Leaps(1969)
    decreases if year >= 1970 then year - 1970 else 1970 - year
  {
    hide Leaps, Leap;
    if year > 1970 {
      YearClosedForm(year - 1);
      OneMoreYear(year - 1);
    } else if year < 1970 {
      YearClosedForm(year + 1);
      OneMoreYear(year);
    }
  }

  // The 400-year cycle, starting in March --------------------------------------------

  /** Position of a day within a 400-year cycle: century, four-year group, year, day. */
  datatype Position = Position(century: int, group: int, year: int, day: int) {
    predicate Sound() {
      && 0 <= century <= 3 && 0 <= group <= 24 && 0 <= year <= 3 && 0 <= day <= 365
      && (day == 365 ==> year == 3 && (group == 24 ==> century == 3))
    }

    function DayOfEra(): int {
      36_524 * century + 1461 * group + 365 * year + day
    }

    function YearOfEra(): int {
      100 * century + 4 * group + year
    }
  }

  function Locate(doe: int): (p: Position)
    requires 0 <= doe < 146_097
    ensures p.Sound() && p.DayOfEra() == doe
  {
    var century := if doe == 146_096 then 3 else doe / 36_524;
    var u := doe - 36_524 * century;
    var group := u / 1461;
    var v := u - 1461 * group;
    var year := if v == 1460 then 3 else v / 365;
    Position(century, group, year, v - 365 * year)
  }

  /** The year formula of the source finds the year of the cycle. */
  lemma YearOfEra(p: Position)
    requires p.Sound()
    ensures var doe := p.DayOfEra();
            (doe - doe / 1460 + doe / 36_524 - doe / 146_096) / 365 == p.YearOfEra()
  {
    var doe := p.DayOfEra();
    var last := p.century == 3 && p.group == 24 && p.year == 3 && p.day == 365;
    var u := 1461 * p.group + 365 * p.year + p.day;
    assert 0 <= u <= 36_524 && (u == 36_524 <==> p.group == 24 && p.year == 3 && p.day == 365);
    assert doe / 36_524 == if last then 4 else p.century by {
      if !last {
        assert doe == 36_524 * p.century + u && u < 36_524;
      }
    }
    assert doe / 146_096 == if last then 1 else 0;
    var w := 24 * p.century + p.group + 365 * p.year + p.day;
    assert doe == 1460 * (25 * p.century + p.group) + w;
    assert 0 <= w < 2920;
    var e := w / 1460;
    assert doe / 1460 == 25 * p.century + p.group + e;
    assert 0 <= p.day - e < 365;
  }

  lemma DaysOfEra(p: Position)
    requires p.Sound()
    ensures var yoe := p.YearOfEra();
            365 * yoe + yoe / 4 - yoe / 100 == p.DayOfEra() - p.day && 0 <= yoe < 400
  {
    var yoe := p.YearOfEra();
    assert yoe / 100 == p.century;
    assert yoe / 4 == 25 * p.century + p.group;
  }

  /** The month formula of the source, for a year starting in March. */
  function MarchMonth(doy: int): int {
    (5 * doy + 2) / 153
  }

  function MarchStart(mp: int): int {
    (153 * mp + 2) / 5
  }

  lemma MonthOfYear(doy: int)
    requires 0 <= doy <= 365
    ensures 0 <= MarchMonth(doy) <= 11
    ensures MarchStart(MarchMonth(doy)) <= doy
    ensures MarchMonth(doy) < 11 ==> doy < MarchStart(MarchMonth(doy) + 1)
  {
  }

  /** Days before each month, from March on, agree with the calendar. */
  lemma MonthStarts(marchYear: int, mp: int)
    requires 0 <= mp <= 11
    ensures mp < 10 ==>
              DaysToMonth(marchYear, mp + 3) == DaysToMonth(marchYear, 3) + MarchStart(mp)
              && MarchStart(mp + 1) - MarchStart(mp) == MonthLength(marchYear, mp + 3)
    ensures mp == 10 ==>
              YearLength(marchYear) + DaysToMonth(marchYear + 1, 1) == DaysToMonth(marchYear, 3) + MarchStart(10)
              && MarchStart(11) - MarchStart(10) == MonthLength(marchYear + 1, 1)
    ensures mp == 11 ==>
              YearLength(marchYear) + DaysToMonth(marchYear + 1, 2) == DaysToMonth(marchYear, 3) + MarchStart(11)
    ensures DaysToMonth(marchYear, 3) == 59 + (if Leap(marchYear) then 1 else 0)
  {
    hide Leap;
    var y := marchYear;
    assert DaysToMonth(y, 2) == 31 && DaysToMonth(y + 1, 2) == 31;
    assert DaysToMonth(y, 4) == DaysToMonth(y, 3) + 31;
    assert DaysToMonth(y, 5) == DaysToMonth(y, 4) + 30;
    assert DaysToMonth(y, 6) == DaysToMonth(y, 5) + 31;
    assert DaysToMonth(y, 7) == DaysToMonth(y, 6) + 30;
    assert DaysToMonth(y, 8) == DaysToMonth(y, 7) + 31;
    assert DaysToMonth(y, 9) == DaysToMonth(y, 8) + 31;
    assert DaysToMonth(y, 10) == DaysToMonth(y, 9) + 30;
    assert DaysToMonth(y, 11) == DaysToMonth(y, 10) + 31;
    assert DaysToMonth(y, 12) == DaysToMonth(y, 11) + 30;
  }

  /** The first of March of `400 * era + yoe`, counted from 1970-01-01. */
  lemma MarchFirst(era: int, yoe: int)
    requires 0 <= yoe < 400
    ensures var y := 400 * era + yoe;
            DaysToYear(y) + DaysToMonth(y, 3) == 146_097 * era + 365 * yoe + yoe / 4 - yoe / 100 - 719_468
  {
    var y := 400 * era + yoe;
    YearClosedForm(y);
    MonthStarts(y, 0);
    OneMoreYear(y);
    assert y / 400 == era;
    assert y / 100 == 4 * era + yoe / 100;
    assert y / 4 == 100 * era + yoe / 4;
    assert Leaps(1969) == 477;
  }

  /** A leap February ends every cycle year whose last day is numbered 365. */
  lemma LeapAtEnd(era: int, p: Position)
    requires p.Sound() && p.day == 365
    ensures Leap(400 * era + p.YearOfEra() + 1)
  {
    var y := 400 * era + p.YearOfEra() + 1;
    assert y == 4 * (100 * era + 25 * p.century + p.group + 1);
    if p.group == 24 {
      assert y == 400 * (era + 1);
    } else {
      assert y == 100 * (4 * era + p.century) + 4 * (p.group + 1) && 0 < 4 * (p.group + 1) < 100;
    }
  }

  /** The date at a day `doy` of the March year `y`. */
  function AtMarchDay(y: int, doy: int): Date {
    var mp := MarchMonth(doy);
    var month := if mp < 10 then mp + 3 else mp - 9;
    Date(if month <= 2 then y + 1 else y, month, doy - MarchStart(mp) + 1)
  }

  lemma MarchDay(y: int, doy: int)
    requires 0 <= doy <= 365 && (doy == 365 ==> Leap(y + 1))
    ensures Valid(AtMarchDay(y, doy))
    ensures DayCount(AtMarchDay(y, doy)) == DaysToYear(y) + DaysToMonth(y, 3) + doy
  {
    hide Leap, DaysToYear, DaysToMonth, MarchStart, MarchMonth;
    MonthOfYear(doy);
    MonthStarts(y, MarchMonth(doy));
    NextYear(y);
    assert MarchStart(11) == 337 by { LastStart(); }
  }

  lemma LastStart()
    ensures MarchStart(11) == 337
  {
  }

  lemma EraDate(era: int, p: Position)
    requires p.Sound()
    ensures AtEra(era, p.DayOfEra()) == AtMarchDay(400 * era + p.YearOfEra(), p.day)
  {
    YearOfEra(p);
    DaysOfEra(p);
  }

  /** The position of a day in its cycle gives the date the source computes. */
  lemma SourceDate(days: int) returns (era: int, p: Position)
    ensures p.Sound() && 146_097 * era + p.DayOfEra() == days + 719_468
    ensures FromDays(days) == AtMarchDay(400 * era + p.YearOfEra(), p.day)
  {
    hide AtEra, AtMarchDay;
    var z := days + 719_468;
    era := z / 146_097;
    p := Locate(z - era * 146_097);
    EraDate(era, p);
  }

  lemma PositionCount(era: int, p: Position)
    requires p.Sound()
    ensures var d := AtMarchDay(400 * era + p.YearOfEra(), p.day);
            Valid(d) && DayCount(d) == 146_097 * era + p.DayOfEra() - 719_468
  {
    hide AtMarchDay, DayCount, Valid, DaysToYear, DaysToMonth, Leap;
    DaysOfEra(p);
    if p.day == 365 {
      LeapAtEnd(era, p);
    }
    MarchDay(400 * era + p.YearOfEra(), p.day);
    MarchFirst(era, p.YearOfEra());
  }

  /** For every day number, `date` gives a valid date whose day count is that number. */
  lemma FromDaysInverts(days: int)
    ensures Valid(FromDays(days)) && DayCount(FromDays(days)) == days
  {
    hide FromDays, AtMarchDay, DayCount, Valid;
    var era, p := SourceDate(days);
    PositionCount(era, p);
  }

  lemma NextYear(y: int)
    ensures DaysToYear(y + 1) == DaysToYear(y) + YearLength(y)
  {
  }

  /** The date of an instant: valid, and its day count is the number of whole days. */
  lemma DateIsInverse(seconds: int)
    ensures Valid(FromSeconds(seconds))
    ensures DayCount(FromSeconds(seconds)) * 86_400 <= seconds < (DayCount(FromSeconds(seconds)) + 1) * 86_400
  {
    FromDaysInverts(seconds / 86_400);
  }

  // Uniqueness: the day count determines the date ---------------------------------------

  lemma {:induction false} MonthsInYear(year: int, month: int)
    requires 1 <= month <= 12
    ensures DaysToMonth(year, month) >= 0
    ensures DaysToMonth(year, month) + MonthLength(year, month) <= YearLength(year)
    decreases 12 - month
  {
    hide Leap;
    assert DaysToMonth(year, 2) == 31;
    assert DaysToMonth(year, 3) == 31 + MonthLength(year, 2);
    assert DaysToMonth(year, 4) == DaysToMonth(year, 3) + 31;
    assert DaysToMonth(year, 5) == DaysToMonth(year, 4) + 30;
    assert DaysToMonth(year, 6) == DaysToMonth(year, 5) + 31;
    assert DaysToMonth(year, 7) == DaysToMonth(year, 6) + 30;
    assert DaysToMonth(year, 8) == DaysToMonth(year, 7) + 31;
    assert DaysToMonth(year, 9) == DaysToMonth(year, 8) + 31;
    assert DaysToMonth(year, 10) == DaysToMonth(year, 9) + 30;
    assert DaysToMonth(year, 11) == DaysToMonth(year, 10) + 31;
    assert DaysToMonth(year, 12) == DaysToMonth(year, 11) + 30;
  }

  /** The next calendar day is counted one higher. */
  lemma NextDayCount(d: Date)
    requires Valid(d)
    ensures Valid(NextDay(d)) && DayCount(NextDay(d)) == DayCount(d) + 1
  {
    hide Leap, DaysToYear;
    if d.day == MonthLength(d.year, d.month) {
      if d.month == 12 {
        DecemberEnds(d.year);
        NextYear(d.year);
      }
    }
  }

  lemma DecemberEnds(year: int)
    ensures DaysToMonth(year, 12) + 31 == YearLength(year)
  {
    MonthStarts(year, 9);
  }

  lemma {:induction false} YearsGrow(a: int, b: int)
    requires a < b
    ensures DaysToYear(a) + YearLength(a) <= DaysToYear(b)
    decreases b - a
  {
    hide Leap;
    NextYear(b - 1);
    if a < b - 1 {
      YearsGrow(a, b - 1);
    }
  }

  lemma {:induction false} MonthsGrow(year: int, a: int, b: int)
    requires 1 <= a < b <= 12
    ensures DaysToMonth(year, a) + MonthLength(year, a) <= DaysToMonth(year, b)
    decreases b - a
  {
    hide Leap;
    if a < b - 1 {
      MonthsGrow(year, a, b - 1);
    }
  }

  /** Two valid dates with the same count are the same date. */
  lemma CountIsInjective(a: Date, b: Date)
    requires Valid(a) && Valid(b) && DayCount(a) == DayCount(b)
    ensures a == b
  {
    hide Leap, DaysToYear, DaysToMonth, MonthLength, YearLength;
    MonthsInYear(a.year, a.month);
    MonthsInYear(b.year, b.month);
    if a.year < b.year {
      YearsGrow(a.year, b.year);
    } else if b.year < a.year {
      YearsGrow(b.year, a.year);
    } else if a.month < b.month {
      MonthsGrow(a.year, a.month, b.month);
    } else if b.month < a.month {
      MonthsGrow(a.year, b.month, a.month);
    }
  }

  /** Consecutive days give consecutive dates. */
  lemma Consecutive(days: int)
    ensures FromDays(days + 1) == NextDay(FromDays(days))
  {
    hide FromDays, NextDay, DayCount, Valid;
    FromDaysInverts(days);
    FromDaysInverts(days + 1);
    NextDayCount(FromDays(days));
    CountIsInjective(FromDays(days + 1), NextDay(FromDays(days)));
  }

  /** Every valid date is the date of exactly its day count. */
  lemma EveryDateIsReached(d: Date)
    requires Valid(d)
    ensures FromDays(DayCount(d)) == d
  {
    FromDaysInverts(DayCount(d));
    hide FromDays;
    CountIsInjective(FromDays(DayCount(d)), d);
  }

  // The printed form -----------------------------------------------------------------------

  const DASH: byte := 45
  const ZERO: byte := 48

  function Zeros(n: int): (text: seq<byte>)
    ensures AllDigits(text) && |text| == if n > 0 then n else 0
  {
    if n <= 0 then [] else [ZERO] + Zeros(n - 1)
  }

  /** `{:0width}`: zeros go between the sign and the digits. */
  function Padded(n: int, width: nat): seq<byte> {
    if n >= 0 then Zeros(width - |Decimal(n)|) + Decimal(n)
    else [DASH] + Zeros(width - 1 - |Decimal(-n)|) + Decimal(-n)
  }

  /** `{year:04}-{month:02}-{day:02}`. */
  function Text(d: Date): seq<byte> {
    Padded(d.year, 4) + [DASH] + Padded(d.month, 2) + [DASH] + Padded(d.day, 2)
  }

  function Signed(text: seq<byte>): Option<int> {
    if text != [] && text[0] == DASH then
      if AllDigits(text[1..]) then Some(0 - DecimalValue(text[1..])) else None
    else if AllDigits(text) then Some(DecimalValue(text)) else None
  }

  /** Read a printed date from the right: two digits, two digits, and the year before them. */
  function Read(text: seq<byte>): Option<Date> {
    if |text| < 6 then None
    else
      var n := |text|;
      match (Signed(text[..n - 6]), Signed(text[n - 5..n - 3]), Signed(text[n - 2..]))
      case (Some(y), Some(m), Some(d)) => Some(Date(y, m, d))
      case _ => None
  }

  lemma {:induction false} ZerosDoNotCount(n: int, digits: seq<byte>)
    requires AllDigits(digits)
    ensures AllDigits(Zeros(n) + digits) && DecimalValue(Zeros(n) + digits) == DecimalValue(digits)
    decreases n, |digits|
  {
    var all := Zeros(n) + digits;
    if digits == [] {
      if n > 0 {
        ZerosDoNotCount(n - 1, []);
        ZerosEnd(n);
        assert Zeros(n - 1) + [] == Zeros(n - 1) && all == Zeros(n - 1) + [ZERO];
        assert all[..|all| - 1] == Zeros(n - 1);
      }
    } else {
      ZerosDoNotCount(n, digits[..|digits| - 1]);
      assert all[..|all| - 1] == Zeros(n) + digits[..|digits| - 1];
    }
  }

  lemma {:induction false} ZerosEnd(n: int)
    requires n > 0
    ensures Zeros(n) == Zeros(n - 1) + [ZERO]
  {
    if n > 1 {
      ZerosEnd(n - 1);
    }
  }

  lemma PaddedReads(n: int, width: nat)
    ensures Signed(Padded(n, width)) == Some(n)
  {
    hide Decimal, Zeros, DecimalValue;
    var digits := Decimal(if n >= 0 then n else -n);
    var zeros := if n >= 0 then width - |digits| else width - 1 - |digits|;
    ZerosDoNotCount(zeros, digits);
    var text := Padded(n, width);
    if n >= 0 {
      assert text == Zeros(zeros) + digits;
      assert IsDigit(text[0]);
    } else {
      assert text[1..] == Zeros(zeros) + digits;
    }
  }

  lemma TwoDigits(n: nat)
    requires n < 100
    ensures |Padded(n, 2)| == 2
  {
    assert Pow10(2) == 100;
    hide Zeros, Decimal;
    DecimalLength(n, 2);
  }

  /** The printed form reads back, so different days print differently. */
  lemma TextReadsBack(d: Date)
    requires Valid(d)
    ensures Read(Text(d)) == Some(d)
  {
    hide Padded, Signed;
    PaddedReads(d.year, 4);
    PaddedReads(d.month, 2);
    PaddedReads(d.day, 2);
    TwoDigits(d.month);
    TwoDigits(d.day);
    var text := Text(d);
    var n := |text|;
    assert text[..n - 6] == Padded(d.year, 4);
    assert text[n - 5..n - 3] == Padded(d.month, 2);
    assert text[n - 2..] == Padded(d.day, 2);
  }
}
