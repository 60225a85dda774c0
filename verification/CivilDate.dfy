/** The calendar date of a day number, for the media directory layout. */
module CivilDate {
  datatype Date = Date(year: int, month: int, day: int)

  /** Rust's integer division, which truncates toward zero. */
  function Quotient(a: int, b: int): int
    requires b > 0
  {
    if a >= 0 then a / b else -(-a / b)
  }

  const ERA_DAYS: int := 146_097

  // ---------------------------------------------------------------- the calendar

  predicate Leap(year: int) { year % 4 == 0 && (year % 100 != 0 || year % 400 == 0) }

  function DaysIn(year: int, month: int): int
  {
    if month == 2 then (if Leap(year) then 29 else 28)
    else if month in {4, 6, 9, 11} then 30 else 31
  }

  predicate IsDate(d: Date) { 1 <= d.month <= 12 && 1 <= d.day <= DaysIn(d.year, d.month) }

  /** The next day of the proleptic Gregorian calendar. */
  function NextDay(d: Date): Date
  {
    if d.day < DaysIn(d.year, d.month) then d.(day := d.day + 1)
    else if d.month < 12 then Date(d.year, d.month + 1, 1)
    else Date(d.year + 1, 1, 1)
  }

  // ---------------------------------------------------------------- the conversion

  /** Year of a 400-year era that starts on March 1, from the day of the era. */
  function YearOfEra(doe: int): int
  {
    Quotient(doe - Quotient(doe, 1_460) + Quotient(doe, 36_524) - Quotient(doe, 146_096), 365)
  }

  /** Days of the era before a March-based year. */
  function YearStart(yoe: int): int { 365 * yoe + Quotient(yoe, 4) - Quotient(yoe, 100) }

  /** Days of the year before a March-based month. */
  function MonthStart(mp: int): int { Quotient(153 * mp + 2, 5) }

  function Assemble(year: int, doy: int): Date
  {
    var mp := Quotient(5 * doy + 2, 153);
    var month := if mp < 10 then mp + 3 else mp - 9;
    Date(if month <= 2 then year + 1 else year, month, doy - MonthStart(mp) + 1)
  }

  function CivilFromDays(days: int): Date
  {
    var z := days + 719_468;
    var era := Quotient(if z >= 0 then z else z - 146_096, ERA_DAYS);
    var doe := z - era * ERA_DAYS;
    var yoe := YearOfEra(doe);
    Assemble(yoe + era * 400, doe - YearStart(yoe))
  }

  // ---------------------------------------------------------------- the day of the era

  /** A March-based year has 366 days when the February in it is a leap one. */
  function YearLength(year: int): int { if Leap(year + 1) then 366 else 365 }

  /** The era as centuries, four-year groups, and days of a group. */
  lemma {:induction false} Decompose(doe: int) returns (c: int, q: int, s: int, j: int)
    requires 0 <= doe < ERA_DAYS
    ensures 0 <= c <= 3 && 0 <= q <= 24 && 0 <= s <= 1_460 && doe == 36_524 * c + 1_461 * q + s
    ensures q == 24 && s == 1_460 ==> c == 3
    ensures j == (if s / 365 < 3 then s / 365 else 3)
  {
    c := if doe == 146_096 then 3 else doe / 36_524;
    var r := doe - 36_524 * c;
    q := r / 1_461;
    s := r - 1_461 * q;
    j := if s / 365 < 3 then s / 365 else 3;
  }

  lemma {:induction false} GroupsOf(doe: int, c: int, q: int, s: int, e: int)
    requires 0 <= c <= 3 && 0 <= q <= 24 && 0 <= s <= 1_460 && doe == 36_524 * c + 1_461 * q + s
    requires e == if 24 * c + q + s >= 1_460 then 1 else 0
    ensures doe / 1_460 == 25 * c + q + e
  {
    assert doe == 1_460 * (25 * c + q + e) + (24 * c + q + s - 1_460 * e);
  }

  lemma {:induction false} CenturiesOf(doe: int, c: int, q: int, s: int)
    requires 0 <= c <= 3 && 0 <= q <= 24 && 0 <= s <= 1_460 && doe == 36_524 * c + 1_461 * q + s < ERA_DAYS
    requires q == 24 && s == 1_460 ==> c == 3
    ensures doe / 36_524 - doe / 146_096 == c
  {
  }

  lemma {:induction false} YearOfEraIs(doe: int, c: int, q: int, s: int, j: int)
    requires 0 <= doe < ERA_DAYS
    requires 0 <= c <= 3 && 0 <= q <= 24 && 0 <= s <= 1_460 && doe == 36_524 * c + 1_461 * q + s
    requires q == 24 && s == 1_460 ==> c == 3
    requires j == (if s / 365 < 3 then s / 365 else 3)
    ensures YearOfEra(doe) == 100 * c + 4 * q + j
    ensures YearStart(YearOfEra(doe)) == doe - (s - 365 * j)
  {
    var e := if 24 * c + q + s >= 1_460 then 1 else 0;
    GroupsOf(doe, c, q, s, e);
    CenturiesOf(doe, c, q, s);
    assert doe - doe / 1_460 + doe / 36_524 - doe / 146_096 == 365 * (100 * c + 4 * q) + (s - e);
    assert (s - e) / 365 == j;
    var yoe := 100 * c + 4 * q + j;
    assert yoe / 4 == 25 * c + q && yoe / 100 == c;
  }

  lemma {:induction false} LongYear(c: int, q: int)
    requires 0 <= c <= 3 && 0 <= q <= 24 && (q == 24 ==> c == 3)
    ensures Leap(100 * c + 4 * q + 4)
  {
    assert (100 * c + 4 * q + 4) % 4 == 0;
    if q < 24 { assert (100 * c + 4 * q + 4) % 100 == 4 * q + 4; }
  }

  /** Every day of the era lies in the year the formula names. */
  lemma {:induction false} YearOfEraBounds(doe: int)
    requires 0 <= doe < ERA_DAYS
    ensures var yoe := YearOfEra(doe);
            0 <= yoe <= 399 && YearStart(yoe) <= doe < YearStart(yoe) + YearLength(yoe)
  {
    var c, q, s, j := Decompose(doe);
    YearOfEraIs(doe, c, q, s, j);
    hide YearOfEra, YearStart, Quotient;
    if s == 1_460 {
      LongYear(c, q);
    } else {
      assert s - 365 * j <= 364;
    }
    hide Leap;
  }

  lemma {:induction false} YearsAbut(yoe: int)
    requires 0 <= yoe <= 399
    ensures YearStart(yoe) + YearLength(yoe) == if yoe < 399 then YearStart(yoe + 1) else ERA_DAYS
  {
  }

  lemma {:induction false} YearEnds(yoe: int)
    requires 0 <= yoe <= 399
    ensures YearStart(yoe) + YearLength(yoe) <= ERA_DAYS && YearStart(0) == 0
    ensures yoe < 399 ==> YearStart(yoe) + YearLength(yoe) < ERA_DAYS
  {
  }

  lemma {:induction false} YearsOrdered(a: int, b: int)
    requires 0 <= a < b <= 399
    ensures YearStart(a) + YearLength(a) <= YearStart(b)
    decreases b - a
  {
    YearsAbut(a);
    if a + 1 < b {
      YearsOrdered(a + 1, b);
      hide YearStart, YearLength;
      assert YearStart(a + 1) + YearLength(a + 1) <= YearStart(b);
      LengthIsPositive(a + 1);
    }
  }

  lemma {:induction false} LengthIsPositive(yoe: int)
    ensures 365 <= YearLength(yoe) <= 366
  {
  }

  /** No other year holds the day. */
  lemma {:induction false} YearIsUnique(doe: int, yoe: int)
    requires 0 <= doe < ERA_DAYS && 0 <= yoe <= 399 && YearStart(yoe) <= doe < YearStart(yoe) + YearLength(yoe)
    ensures YearOfEra(doe) == yoe
  {
    var other := YearOfEra(doe);
    YearOfEraBounds(doe);
    if other < yoe { YearsOrdered(other, yoe); } else if yoe < other { YearsOrdered(yoe, other); }
  }

  // ---------------------------------------------------------------- the day of the year

  lemma {:induction false} MonthOf(doy: int)
    requires 0 <= doy <= 365
    ensures var mp := Quotient(5 * doy + 2, 153);
            0 <= mp <= 11 && MonthStart(mp) <= doy < MonthStart(mp + 1)
  {
  }

  /** March-based month lengths, February taking what the year leaves it. */
  lemma {:induction false} MonthLength(year: int, mp: int)
    requires 0 <= mp <= 11
    ensures var month := if mp < 10 then mp + 3 else mp - 9;
            var calendar := if month <= 2 then year + 1 else year;
            DaysIn(calendar, month) == if mp < 11 then MonthStart(mp + 1) - MonthStart(mp) else (if Leap(year + 1) then 29 else 28)
  {
  }

  lemma {:induction false} MonthIsUnique(doy: int, mp: int)
    requires 0 <= doy <= 365 && 0 <= mp <= 11 && MonthStart(mp) <= doy < MonthStart(mp + 1)
    ensures Quotient(5 * doy + 2, 153) == mp
  {
  }

  lemma {:induction false} AssembledIsDate(year: int, doy: int)
    requires 0 <= doy < YearLength(year)
    ensures IsDate(Assemble(year, doy))
  {
    var mp := Quotient(5 * doy + 2, 153);
    MonthOf(doy);
    MonthLength(year, mp);
  }

  /** Within a March-based year the next day is the next date. */
  lemma {:induction false} NextInYear(year: int, doy: int)
    requires 0 <= doy && doy + 1 < YearLength(year)
    ensures Assemble(year, doy + 1) == NextDay(Assemble(year, doy))
  {
    var mp := Quotient(5 * doy + 2, 153);
    MonthOf(doy);
    MonthOf(doy + 1);
    MonthLength(year, mp);
    if doy + 1 < MonthStart(mp + 1) {
      MonthIsUnique(doy + 1, mp);
    } else {
      assert mp < 11;
      MonthIsUnique(doy + 1, mp + 1);
    }
  }

  /** The last day of February is followed by the first of March. */
  lemma {:induction false} NextYear(year: int)
    ensures Assemble(year + 1, 0) == NextDay(Assemble(year, YearLength(year) - 1))
  {
    var doy := YearLength(year) - 1;
    assert MonthStart(11) == 337 && MonthStart(12) == 367;
    MonthIsUnique(doy, 11);
    MonthLength(year, 11);
  }

  // ---------------------------------------------------------------- all eras

  lemma {:induction false} EraIs(z: int)
    ensures Quotient(if z >= 0 then z else z - 146_096, ERA_DAYS) == z / ERA_DAYS
    ensures z - z / ERA_DAYS * ERA_DAYS == z % ERA_DAYS && 0 <= z % ERA_DAYS < ERA_DAYS
  {
    var q, r := z / ERA_DAYS, z % ERA_DAYS;
    assert z == q * ERA_DAYS + r;
    if z < 0 {
      assert -(z - 146_096) == -q * ERA_DAYS + (146_096 - r);
    }
  }

  lemma {:induction false} EraLeap(yoe: int, era: int)
    ensures Leap(yoe + 400 * era) <==> Leap(yoe)
  {
    var y := yoe + 400 * era;
    OfFour(y, yoe / 4 + 100 * era, yoe % 4);
    OfHundred(y, yoe / 100 + 4 * era, yoe % 100);
    OfFourHundred(y, yoe / 400 + era, yoe % 400);
  }

  lemma {:induction false} OfFour(y: int, q: int, r: int)
    requires y == 4 * q + r && 0 <= r < 4
    ensures y % 4 == r
  {
  }

  lemma {:induction false} OfHundred(y: int, q: int, r: int)
    requires y == 100 * q + r && 0 <= r < 100
    ensures y % 100 == r
  {
  }

  lemma {:induction false} OfFourHundred(y: int, q: int, r: int)
    requires y == 400 * q + r && 0 <= r < 400
    ensures y % 400 == r
  {
  }

  ghost function Era(days: int): int { (days + 719_468) / ERA_DAYS }

  ghost function DayOfEra(days: int): int { (days + 719_468) % ERA_DAYS }

  lemma {:induction false} Located(days: int)
    ensures var era, doe := Era(days), DayOfEra(days);
            var yoe := YearOfEra(doe);
            && 0 <= doe < ERA_DAYS && 0 <= yoe <= 399
            && 0 <= doe - YearStart(yoe) < YearLength(yoe + 400 * era)
            && CivilFromDays(days) == Assemble(yoe + 400 * era, doe - YearStart(yoe))
  {
    EraIs(days + 719_468);
    hide Quotient, Assemble, YearOfEra, YearStart, Leap;
    YearOfEraBounds(DayOfEra(days));
    EraLeap(YearOfEra(DayOfEra(days)) + 1, Era(days));
  }

  /** Every day number is a real date. */
  lemma {:induction false} AlwaysADate(days: int)
    ensures IsDate(CivilFromDays(days))
  {
    hide Quotient, Assemble, YearOfEra, YearStart, CivilFromDays, Era, DayOfEra, IsDate, YearLength;
    Located(days);
    var yoe := YearOfEra(DayOfEra(days));
    AssembledIsDate(yoe + 400 * Era(days), DayOfEra(days) - YearStart(yoe));
  }

  lemma {:induction false} EraStep(days: int)
    ensures if DayOfEra(days) + 1 < ERA_DAYS then Era(days + 1) == Era(days) && DayOfEra(days + 1) == DayOfEra(days) + 1
            else Era(days + 1) == Era(days) + 1 && DayOfEra(days + 1) == 0
  {
  }

  /** The day after day n is day n + 1, in every era. */
  lemma {:induction false} Successor(days: int)
    ensures CivilFromDays(days + 1) == NextDay(CivilFromDays(days))
  {
    hide Quotient, Assemble, YearOfEra, YearStart, CivilFromDays, Era, DayOfEra, NextDay, Leap;
    var era, doe := Era(days), DayOfEra(days);
    var yoe := YearOfEra(doe);
    var year := yoe + 400 * era;
    Located(days);
    Located(days + 1);
    EraStep(days);
    YearsAbut(yoe);
    YearEnds(yoe);
    YearOfEraBounds(doe);
    EraLeap(yoe + 1, era);
    if doe + 1 < YearStart(yoe) + YearLength(yoe) {
      YearIsUnique(doe + 1, yoe);
      NextInYear(year, doe - YearStart(yoe));
    } else {
      NextYear(year);
      if yoe < 399 {
        LengthIsPositive(yoe + 1);
        YearIsUnique(doe + 1, yoe + 1);
      } else {
        LengthIsPositive(0);
        YearIsUnique(0, 0);
      }
    }
  }

  lemma {:induction false} Epoch()
    ensures CivilFromDays(0) == Date(1970, 1, 1)
  {
    assert YearOfEra(135_080) == 369 && YearStart(369) == 134_774;
  }

  /** Days counted one at a time from the epoch. */
  function CountForward(n: nat): Date
  {
    if n == 0 then Date(1970, 1, 1) else NextDay(CountForward(n - 1))
  }

  /** The closed form is the simple day count. */
  lemma {:induction false} ClosedFormCounts(n: nat)
    ensures CivilFromDays(n) == CountForward(n)
  {
    hide CivilFromDays, NextDay;
    if n == 0 { Epoch(); } else { ClosedFormCounts(n - 1); Successor(n - 1); }
  }

  /** Before the epoch, counting n days forward from day -n reaches it. */
  function CountFrom(d: Date, n: nat): Date
    decreases n
  {
    if n == 0 then d else CountFrom(NextDay(d), n - 1)
  }

  lemma {:induction false} EarlierDaysReachTheEpoch(n: nat)
    ensures CountFrom(CivilFromDays(0 - n), n) == Date(1970, 1, 1)
  {
    hide CivilFromDays, NextDay;
    if n == 0 { Epoch(); } else { EarlierDaysReachTheEpoch(n - 1); Successor(0 - n); }
  }
}
