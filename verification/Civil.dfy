/** Days since 1970-01-01 to a calendar date (crates/watch/src/bin/watchctl.rs), by eras of 400 years that start in
    March. */
module Civil {
  import opened Arith

  datatype Date = Date(year: nat, month: nat, day: nat)

  // ---- the calendar ----

  predicate Leap(y: nat) { y % 4 == 0 && (y % 100 != 0 || y % 400 == 0) }

  function DaysIn(y: nat, m: nat): nat {
    if m == 2 then (if Leap(y) then 29 else 28)
    else if m in {4, 6, 9, 11} then 30 else 31
  }

  function Next(d: Date): Date {
    if d.day < DaysIn(d.year, d.month) then d.(day := d.day + 1)
    else if d.month < 12 then Date(d.year, d.month + 1, 1)
    else Date(d.year + 1, 1, 1)
  }

  /** Counting forward one day at a time. */
  function CountFrom1970(days: nat): Date {
    if days == 0 then Date(1970, 1, 1) else Next(CountFrom1970(days - 1))
  }

  // ---- the era arithmetic ----

  const ERA: nat := 146_097

  /** The year of the era a day of the era falls in. */
  function YearOfEra(doe: nat): int { (doe - doe / 1460 + doe / 36524 - doe / 146096) / 365 }

  /** The day of the era a year starts on, and how a year's first day of each month is counted. */
  function YearStart(y: int): int { 365 * y + y / 4 - y / 100 }
  function MonthStart(mp: nat): nat { (153 * mp + 2) / 5 }

  function CivilDate(days: nat): Date {
    var z := days + 719_468;
    var era := z / ERA;
    var doe := z - era * ERA;
    var yoe := YearOfEra(doe);
    YearFits(doe);
    var doy := doe - YearStart(yoe);
    var mp := (5 * doy + 2) / 153;
    MonthFits(doy);
    var day := doy - MonthStart(mp) + 1;
    var month := if mp < 10 then mp + 3 else mp - 9;
    Date(yoe + era * 400 + if month <= 2 then 1 else 0, month, day)
  }

  /** The first day after year y of an era. */
  function YearEnd(y: int): int { if y == 399 then ERA else YearStart(y + 1) }

  lemma CenturyFits(b: nat, r: nat)
    requires b <= 3 && r < 36524
    ensures var y := (r - (24 * b + r) / 1460) / 365;
            0 <= y < 100 && 365 * y + y / 4 <= r && (y < 99 ==> r < 365 * (y + 1) + (y + 1) / 4)
  {
    var k, s := r / 1461, r % 1461;
    var late := if s + k + 24 * b >= 1460 then 1 else 0;
    assert (24 * b + r) / 1460 == k + late;
    var j := if s >= 1095 then 3 else s / 365;
    assert (1460 * k + s - late) / 365 == 4 * k + j;
  }

  lemma CenturyShift(b: nat, r: nat)
    requires b <= 3 && r < 36524
    ensures YearOfEra(36524 * b + r) == 100 * b + (r - (24 * b + r) / 1460) / 365
  {
    var doe := 36524 * b + r;
    assert doe / 1460 == 25 * b + (24 * b + r) / 1460;
    assert doe / 36524 == b && doe / 146096 == 0;
  }

  lemma InCentury(b: nat, y: nat)
    requires y < 100
    ensures (100 * b + y) / 4 == 25 * b + y / 4 && (100 * b + y) / 100 == b
  {
    DivisionUnique(100 * b + y, 4, 25 * b + y / 4, y % 4);
    DivisionUnique(100 * b + y, 100, b, y);
  }

  lemma YearStartInCentury(b: nat, y: nat)
    requires b <= 3 && y < 100
    ensures YearStart(100 * b + y) == 36524 * b + 365 * y + y / 4
    ensures YearEnd(100 * b + y) == if y == 99 then 36524 * (b + 1) + (if b == 3 then 1 else 0)
                                    else 36524 * b + 365 * (y + 1) + (y + 1) / 4
  {
    InCentury(b, y);
    if y < 99 { InCentury(b, y + 1); } else { InCentury(b + 1, 0); }
  }

  lemma LastDayOfEra()
    ensures YearOfEra(146_096) == 399 && YearStart(399) == 145_731 && YearEnd(399) == ERA
  {}

  /** The year found is the one whose days include this one. */
  lemma YearFits(doe: nat)
    requires doe < ERA
    ensures 0 <= YearOfEra(doe) < 400
    ensures YearStart(YearOfEra(doe)) <= doe < YearEnd(YearOfEra(doe))
  {
    var b := doe / 36524;
    if b <= 3 {
      assert 0 <= doe - 36524 * b < 36524;
      hide YearOfEra, YearStart, YearEnd;
      var r := doe - 36524 * b;
      CenturyFits(b, r);
      CenturyShift(b, r);
      YearStartInCentury(b, (r - (24 * b + r) / 1460) / 365);
    } else {
      assert doe == 146_096;
      LastDayOfEra();
    }
  }

  lemma MonthFits(doy: nat)
    requires doy < 366
    ensures var mp := (5 * doy + 2) / 153; mp < 12 && MonthStart(mp) <= doy < MonthStart(mp + 1)
  {}

  lemma QuotientSteps(w: nat, z: nat)
    requires w <= z
    ensures w / 4 <= z / 4 && z / 100 <= w / 100 + (z - w)
  {}

  lemma YearStartsRise(y: nat, z: nat)
    requires y < z
    ensures YearStart(y) + 365 <= YearStart(y + 1) <= YearStart(z)
  {
    QuotientSteps(y + 1, z);
    CenturyInStep(y);
  }

  lemma CenturyInStep(y: nat)
    ensures y / 4 <= (y + 1) / 4 && y / 100 <= (y + 1) / 100 <= y / 100 + 1
    ensures (y + 1) / 100 > y / 100 ==> (y + 1) / 4 > y / 4
  {}

  /** A day of an era lies in one year only. */
  lemma YearUnique(doe: nat, y: nat, z: nat)
    requires y < 400 && z < 400
    requires YearStart(y) <= doe < YearEnd(y) && YearStart(z) <= doe < YearEnd(z)
    ensures y == z
  {
    if y < z { YearStartsRise(y, z); }
    if z < y { YearStartsRise(z, y); }
  }

  lemma Repeats(k: nat, m: nat, y: nat)
    requires m > 0
    ensures (k * m + y) % m == y % m
  {
    assert (k + y / m) * m == k * m + (y / m) * m;
    DivisionUnique(k * m + y, m, k + y / m, y % m);
  }

  lemma LeapRepeats(era: nat, y: nat)
    ensures Leap(era * 400 + y) == Leap(y)
  {
    Repeats(era * 100, 4, y);
    Repeats(era * 4, 100, y);
    Repeats(era, 400, y);
  }

  lemma LengthInEra(yoe: nat)
    requires yoe < 400
    ensures YearEnd(yoe) - YearStart(yoe) == if Leap(yoe + 1) then 366 else 365
  {
    assert (yoe + 1) / 4 - yoe / 4 == if (yoe + 1) % 4 == 0 then 1 else 0;
    assert (yoe + 1) / 100 - yoe / 100 == if (yoe + 1) % 100 == 0 then 1 else 0;
    assert (yoe + 1) % 400 == 0 <==> yoe == 399;
  }

  /** A March year is long exactly when the February at its end is a leap year's. */
  lemma YearLength(era: nat, yoe: nat)
    requires yoe < 400
    ensures YearEnd(yoe) - YearStart(yoe) == if Leap(era * 400 + yoe + 1) then 366 else 365
  {
    LengthInEra(yoe);
    LeapRepeats(era, yoe + 1);
  }

  lemma MonthUnique(doy: nat, m: nat)
    requires doy < 366 && m < 12 && MonthStart(m) <= doy < MonthStart(m + 1)
    ensures (5 * doy + 2) / 153 == m
  {}

  /** The date of day `doy` of March year `yoe`. */
  function InYear(era: nat, yoe: nat, doy: nat): Date
    requires yoe < 400 && doy < 366
  {
    var mp := (5 * doy + 2) / 153;
    MonthFits(doy);
    var month := if mp < 10 then mp + 3 else mp - 9;
    Date(yoe + era * 400 + if month <= 2 then 1 else 0, month, doy - MonthStart(mp) + 1)
  }

  lemma EraOf(z: nat, era: nat, doe: nat)
    requires z == era * ERA + doe && doe < ERA
    ensures z / ERA == era
  {
    DivisionUnique(z, ERA, era, doe);
  }

  lemma CivilIs(days: nat, era: nat, yoe: nat, doy: nat)
    requires yoe < 400 && 0 <= YearStart(yoe) && YearEnd(yoe) <= ERA
    requires days + 719_468 == era * ERA + YearStart(yoe) + doy
    requires doy < YearEnd(yoe) - YearStart(yoe)
    ensures doy < 366 && CivilDate(days) == InYear(era, yoe, doy)
  {
    hide YearStart, YearEnd, YearOfEra, MonthStart, Leap;
    YearLength(era, yoe);
    var doe := YearStart(yoe) + doy;
    EraOf(days + 719_468, era, doe);
    YearFits(doe);
    YearUnique(doe, yoe, YearOfEra(doe));
  }

  /** Where a March year begins and ends within its era. */
  lemma YearWithin(yoe: nat)
    requires yoe < 400
    ensures 0 <= YearStart(yoe) < YearEnd(yoe) <= ERA
    ensures yoe < 399 ==> YearEnd(yoe) == YearStart(yoe + 1)
    ensures yoe == 399 ==> YearEnd(yoe) == ERA
    ensures yoe == 0 ==> YearStart(yoe) == 0
  {}

  /** Days per month, counted from March; the last, February, depends on the year. */
  lemma MonthLength(mp: nat, year: nat)
    requires mp < 12
    ensures mp < 11 ==> MonthStart(mp + 1) - MonthStart(mp) == DaysIn(year, if mp < 10 then mp + 3 else mp - 9)
    ensures mp == 11 ==> MonthStart(mp) == 337
  {}

  /** One more day of the same March year is the next date. */
  lemma NextInYear(era: nat, yoe: nat, doy: nat)
    requires yoe < 400 && doy + 1 < YearEnd(yoe) - YearStart(yoe)
    ensures doy + 1 < 366 && InYear(era, yoe, doy + 1) == Next(InYear(era, yoe, doy))
  {
    hide MonthStart, YearStart, YearEnd;
    YearLength(era, yoe);
    MonthFits(doy);
    var mp := (5 * doy + 2) / 153;
    var d := InYear(era, yoe, doy);
    MonthLength(mp, d.year);
    if doy + 1 < MonthStart(mp + 1) {
      MonthUnique(doy + 1, mp);
    } else {
      MonthStartOfNext(mp);
      MonthUnique(doy + 1, mp + 1);
    }
  }

  lemma MonthStartOfNext(mp: nat)
    ensures MonthStart(mp) < MonthStart(mp + 1) < MonthStart(mp + 2)
    ensures MonthStart(12) == 367
  {}

  /** The day after the last of a March year is March 1. */
  lemma NextYear(era: nat, yoe: nat, doy: nat)
    requires yoe < 400 && doy + 1 == YearEnd(yoe) - YearStart(yoe)
    ensures doy < 366
    ensures Next(InYear(era, yoe, doy)) == if yoe < 399 then InYear(era, yoe + 1, 0) else InYear(era + 1, 0, 0)
  {
    YearLength(era, yoe);
    MonthUnique(doy, 11);
  }

  lemma NextDate(days: nat)
    ensures CivilDate(days + 1) == Next(CivilDate(days))
  {
    hide CivilDate, Next, InYear, YearStart, YearEnd, YearOfEra;
    var z := days + 719_468;
    var era, doe := z / ERA, z % ERA;
    assert z == era * ERA + doe;
    YearFits(doe);
    var yoe := YearOfEra(doe);
    YearWithin(yoe);
    var doy := doe - YearStart(yoe);
    CivilIs(days, era, yoe, doy);
    if doe + 1 < YearEnd(yoe) {
      NextInYear(era, yoe, doy);
      CivilIs(days + 1, era, yoe, doy + 1);
    } else {
      NextYear(era, yoe, doy);
      if yoe < 399 {
        YearWithin(yoe + 1);
        CivilIs(days + 1, era, yoe + 1, 0);
      } else {
        YearWithin(0);
        assert (era + 1) * ERA == era * ERA + ERA;
        CivilIs(days + 1, era + 1, 0, 0);
      }
    }
  }

  lemma Epoch()
    ensures CivilDate(0) == Date(1970, 1, 1)
  {
    assert YearStart(369) == 134_774 && YearEnd(369) == 135_139;
    CivilIs(0, 4, 369, 306);
    MonthUnique(306, 10);
  }

  /** The era arithmetic agrees with counting days on the calendar, for every day since 1970-01-01. */
  lemma {:induction false} CivilIsCounting(days: nat)
    ensures CivilDate(days) == CountFrom1970(days)
  {
    hide CivilDate, Next;
    if days == 0 {
      Epoch();
    } else {
      CivilIsCounting(days - 1);
      NextDate(days - 1);
    }
  }

  function Key(d: Date): nat { (d.year * 13 + d.month) * 32 + d.day }

  predicate Plausible(d: Date) { 1 <= d.month <= 12 && 1 <= d.day <= 31 }

  lemma NextRises(d: Date)
    requires Plausible(d)
    ensures Plausible(Next(d)) && Key(d) < Key(Next(d))
  {}

  lemma {:induction false} CountingRises(a: nat, b: nat)
    requires a <= b
    ensures Plausible(CountFrom1970(b))
    ensures a < b ==> Key(CountFrom1970(a)) < Key(CountFrom1970(b))
    decreases b
  {
    hide Next, Key;
    if b > 0 {
      CountingRises(if a < b then a else b - 1, b - 1);
      NextRises(CountFrom1970(b - 1));
    }
  }

  /** Two days with the same date are the same day. */
  lemma DateDeterminesDay(a: nat, b: nat)
    requires CivilDate(a) == CivilDate(b)
    ensures a == b
  {
    CivilIsCounting(a);
    CivilIsCounting(b);
    if a < b { CountingRises(a, b); }
    if b < a { CountingRises(b, a); }
  }
}
