/**
 * Months and their days: apps/accountant-web/src/lib/note-spese-date.ts and the month filter
 * of apps/accountant-api/src/note-spese/note-spese.service.ts, on the date arithmetic of
 * section 21.4.1 of ECMA-262. Dates are in UTC, and counted in days from 1 January 1970.
 */
module Calendar {
  import opened Prelude
  import opened Codes

  // ---------------------------------------------------------------------------
  // Days, months and years
  // ---------------------------------------------------------------------------

  predicate Leap(y: int) {
    y % 4 == 0 && (y % 100 != 0 || y % 400 == 0)
  }

  /** The days of month m, January being 0. */
  function DaysIn(y: int, m: int): int {
    if m == 1 then (if Leap(y) then 29 else 28) else if m == 3 || m == 5 || m == 8 || m == 10 then 30 else 31
  }

  /** Months counted on one line, from January of year 0. */
  const EPOCH := 12 * 1970

  function MonthLength(t: int): (n: int)
    ensures 28 <= n <= 31
  {
    DaysIn(t / 12, t % 12)
  }

  /** The first day of month t, a month at a time. */
  function FirstDay(t: int): int
    decreases if t > EPOCH then t - EPOCH else EPOCH - t
  {
    if t == EPOCH then 0
    else if t > EPOCH then FirstDay(t - 1) + MonthLength(t - 1)
    else FirstDay(t + 1) - MonthLength(t)
  }

  /** MakeDay: months outside the year carry over, and days outside the month too. */
  function MakeDay(y: int, m: int, d: int): int {
    FirstDay(12 * y + m) + d - 1
  }

  lemma MonthHasItsDays(t: int)
    ensures FirstDay(t + 1) == FirstDay(t) + MonthLength(t)
  {
    if t >= EPOCH {
      assert FirstDay(t + 1) == FirstDay(t + 1 - 1) + MonthLength(t + 1 - 1);
    }
  }

  lemma {:induction false} MonthsGrow(t: int, u: int)
    requires t <= u
    ensures FirstDay(t) + 28 * (u - t) <= FirstDay(u) <= FirstDay(t) + 31 * (u - t)
    decreases u - t
  {
    if t < u {
      MonthHasItsDays(u - 1);
      MonthsGrow(t, u - 1);
    }
  }

  /** The month, from t on, that has the day. */
  function MonthFrom(day: int, t: int): (r: int)
    requires FirstDay(t) <= day
    ensures FirstDay(r) <= day < FirstDay(r + 1)
    decreases day - FirstDay(t)
  {
    MonthHasItsDays(t);
    if day < FirstDay(t + 1) then t else MonthFrom(day, t + 1)
  }

  function MonthIndex(day: int): (t: int)
    ensures FirstDay(t) <= day < FirstDay(t + 1)
  {
    if day >= 0 then MonthFrom(day, EPOCH)
    else
      MonthsGrow(EPOCH + day, EPOCH);
      MonthFrom(day, EPOCH + day)
  }

  function YearOf(day: int): int {
    MonthIndex(day) / 12
  }

  function MonthOf(day: int): nat {
    MonthIndex(day) % 12
  }

  function DateOf(day: int): int {
    day - FirstDay(MonthIndex(day)) + 1
  }

  function WeekDay(day: int): int {
    (day + 4) % 7
  }

  /** The months tile the days: a day is between the first days of its month and of the next. */
  lemma DayIsInItsMonth(day: int, t: int)
    ensures FirstDay(t) <= day < FirstDay(t + 1) <==> MonthIndex(day) == t
  {
    var u := MonthIndex(day);
    if u < t { MonthsGrow(u + 1, t); }
    if t < u { MonthsGrow(t + 1, u); }
  }

  /** Year, month and date of a day are the ones it was made from. */
  lemma DateRoundTrip(t: int, day: int)
    requires FirstDay(t) <= day < FirstDay(t + 1)
    ensures YearOf(day) == t / 12 && MonthOf(day) == t % 12 && DateOf(day) == day - FirstDay(t) + 1
  {
    DayIsInItsMonth(day, t);
  }

  // ---------------------------------------------------------------------------
  // The formulas of the standard
  // ---------------------------------------------------------------------------

  /** Section 21.4.1.3: the day number of the first day of year y. */
  function DayFromYear(y: int): int {
    365 * (y - 1970) + (y - 1969) / 4 - (y - 1901) / 100 + (y - 1601) / 400
  }

  /** The days of the year before month m. */
  function MonthStart(y: int, m: nat): int {
    if m == 0 then 0 else MonthStart(y, m - 1) + DaysIn(y, m - 1)
  }

  lemma DaysOfTheYear(y: int)
    ensures MonthStart(y, 12) == if Leap(y) then 366 else 365
  {
    assert MonthStart(y, 1) == 31;
    assert MonthStart(y, 2) == if Leap(y) then 60 else 59;
    assert MonthStart(y, 3) == MonthStart(y, 2) + 31;
    assert MonthStart(y, 4) == MonthStart(y, 3) + 30;
    assert MonthStart(y, 5) == MonthStart(y, 4) + 31;
    assert MonthStart(y, 6) == MonthStart(y, 5) + 30;
    assert MonthStart(y, 7) == MonthStart(y, 6) + 31;
    assert MonthStart(y, 8) == MonthStart(y, 7) + 31;
    assert MonthStart(y, 9) == MonthStart(y, 8) + 30;
    assert MonthStart(y, 10) == MonthStart(y, 9) + 31;
    assert MonthStart(y, 11) == MonthStart(y, 10) + 30;
    assert MonthStart(y, 12) == MonthStart(y, 11) + 31;
  }

  lemma Fourths(y: int)
    ensures (y - 1968) / 4 == (y - 1969) / 4 + if y % 4 == 0 then 1 else 0
  {
  }

  lemma Hundredths(y: int)
    ensures (y - 1900) / 100 == (y - 1901) / 100 + if y % 100 == 0 then 1 else 0
  {
  }

  lemma FourHundredths(y: int)
    ensures (y - 1600) / 400 == (y - 1601) / 400 + if y % 400 == 0 then 1 else 0
  {
  }

  lemma Multiples(y: int)
    ensures y % 400 == 0 ==> y % 100 == 0
    ensures y % 100 == 0 ==> y % 4 == 0
  {
  }

  lemma YearLength(y: int)
    ensures DayFromYear(y + 1) == DayFromYear(y) + if Leap(y) then 366 else 365
  {
    Fourths(y);
    Hundredths(y);
    FourHundredths(y);
    Multiples(y);
  }

  lemma {:induction false} MonthsOfAYear(y: int, m: nat)
    requires m <= 12
    ensures FirstDay(12 * y + m) == FirstDay(12 * y) + MonthStart(y, m)
  {
    if m > 0 {
      MonthsOfAYear(y, m - 1);
      MonthHasItsDays(12 * y + m - 1);
      assert (12 * y + m - 1) / 12 == y && (12 * y + m - 1) % 12 == m - 1;
    }
  }

  lemma NextYear(y: int)
    ensures FirstDay(12 * (y + 1)) - FirstDay(12 * y) == DayFromYear(y + 1) - DayFromYear(y)
  {
    MonthsOfAYear(y, 12);
    DaysOfTheYear(y);
    YearLength(y);
  }

  lemma {:induction false} YearsAgree(y: int)
    ensures FirstDay(12 * y) == DayFromYear(y)
    decreases if y > 1970 then y - 1970 else 1970 - y
  {
    if y > 1970 {
      NextYear(y - 1);
      YearsAgree(y - 1);
    } else if y < 1970 {
      NextYear(y);
      YearsAgree(y + 1);
    }
  }

  /** MakeDay is the one of section 21.4.1.28. */
  lemma MakeDayIsStandard(y: int, m: int, d: int)
    ensures MakeDay(y, m, d) == DayFromYear(y + m / 12) + MonthStart(y + m / 12, m % 12) + d - 1
  {
    var ym, mn := y + m / 12, m % 12;
    assert 12 * ym + mn == 12 * y + m;
    YearsAgree(ym);
    MonthsOfAYear(ym, mn);
  }

  /** The year of a day is the last one to have begun. */
  lemma YearBounds(day: int)
    ensures DayFromYear(YearOf(day)) <= day < DayFromYear(YearOf(day) + 1)
  {
    var t := MonthIndex(day);
    var y := t / 12;
    assert 12 * y <= t < t + 1 <= 12 * (y + 1);
    MonthsGrow(12 * y, t);
    MonthsGrow(t + 1, 12 * (y + 1));
    YearsAgree(y);
    YearsAgree(y + 1);
  }

  // ---------------------------------------------------------------------------
  // Date.UTC and the strings of months
  // ---------------------------------------------------------------------------

  /** Date.UTC takes a year from 0 to 99 for one of the twentieth century. */
  function FullYear(y: int): int {
    if 0 <= y <= 99 then 1900 + y else y
  }

  const MAX_DAY := 100_000_000

  /** Date.UTC(y, m, d); None: out of the range of dates, an invalid date. */
  function Utc(y: int, m: int, d: int): Option<int> {
    var day := MakeDay(FullYear(y), m, d);
    if -MAX_DAY <= day <= MAX_DAY then Some(day) else None
  }

  /** YYYY-MM, as the filter's regular expression has it: the month may be any two digits. */
  predicate IsMese(s: string) {
    |s| == 7 && AllDigits(s[..4]) && s[4] == '-' && AllDigits(s[5..])
  }

  /** Its place on the line of months. */
  function Place(s: string): int
    requires IsMese(s)
  {
    12 * FullYear(Value(s[..4])) + Value(s[5..]) - 1
  }

  /** String(n). */
  function Decimal(n: int): string {
    if n < 0 then "-" + Digits(-n) else Digits(n)
  }

  /** A month, as a template literal writes it: the year is not padded. */
  function MeseOf(y: int, m: int): string
    requires 0 <= m < 12
  {
    Decimal(y) + "-" + PadStart(Digits(m + 1), 2)
  }

  function ShiftMese(s: string, delta: int): string
    requires IsMese(s)
  {
    var d := Utc(Value(s[..4]), Value(s[5..]) - 1 + delta, 1);
    if d.None? then "NaN-NaN" else MeseOf(YearOf(d.value), MonthOf(d.value))
  }

  /** Years of four digits. */
  predicate FourDigits(t: int) {
    1000 * 12 <= t < 10000 * 12
  }

  /** Dates between the years 99 and 10000 are well within the range. */
  lemma NearDates(t: int)
    requires 1000 <= t <= 130_000
    ensures -MAX_DAY <= FirstDay(t) <= MAX_DAY
  {
    if t >= EPOCH { MonthsGrow(EPOCH, t); } else { MonthsGrow(t, EPOCH); }
  }

  /** shiftMese depends on its arguments only through the place they lead to. */
  lemma ShiftByPlace(s: string, delta: int)
    requires IsMese(s)
    ensures
      var t := Place(s) + delta;
      ShiftMese(s, delta) == if -MAX_DAY <= FirstDay(t) <= MAX_DAY then MeseOf(t / 12, t % 12) else "NaN-NaN"
  {
    UtcLands(Value(s[..4]), Value(s[5..]) - 1 + delta);
    assert 12 * FullYear(Value(s[..4])) + (Value(s[5..]) - 1 + delta) == Place(s) + delta;
  }

  lemma UtcLands(y: int, m: int)
    ensures
      var t := 12 * FullYear(y) + m;
      && Utc(y, m, 1) == (if -MAX_DAY <= FirstDay(t) <= MAX_DAY then Some(FirstDay(t)) else None)
      && YearOf(FirstDay(t)) == t / 12 && MonthOf(FirstDay(t)) == t % 12
  {
    Landing(12 * FullYear(y) + m);
  }

  lemma Landing(t: int)
    ensures YearOf(FirstDay(t)) == t / 12 && MonthOf(FirstDay(t)) == t % 12
  {
    MonthHasItsDays(t);
    DateRoundTrip(t, FirstDay(t));
  }

  lemma MeseOfIsMese(y: int, m: int)
    requires 0 <= m < 12
    ensures IsMese(MeseOf(y, m)) <==> 1000 <= y <= 9999
    ensures IsMese(MeseOf(y, m)) ==> Place(MeseOf(y, m)) == 12 * y + m
  {
    DigitsLength(m + 1);
    var s, month := MeseOf(y, m), PadStart(Digits(m + 1), 2);
    assert |month| == 2;
    if y < 0 {
      assert s[0] == '-';
      assert |s| == 7 ==> s[..4][0] == '-' && !IsDigit('-');
    } else {
      DigitsLength(y);
      assert |s| == |Digits(y)| + 3;
      if |s| == 7 {
        assert s[..4] == Digits(y) && s[5..] == month && s[4] == '-';
        ValueOfDigits(y);
        PaddedRoundTrip(m + 1, 2);
      }
    }
  }

  /** The result is a month again exactly when its year has four digits. */
  lemma ShiftStaysMese(s: string, delta: int)
    requires IsMese(s)
    ensures IsMese(ShiftMese(s, delta)) <==> FourDigits(Place(s) + delta)
    ensures IsMese(ShiftMese(s, delta)) ==> Place(ShiftMese(s, delta)) == Place(s) + delta
  {
    var t := Place(s) + delta;
    ShiftByPlace(s, delta);
    if FourDigits(t) { NearDates(t); }
    MeseOfIsMese(t / 12, t % 12);
    assert !IsDigit("NaN-NaN"[..4][0]);
  }

  /** Two ways to the same place. */
  lemma SamePlaceSameMonth(s: string, a: int, u: string, b: int)
    requires IsMese(s) && IsMese(u) && Place(s) + a == Place(u) + b
    ensures ShiftMese(s, a) == ShiftMese(u, b)
  {
    ShiftByPlace(s, a);
    ShiftByPlace(u, b);
  }

  /** Shifting is additive, wherever the second step leads, as long as the first gave a month. */
  lemma ShiftAdds(s: string, a: int, b: int)
    requires IsMese(s) && FourDigits(Place(s) + a)
    ensures IsMese(ShiftMese(s, a)) && ShiftMese(ShiftMese(s, a), b) == ShiftMese(s, a + b)
  {
    ShiftStaysMese(s, a);
    SamePlaceSameMonth(ShiftMese(s, a), b, s, a + b);
  }

  /** A month written as the calendar writes it: a year from 1000 on, a month from 01 to 12. */
  predicate Canonical(s: string) {
    IsMese(s) && 1000 <= Value(s[..4]) && 1 <= Value(s[5..]) <= 12
  }

  lemma {:induction false} DigitsOfValue(s: string)
    requires AllDigits(s) && s != "" && s[0] != '0'
    ensures Value(s) >= 1 && Digits(Value(s)) == s
  {
    if |s| == 1 {
      assert s[..0] == "";
      assert s == [s[0]];
    } else {
      var rest := s[..|s| - 1];
      DigitsOfValue(rest);
      assert Value(s) / 10 == Value(rest);
      assert s == rest + [s[|s| - 1]];
    }
  }

  lemma TwoDigitMonth(s: string)
    requires |s| == 2 && AllDigits(s) && 1 <= Value(s) <= 12
    ensures PadStart(Digits(Value(s)), 2) == s
  {
    assert s[..1] == [s[0]] && [s[0]][..0] == "";
    assert Value(s) == 10 * (s[0] as int - '0' as int) + (s[1] as int - '0' as int);
    if s[0] == '0' {
      assert Digits(Value(s)) == [s[1]];
      assert "0" + [s[1]] == s;
    } else {
      DigitsOfValue(s);
    }
  }

  lemma ValueBound(s: string)
    requires AllDigits(s) && |s| == 4 && s[0] == '0'
    ensures Value(s) < 1000
  {
    assert s == "0" + s[1..];
    LeadingZero(s[1..]);
    ValueSmall(s[1..]);
  }

  lemma CanonicalIsWritten(s: string)
    requires Canonical(s)
    ensures FourDigits(Place(s)) && MeseOf(Place(s) / 12, Place(s) % 12) == s
  {
    var y, m := Value(s[..4]), Value(s[5..]);
    if s[0] == '0' { ValueBound(s[..4]); }
    DigitsOfValue(s[..4]);
    ValueSmall(s[..4]);
    TwoDigitMonth(s[5..]);
    assert Place(s) / 12 == y && Place(s) % 12 == m - 1;
    assert s == s[..4] + "-" + s[5..];
  }

  lemma WrittenIsCanonical(y: int, m: int)
    requires 0 <= m < 12 && IsMese(MeseOf(y, m))
    ensures Canonical(MeseOf(y, m))
  {
    MeseOfIsMese(y, m);
    DigitsLength(y);
    var s := MeseOf(y, m);
    assert s[..4] == Digits(y) && s[5..] == PadStart(Digits(m + 1), 2);
    ValueOfDigits(y);
    PaddedRoundTrip(m + 1, 2);
  }

  /** Shifting by nothing gives back exactly the months written as the calendar writes them. */
  lemma ShiftByNothing(s: string)
    requires IsMese(s)
    ensures ShiftMese(s, 0) == s <==> Canonical(s)
  {
    var t := Place(s);
    ShiftByPlace(s, 0);
    if Canonical(s) {
      CanonicalIsWritten(s);
      NearDates(t);
    }
    if ShiftMese(s, 0) == s {
      assert s[0] != 'N' by { assert IsDigit(s[..4][0]); }
      WrittenIsCanonical(t / 12, t % 12);
    }
  }

  /** There and back again. */
  lemma ShiftBack(s: string, a: int)
    requires Canonical(s) && FourDigits(Place(s) + a)
    ensures IsMese(ShiftMese(s, a)) && ShiftMese(ShiftMese(s, a), -a) == s
  {
    var m := ShiftMese(s, a);
    assert IsMese(m) && Place(m) == Place(s) + a by { ShiftStaysMese(s, a); }
    assert ShiftMese(s, 0) == s by { ShiftByNothing(s); }
    assert ShiftMese(m, -a) == ShiftMese(s, 0) by { SamePlaceSameMonth(m, -a, s, 0); }
  }

  // ---------------------------------------------------------------------------
  // The month filter
  // ---------------------------------------------------------------------------

  /** meseWhere: the days from gte on and before lt; a string that is no month filters nothing. */
  predicate InMese(s: string, day: int) {
    IsMese(s) ==>
      var gte, lt := Utc(Value(s[..4]), Value(s[5..]) - 1, 1), Utc(Value(s[..4]), Value(s[5..]), 1);
      gte.Some? && lt.Some? && gte.value <= day < lt.value
  }

  lemma MeseIsInRange(s: string)
    requires IsMese(s)
    ensures Utc(Value(s[..4]), Value(s[5..]) - 1, 1) == Some(FirstDay(Place(s)))
    ensures Utc(Value(s[..4]), Value(s[5..]), 1) == Some(FirstDay(Place(s) + 1))
  {
    ValueSmall(s[..4]);
    ValueSmall(s[5..]);
    NearDates(Place(s));
    NearDates(Place(s) + 1);
  }

  lemma ValueSmall(s: string)
    requires AllDigits(s) && 1 <= |s| <= 4
    ensures Value(s) <= (if |s| == 1 then 9 else if |s| == 2 then 99 else if |s| == 3 then 999 else 9999)
  {
    var rest := s[..|s| - 1];
    if rest == "" {
      assert Value(rest) == 0;
    } else {
      ValueSmall(rest);
    }
    assert Value(s) == 10 * Value(rest) + (s[|s| - 1] as int - '0' as int);
  }

  /**
   * The filter lets through exactly the days of the month, so months never share a day or miss
   * one; and every day when the string is no month.
   */
  lemma FilterIsTheMonth(s: string, day: int)
    ensures InMese(s, day) <==> !IsMese(s) || MonthIndex(day) == Place(s)
  {
    if IsMese(s) {
      MeseIsInRange(s);
      DayIsInItsMonth(day, Place(s));
    }
  }

  lemma BoundsMeet(s: string, next: string)
    requires IsMese(s) && IsMese(next) && Place(next) == Place(s) + 1
    ensures Utc(Value(s[..4]), Value(s[5..]), 1) == Utc(Value(next[..4]), Value(next[5..]) - 1, 1)
  {
    MeseIsInRange(s);
    MeseIsInRange(next);
  }

  /** A month from 01 to 12 written for a year of up to four digits. */
  function Written(y: nat, m: nat): string {
    PadStart(Digits(y), 4) + "-" + PadStart(Digits(m + 1), 2)
  }

  lemma WrittenIsMese(y: nat, m: nat)
    requires y <= 9999 && m < 12
    ensures IsMese(Written(y, m)) && Value(Written(y, m)[..4]) == y && Value(Written(y, m)[5..]) == m + 1
  {
    DigitsLength(y);
    DigitsLength(m + 1);
    PaddedRoundTrip(y, 4);
    PaddedRoundTrip(m + 1, 2);
    var s := Written(y, m);
    assert s[..4] == PadStart(Digits(y), 4) && s[5..] == PadStart(Digits(m + 1), 2);
  }

  /** A day has a month whose filter lets it through exactly when its year goes from 100 to 9999. */
  lemma EveryDayHasItsMonth(day: int)
    ensures (exists s :: IsMese(s) && 1 <= Value(s[5..]) <= 12 && InMese(s, day)) <==> 100 <= YearOf(day) <= 9999
  {
    if 100 <= YearOf(day) <= 9999 {
      var s := Written(YearOf(day), MonthOf(day));
      WrittenIsMese(YearOf(day), MonthOf(day));
      FilterIsTheMonth(s, day);
      assert Place(s) == MonthIndex(day);
    }
    if s :| IsMese(s) && 1 <= Value(s[5..]) <= 12 && InMese(s, day) {
      FilterIsTheMonth(s, day);
      ValueSmall(s[..4]);
      assert 100 <= FullYear(Value(s[..4])) <= 9999;
    }
  }

  /** One month's interval ends where the next one's begins. */
  lemma FiltersTile(s: string)
    requires IsMese(s) && FourDigits(Place(s) + 1)
    ensures
      var next := ShiftMese(s, 1);
      IsMese(next) && Utc(Value(s[..4]), Value(s[5..]), 1) == Utc(Value(next[..4]), Value(next[5..]) - 1, 1)
  {
    ShiftStaysMese(s, 1);
    BoundsMeet(s, ShiftMese(s, 1));
  }

  // ---------------------------------------------------------------------------
  // The grid of the calendar
  // ---------------------------------------------------------------------------

  /** Day 0 of the next month is the last of this one. */
  function GiorniDelMese(anno: int, mese: int): Option<int> {
    var d := Utc(anno, mese, 0);
    if d.Some? then Some(DateOf(d.value)) else None
  }

  /** Monday first. */
  function OffsetPrimoGiorno(anno: int, mese: int): Option<int> {
    var d := Utc(anno, mese - 1, 1);
    if d.Some? then Some((WeekDay(d.value) + 6) % 7) else None
  }

  lemma GiorniAre(anno: int, mese: int)
    ensures
      var t := 12 * FullYear(anno) + mese - 1;
      GiorniDelMese(anno, mese).Some? ==> GiorniDelMese(anno, mese).value == FirstDay(t + 1) - FirstDay(t)
  {
    var t := 12 * FullYear(anno) + mese - 1;
    MonthHasItsDays(t);
    DateRoundTrip(t, FirstDay(t + 1) - 1);
  }

  /**
   * The offset is the number of days from the last Monday to the first of the month. Day 4,
   * 5 January 1970, was a Monday.
   */
  lemma OffsetIsSinceMonday(anno: int, mese: int)
    requires OffsetPrimoGiorno(anno, mese).Some?
    ensures
      var offset := OffsetPrimoGiorno(anno, mese).value;
      0 <= offset < 7 && (FirstDay(12 * FullYear(anno) + mese - 1) - offset - 4) % 7 == 0
  {
    var d := Utc(anno, mese - 1, 1).value;
    Cell(d);
    assert d == FirstDay(12 * FullYear(anno) + (mese - 1));
  }

  /** The first cell of the next month follows from this month's grid. */
  lemma OffsetsFollow(anno: int, mese: int)
    requires OffsetPrimoGiorno(anno, mese).Some? && OffsetPrimoGiorno(anno, mese + 1).Some?
    ensures GiorniDelMese(anno, mese).Some?
    ensures OffsetPrimoGiorno(anno, mese + 1).value ==
      (OffsetPrimoGiorno(anno, mese).value + GiorniDelMese(anno, mese).value) % 7
  {
    var t := 12 * FullYear(anno) + mese - 1;
    MonthHasItsDays(t);
    GiorniAre(anno, mese);
    OffsetSum(FirstDay(t), MonthLength(t));
  }

  lemma OffsetSum(a: int, n: int)
    ensures (WeekDay(a + n) + 6) % 7 == ((WeekDay(a) + 6) % 7 + n) % 7
  {
    assert (WeekDay(a) + 6) % 7 == (a + 3) % 7;
    assert (WeekDay(a + n) + 6) % 7 == (a + n + 3) % 7;
  }

  /** The first days of the years around which Date.UTC changes century. */
  lemma CenturyTurns(y: int)
    ensures y == 0 ==> FirstDay(12 * y) == -719528
    ensures y == 1900 ==> FirstDay(12 * y) == -25567
    ensures y == 100 ==> FirstDay(12 * y) == -683003
    ensures y == 2000 ==> FirstDay(12 * y) == 10957
  {
    YearsAgree(y);
  }

  lemma Cell(day: int)
    ensures (WeekDay(day) + 6) % 7 == (day + 3) % 7
  {
  }

  lemma FirstCell(anno: int, mese: int, y: int)
    requires OffsetPrimoGiorno(anno, mese).Some? && 12 * FullYear(anno) + mese - 1 == 12 * y
    ensures OffsetPrimoGiorno(anno, mese).value == (FirstDay(12 * y) + 3) % 7
  {
    var d := Utc(anno, mese - 1, 1).value;
    assert 12 * FullYear(anno) + (mese - 1) == 12 * y;
    assert d == FirstDay(12 * y);
    Cell(d);
  }

  /** Over the end of a year, the same, except where Date.UTC changes century. */
  lemma OffsetsFollowOverYears(anno: int)
    requires OffsetPrimoGiorno(anno, 12).Some? && OffsetPrimoGiorno(anno + 1, 1).Some? &&
      OffsetPrimoGiorno(anno, 13).Some?
    ensures
      (OffsetPrimoGiorno(anno + 1, 1).value == (OffsetPrimoGiorno(anno, 12).value + GiorniDelMese(anno, 12).value) % 7)
      <==> anno != -1 && anno != 99
  {
    var next := OffsetPrimoGiorno(anno, 13);
    assert next.value == (OffsetPrimoGiorno(anno, 12).value + GiorniDelMese(anno, 12).value) % 7 by {
      OffsetsFollow(anno, 12);
    }
    assert OffsetPrimoGiorno(anno + 1, 1) == next <==> anno != -1 && anno != 99 by { OffsetsAcross(anno); }
  }

  lemma OffsetsAcross(anno: int)
    requires OffsetPrimoGiorno(anno + 1, 1).Some? && OffsetPrimoGiorno(anno, 13).Some?
    ensures OffsetPrimoGiorno(anno + 1, 1) == OffsetPrimoGiorno(anno, 13) <==> anno != -1 && anno != 99
  {
    var y, z := FullYear(anno) + 1, FullYear(anno + 1);
    FirstCell(anno, 13, y);
    FirstCell(anno + 1, 1, z);
    if anno == -1 || anno == 99 {
      CellsOfTheTurns(y);
      CellsOfTheTurns(z);
    } else {
      assert y == z;
    }
  }

  lemma CellsOfTheTurns(y: int)
    ensures y == 0 ==> (FirstDay(12 * y) + 3) % 7 == 5
    ensures y == 1900 ==> (FirstDay(12 * y) + 3) % 7 == 0
    ensures y == 100 ==> (FirstDay(12 * y) + 3) % 7 == 4
    ensures y == 2000 ==> (FirstDay(12 * y) + 3) % 7 == 5
  {
    CenturyTurns(y);
  }
}
