/**
 * The holiday list and the "next 07:00 start" search that the Heroku
 * server (mepiform-heroku-server.js) and the scheduler (mepiform-scheduler.js)
 * both carry, word for word. The list holds ISO date texts and a day is a
 * holiday when its ISO date is one of them; the listed texts are shown to be
 * exactly the ISO dates of twelve day numbers, which is what bounds the
 * search.
 */
module Holidays {
  import opened Text
  import opened Calendar

  /** The skipped dates as the scripts write them. */
  const HolidayList: seq<string> := [
    "2024-01-01", "2024-01-06", "2024-03-29", "2024-04-01",
    "2024-05-01", "2024-05-09", "2024-06-06", "2024-06-21",
    "2024-12-24", "2024-12-25", "2024-12-26", "2024-12-31"
  ]

  /** The day numbers of the listed dates, in the same order. */
  const HolidayDays: seq<nat> := [
    19723, 19728, 19811, 19814, 19844, 19852, 19880, 19895, 20081, 20082, 20083, 20088
  ]

  /** `isHoliday(date)` as written: the ISO date of the day is one of the listed texts. */
  predicate IsListedDate(day: nat)
  {
    IsoDate(day) in HolidayList
  }

  /** The same test on day numbers (shown equal to it by `IsHolidayIffListed`). */
  predicate IsHoliday(day: nat)
  {
    day in HolidayDays
  }

  /** A weekday that is not a listed holiday. */
  predicate IsWorkDay(day: nat)
  {
    !IsWeekend(day) && !IsHoliday(day)
  }

  /** The listed dates as civil dates, in the same order. */
  const HolidayDates: seq<Date> := [
    Date(2024, 1, 1), Date(2024, 1, 6), Date(2024, 3, 29), Date(2024, 4, 1),
    Date(2024, 5, 1), Date(2024, 5, 9), Date(2024, 6, 6), Date(2024, 6, 21),
    Date(2024, 12, 24), Date(2024, 12, 25), Date(2024, 12, 26), Date(2024, 12, 31)
  ]

  lemma YearText()
    ensures Pad(2024, 4) == "2024"
  {
  }

  // Each listed day number falls on its listed date, which is written as its listed text.

  lemma NewYearsDayDate()
    ensures CivilFromDays(19723) == Date(2024, 1, 1)
  { ToCivilParts(19723, 5, 8706, 23, 306, 10); }

  lemma NewYearsDayText()
    ensures DateText(Date(2024, 1, 1)) == "2024-01-01"
  { YearText(); TwoDigitPad(1); assert Pad(1, 2) == "01"; }

  lemma EpiphanyDate()
    ensures CivilFromDays(19728) == Date(2024, 1, 6)
  { ToCivilParts(19728, 5, 8711, 23, 311, 10); }

  lemma EpiphanyText()
    ensures DateText(Date(2024, 1, 6)) == "2024-01-06"
  { YearText(); TwoDigitPad(1); TwoDigitPad(6); assert Pad(1, 2) == "01" && Pad(6, 2) == "06"; }

  lemma GoodFridayDate()
    ensures CivilFromDays(19811) == Date(2024, 3, 29)
  { ToCivilParts(19811, 5, 8794, 24, 28, 0); }

  lemma GoodFridayText()
    ensures DateText(Date(2024, 3, 29)) == "2024-03-29"
  { YearText(); TwoDigitPad(3); TwoDigitPad(29); assert Pad(3, 2) == "03" && Pad(29, 2) == "29"; }

  lemma EasterMondayDate()
    ensures CivilFromDays(19814) == Date(2024, 4, 1)
  { ToCivilParts(19814, 5, 8797, 24, 31, 1); }

  lemma EasterMondayText()
    ensures DateText(Date(2024, 4, 1)) == "2024-04-01"
  { YearText(); TwoDigitPad(4); TwoDigitPad(1); assert Pad(4, 2) == "04" && Pad(1, 2) == "01"; }

  lemma MayDayDate()
    ensures CivilFromDays(19844) == Date(2024, 5, 1)
  { ToCivilParts(19844, 5, 8827, 24, 61, 2); }

  lemma MayDayText()
    ensures DateText(Date(2024, 5, 1)) == "2024-05-01"
  { YearText(); TwoDigitPad(5); TwoDigitPad(1); assert Pad(5, 2) == "05" && Pad(1, 2) == "01"; }

  lemma AscensionDayDate()
    ensures CivilFromDays(19852) == Date(2024, 5, 9)
  { ToCivilParts(19852, 5, 8835, 24, 69, 2); }

  lemma AscensionDayText()
    ensures DateText(Date(2024, 5, 9)) == "2024-05-09"
  { YearText(); TwoDigitPad(5); TwoDigitPad(9); assert Pad(5, 2) == "05" && Pad(9, 2) == "09"; }

  lemma NationalDayDate()
    ensures CivilFromDays(19880) == Date(2024, 6, 6)
  { ToCivilParts(19880, 5, 8863, 24, 97, 3); }

  lemma NationalDayText()
    ensures DateText(Date(2024, 6, 6)) == "2024-06-06"
  { YearText(); TwoDigitPad(6); assert Pad(6, 2) == "06"; }

  lemma MidsummerEveDate()
    ensures CivilFromDays(19895) == Date(2024, 6, 21)
  { ToCivilParts(19895, 5, 8878, 24, 112, 3); }

  lemma MidsummerEveText()
    ensures DateText(Date(2024, 6, 21)) == "2024-06-21"
  { YearText(); TwoDigitPad(6); TwoDigitPad(21); assert Pad(6, 2) == "06" && Pad(21, 2) == "21"; }

  lemma ChristmasEveDate()
    ensures CivilFromDays(20081) == Date(2024, 12, 24)
  { ToCivilParts(20081, 5, 9064, 24, 298, 9); }

  lemma ChristmasEveText()
    ensures DateText(Date(2024, 12, 24)) == "2024-12-24"
  { YearText(); TwoDigitPad(12); TwoDigitPad(24); assert Pad(12, 2) == "12" && Pad(24, 2) == "24"; }

  lemma ChristmasDayDate()
    ensures CivilFromDays(20082) == Date(2024, 12, 25)
  { ToCivilParts(20082, 5, 9065, 24, 299, 9); }

  lemma ChristmasDayText()
    ensures DateText(Date(2024, 12, 25)) == "2024-12-25"
  { YearText(); TwoDigitPad(12); TwoDigitPad(25); assert Pad(12, 2) == "12" && Pad(25, 2) == "25"; }

  lemma BoxingDayDate()
    ensures CivilFromDays(20083) == Date(2024, 12, 26)
  { ToCivilParts(20083, 5, 9066, 24, 300, 9); }

  lemma BoxingDayText()
    ensures DateText(Date(2024, 12, 26)) == "2024-12-26"
  { YearText(); TwoDigitPad(12); TwoDigitPad(26); assert Pad(12, 2) == "12" && Pad(26, 2) == "26"; }

  lemma NewYearsEveDate()
    ensures CivilFromDays(20088) == Date(2024, 12, 31)
  { ToCivilParts(20088, 5, 9071, 24, 305, 9); }

  lemma NewYearsEveText()
    ensures DateText(Date(2024, 12, 31)) == "2024-12-31"
  { YearText(); TwoDigitPad(12); TwoDigitPad(31); assert Pad(12, 2) == "12" && Pad(31, 2) == "31"; }

  /** The `i`-th listed day number falls on the `i`-th listed civil date, written as the `i`-th listed text. */
  lemma ListedDay(i: nat)
    requires i < |HolidayDays|
    ensures CivilFromDays(HolidayDays[i]) == HolidayDates[i]
    ensures DateText(HolidayDates[i]) == HolidayList[i]
  {
    if i == 0 {
      assert HolidayDays[i] == 19723 && HolidayDates[i] == Date(2024, 1, 1) && HolidayList[i] == "2024-01-01";
      NewYearsDayDate(); NewYearsDayText();
    } else if i == 1 {
      assert HolidayDays[i] == 19728 && HolidayDates[i] == Date(2024, 1, 6) && HolidayList[i] == "2024-01-06";
      EpiphanyDate(); EpiphanyText();
    } else if i == 2 {
      assert HolidayDays[i] == 19811 && HolidayDates[i] == Date(2024, 3, 29) && HolidayList[i] == "2024-03-29";
      GoodFridayDate(); GoodFridayText();
    } else if i == 3 {
      assert HolidayDays[i] == 19814 && HolidayDates[i] == Date(2024, 4, 1) && HolidayList[i] == "2024-04-01";
      EasterMondayDate(); EasterMondayText();
    } else if i == 4 {
      assert HolidayDays[i] == 19844 && HolidayDates[i] == Date(2024, 5, 1) && HolidayList[i] == "2024-05-01";
      MayDayDate(); MayDayText();
    } else if i == 5 {
      assert HolidayDays[i] == 19852 && HolidayDates[i] == Date(2024, 5, 9) && HolidayList[i] == "2024-05-09";
      AscensionDayDate(); AscensionDayText();
    } else if i == 6 {
      assert HolidayDays[i] == 19880 && HolidayDates[i] == Date(2024, 6, 6) && HolidayList[i] == "2024-06-06";
      NationalDayDate(); NationalDayText();
    } else if i == 7 {
      assert HolidayDays[i] == 19895 && HolidayDates[i] == Date(2024, 6, 21) && HolidayList[i] == "2024-06-21";
      MidsummerEveDate(); MidsummerEveText();
    } else if i == 8 {
      assert HolidayDays[i] == 20081 && HolidayDates[i] == Date(2024, 12, 24) && HolidayList[i] == "2024-12-24";
      ChristmasEveDate(); ChristmasEveText();
    } else if i == 9 {
      assert HolidayDays[i] == 20082 && HolidayDates[i] == Date(2024, 12, 25) && HolidayList[i] == "2024-12-25";
      ChristmasDayDate(); ChristmasDayText();
    } else if i == 10 {
      assert HolidayDays[i] == 20083 && HolidayDates[i] == Date(2024, 12, 26) && HolidayList[i] == "2024-12-26";
      BoxingDayDate(); BoxingDayText();
    } else {
      assert HolidayDays[i] == 20088 && HolidayDates[i] == Date(2024, 12, 31) && HolidayList[i] == "2024-12-31";
      NewYearsEveDate(); NewYearsEveText();
    }
  }

  /** Every listed day number has a listed ISO date. */
  lemma ListedDayHasListedDate(i: nat)
    requires i < |HolidayDays|
    ensures IsListedDate(HolidayDays[i])
  {
    ListedDay(i);
    assert IsoDate(HolidayDays[i]) == HolidayList[i];
  }

  /** Every day with a listed ISO date is a listed day number. */
  lemma ListedDateIsListedDay(day: nat)
    ensures IsListedDate(day) ==> day in HolidayDays
  {
    if IsListedDate(day) {
      var i :| 0 <= i < |HolidayList| && HolidayList[i] == IsoDate(day);
      ListedDay(i);
      assert IsoDate(HolidayDays[i]) == HolidayList[i];
      assert |HolidayList[i]| == 10;
      IsoDateInjective(day, HolidayDays[i]);
    }
  }

  /** The ISO-text test and the day-number test agree on every day. */
  lemma IsHolidayIffListed(day: nat)
    ensures IsListedDate(day) <==> IsHoliday(day)
  {
    if day in HolidayDays {
      var i :| 0 <= i < |HolidayDays| && HolidayDays[i] == day;
      ListedDayHasListedDate(i);
    }
    if IsListedDate(day) {
      ListedDateIsListedDay(day);
    }
  }

  // ---------------------------------------------------------------------
  // The next 07:00 start
  // ---------------------------------------------------------------------

  /** 07:00:00.000 on a day: `setHours(7, 0, 0, 0)`. */
  function StartOf(day: nat): (ms: nat)
    ensures DayOf(ms) == day && HourOf(ms) == 7 && ms % MsPerHour == 0
  {
    day * MsPerDay + 7 * MsPerHour
  }

  /** Days until the weekend is over: 2 on a Saturday, 1 on a Sunday, else 0. */
  function WeekendRest(day: nat): nat
  {
    if WeekdayOf(day) == 6 then 2 else if WeekdayOf(day) == 0 then 1 else 0
  }

  /** How far the search for a work day can still run from `day`: past the last listed holiday only a weekend remains. */
  function SearchBound(day: nat): nat
  {
    3 * (if day <= 20089 then 20089 - day else 0) + WeekendRest(day)
  }

  /** Skipping a weekend day or a holiday shortens the search. */
  lemma SkipShortensSearch(day: nat)
    requires IsWeekend(day) || IsHoliday(day)
    ensures SearchBound(day + 1) < SearchBound(day)
  {
    if day > 20089 {
      assert !IsHoliday(day);
    }
  }

  /** The first day whose 07:00 is later than `now`. */
  function FirstCandidate(now: nat): (day: nat)
    ensures now < StartOf(day)
    ensures forall e :: now < StartOf(e) ==> day <= e
  {
    if StartOf(DayOf(now)) <= now then DayOf(now) + 1 else DayOf(now)
  }

  /**
   * `getNextWorkStart` / `getNextStartTime`: 07:00 today, or tomorrow when
   * that is not later than now, then a day later while the day is a Saturday,
   * a Sunday or a holiday. The result is the earliest 07:00 after `now` on a
   * work day.
   */
  method NextWorkStart(now: nat) returns (next: nat)
    ensures now < next && next == StartOf(DayOf(next)) && IsWorkDay(DayOf(next))
    ensures forall day :: now < StartOf(day) < next ==> !IsWorkDay(day)
  {
    var day: nat := DayOf(now);
    if StartOf(day) <= now {
      day := day + 1;
    }
    assert day == FirstCandidate(now);
    while IsWeekend(day) || IsHoliday(day)
      invariant FirstCandidate(now) <= day
      invariant forall e :: FirstCandidate(now) <= e < day ==> !IsWorkDay(e)
      decreases SearchBound(day)
    {
      SkipShortensSearch(day);
      day := day + 1;
    }
    next := StartOf(day);
  }
}
