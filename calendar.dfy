/**
 * Clock arithmetic shared by the scripts. A point in time is a count of
 * milliseconds since 1970-01-01T00:00:00Z (`Date.now()`); day numbers count
 * days since that date, which was a Thursday. Every script reads the local
 * clock; this model reads all of them as UTC.
 */
module Calendar {
  import opened Text

  const MsPerSecond: nat := 1000
  const MsPerMinute: nat := 60000
  const MsPerHour: nat := 3600000
  const MsPerDay: nat := 86400000

  /** The day number of an instant. */
  function DayOf(ms: nat): nat
  {
    ms / MsPerDay
  }

  /** `getHours()`: the hour of the day, 0 to 23. */
  function HourOf(ms: nat): (h: nat)
    ensures h < 24
  {
    (ms % MsPerDay) / MsPerHour
  }

  /** `getDay()`: 0 is Sunday, 6 is Saturday; day 0 was a Thursday. */
  function WeekdayOf(day: nat): (w: nat)
    ensures w < 7
  {
    (day + 4) % 7
  }

  predicate IsWeekend(day: nat)
  {
    WeekdayOf(day) == 0 || WeekdayOf(day) == 6
  }

  /** The first weekday strictly after `today`: what the "add a day, then skip Saturday and Sunday" loops compute. */
  function NextWeekday(today: nat): (d: nat)
    ensures today + 1 <= d <= today + 3
    ensures !IsWeekend(d)
    ensures forall k :: today < k < d ==> IsWeekend(k)
  {
    var w := WeekdayOf(today + 1);
    if w == 6 then today + 3 else if w == 0 then today + 2 else today + 1
  }

  // ---------------------------------------------------------------------
  // Civil dates
  // ---------------------------------------------------------------------

  datatype Date = Date(year: int, month: int, day: int)

  /** The proleptic Gregorian date of a day number (the days-to-civil conversion of H. Hinnant). */
  function CivilFromDays(days: nat): Date
  {
    var z := days + 719468;
    var era := z / 146097;
    var doe := z - era * 146097;
    var yoe := (doe - doe / 1460 + doe / 36524 - doe / 146096) / 365;
    var doy := doe - (365 * yoe + yoe / 4 - yoe / 100);
    var mp := (5 * doy + 2) / 153;
    var d := doy - (153 * mp + 2) / 5 + 1;
    var m := if mp < 10 then mp + 3 else mp - 9;
    var y := yoe + era * 400 + (if m <= 2 then 1 else 0);
    Date(y, m, d)
  }

  /** The day number of a civil date (the inverse conversion, civil-to-days, of the same author). */
  function DaysFromCivil(date: Date): int
  {
    var y := date.year - (if date.month <= 2 then 1 else 0);
    var era := (if y >= 0 then y else y - 399) / 400;
    var yoe := y - era * 400;
    var mp := if date.month > 2 then date.month - 3 else date.month + 9;
    var doy := (153 * mp + 2) / 5 + date.day - 1;
    var doe := yoe * 365 + yoe / 4 - yoe / 100 + doy;
    era * 146097 + doe - 719468
  }

  /** Days in the years of a 400-year era (years counted from March) before year `y`, for `y` below 400. */
  function DaysBeforeYear(y: int): int
  {
    365 * y + y / 4 - y / 100
  }

  /** The year of the era found from a day of the era starts on or before that day, at most 365 days earlier. */
  lemma YearOfEra(doe: int)
    requires 0 <= doe < 146097
    ensures var yoe := (doe - doe / 1460 + doe / 36524 - doe / 146096) / 365;
            0 <= yoe <= 399 && DaysBeforeYear(yoe) <= doe <= DaysBeforeYear(yoe) + 365
  {
    if doe == 146096 {
      assert (doe - doe / 1460 + doe / 36524 - doe / 146096) / 365 == 399;
    } else {
      // the day splits into a century, a four-year cycle within it and a day of that cycle
      var century := doe / 36524;
      var cycle := (doe - 36524 * century) / 1461;
      var r := doe - 36524 * century - 1461 * cycle;
      var leap := if cycle + r + 24 * century >= 1460 then 1 else 0;
      var j := (r - leap) / 365;
      assert 0 <= century <= 3 && 0 <= cycle <= 24 && 0 <= j <= 3;
      assert doe / 1460 == 25 * century + cycle + leap;
      assert doe / 146096 == 0;
      var yoe := 100 * century + 4 * cycle + j;
      assert doe - doe / 1460 + doe / 36524 - doe / 146096 == 365 * yoe + (r - leap - 365 * j);
      assert (doe - doe / 1460 + doe / 36524 - doe / 146096) / 365 == yoe;
      assert yoe / 4 == 25 * century + cycle;
      assert yoe / 100 == century;
      assert DaysBeforeYear(yoe) == 36524 * century + 1461 * cycle + 365 * j;
    }
  }

  /** A day of a March-based year falls in one of its twelve months, on day 1 to 31 of it. */
  lemma MonthOfYear(doy: int)
    requires 0 <= doy <= 365
    ensures var mp := (5 * doy + 2) / 153;
            0 <= mp <= 11 && 0 <= doy - (153 * mp + 2) / 5 <= 30
  {
  }

  /** The conversion to a civil date, given the values of its steps. */
  lemma ToCivilParts(days: nat, era: int, doe: int, yoe: int, doy: int, mp: int)
    requires era == (days + 719468) / 146097 && doe == days + 719468 - era * 146097
    requires yoe == (doe - doe / 1460 + doe / 36524 - doe / 146096) / 365
    requires doy == doe - (365 * yoe + yoe / 4 - yoe / 100) && mp == (5 * doy + 2) / 153
    ensures var m := if mp < 10 then mp + 3 else mp - 9;
            CivilFromDays(days) == Date(yoe + era * 400 + (if m <= 2 then 1 else 0), m, doy - (153 * mp + 2) / 5 + 1)
  {
  }

  /** The conversion back to a day number, given the era, year of the era, month index and day of the year. */
  lemma FromCivilParts(y: int, m: int, d: int, era: int, yoe: int, mp: int, doy: int)
    requires era >= 0 && 0 <= yoe <= 399 && 0 <= mp <= 11
    requires m == (if mp < 10 then mp + 3 else mp - 9)
    requires y == yoe + era * 400 + (if m <= 2 then 1 else 0)
    requires d == doy - (153 * mp + 2) / 5 + 1
    ensures DaysFromCivil(Date(y, m, d)) == era * 146097 + DaysBeforeYear(yoe) + doy - 719468
  {
    var y1 := y - (if m <= 2 then 1 else 0);
    assert (if y1 >= 0 then y1 else y1 - 399) / 400 == era;
  }

  /** Every day number converts to a date with a month 1 to 12 and a day 1 to 31, and converts back to itself. */
  lemma CivilRoundTrip(days: nat)
    ensures var date := CivilFromDays(days);
            1 <= date.month <= 12 && 1 <= date.day <= 31 && date.year >= 0
    ensures DaysFromCivil(CivilFromDays(days)) == days
  {
    var era := (days + 719468) / 146097;
    var doe := days + 719468 - era * 146097;
    YearOfEra(doe);
    var yoe := (doe - doe / 1460 + doe / 36524 - doe / 146096) / 365;
    var doy := doe - DaysBeforeYear(yoe);
    MonthOfYear(doy);
    var mp := (5 * doy + 2) / 153;
    ToCivilParts(days, era, doe, yoe, doy, mp);
    var d := doy - (153 * mp + 2) / 5 + 1;
    var m := if mp < 10 then mp + 3 else mp - 9;
    var y := yoe + era * 400 + (if m <= 2 then 1 else 0);
    FromCivilParts(y, m, d, era, yoe, mp, doy);
  }

  /** Distinct day numbers have distinct civil dates. */
  lemma CivilInjective(d1: nat, d2: nat)
    ensures CivilFromDays(d1) == CivilFromDays(d2) ==> d1 == d2
  {
    CivilRoundTrip(d1);
    CivilRoundTrip(d2);
  }

  function Pad(n: int, width: nat): string
  {
    if n < 0 then "" else ZeroPad(n, width)
  }

  /** A civil date written `YYYY-MM-DD`. */
  function DateText(date: Date): string
  {
    Pad(date.year, 4) + "-" + Pad(date.month, 2) + "-" + Pad(date.day, 2)
  }

  /** `toISOString().slice(0, 10)`: `YYYY-MM-DD`. */
  function IsoDate(day: nat): string
  {
    DateText(CivilFromDays(day))
  }

  /** A text shaped `DDDD-DD-DD`. */
  predicate IsDateText(s: string)
  {
    |s| == 10 && s[4] == '-' && s[7] == '-'
    && forall k :: 0 <= k < 10 && k != 4 && k != 7 ==> IsDigit(s[k])
  }

  /** The year, month and day written in a `DDDD-DD-DD` text. */
  function ReadDate(s: string): Date
    requires IsDateText(s)
  {
    Date(DigitsValue(s[..4]), DigitsValue(s[5..7]), DigitsValue(s[8..10]))
  }

  /** The text of a date is at least ten characters long; one of exactly ten reads back as that date. */
  lemma DateTextReadsBack(year: nat, month: nat, day: nat)
    requires month < 100 && day < 100
    ensures var text := DateText(Date(year, month, day));
            |text| >= 10 && (|text| == 10 ==> IsDateText(text) && ReadDate(text) == Date(year, month, day))
  {
    TwoDigitNumeral(month);
    TwoDigitNumeral(day);
    ZeroPadDigits(month, 2);
    ZeroPadDigits(day, 2);
    var y := ZeroPad(year, 4);
    var text := y + "-" + ZeroPad(month, 2) + "-" + ZeroPad(day, 2);
    assert |text| == |y| + 6;
    if |text| == 10 {
      assert |NatToString(year)| <= 4;
      ZeroPadDigits(year, 4);
      assert text[..4] == y;
      assert text[5..7] == ZeroPad(month, 2);
      assert text[8..10] == ZeroPad(day, 2);
    }
  }

  /** An ISO date is at least ten characters long; one of exactly ten reads back as the civil date it was written from. */
  lemma IsoDateReadsBack(day: nat)
    ensures |IsoDate(day)| >= 10
    ensures |IsoDate(day)| == 10 ==> IsDateText(IsoDate(day)) && ReadDate(IsoDate(day)) == CivilFromDays(day)
  {
    var date := CivilFromDays(day);
    CivilRoundTrip(day);
    DateTextReadsBack(date.year, date.month, date.day);
  }

  /** Two days with the same ten-character ISO date are the same day. */
  lemma IsoDateInjective(d1: nat, d2: nat)
    ensures IsoDate(d1) == IsoDate(d2) && |IsoDate(d1)| == 10 ==> d1 == d2
  {
    IsoDateReadsBack(d1);
    IsoDateReadsBack(d2);
    CivilInjective(d1, d2);
  }

  /** A number below 100 pads to its two decimal digits. */
  lemma TwoDigitPad(n: nat)
    requires n < 100
    ensures Pad(n, 2) == [DigitChar(n / 10), DigitChar(n % 10)]
  {
    if n < 10 {
      assert NatToString(n) == [DigitChar(n)];
      assert Pad(n, 2) == Repeat('0', 1) + [DigitChar(n)];
    } else {
      assert NatToString(n) == [DigitChar(n / 10)] + [DigitChar(n % 10)];
    }
  }

  /** `s` with every occurrence of `c` removed (`replace(/c/g, '')`). */
  function RemoveAll(s: string, c: char): (r: string)
    ensures |r| <= |s|
    ensures c !in r
    ensures forall x :: x != c ==> (x in r <==> x in s)
  {
    if |s| == 0 then "" else (if s[0] == c then "" else [s[0]]) + RemoveAll(s[1..], c)
  }

  /** Removal works piece by piece, so the characters kept stay in their order. */
  lemma {:induction false} RemoveAllConcat(a: string, b: string, c: char)
    ensures RemoveAll(a + b, c) == RemoveAll(a, c) + RemoveAll(b, c)
  {
    if |a| > 0 {
      assert (a + b)[0] == a[0] && (a + b)[1..] == a[1..] + b;
      RemoveAllConcat(a[1..], b, c);
    } else {
      assert a + b == b;
    }
  }

  /** A text without `c` is left as it is. */
  lemma {:induction false} RemoveAllAbsent(s: string, c: char)
    requires c !in s
    ensures RemoveAll(s, c) == s
  {
    if |s| > 0 {
      assert c !in s[1..] by {
        forall k | 0 <= k < |s[1..]|
          ensures s[1..][k] != c
        {
          assert s[1..][k] == s[k + 1];
        }
      }
      RemoveAllAbsent(s[1..], c);
      assert [s[0]] + s[1..] == s;
    }
  }

  /** Digits contain no dash, so dash removal leaves them alone. */
  lemma DigitsKeptWhole(t: string)
    requires forall k :: 0 <= k < |t| ==> IsDigit(t[k])
    ensures RemoveAll(t, '-') == t
  {
    assert '-' !in t by {
      forall k | 0 <= k < |t|
        ensures t[k] != '-'
      {
        assert IsDigit(t[k]);
      }
    }
    RemoveAllAbsent(t, '-');
  }

  /** Removing dashes around one dash removes the dash and works on each side. */
  lemma DropDash(a: string, b: string)
    ensures RemoveAll(a + "-" + b, '-') == RemoveAll(a, '-') + RemoveAll(b, '-')
  {
    RemoveAllConcat(a + "-", b, '-');
    RemoveAllConcat(a, "-", '-');
    assert RemoveAll("-", '-') == "";
    assert RemoveAll(a, '-') + "" == RemoveAll(a, '-');
  }

  /** Removing the dashes between three digit groups joins the groups in order. */
  lemma DashesJoinGroups(y: string, m: string, d: string)
    requires forall k :: 0 <= k < |y| ==> IsDigit(y[k])
    requires forall k :: 0 <= k < |m| ==> IsDigit(m[k])
    requires forall k :: 0 <= k < |d| ==> IsDigit(d[k])
    ensures RemoveAll(y + "-" + m + "-" + d, '-') == y + m + d
  {
    DigitsKeptWhole(y);
    DigitsKeptWhole(m);
    DigitsKeptWhole(d);
    DropDash(y + "-" + m, d);
    DropDash(y, m);
  }

  /** Removing the dashes of a `DDDD-DD-DD` text leaves its eight digits in order. */
  lemma DateTextCompacts(s: string)
    requires IsDateText(s)
    ensures RemoveAll(s, '-') == s[..4] + s[5..7] + s[8..]
  {
    var y, m, d := s[..4], s[5..7], s[8..];
    assert forall k :: 0 <= k < |y| ==> IsDigit(y[k]) by {
      forall k | 0 <= k < |y| ensures IsDigit(y[k]) { assert y[k] == s[k]; }
    }
    assert forall k :: 0 <= k < |m| ==> IsDigit(m[k]) by {
      forall k | 0 <= k < |m| ensures IsDigit(m[k]) { assert m[k] == s[5 + k]; }
    }
    assert forall k :: 0 <= k < |d| ==> IsDigit(d[k]) by {
      forall k | 0 <= k < |d| ensures IsDigit(d[k]) { assert d[k] == s[8 + k]; }
    }
    assert s == y + "-" + m + "-" + d;
    DashesJoinGroups(y, m, d);
  }

  /** The ISO date with its dashes removed: `YYYYMMDD`. */
  function CompactDate(day: nat): string
  {
    RemoveAll(IsoDate(day), '-')
  }

  /** For a four-digit year the compact date is the ISO date's year, month and day digits, in that order. */
  lemma CompactDateDigits(day: nat)
    requires |IsoDate(day)| == 10
    ensures var iso := IsoDate(day);
            CompactDate(day) == iso[..4] + iso[5..7] + iso[8..] && |CompactDate(day)| == 8
  {
    IsoDateReadsBack(day);
    DateTextCompacts(IsoDate(day));
  }

  /** `toISOString()`: `YYYY-MM-DDTHH:MM:SS.mmmZ`. */
  function IsoTimestamp(ms: nat): string
  {
    var t := ms % MsPerDay;
    IsoDate(DayOf(ms)) + "T" + ZeroPad(t / MsPerHour, 2) + ":" + ZeroPad(t % MsPerHour / MsPerMinute, 2)
      + ":" + ZeroPad(t % MsPerMinute / MsPerSecond, 2) + "." + ZeroPad(t % MsPerSecond, 3) + "Z"
  }

  /** Day 19723 is 2024-01-01, a Monday. */
  lemma NewYear2024()
    ensures CivilFromDays(19723) == Date(2024, 1, 1) && WeekdayOf(19723) == 1
  {
    ToCivilParts(19723, 5, 8706, 23, 306, 10);
  }
}
