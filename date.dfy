/** The time helpers of mcp_frontend/src/utils/date.ts: two-digit padding,
    "HH:mm" and the relative "how long ago" text.

    A date is its timestamp in milliseconds, and the current time is a
    parameter. TypeScript's `Math.floor(a / b)` for a positive `b` is
    Dafny's `a / b`, which also rounds towards negative infinity. */
module DateFormat {
  import opened Base
  import opened Text

  /** `padZero`: a leading "0" for numbers below ten. */
  function PadZero(n: int): (s: string)
    ensures n < 10 ==> s == "0" + IntToString(n)
    ensures n >= 10 ==> s == NatToString(n)
  {
    if n < 10 then "0" + IntToString(n) else IntToString(n)
  }

  /** Two digits that read back as `n`, for the hours and minutes of a day. */
  lemma PadZeroTwoDigits(n: nat)
    requires n < 100
    ensures |PadZero(n)| == 2 && IsDigits(PadZero(n)) && DigitsValue(PadZero(n)) == n
  {
    NatToStringDecodes(n);
    var s := PadZero(n);
    if n < 10 {
      assert s == ['0'] + NatToString(n);
      assert s[..1] == ['0'];
      assert DigitsValue(['0']) == 0 by {
        assert ['0'][..0] == [];
      }
    } else {
      NatToStringDecodes(n / 10);
      assert NatToString(n) == NatToString(n / 10) + [DigitChar(n % 10)];
    }
  }

  /** `formatTime`: "HH:mm" from the hours and minutes of a date. */
  function FormatTime(hours: nat, minutes: nat): (s: string)
    requires hours < 24 && minutes < 60
    ensures |s| == 5 && s[2] == ':'
    ensures IsDigits(s[..2]) && DigitsValue(s[..2]) == hours
    ensures IsDigits(s[3..]) && DigitsValue(s[3..]) == minutes
  {
    PadZeroTwoDigits(hours);
    PadZeroTwoDigits(minutes);
    var s := PadZero(hours) + ":" + PadZero(minutes);
    assert s[..2] == PadZero(hours) && s[3..] == PadZero(minutes);
    s
  }

  const MinuteMs := 60_000         // 60 s
  const HourMs := 3_600_000        // 60 min
  const DayMs := 86_400_000        // 24 h
  const MonthMs := 2_592_000_000   // 30 days
  const YearMs := 31_104_000_000   // 12 months

  /** The `date` argument of `timeAgo`: missing (falsy), an Invalid Date
      (its time is NaN), or a timestamp in milliseconds. */
  datatype DateArg = NoDate | InvalidDate | At(ms: int)

  /** `timeAgo`. Each stage rounds down to the next unit and answers when the
      count is below that unit's limit. On an Invalid Date every count is
      NaN, every comparison is false, and the years come out as "NaN". */
  function TimeAgo(date: DateArg, now: int): (r: string)
    ensures date.NoDate? ==> r == ""
    ensures date.InvalidDate? ==> r == "NaN年前"
    ensures date.At? ==> r != ""
  {
    match date
    case NoDate => ""
    case InvalidDate => "NaN" + "年前"
    case At(ms) => FromSeconds((now - ms) / 1000)
  }

  function FromSeconds(seconds: int): string {
    if seconds < 60 then "刚刚" else FromMinutes(seconds / 60)
  }

  function FromMinutes(minutes: int): string {
    if minutes < 60 then IntToString(minutes) + "分钟前" else FromHours(minutes / 60)
  }

  function FromHours(hours: int): string {
    if hours < 24 then IntToString(hours) + "小时前" else FromDays(hours / 24)
  }

  function FromDays(days: int): string {
    if days < 30 then IntToString(days) + "天前" else FromMonths(days / 30)
  }

  function FromMonths(months: int): string {
    if months < 12 then IntToString(months) + "个月前" else IntToString(months / 12) + "年前"
  }

  /** Under a minute, the future included, is "just now". */
  lemma JustNow(date: int, now: int)
    requires now - date < MinuteMs
    ensures TimeAgo(At(date), now) == "刚刚"
  {
    var c := Counts(now - date);
  }

  /** From a minute to an hour: whole minutes, 1 to 59. */
  lemma MinutesAgo(date: int, now: int)
    requires MinuteMs <= now - date < HourMs
    ensures TimeAgo(At(date), now) == IntToString((now - date) / MinuteMs) + "分钟前"
    ensures 1 <= (now - date) / MinuteMs <= 59
  {
    var d := now - date;
    MinuteCount(d);
    assert TimeAgo(At(date), now) == FromMinutes(d / MinuteMs);
  }

  /** From an hour to a day: whole hours, 1 to 23. */
  lemma HoursAgo(date: int, now: int)
    requires HourMs <= now - date < DayMs
    ensures TimeAgo(At(date), now) == IntToString((now - date) / HourMs) + "小时前"
    ensures 1 <= (now - date) / HourMs <= 23
  {
    var c := Counts(now - date);
    Passes(date, now, c, 2);
    assert FromHours(c.2) == IntToString(c.2) + "小时前";
  }

  /** From a day to 30 days: whole days, 1 to 29. */
  lemma DaysAgo(date: int, now: int)
    requires DayMs <= now - date < MonthMs
    ensures TimeAgo(At(date), now) == IntToString((now - date) / DayMs) + "天前"
    ensures 1 <= (now - date) / DayMs <= 29
  {
    var c := Counts(now - date);
    Passes(date, now, c, 3);
    assert FromDays(c.3) == IntToString(c.3) + "天前";
  }

  /** From 30 days to 12 such months: whole months, 1 to 11. */
  lemma MonthsAgo(date: int, now: int)
    requires MonthMs <= now - date < YearMs
    ensures TimeAgo(At(date), now) == IntToString((now - date) / MonthMs) + "个月前"
    ensures 1 <= (now - date) / MonthMs <= 11
  {
    var c := Counts(now - date);
    Passes(date, now, c, 4);
    assert FromMonths(c.4) == IntToString(c.4) + "个月前";
  }

  /** From twelve 30-day months on: whole years of 360 days, at least 1. */
  lemma YearsAgo(date: int, now: int)
    requires YearMs <= now - date
    ensures TimeAgo(At(date), now) == IntToString((now - date) / YearMs) + "年前"
    ensures (now - date) / YearMs >= 1
  {
    var c := Counts(now - date);
    Passes(date, now, c, 5);
  }

  /** A date at least `k` stages old reaches the stage that counts `c.k`
      (`k` = 1 is minutes, up to 5 for months with the years after them). */
  lemma {:induction false} Passes(date: int, now: int, c: (int, int, int, int, int), k: nat)
    requires 1 <= k <= 5
    requires c.0 == (now - date) / 1000 && c.1 == c.0 / 60 && c.2 == c.1 / 60 && c.3 == c.2 / 24 && c.4 == c.3 / 30
    requires c.0 >= 60 && (k >= 2 ==> c.1 >= 60) && (k >= 3 ==> c.2 >= 24) && (k >= 4 ==> c.3 >= 30) &&
             (k >= 5 ==> c.4 >= 12)
    ensures k == 1 ==> TimeAgo(At(date), now) == FromMinutes(c.1)
    ensures k == 2 ==> TimeAgo(At(date), now) == FromHours(c.2)
    ensures k == 3 ==> TimeAgo(At(date), now) == FromDays(c.3)
    ensures k == 4 ==> TimeAgo(At(date), now) == FromMonths(c.4)
    ensures k == 5 ==> TimeAgo(At(date), now) == IntToString(c.4 / 12) + "年前"
    decreases k
  {
    if k > 1 {
      Passes(date, now, c, k - 1);
    }
  }

  /** Rounding down to seconds and then to minutes rounds down to minutes. */
  lemma MinuteCount(diff: int)
    ensures diff / 1000 / 60 == diff / MinuteMs
  {
  }

  lemma HourCount(diff: int)
    ensures diff / 1000 / 60 / 60 == diff / HourMs
  {
    MinuteCount(diff);
  }

  lemma DayCount(diff: int)
    ensures diff / 1000 / 60 / 60 / 24 == diff / DayMs
  {
    HourCount(diff);
  }

  lemma MonthCount(diff: int)
    ensures diff / 1000 / 60 / 60 / 24 / 30 == diff / MonthMs
  {
    DayCount(diff);
  }

  lemma YearCount(diff: int)
    ensures diff / 1000 / 60 / 60 / 24 / 30 / 12 == diff / YearMs
  {
    MonthCount(diff);
  }

  /** The successive roundings of `timeAgo`: seconds, minutes, hours, days
      and months, each the difference divided by its unit. */
  lemma Counts(diff: int) returns (c: (int, int, int, int, int))
    ensures c.0 == diff / 1000
    ensures c.1 == c.0 / 60 && c.1 == diff / MinuteMs
    ensures c.2 == c.1 / 60 && c.2 == diff / HourMs
    ensures c.3 == c.2 / 24 && c.3 == diff / DayMs
    ensures c.4 == c.3 / 30 && c.4 == diff / MonthMs
    ensures c.4 / 12 == diff / YearMs
    ensures c.0 < 60 <==> diff < MinuteMs
    ensures c.1 < 60 <==> diff < HourMs
    ensures c.2 < 24 <==> diff < DayMs
    ensures c.3 < 30 <==> diff < MonthMs
    ensures c.4 < 12 <==> diff < YearMs
  {
    c := (diff / 1000, diff / 1000 / 60, diff / 1000 / 60 / 60, diff / 1000 / 60 / 60 / 24,
          diff / 1000 / 60 / 60 / 24 / 30);
  }

  const Units: seq<string> := ["分钟前", "小时前", "天前", "个月前", "年前"]

  predicate EndsWith(s: string, u: string) {
    |u| <= |s| && s[|s| - |u|..] == u
  }

  /** "Just now", or a text that ends with exactly one of the units. */
  predicate OneReading(r: string) {
    r == "刚刚" ||
    exists i :: 0 <= i < |Units| && EndsWith(r, Units[i]) &&
                forall j :: 0 <= j < |Units| && j != i ==> !EndsWith(r, Units[j])
  }

  /** Every date gets "just now" or exactly one unit. */
  lemma OneUnit(date: int, now: int)
    ensures OneReading(TimeAgo(At(date), now))
  {
    var diff := now - date;
    if diff < MinuteMs {
      JustNow(date, now);
    } else {
      var n, i := Bucket(date, now);
      ExactlyOneUnit(n, i);
    }
  }

  /** The count and the unit of a date a minute or more ago. */
  lemma Bucket(date: int, now: int) returns (n: nat, i: nat)
    requires now - date >= MinuteMs
    ensures i < |Units| && TimeAgo(At(date), now) == NatToString(n) + Units[i]
  {
    ghost var r := TimeAgo(At(date), now);
    if now - date < HourMs {
      MinutesAgo(date, now);
      n, i := (now - date) / MinuteMs, 0;
    } else if now - date < DayMs {
      HoursAgo(date, now);
      n, i := (now - date) / HourMs, 1;
    } else if now - date < MonthMs {
      DaysAgo(date, now);
      n, i := (now - date) / DayMs, 2;
    } else if now - date < YearMs {
      MonthsAgo(date, now);
      n, i := (now - date) / MonthMs, 3;
    } else {
      YearsAgo(date, now);
      n, i := (now - date) / YearMs, 4;
    }
    assert r == IntToString(n) + Units[i];
  }

  /** A count followed by one unit ends with exactly one unit. */
  lemma ExactlyOneUnit(n: nat, i: nat)
    requires i < |Units|
    ensures OneReading(NatToString(n) + Units[i])
  {
    NatToStringDecodes(n);
    UnitFollowsDigits(NatToString(n), i);
  }

  /** Digits followed by one unit end with that unit and no other. */
  lemma UnitFollowsDigits(d: string, i: nat)
    requires i < |Units| && |d| >= 1 && IsDigits(d)
    ensures EndsWith(d + Units[i], Units[i])
    ensures forall j :: 0 <= j < |Units| && j != i ==> !EndsWith(d + Units[i], Units[j])
  {
    var r := d + Units[i];
    assert r[|r| - |Units[i]|..] == Units[i];
    forall j | 0 <= j < |Units| && j != i ensures !EndsWith(r, Units[j]) {
      if |Units[j]| <= |Units[i]| {
        assert r[|r| - |Units[j]|..] == Units[i][|Units[i]| - |Units[j]|..];
      } else {
        assert r[|r| - |Units[j]|] == d[|d| - 1];
      }
    }
  }
}
