/**
 * Date text to instant: the fixed-width `yyyy-MM-dd'T'HH:mm:ss` shape,
 * read as a UTC wall-clock time, and turned into epoch milliseconds by
 * day-count arithmetic on the proleptic Gregorian calendar.
 */
module Dates {
  import opened Wrappers

  /** The fields a `yyyy-MM-dd'T'HH:mm:ss` text carries. */
  datatype DateTime = DateTime(year: nat, month: nat, day: nat, hour: nat, minute: nat, second: nat)

  predicate IsLeapYear(y: int)
  {
    y % 4 == 0 && (y % 100 != 0 || y % 400 == 0)
  }

  function YearLength(y: int): nat
  {
    if IsLeapYear(y) then 366 else 365
  }

  function MonthLength(y: int, m: nat): nat
    requires 1 <= m <= 12
  {
    if m == 2 then (if IsLeapYear(y) then 29 else 28)
    else if m == 4 || m == 6 || m == 9 || m == 11 then 30
    else 31
  }

  /** Days in the months of year y before month m. */
  function DaysBeforeMonth(y: int, m: nat): (r: nat)
    requires 1 <= m <= 12
  {
    if m == 1 then 0 else DaysBeforeMonth(y, m - 1) + MonthLength(y, m - 1)
  }

  /** Number of leap years among 1..n (counted downwards, as a negative count, when n < 0). */
  function LeapsThrough(n: int): int
  {
    n / 4 - n / 100 + n / 400
  }

  /** Days from 1970-01-01 to the first day of year y (negative before 1970). */
  function DaysBeforeYear(y: int): int
  {
    365 * (y - 1970) + LeapsThrough(y - 1) - LeapsThrough(1969)
  }

  /** A positive multiple of k is at least k. */
  lemma {:induction false} MulAtLeast(k: nat, n: int)
    requires n >= 1
    ensures k * n >= k
    decreases n
  {
    if n > 1 {
      MulAtLeast(k, n - 1);
      assert k * n == k * (n - 1) + k;
    }
  }

  /** Euclidean division is determined by quotient and remainder. */
  lemma DivModUnique(y: int, k: int, q: int, r: int)
    requires k > 0 && y == k * q + r && 0 <= r < k
    ensures y / k == q && y % k == r
  {
    var q0, r0 := y / k, y % k;
    assert y == k * q0 + r0;
    assert k * (q - q0) == r0 - r by {
      assert k * (q - q0) == k * q - k * q0;
    }
    if q > q0 {
      MulAtLeast(k, q - q0);
    } else if q < q0 {
      MulAtLeast(k, q0 - q);
    }
  }

  /** y / k grows by one exactly when y crosses a multiple of k. */
  lemma DivStep(y: int, k: int)
    requires k > 0
    ensures y / k - (y - 1) / k == if y % k == 0 then 1 else 0
  {
    var q, r := y / k, y % k;
    if r == 0 {
      DivModUnique(y - 1, k, q - 1, k - 1);
    } else {
      DivModUnique(y - 1, k, q, r - 1);
    }
  }

  /** The closed-form year count agrees with the leap-year rule: 1970 is day 0 and each year adds its length. */
  lemma {:induction false} DaysBeforeYearStep(y: int)
    ensures DaysBeforeYear(1970) == 0
    ensures DaysBeforeYear(y + 1) == DaysBeforeYear(y) + YearLength(y)
  {
    DivStep(y, 4);
    DivStep(y, 100);
    DivStep(y, 400);
  }

  predicate ValidDateTime(d: DateTime)
  {
    1 <= d.month <= 12 && 1 <= d.day <= MonthLength(d.year, d.month)
    && d.hour < 24 && d.minute < 60 && d.second < 60
  }

  /** Days from 1970-01-01 to the date d. */
  function EpochDay(d: DateTime): int
    requires ValidDateTime(d)
  {
    DaysBeforeYear(d.year) + DaysBeforeMonth(d.year, d.month) + d.day - 1
  }

  /** Seconds since midnight of the time d. */
  function SecondOfDay(d: DateTime): (r: nat)
    requires ValidDateTime(d)
    ensures r < 86400
  {
    d.hour * 3600 + d.minute * 60 + d.second
  }

  /** The instant of d read as UTC, in milliseconds since the epoch. */
  function EpochMillis(d: DateTime): int
    requires ValidDateTime(d)
  {
    (EpochDay(d) * 86400 + SecondOfDay(d)) * 1000
  }

  /**
   * The instant is a whole second, and dividing it back gives the day and
   * each time-of-day field: the conversion loses nothing of d.
   */
  lemma EpochMillisFields(d: DateTime)
    requires ValidDateTime(d)
    ensures EpochMillis(d) % 1000 == 0
    ensures EpochMillis(d) / 86400000 == EpochDay(d)
    ensures (EpochMillis(d) / 1000) % 60 == d.second
    ensures (EpochMillis(d) / 60000) % 60 == d.minute
    ensures (EpochMillis(d) / 3600000) % 24 == d.hour
  {
    var day, sec := EpochDay(d), SecondOfDay(d);
    var ms := EpochMillis(d);
    DivModUnique(ms, 1000, day * 86400 + sec, 0);
    DivModUnique(ms, 86400000, day, sec * 1000);
    DivModUnique(ms / 1000, 60, day * 1440 + d.hour * 60 + d.minute, d.second);
    DivModUnique(ms, 60000, day * 1440 + d.hour * 60 + d.minute, d.second * 1000);
    DivModUnique(ms / 60000, 60, day * 24 + d.hour, d.minute);
    DivModUnique(ms, 3600000, day * 24 + d.hour, d.minute * 60000 + d.second * 1000);
    DivModUnique(ms / 3600000, 24, day, d.hour);
  }

  /** Within a month, the next day is the next epoch day. */
  lemma EpochDayNext(d: DateTime)
    requires ValidDateTime(d) && d.day < MonthLength(d.year, d.month)
    ensures ValidDateTime(d.(day := d.day + 1))
    ensures EpochDay(d.(day := d.day + 1)) == EpochDay(d) + 1
  {
  }

  /** The last day of a year is followed by the first day of the next year. */
  lemma EpochDayNewYear(y: nat)
    ensures ValidDateTime(DateTime(y, 12, 31, 0, 0, 0)) && ValidDateTime(DateTime(y + 1, 1, 1, 0, 0, 0))
    ensures EpochDay(DateTime(y + 1, 1, 1, 0, 0, 0)) == EpochDay(DateTime(y, 12, 31, 0, 0, 0)) + 1
  {
    DaysBeforeYearStep(y);
    MonthsFillYear(y);
  }

  /** The twelve month lengths add up to the year length. */
  lemma MonthsFillYear(y: int)
    ensures DaysBeforeMonth(y, 12) + MonthLength(y, 12) == YearLength(y)
  {
    assert DaysBeforeMonth(y, 2) == DaysBeforeMonth(y, 1) + MonthLength(y, 1);
    assert DaysBeforeMonth(y, 3) == DaysBeforeMonth(y, 2) + MonthLength(y, 2);
    assert DaysBeforeMonth(y, 4) == DaysBeforeMonth(y, 3) + MonthLength(y, 3);
    assert DaysBeforeMonth(y, 5) == DaysBeforeMonth(y, 4) + MonthLength(y, 4);
    assert DaysBeforeMonth(y, 6) == DaysBeforeMonth(y, 5) + MonthLength(y, 5);
    assert DaysBeforeMonth(y, 7) == DaysBeforeMonth(y, 6) + MonthLength(y, 6);
    assert DaysBeforeMonth(y, 8) == DaysBeforeMonth(y, 7) + MonthLength(y, 7);
    assert DaysBeforeMonth(y, 9) == DaysBeforeMonth(y, 8) + MonthLength(y, 8);
    assert DaysBeforeMonth(y, 10) == DaysBeforeMonth(y, 9) + MonthLength(y, 9);
    assert DaysBeforeMonth(y, 11) == DaysBeforeMonth(y, 10) + MonthLength(y, 10);
    assert DaysBeforeMonth(y, 12) == DaysBeforeMonth(y, 11) + MonthLength(y, 11);
  }

  /** The last day of a month is followed by the first day of the next month. */
  lemma EpochDayNextMonth(y: nat, m: nat)
    requires 1 <= m < 12
    ensures ValidDateTime(DateTime(y, m, MonthLength(y, m), 0, 0, 0)) && ValidDateTime(DateTime(y, m + 1, 1, 0, 0, 0))
    ensures EpochDay(DateTime(y, m + 1, 1, 0, 0, 0)) == EpochDay(DateTime(y, m, MonthLength(y, m), 0, 0, 0)) + 1
  {
  }

  // ---- fixed-width decimal fields ----

  predicate IsDigit(c: char)
  {
    '0' <= c <= '9'
  }

  predicate AllDigits(s: string)
  {
    forall i :: 0 <= i < |s| ==> IsDigit(s[i])
  }

  function Pow10(n: nat): (r: nat)
    ensures r > 0
  {
    if n == 0 then 1 else 10 * Pow10(n - 1)
  }

  /** The number a string of decimal digits denotes. */
  function DigitsValue(s: string): (n: nat)
    requires AllDigits(s)
    ensures n < Pow10(|s|)
  {
    if s == [] then 0
    else DigitsValue(s[..|s| - 1]) * 10 + (s[|s| - 1] as int - '0' as int)
  }

  /** n written in decimal, zero-padded (and truncated) to width digits. */
  function FormatDigits(n: nat, width: nat): (s: string)
    ensures |s| == width && AllDigits(s)
  {
    if width == 0 then []
    else FormatDigits(n / 10, width - 1) + [(('0' as int) + n % 10) as char]
  }

  /** Reading back a zero-padded number gives the number, when it fits the width. */
  lemma {:induction false} DigitsRoundTrip(n: nat, width: nat)
    requires n < Pow10(width)
    ensures DigitsValue(FormatDigits(n, width)) == n
  {
    if width > 0 {
      var s := FormatDigits(n, width);
      DigitsRoundTrip(n / 10, width - 1);
      assert s[..|s| - 1] == FormatDigits(n / 10, width - 1);
    }
  }

  /** Writing a digit string's value at its own width gives the string back. */
  lemma {:induction false} FormatRoundTrip(s: string)
    requires AllDigits(s)
    ensures FormatDigits(DigitsValue(s), |s|) == s
  {
    if s != [] {
      var init, last := s[..|s| - 1], s[|s| - 1];
      FormatRoundTrip(init);
      var digit := last as int - '0' as int;
      DivModUnique(DigitsValue(s), 10, DigitsValue(init), digit);
      assert (('0' as int) + digit) as char == last;
      assert FormatDigits(DigitsValue(s), |s|) == FormatDigits(DigitsValue(init), |init|) + [last];
      assert s == init + [last];
    }
  }

  // ---- the `yyyy-MM-dd'T'HH:mm:ss` shape ----

  /** The pattern prefix this model reads: a whole-second UTC timestamp. */
  const TimestampPattern: string := "yyyy-MM-dd'T'HH:mm:ss"

  /** Where the text's separators stand and what they are. */
  predicate HasTimestampSeparators(text: string)
    requires |text| >= 19
  {
    text[4] == '-' && text[7] == '-' && text[10] == 'T' && text[13] == ':' && text[16] == ':'
  }

  predicate HasTimestampDigits(text: string)
    requires |text| >= 19
  {
    AllDigits(text[0..4]) && AllDigits(text[5..7]) && AllDigits(text[8..10])
    && AllDigits(text[11..13]) && AllDigits(text[14..16]) && AllDigits(text[17..19])
  }

  /**
   * Reads the first 19 characters as `yyyy-MM-dd'T'HH:mm:ss`; whatever follows
   * (sub-second digits, a zone letter) is not read. A malformed text or an
   * out-of-range field gives None.
   */
  function ParseTimestamp(text: string): Option<DateTime>
  {
    if |text| < 19 || !HasTimestampSeparators(text) || !HasTimestampDigits(text) then None
    else
      var d := DateTime(DigitsValue(text[0..4]), DigitsValue(text[5..7]), DigitsValue(text[8..10]),
                        DigitsValue(text[11..13]), DigitsValue(text[14..16]), DigitsValue(text[17..19]));
      if ValidDateTime(d) then Some(d) else None
  }

  /** The canonical `yyyy-MM-dd'T'HH:mm:ss` text of d. */
  function FormatTimestamp(d: DateTime): (s: string)
    requires d.year < 10000 && d.month < 100 && d.day < 100
    ensures |s| == 19
  {
    FormatDigits(d.year, 4) + "-" + FormatDigits(d.month, 2) + "-" + FormatDigits(d.day, 2) + "T"
    + FormatDigits(d.hour, 2) + ":" + FormatDigits(d.minute, 2) + ":" + FormatDigits(d.second, 2)
  }

  /** The pieces of a formatted timestamp, by position. */
  lemma FormatTimestampPieces(d: DateTime, s: string)
    requires d.year < 10000 && d.month < 100 && d.day < 100 && s == FormatTimestamp(d)
    ensures s[0..4] == FormatDigits(d.year, 4) && s[5..7] == FormatDigits(d.month, 2)
    ensures s[8..10] == FormatDigits(d.day, 2) && s[11..13] == FormatDigits(d.hour, 2)
    ensures s[14..16] == FormatDigits(d.minute, 2) && s[17..19] == FormatDigits(d.second, 2)
    ensures HasTimestampSeparators(s)
  {
  }

  /** A formatted valid timestamp, followed by anything, parses back to itself. */
  lemma ParseFormatTimestamp(d: DateTime, tail: string)
    requires ValidDateTime(d) && d.year < 10000
    ensures ParseTimestamp(FormatTimestamp(d) + tail) == Some(d)
  {
    var s := FormatTimestamp(d);
    var text := s + tail;
    FormatTimestampPieces(d, s);
    assert text[..19] == s;
    assert text[0..4] == s[0..4] && text[5..7] == s[5..7] && text[8..10] == s[8..10];
    assert text[11..13] == s[11..13] && text[14..16] == s[14..16] && text[17..19] == s[17..19];
    DigitsRoundTrip(d.year, 4);
    assert Pow10(2) == 100;
    DigitsRoundTrip(d.month, 2);
    DigitsRoundTrip(d.day, 2);
    DigitsRoundTrip(d.hour, 2);
    DigitsRoundTrip(d.minute, 2);
    DigitsRoundTrip(d.second, 2);
  }

  /** Two texts that agree on every field slice and every separator agree on their first 19 characters. */
  lemma AgreeOnTimestamp(text: string, s: string)
    requires |text| >= 19 && |s| == 19 && HasTimestampSeparators(text) && HasTimestampSeparators(s)
    requires text[0..4] == s[0..4] && text[5..7] == s[5..7] && text[8..10] == s[8..10]
    requires text[11..13] == s[11..13] && text[14..16] == s[14..16] && text[17..19] == s[17..19]
    ensures text[..19] == s
  {
    forall i | 0 <= i < 19 ensures text[i] == s[i] {
      if i < 4 { assert text[i] == text[0..4][i] && s[i] == s[0..4][i]; }
      else if 5 <= i < 7 { assert text[i] == text[5..7][i - 5] && s[i] == s[5..7][i - 5]; }
      else if 8 <= i < 10 { assert text[i] == text[8..10][i - 8] && s[i] == s[8..10][i - 8]; }
      else if 11 <= i < 13 { assert text[i] == text[11..13][i - 11] && s[i] == s[11..13][i - 11]; }
      else if 14 <= i < 16 { assert text[i] == text[14..16][i - 14] && s[i] == s[14..16][i - 14]; }
      else if 17 <= i < 19 { assert text[i] == text[17..19][i - 17] && s[i] == s[17..19][i - 17]; }
    }
  }

  /** Only canonical text parses: a parsed timestamp's first 19 characters are its formatted fields. */
  lemma ParseTimestampCanonical(text: string, d: DateTime)
    requires ParseTimestamp(text) == Some(d)
    ensures ValidDateTime(d) && d.year < 10000
    ensures text[..19] == FormatTimestamp(d)
  {
    assert Pow10(4) == 10000;
    assert Pow10(2) == 100;
    FormatRoundTrip(text[0..4]);
    FormatRoundTrip(text[5..7]);
    FormatRoundTrip(text[8..10]);
    FormatRoundTrip(text[11..13]);
    FormatRoundTrip(text[14..16]);
    FormatRoundTrip(text[17..19]);
    var s := FormatTimestamp(d);
    FormatTimestampPieces(d, s);
    AgreeOnTimestamp(text, s);
  }

  /**
   * Parses text by a date pattern whose leading part is
   * `yyyy-MM-dd'T'HH:mm:ss`: the whole-second UTC instant in milliseconds.
   * A pattern of any other shape is not supported here.
   */
  function ParseDateByPattern(text: string, pattern: string): (r: Option<int>)
    ensures r.Some? ==> r.value % 1000 == 0
  {
    if !(TimestampPattern <= pattern) then None
    else match ParseTimestamp(text)
      case None => None
      case Some(d) => EpochMillisFields(d); Some(EpochMillis(d))
  }

  /** The instant 2009-02-13T23:31:31 UTC is 1234567891 seconds after the epoch. */
  lemma EpochMillisExample()
    ensures ValidDateTime(DateTime(2009, 2, 13, 23, 31, 31))
    ensures EpochMillis(DateTime(2009, 2, 13, 23, 31, 31)) == 1234567891000
  {
    assert DaysBeforeYear(2009) == 14245;
    assert DaysBeforeMonth(2009, 2) == 31;
  }

  lemma FormatYearExample()
    ensures FormatDigits(2009, 4) == "2009"
  {
    assert FormatDigits(2, 1) == "2";
    assert FormatDigits(20, 2) == "20";
    assert FormatDigits(200, 3) == "200";
  }

  lemma FormatTwoDigitsExample()
    ensures FormatDigits(2, 2) == "02" && FormatDigits(13, 2) == "13"
    ensures FormatDigits(23, 2) == "23" && FormatDigits(31, 2) == "31"
  {
    assert FormatDigits(0, 1) == "0";
    assert FormatDigits(1, 1) == "1";
    assert FormatDigits(2, 1) == "2";
    assert FormatDigits(3, 1) == "3";
  }

  /** The example timestamp's text is the canonical form of its fields. */
  lemma FormatTimestampExample()
    ensures FormatTimestamp(DateTime(2009, 2, 13, 23, 31, 31)) == "2009-02-13T23:31:31"
  {
    FormatYearExample();
    FormatTwoDigitsExample();
    assert FormatTimestamp(DateTime(2009, 2, 13, 23, 31, 31))
        == "2009" + "-" + "02" + "-" + "13" + "T" + "23" + ":" + "31" + ":" + "31";
  }

  /** The test's text starts with the example timestamp. */
  lemma ParseTimestampExample()
    ensures ParseTimestamp("2009-02-13T23:31:31.000Z") == Some(DateTime(2009, 2, 13, 23, 31, 31))
  {
    var d := DateTime(2009, 2, 13, 23, 31, 31);
    FormatTimestampExample();
    assert FormatTimestamp(d) + ".000Z" == "2009-02-13T23:31:31.000Z";
    ParseFormatTimestamp(d, ".000Z");
  }

  /** The test's pattern begins with the supported timestamp shape. */
  lemma PatternExampleSupported()
    ensures TimestampPattern <= "yyyy-MM-dd'T'HH:mm:ss'000Z'"
  {
    assert "yyyy-MM-dd'T'HH:mm:ss'000Z'"[..|TimestampPattern|] == TimestampPattern;
  }

  /** The text with sub-second digits and a zone letter, under a pattern that ends in a literal, reads as the whole second. */
  lemma ParseDateByPatternExample()
    ensures ParseDateByPattern("2009-02-13T23:31:31.000Z", "yyyy-MM-dd'T'HH:mm:ss'000Z'") == Some(1234567891000)
  {
    EpochMillisExample();
    ParseTimestampExample();
    PatternExampleSupported();
  }
}
