/** The one date-time shape the cache parses: `YYYY-MM-DDTHH:mm:ssZ`, the
    RFC 3339 (section 5.6) `date-time` production with the `Z` offset, and its
    conversion to unix seconds (seconds since 1970-01-01T00:00:00Z, proleptic
    Gregorian calendar). */
module DateTime {
  import opened Values

  datatype Stamp = Stamp(year: int, month: int, day: int, hour: int, minute: int, second: int)

  predicate IsLeapYear(y: int) {
    y % 4 == 0 && (y % 100 != 0 || y % 400 == 0)
  }

  function YearLength(y: int): int {
    if IsLeapYear(y) then 366 else 365
  }

  function DaysInMonth(y: int, m: int): int
    requires 1 <= m <= 12
  {
    if m == 2 then (if IsLeapYear(y) then 29 else 28)
    else if m == 4 || m == 6 || m == 9 || m == 11 then 30
    else 31
  }

  /** A calendar date and time of day that the four-digit shape can spell. */
  predicate Valid(t: Stamp) {
    && 0 <= t.year <= 9999
    && 1 <= t.month <= 12
    && 1 <= t.day <= DaysInMonth(t.year, t.month)
    && 0 <= t.hour < 24
    && 0 <= t.minute < 60
    && 0 <= t.second < 60
  }

  // ---------------------------------------------------------------------
  // Day numbers

  /** Reference definition: days from 1970-01-01 to January 1 of year `y`,
      counted one year at a time. */
  function DaysToYear(y: int): int
    decreases if y < 1970 then 1970 - y else y - 1970
  {
    if y == 1970 then 0
    else if y > 1970 then DaysToYear(y - 1) + YearLength(y - 1)
    else DaysToYear(y + 1) - YearLength(y)
  }

  /** Number of leap years before `y`, up to a constant (floor division). */
  function LeapsBefore(y: int): int {
    (y - 1) / 4 - (y - 1) / 100 + (y - 1) / 400
  }

  /** Closed form of `DaysToYear`. */
  function DaysBeforeYear(y: int): int {
    365 * (y - 1970) + LeapsBefore(y) - LeapsBefore(1970)
  }

  /** Days from January 1 to the first of month `m`. */
  function DaysBeforeMonth(y: int, m: int): int
    requires 1 <= m <= 12
  {
    [0, 31, 59, 90, 120, 151, 181, 212, 243, 273, 304, 334][m - 1]
      + (if m > 2 && IsLeapYear(y) then 1 else 0)
  }

  /** Reference definition of `DaysBeforeMonth`: the lengths of the earlier months, summed. */
  function DaysBeforeMonthRef(y: int, m: int): int
    requires 1 <= m <= 12
  {
    if m == 1 then 0 else DaysBeforeMonthRef(y, m - 1) + DaysInMonth(y, m - 1)
  }

  /** Day number of a date: 0 for 1970-01-01, negative before it. */
  function DaysFromCivil(t: Stamp): int
    requires 1 <= t.month <= 12
  {
    DaysBeforeYear(t.year) + DaysBeforeMonth(t.year, t.month) + t.day - 1
  }

  /** `moment(...).unix()` of a date-time in the fixed shape. */
  function UnixSeconds(t: Stamp): int
    requires 1 <= t.month <= 12
  {
    DaysFromCivil(t) * 86400 + t.hour * 3600 + t.minute * 60 + t.second
  }

  lemma DivStep(y: int)
    ensures y / 4 - (y - 1) / 4 == (if y % 4 == 0 then 1 else 0)
    ensures y / 100 - (y - 1) / 100 == (if y % 100 == 0 then 1 else 0)
    ensures y / 400 - (y - 1) / 400 == (if y % 400 == 0 then 1 else 0)
  {
  }

  lemma MultipleOf100(y: int)
    requires y % 100 == 0
    ensures y % 4 == 0
  {
    var k := y / 100;
    assert y == 4 * (25 * k);
  }

  lemma MultipleOf400(y: int)
    requires y % 400 == 0
    ensures y % 100 == 0
  {
    var k := y / 400;
    assert y == 100 * (4 * k);
  }

  /** Moving from `y` to `y + 1` adds one leap year exactly when `y` is one. */
  lemma LeapsStep(y: int)
    ensures LeapsBefore(y + 1) - LeapsBefore(y) == (if IsLeapYear(y) then 1 else 0)
  {
    DivStep(y);
    var by4, by100, by400 := y % 4 == 0, y % 100 == 0, y % 400 == 0;
    if by100 { MultipleOf100(y); }
    if by400 { MultipleOf400(y); }
    assert LeapsBefore(y + 1) - LeapsBefore(y)
        == (if by4 then 1 else 0) - (if by100 then 1 else 0) + (if by400 then 1 else 0);
  }

  /** The closed form agrees with the year-by-year count for every year. */
  lemma {:induction false} DaysBeforeYearCorrect(y: int)
    ensures DaysBeforeYear(y) == DaysToYear(y)
    decreases if y < 1970 then 1970 - y else y - 1970
  {
    if y > 1970 {
      DaysBeforeYearCorrect(y - 1);
      LeapsStep(y - 1);
    } else if y < 1970 {
      DaysBeforeYearCorrect(y + 1);
      LeapsStep(y);
    }
  }

  /** The month table agrees with summing the month lengths. */
  lemma {:induction false} DaysBeforeMonthCorrect(y: int, m: int)
    requires 1 <= m <= 12
    ensures DaysBeforeMonth(y, m) == DaysBeforeMonthRef(y, m)
  {
    if m > 1 {
      DaysBeforeMonthCorrect(y, m - 1);
    }
  }

  /** The calendar day after a valid date. */
  function NextDay(t: Stamp): (r: Stamp)
    requires Valid(t)
  {
    if t.day < DaysInMonth(t.year, t.month) then t.(day := t.day + 1)
    else if t.month < 12 then t.(month := t.month + 1, day := 1)
    else t.(year := t.year + 1, month := 1, day := 1)
  }

  /** Day numbers have no gaps and no repeats: the next calendar day is the
      next day number, across month and year ends, leap years included. */
  lemma NextDayIsNextNumber(t: Stamp)
    requires Valid(t)
    ensures DaysFromCivil(NextDay(t)) == DaysFromCivil(t) + 1
  {
    if t.day == DaysInMonth(t.year, t.month) {
      if t.month < 12 {
        DaysBeforeMonthCorrect(t.year, t.month + 1);
        DaysBeforeMonthCorrect(t.year, t.month);
      } else {
        LeapsStep(t.year);
      }
    }
  }

  /** A unix time splits back into its day number and its second of the day. */
  lemma UnixSecondsSplit(t: Stamp)
    requires Valid(t)
    ensures UnixSeconds(t) / 86400 == DaysFromCivil(t)
    ensures UnixSeconds(t) % 86400 == t.hour * 3600 + t.minute * 60 + t.second
  {
    var tod := t.hour * 3600 + t.minute * 60 + t.second;
    assert 0 <= tod < 86400;
  }

  // ---------------------------------------------------------------------
  // Text

  predicate IsDigit(c: char) {
    '0' <= c <= '9'
  }

  predicate AllDigits(s: string) {
    forall i :: 0 <= i < |s| ==> IsDigit(s[i])
  }

  /** Decimal value of a digit string. */
  function Digits(s: string): nat
    requires AllDigits(s)
  {
    if s == [] then 0 else Digits(s[..|s| - 1]) * 10 + (s[|s| - 1] as int - '0' as int)
  }

  function Pow10(w: nat): nat {
    if w == 0 then 1 else 10 * Pow10(w - 1)
  }

  function DigitChar(d: int): char
    requires 0 <= d < 10
  {
    ('0' as int + d) as char
  }

  /** `n` written with exactly `w` decimal digits, leading zeros included. */
  function Pad(n: nat, w: nat): (r: string)
    ensures |r| == w && AllDigits(r)
  {
    if w == 0 then [] else Pad(n / 10, w - 1) + [DigitChar(n % 10)]
  }

  /** Padding then reading back gives the number, when it fits. */
  lemma {:induction false} DigitsOfPad(n: nat, w: nat)
    requires n < Pow10(w)
    ensures Digits(Pad(n, w)) == n
  {
    if w > 0 {
      DigitsOfPad(n / 10, w - 1);
      assert Pad(n, w)[..w - 1] == Pad(n / 10, w - 1);
    }
  }

  /** Reading then padding to the same width gives the digits back. */
  lemma {:induction false} PadOfDigits(s: string)
    requires AllDigits(s)
    ensures Digits(s) < Pow10(|s|)
    ensures Pad(Digits(s), |s|) == s
  {
    if s != [] {
      var init := s[..|s| - 1];
      PadOfDigits(init);
      var d := s[|s| - 1] as int - '0' as int;
      assert Digits(s) / 10 == Digits(init) && Digits(s) % 10 == d;
      assert s == init + [s[|s| - 1]];
    }
  }

  /** The separator positions of `YYYY-MM-DDTHH:mm:ssZ`. */
  predicate IsSeparatorPosition(i: int) {
    i == 4 || i == 7 || i == 10 || i == 13 || i == 16 || i == 19
  }

  predicate Shaped(s: string) {
    && |s| == 20
    && s[4] == '-' && s[7] == '-' && s[10] == 'T'
    && s[13] == ':' && s[16] == ':' && s[19] == 'Z'
    && forall i :: 0 <= i < 20 && !IsSeparatorPosition(i) ==> IsDigit(s[i])
  }

  /** Reads a string of the fixed shape that names a real date and time. */
  function Parse(s: string): (r: Option<Stamp>)
    ensures r.Some? ==> Shaped(s) && Valid(r.value)
  {
    if !Shaped(s) then None
    else
      assert AllDigits(s[0..4]) && AllDigits(s[5..7]) && AllDigits(s[8..10]);
      assert AllDigits(s[11..13]) && AllDigits(s[14..16]) && AllDigits(s[17..19]);
      var t := Stamp(Digits(s[0..4]), Digits(s[5..7]), Digits(s[8..10]),
                     Digits(s[11..13]), Digits(s[14..16]), Digits(s[17..19]));
      if Valid(t) then Some(t) else None
  }

  /** The fixed shape around six digit groups. */
  function Assemble(y: string, mo: string, d: string, h: string, mi: string, sec: string): string {
    y + "-" + mo + "-" + d + "T" + h + ":" + mi + ":" + sec + "Z"
  }

  /** Writes a valid date-time in the fixed shape. */
  function Format(t: Stamp): (r: string)
    requires Valid(t)
  {
    Assemble(Pad(t.year, 4), Pad(t.month, 2), Pad(t.day, 2),
             Pad(t.hour, 2), Pad(t.minute, 2), Pad(t.second, 2))
  }

  /** The pieces of an assembled string sit at the fixed positions. */
  lemma AssembleSlices(y: string, mo: string, d: string, h: string, mi: string, sec: string)
    requires |y| == 4 && |mo| == 2 && |d| == 2 && |h| == 2 && |mi| == 2 && |sec| == 2
    ensures var s := Assemble(y, mo, d, h, mi, sec);
      && |s| == 20
      && s[0..4] == y && s[5..7] == mo && s[8..10] == d
      && s[11..13] == h && s[14..16] == mi && s[17..19] == sec
      && s[4] == '-' && s[7] == '-' && s[10] == 'T' && s[13] == ':' && s[16] == ':' && s[19] == 'Z'
  {
  }

  /** A string of length 20 is reassembled from its slices. */
  lemma SlicesAssemble(s: string)
    requires Shaped(s)
    ensures Assemble(s[0..4], s[5..7], s[8..10], s[11..13], s[14..16], s[17..19]) == s
  {
    var a := Assemble(s[0..4], s[5..7], s[8..10], s[11..13], s[14..16], s[17..19]);
    AssembleSlices(s[0..4], s[5..7], s[8..10], s[11..13], s[14..16], s[17..19]);
    forall i | 0 <= i < 20 ensures a[i] == s[i] {
      if i < 4 { assert a[i] == a[0..4][i]; }
      else if 4 < i < 7 { assert a[i] == a[5..7][i - 5]; }
      else if 7 < i < 10 { assert a[i] == a[8..10][i - 8]; }
      else if 10 < i < 13 { assert a[i] == a[11..13][i - 11]; }
      else if 13 < i < 16 { assert a[i] == a[14..16][i - 14]; }
      else if 16 < i < 19 { assert a[i] == a[17..19][i - 17]; }
    }
  }

  /** Every valid date-time is read back from its own text. */
  lemma ParseFormat(t: Stamp)
    requires Valid(t)
    ensures Parse(Format(t)) == Some(t)
  {
    var s := Format(t);
    AssembleSlices(Pad(t.year, 4), Pad(t.month, 2), Pad(t.day, 2),
                   Pad(t.hour, 2), Pad(t.minute, 2), Pad(t.second, 2));
    forall i | 0 <= i < 20 && !IsSeparatorPosition(i) ensures IsDigit(s[i]) {
      if i < 4 { assert s[i] == s[0..4][i]; }
      else if i < 7 { assert s[i] == s[5..7][i - 5]; }
      else if i < 10 { assert s[i] == s[8..10][i - 8]; }
      else if i < 13 { assert s[i] == s[11..13][i - 11]; }
      else if i < 16 { assert s[i] == s[14..16][i - 14]; }
      else { assert s[i] == s[17..19][i - 17]; }
    }
    assert Shaped(s);
    DigitsOfPad(t.year, 4);
    DigitsOfPad(t.month, 2);
    DigitsOfPad(t.day, 2);
    DigitsOfPad(t.hour, 2);
    DigitsOfPad(t.minute, 2);
    DigitsOfPad(t.second, 2);
  }

  /** A string the parser accepts is the canonical text of what it read, so
      distinct accepted strings never denote the same date-time. */
  lemma FormatParse(s: string)
    requires Parse(s).Some?
    ensures Format(Parse(s).value) == s
  {
    PadOfDigits(s[0..4]);
    PadOfDigits(s[5..7]);
    PadOfDigits(s[8..10]);
    PadOfDigits(s[11..13]);
    PadOfDigits(s[14..16]);
    PadOfDigits(s[17..19]);
    SlicesAssemble(s);
  }

  /** `moment(v).unix()`: the unix seconds of a string in the fixed shape;
      any other input is kept uninterpreted as `UnixOf(v)`. */
  function UnixValue(v: Value): (r: Value)
    ensures r.Num? <==> v.Str? && Parse(v.s).Some?
    ensures r.Num? ==> r.n == UnixSeconds(Parse(v.s).value)
    ensures !r.Num? ==> r == UnixOf(v)
  {
    if v.Str? && Parse(v.s).Some? then Num(UnixSeconds(Parse(v.s).value)) else UnixOf(v)
  }

  function DigitAt(s: string, i: nat): int
    requires i < |s|
  {
    s[i] as int - '0' as int
  }

  lemma DigitsOfTwo(s: string)
    requires |s| == 2 && AllDigits(s)
    ensures Digits(s) == 10 * DigitAt(s, 0) + DigitAt(s, 1)
  {
    var first := s[..1];
    assert first[..0] == [] && first[0] == s[0];
    assert Digits(first) == DigitAt(s, 0);
  }

  lemma DigitsOfFour(s: string)
    requires |s| == 4 && AllDigits(s)
    ensures Digits(s) == 1000 * DigitAt(s, 0) + 100 * DigitAt(s, 1) + 10 * DigitAt(s, 2) + DigitAt(s, 3)
  {
    var three := s[..3];
    DigitsOfTwo(s[..2]);
    assert three[..2] == s[..2] && three[2] == s[2];
    assert Digits(three) == 10 * Digits(s[..2]) + DigitAt(s, 2);
  }

  /** What the parser reads from a string of the fixed shape. */
  lemma ParseShaped(s: string)
    requires Shaped(s)
    ensures var t := Stamp(
      1000 * DigitAt(s, 0) + 100 * DigitAt(s, 1) + 10 * DigitAt(s, 2) + DigitAt(s, 3),
      10 * DigitAt(s, 5) + DigitAt(s, 6), 10 * DigitAt(s, 8) + DigitAt(s, 9),
      10 * DigitAt(s, 11) + DigitAt(s, 12), 10 * DigitAt(s, 14) + DigitAt(s, 15),
      10 * DigitAt(s, 17) + DigitAt(s, 18));
      Parse(s) == if Valid(t) then Some(t) else None
  {
    assert AllDigits(s[0..4]) && AllDigits(s[5..7]) && AllDigits(s[8..10]);
    assert AllDigits(s[11..13]) && AllDigits(s[14..16]) && AllDigits(s[17..19]);
    DigitsOfFour(s[0..4]);
    DigitsOfTwo(s[5..7]);
    DigitsOfTwo(s[8..10]);
    DigitsOfTwo(s[11..13]);
    DigitsOfTwo(s[14..16]);
    DigitsOfTwo(s[17..19]);
  }

  /** The instants the cache's tests pin down. */
  lemma EpochInstant()
    ensures UnixValue(Str("1970-01-01T00:00:00Z")) == Num(0)
  {
    var s := "1970-01-01T00:00:00Z";
    assert Shaped(s);
    ParseShaped(s);
    assert Parse(s) == Some(Stamp(1970, 1, 1, 0, 0, 0));
  }

  lemma EpochPlusOneInstant()
    ensures UnixValue(Str("1970-01-01T00:00:01Z")) == Num(1)
  {
    var s := "1970-01-01T00:00:01Z";
    assert Shaped(s);
    ParseShaped(s);
    assert Parse(s) == Some(Stamp(1970, 1, 1, 0, 0, 1));
  }

  lemma DueDateInstant()
    ensures UnixValue(Str("2018-02-23T14:10:06Z")) == Num(1519395006)
  {
    var s := "2018-02-23T14:10:06Z";
    assert Shaped(s);
    ParseShaped(s);
    var t := Stamp(2018, 2, 23, 14, 10, 6);
    assert Parse(s) == Some(t);
    assert DaysBeforeYear(2018) == 17532;
    assert DaysFromCivil(t) == 17585;
  }
}
