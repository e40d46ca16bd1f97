/** Timestamp arithmetic: the runtime's milliseconds since 1970, and the merge script's sort key. */
module Timestamps {
  import opened Text
  import opened Digits
  import opened Domain

  datatype Fields = Fields(year: nat, month: nat, day: nat, hour: nat, minute: nat, second: nat, milli: nat)

  predicate IsLeapYear(year: int) {
    (year % 4 == 0 && year % 100 != 0) || year % 400 == 0
  }

  function DaysInMonth(year: int, month: int): nat
    requires 1 <= month <= 12
  {
    if month == 2 then if IsLeapYear(year) then 29 else 28
    else if month == 4 || month == 6 || month == 9 || month == 11 then 30
    else 31
  }

  function DaysInYear(year: int): nat {
    if IsLeapYear(year) then 366 else 365
  }

  /** A date and a time of day that the runtime accepts. */
  predicate ValidFields(f: Fields) {
    && 1 <= f.month <= 12 && 1 <= f.day <= DaysInMonth(f.year, f.month)
    && f.hour <= 23 && f.minute <= 59 && f.second <= 59 && f.milli <= 999
  }

  /** Days from the start of 1970 to the start of a year; years before 1970 count none. */
  function YearStart(year: int): nat
    decreases year
  {
    if year <= 1970 then 0 else YearStart(year - 1) + DaysInYear(year - 1)
  }

  function MonthStart(year: int, month: int): nat
    requires 1 <= month <= 13
    decreases month
  {
    if month == 1 then 0 else MonthStart(year, month - 1) + DaysInMonth(year, month - 1)
  }

  function DayNumber(f: Fields): nat
    requires ValidFields(f)
  {
    YearStart(f.year) + MonthStart(f.year, f.month) + f.day - 1
  }

  function Millis(f: Fields): nat
    requires ValidFields(f)
  {
    (((DayNumber(f) * 24 + f.hour) * 60 + f.minute) * 60 + f.second) * 1000 + f.milli
  }

  // ---- Reading a timestamp ----

  /** `parse_fixed_width_int`: -1 when the digits are not there. */
  function FixedWidth(text: string, offset: nat, width: nat): int {
    if offset + width > |text| || !AllDigits(text[offset..offset + width]) then -1
    else Value(text[offset..offset + width])
  }

  /** The digits a text starts with, at most `limit` of them. */
  function LeadingDigits(text: string, limit: nat): (digits: string)
    ensures AllDigits(digits) && |digits| <= limit
  {
    if limit == 0 || text == "" || !IsDigit(text[0]) then ""
    else [text[0]] + LeadingDigits(text[1..], limit - 1)
  }

  /** Up to three digits after the point, filled up with zeros on the right. */
  function Thousandths(digits: string): (n: nat)
    requires AllDigits(digits) && |digits| <= 3
    ensures n <= 999
  {
    assert Power(3) == 1000;
    Value(FilledUp(digits, 3))
  }

  /** `parse_fractional_millis`. */
  function FractionalMillis(text: string, offset: nat): nat {
    if offset >= |text| then 0 else Thousandths(LeadingDigits(text[offset..], 3))
  }

  /** The fields a timestamp spells out, -1 where a number is missing; `None` outside the three layouts. */
  datatype Spelled = Spelled(year: int, month: int, day: int, hour: int, minute: int, second: int, milli: nat)

  const NOT_SPELLED := Spelled(-1, -1, -1, -1, -1, -1, 0)

  function Spell(t: string): Spelled {
    if |t| >= 19 && t[4] == '-' && t[7] == '-' then
      Spelled(FixedWidth(t, 0, 4), FixedWidth(t, 5, 2), FixedWidth(t, 8, 2),
              FixedWidth(t, 11, 2), FixedWidth(t, 14, 2), FixedWidth(t, 17, 2),
              if |t| > 20 && t[19] == '.' then FractionalMillis(t, 20) else 0)
    else if |t| >= 14 && AllDigits(t[..14]) then
      Spelled(FixedWidth(t, 0, 4), FixedWidth(t, 4, 2), FixedWidth(t, 6, 2),
              FixedWidth(t, 8, 2), FixedWidth(t, 10, 2), FixedWidth(t, 12, 2),
              if |t| > 15 && t[14] == '.' && IsDigit(t[15]) then FractionalMillis(t, 15) else 0)
    else if |t| >= 17 && t[8] == ' ' then
      Spelled(FixedWidth(t, 0, 4), FixedWidth(t, 4, 2), FixedWidth(t, 6, 2),
              FixedWidth(t, 9, 2), FixedWidth(t, 12, 2), FixedWidth(t, 15, 2),
              if |t| > 18 && t[17] == '.' then FractionalMillis(t, 18) else 0)
    else NOT_SPELLED
  }

  predicate InRange(s: Spelled) {
    && s.year >= 0 && 1 <= s.month <= 12 && 1 <= s.day <= DaysInMonth(s.year, s.month)
    && 0 <= s.hour <= 23 && 0 <= s.minute <= 59 && 0 <= s.second <= 59 && s.milli <= 999
  }

  function FieldsOf(s: Spelled): Fields
    requires InRange(s)
  {
    Fields(s.year, s.month, s.day, s.hour, s.minute, s.second, s.milli)
  }

  /** `parse_timestamp_to_millis`. */
  function ParseMillis(raw: string): Option<nat> {
    var s := Spell(Trim(raw));
    if InRange(s) then Some(Millis(FieldsOf(s))) else None
  }

  lemma {:induction false} ValueOfOneMore(s: string, c: char)
    requires AllDigits(s) && IsDigit(c)
    ensures AllDigits(s + [c]) && Value(s + [c]) == 10 * Value(s) + DigitValue(c)
  {
    assert (s + [c])[..|s|] == s;
  }

  method ParseFixedWidthInt(text: string, offset: nat, width: nat) returns (value: int)
    ensures value == FixedWidth(text, offset, width)
  {
    hide Value, AllDigits;
    if offset + width > |text| {
      return -1;
    }
    value := 0;
    NoDigitsYet(text, offset);
    for index := offset to offset + width
      invariant AllDigits(text[offset..index]) && value == Value(text[offset..index])
    {
      if !IsDigit(text[index]) {
        DigitMissing(text, offset, width, index);
        return -1;
      }
      ValueOfOneMore(text[offset..index], text[index]);
      assert text[offset..index + 1] == text[offset..index] + [text[index]];
      value := value * 10 + DigitValue(text[index]);
    }
  }

  lemma NoDigitsYet(text: string, offset: nat)
    requires offset <= |text|
    ensures AllDigits(text[offset..offset]) && Value(text[offset..offset]) == 0
  {
  }

  lemma DigitMissing(text: string, offset: nat, width: nat, index: nat)
    requires offset <= index < offset + width <= |text| && !IsDigit(text[index])
    ensures !AllDigits(text[offset..offset + width])
  {
    assert !IsDigit(text[offset..offset + width][index - offset]);
  }

  lemma TakesDigit(text: string, index: nat, limit: nat)
    requires index < |text| && limit > 0 && IsDigit(text[index])
    ensures LeadingDigits(text[index..], limit) == [text[index]] + LeadingDigits(text[index + 1..], limit - 1)
  {
    assert text[index..][0] == text[index] && text[index..][1..] == text[index + 1..];
  }

  lemma NoMoreDigits(text: string, index: nat, limit: nat)
    requires index <= |text| && (index == |text| || limit == 0 || !IsDigit(text[index]))
    ensures LeadingDigits(text[index..], limit) == ""
  {
    assert index < |text| ==> text[index..][0] == text[index];
  }

  lemma NoDigitsNoMillis(text: string, offset: nat)
    requires offset >= |text| || !IsDigit(text[offset])
    ensures FractionalMillis(text, offset) == 0
  {
    hide Value, LeadingDigits;
    NoThousandths();
    assert FilledUp("", 3) == "000";
    if offset < |text| {
      NoMoreDigits(text, offset, 3);
    }
  }

  method ParseFractionalMillis(text: string, offset: nat) returns (value: nat)
    ensures value == FractionalMillis(text, offset)
  {
    hide Value, LeadingDigits, FilledUp;
    if offset >= |text| || !IsDigit(text[offset]) {
      NoDigitsNoMillis(text, offset);
      return 0;
    }
    var index, digits := offset, 0;
    value := 0;
    ghost var read := "";
    NoThousandths();
    while index < |text| && digits < 3
      invariant offset <= index <= |text| && index == offset + digits && digits <= 3
      invariant AllDigits(read) && |read| == digits && value == Value(read)
      invariant LeadingDigits(text[offset..], 3) == read + LeadingDigits(text[index..], 3 - digits)
    {
      if !IsDigit(text[index]) {
        break;
      }
      ValueOfOneMore(read, text[index]);
      TakesDigit(text, index, 3 - digits);
      Regrouped(read, [text[index]], LeadingDigits(text[index + 1..], 3 - digits - 1));
      read := read + [text[index]];
      value := value * 10 + DigitValue(text[index]);
      index, digits := index + 1, digits + 1;
    }
    NoMoreDigits(text, index, 3 - digits);
    assert LeadingDigits(text[offset..], 3) == read;
    FilledAlready(read);
    while digits < 3
      invariant |read| <= digits <= 3
      invariant AllDigits(FilledUp(read, digits)) && value == Value(FilledUp(read, digits))
    {
      ValueOfOneMore(FilledUp(read, digits), '0');
      OneMoreZero(read, digits);
      value := value * 10;
      digits := digits + 1;
    }
  }

  lemma FilledAlready(digits: string)
    ensures FilledUp(digits, |digits|) == digits
  {
  }

  function FilledUp(digits: string, width: nat): string
    requires |digits| <= width
  {
    digits + seq(width - |digits|, _ => '0')
  }

  lemma OneMoreZero(digits: string, width: nat)
    requires |digits| <= width
    ensures FilledUp(digits, width) + ['0'] == FilledUp(digits, width + 1)
  {
  }

  lemma NoThousandths()
    ensures Value("") == 0 && Value("000") == 0
  {
    assert "000"[..2] == "00" && "00"[..1] == "0" && "0"[..0] == "";
  }

  /** The day loops of `parse_timestamp_to_millis`. */
  method CountDays(year: nat, month: nat, day: nat) returns (days: nat)
    requires 1 <= month <= 12 && day >= 1
    ensures days == YearStart(year) + MonthStart(year, month) + day - 1
  {
    days := 0;
    var currentYear := 1970;
    while currentYear < year
      invariant 1970 <= currentYear && (currentYear <= year || currentYear == 1970)
      invariant days == YearStart(currentYear)
    {
      days := days + if IsLeapYear(currentYear) then 366 else 365;
      currentYear := currentYear + 1;
    }
    assert YearStart(currentYear) == YearStart(year);
    for currentMonth := 1 to month
      invariant days == YearStart(year) + MonthStart(year, currentMonth)
    {
      days := days + DaysInMonth(year, currentMonth);
    }
    days := days + day - 1;
  }

  method ParseTimestampToMillis(raw: string) returns (millis: Option<nat>)
    ensures millis == ParseMillis(raw)
  {
    hide Trim, FixedWidth, FractionalMillis, YearStart, MonthStart, LeadingDigits, Thousandths;
    var spelled := SpellOut(Trim(raw));
    if !InRange(spelled) {
      return None;
    }
    var days := CountDays(spelled.year, spelled.month, spelled.day);
    millis := Some((((days * 24 + spelled.hour) * 60 + spelled.minute) * 60 + spelled.second) * 1000 + spelled.milli);
  }

  method SpellOut(t: string) returns (s: Spelled)
    ensures s == Spell(t)
  {
    hide FixedWidth, FractionalMillis;
    var dashed := |t| >= 19 && t[4] == '-' && t[7] == '-';
    var compact := !dashed && |t| >= 14 && AllDigits(t[..14]);
    var spaced := !dashed && !compact && |t| >= 17 && t[8] == ' ';
    if !dashed && !compact && !spaced {
      return NOT_SPELLED;
    }
    var year := ParseFixedWidthInt(t, 0, 4);
    var month := ParseFixedWidthInt(t, if dashed then 5 else 4, 2);
    var day := ParseFixedWidthInt(t, if dashed then 8 else 6, 2);
    var hour := ParseFixedWidthInt(t, if dashed then 11 else if compact then 8 else 9, 2);
    var minute := ParseFixedWidthInt(t, if dashed then 14 else if compact then 10 else 12, 2);
    var second := ParseFixedWidthInt(t, if dashed then 17 else if compact then 12 else 15, 2);
    var point := if dashed then 19 else if compact then 14 else 17;
    var millis := 0;
    if |t| > point + 1 && t[point] == '.' && (compact ==> IsDigit(t[point + 1])) {
      millis := ParseFractionalMillis(t, point + 1);
    }
    s := Spelled(year, month, day, hour, minute, second, millis);
  }

  // ---- The merge script ----

  function OnlyDigits(text: string): (digits: string)
    ensures AllDigits(digits)
  {
    if text == "" then "" else IfDigit(text[0]) + OnlyDigits(text[1..])
  }

  function IfDigit(c: char): (digits: string)
    ensures AllDigits(digits)
  {
    if IsDigit(c) then [c] else ""
  }

  /** `fractional_millis` of the script: the first three digits of the fraction, wherever they are. */
  function ScriptMillis(fraction: string): nat {
    var digits := OnlyDigits(fraction);
    Thousandths(if |digits| <= 3 then digits else digits[..3])
  }

  /** The text before the first point. */
  function BeforePoint(text: string): (base: string)
    ensures base <= text && '.' !in base && (|base| < |text| ==> text[|base|] == '.')
  {
    if text == "" || text[0] == '.' then "" else [text[0]] + BeforePoint(text[1..])
  }

  /** The script's sort key of the fields: their digits written one after the other, read as one number. */
  function KeyText(f: Fields): (key: string)
    ensures AllDigits(key)
  {
    Padded(f.year, 4) + Padded(f.month, 2) + Padded(f.day, 2)
    + Padded(f.hour, 2) + Padded(f.minute, 2) + Padded(f.second, 2) + Padded(f.milli, 3)
  }

  function SortKey(f: Fields): nat {
    Value(KeyText(f))
  }

  /** `normalize_timestamp`, up to its sort key. */
  function ScriptKey(raw: string): Option<nat> {
    var value := Trim(raw);
    var base := BeforePoint(value);
    var digits := OnlyDigits(base);
    if value == "" || |digits| < 14 then None
    else
      var millis := if |base| < |value| then ScriptMillis(value[|base| + 1..]) else 0;
      Some(SortKey(Fields(FixedWidth(digits, 0, 4), FixedWidth(digits, 4, 2), FixedWidth(digits, 6, 2),
                          FixedWidth(digits, 8, 2), FixedWidth(digits, 10, 2), FixedWidth(digits, 12, 2), millis)))
  }

  // ---- Order ----

  /** Chronological order of the fields. */
  predicate Earlier(f: Fields, g: Fields) {
    || f.year < g.year
    || (f.year == g.year && (f.month < g.month
    || (f.month == g.month && (f.day < g.day
    || (f.day == g.day && (f.hour < g.hour
    || (f.hour == g.hour && (f.minute < g.minute
    || (f.minute == g.minute && (f.second < g.second
    || (f.second == g.second && f.milli < g.milli)))))))))))
  }

  lemma {:induction false} YearStartGrows(year: int, later: int)
    requires 1970 <= year < later
    ensures YearStart(year) + DaysInYear(year) <= YearStart(later)
  {
    if year + 1 < later {
      YearStartGrows(year, later - 1);
    }
  }

  lemma {:induction false} MonthStartGrows(year: int, month: int, later: int)
    requires 1 <= month < later <= 13
    ensures MonthStart(year, month) + DaysInMonth(year, month) <= MonthStart(year, later)
  {
    if month + 1 < later {
      MonthStartGrows(year, month, later - 1);
    }
  }

  lemma MonthsMakeAYear(year: int)
    ensures MonthStart(year, 13) == DaysInYear(year)
  {
    assert MonthStart(year, 3) == 31 + DaysInMonth(year, 2);
    assert MonthStart(year, 6) == MonthStart(year, 3) + 92;
    assert MonthStart(year, 9) == MonthStart(year, 6) + 92;
    assert MonthStart(year, 11) == MonthStart(year, 9) + 61;
  }

  lemma DayOrder(f: Fields, g: Fields)
    requires ValidFields(f) && ValidFields(g) && f.year >= 1970
    requires f.year < g.year || (f.year == g.year && (f.month < g.month || (f.month == g.month && f.day < g.day)))
    ensures DayNumber(f) < DayNumber(g)
  {
    hide YearStart, MonthStart, DaysInMonth, DaysInYear;
    if f.year < g.year {
      YearStartGrows(f.year, g.year);
      MonthStartGrows(f.year, f.month, 13);
      MonthsMakeAYear(f.year);
    } else if f.month < g.month {
      MonthStartGrows(f.year, f.month, g.month);
    }
  }

  lemma MillisGrow(f: Fields, g: Fields)
    requires ValidFields(f) && ValidFields(g) && f.year >= 1970 && Earlier(f, g)
    ensures Millis(f) < Millis(g)
  {
    hide DayNumber;
    if !(f.year == g.year && f.month == g.month && f.day == g.day) {
      DayOrder(f, g);
    }
    assert f.year == g.year && f.month == g.month && f.day == g.day ==> DayNumber(f) == DayNumber(g) by {
      SameDay(f, g);
    }
  }

  lemma SameDay(f: Fields, g: Fields)
    requires ValidFields(f) && ValidFields(g)
    ensures f.year == g.year && f.month == g.month && f.day == g.day ==> DayNumber(f) == DayNumber(g)
  {
  }

  /** From 1970 on, milliseconds order valid times exactly as their fields do, and tell them apart. */
  lemma MillisAreChronological(f: Fields, g: Fields)
    requires ValidFields(f) && ValidFields(g) && f.year >= 1970 && g.year >= 1970
    ensures Millis(f) < Millis(g) <==> Earlier(f, g)
    ensures Millis(f) == Millis(g) ==> f == g
  {
    hide Millis;
    if Earlier(f, g) {
      MillisGrow(f, g);
    } else if Earlier(g, f) {
      MillisGrow(g, f);
    } else {
      assert f == g;
    }
  }

  /** The next millisecond on the clock and in the calendar. */
  function Next(f: Fields): Fields
    requires ValidFields(f)
  {
    if f.milli < 999 then f.(milli := f.milli + 1)
    else if f.second < 59 then f.(second := f.second + 1, milli := 0)
    else if f.minute < 59 then f.(minute := f.minute + 1, second := 0, milli := 0)
    else if f.hour < 23 then f.(hour := f.hour + 1, minute := 0, second := 0, milli := 0)
    else NextDay(f.(hour := 0, minute := 0, second := 0, milli := 0))
  }

  function NextDay(f: Fields): Fields
    requires ValidFields(f)
  {
    if f.day < DaysInMonth(f.year, f.month) then f.(day := f.day + 1)
    else if f.month < 12 then f.(month := f.month + 1, day := 1)
    else f.(year := f.year + 1, month := 1, day := 1)
  }

  lemma NextDayIsNext(f: Fields)
    requires ValidFields(f) && f.year >= 1970
    ensures ValidFields(NextDay(f)) && DayNumber(NextDay(f)) == DayNumber(f) + 1
  {
    hide YearStart, MonthStart, DaysInMonth, DaysInYear;
    MonthsHaveDays(f.year);
    if f.day == DaysInMonth(f.year, f.month) {
      if f.month < 12 {
        NextMonth(f.year, f.month);
      } else {
        NextYear(f.year);
      }
    }
  }

  lemma MonthsHaveDays(year: int)
    ensures forall month :: 1 <= month <= 12 ==> DaysInMonth(year, month) >= 28
    ensures DaysInMonth(year + 1, 1) == 31
  {
  }

  lemma NextMonth(year: int, month: int)
    requires 1 <= month < 12
    ensures MonthStart(year, month + 1) == MonthStart(year, month) + DaysInMonth(year, month)
  {
    hide DaysInMonth;
  }

  lemma NextYear(year: int)
    requires year >= 1970
    ensures YearStart(year + 1) + MonthStart(year + 1, 1)
         == YearStart(year) + MonthStart(year, 12) + DaysInMonth(year, 12)
  {
    hide DaysInMonth, DaysInYear;
    MonthsMakeAYear(year);
    assert MonthStart(year, 13) == MonthStart(year, 12) + DaysInMonth(year, 12);
  }

  /** Milliseconds are counted from the start of 1970, one for each millisecond on the clock. */
  lemma MillisCountMilliseconds(f: Fields)
    requires ValidFields(f) && f.year >= 1970
    ensures ValidFields(Next(f)) && Millis(Next(f)) == Millis(f) + 1
    ensures Millis(Fields(1970, 1, 1, 0, 0, 0, 0)) == 0
  {
    hide DayNumber, DaysInMonth, NextDay;
    Epoch();
    if f.milli == 999 && f.second == 59 && f.minute == 59 && f.hour == 23 {
      var midnight := f.(hour := 0, minute := 0, second := 0, milli := 0);
      NextDayIsNext(midnight);
      SameDay(f, midnight);
      NextDayIsMidnight(midnight);
    } else {
      SameDay(f, Next(f));
    }
  }

  lemma NextDayIsMidnight(f: Fields)
    requires ValidFields(f) && f.hour == 0 && f.minute == 0 && f.second == 0 && f.milli == 0
    ensures NextDay(f).hour == 0 && NextDay(f).minute == 0 && NextDay(f).second == 0 && NextDay(f).milli == 0
  {
  }

  lemma Epoch()
    ensures ValidFields(Fields(1970, 1, 1, 0, 0, 0, 0)) && DayNumber(Fields(1970, 1, 1, 0, 0, 0, 0)) == 0
  {
  }

  /** Every fourth year is a leap year, but of the centuries only every fourth. */
  lemma LeapYears(k: int)
    ensures k % 25 != 0 ==> IsLeapYear(4 * k)
    ensures IsLeapYear(400 * k)
    ensures !IsLeapYear(4 * k + 1) && !IsLeapYear(4 * k + 2) && !IsLeapYear(4 * k + 3)
    ensures k % 4 != 0 ==> !IsLeapYear(100 * k)
  {
    hide IsLeapYear;
    FourthYears(k);
    OtherYears(k, 1);
    OtherYears(k, 2);
    OtherYears(k, 3);
    Centuries(k);
  }

  lemma FourthYears(k: int)
    ensures k % 25 != 0 ==> IsLeapYear(4 * k)
    ensures IsLeapYear(400 * k)
  {
    assert (4 * k) % 4 == 0 && (400 * k) % 400 == 0;
    if (4 * k) % 100 == 0 {
      assert 4 * k == 100 * (4 * k / 100);
    }
  }

  lemma OtherYears(k: int, past: int)
    requires 1 <= past <= 3
    ensures !IsLeapYear(4 * k + past)
  {
    hide IsLeapYear;
    PastFourth(k, past);
    NotFourth(4 * k + past);
  }

  lemma PastFourth(k: int, past: int)
    requires 0 <= past <= 3
    ensures (4 * k + past) % 4 == past
  {
  }

  lemma NotFourth(year: int)
    requires year % 4 != 0
    ensures !IsLeapYear(year)
  {
    RestOfRest(year);
  }

  lemma RestOfRest(year: int)
    ensures year % 4 == year % 400 % 4
  {
    var q, r := year / 400, year % 400;
    assert year == 4 * (100 * q + r / 4) + r % 4;
    PastFourth(100 * q + r / 4, r % 4);
  }

  lemma Centuries(k: int)
    ensures k % 4 != 0 ==> !IsLeapYear(100 * k)
  {
    assert (100 * k) % 100 == 0;
    if (100 * k) % 400 == 0 {
      assert 100 * k == 400 * (100 * k / 400);
    }
  }

  /** Before 1970 they do not: every earlier year counts as 1970. */
  lemma YearsBefore1970Coincide(year: nat, hour: nat)
    requires year < 1970 && hour <= 23
    ensures Millis(Fields(year, 1, 1, hour, 0, 0, 0)) == Millis(Fields(1970, 1, 1, hour, 0, 0, 0))
  {
  }

  /** The last day of a year is counted before the first day of a later one. */
  predicate YearsApart(year: nat, later: nat) {
    YearStart(year) + DaysInYear(year) <= YearStart(later)
  }

  lemma YearsApartExactly(year: nat, later: nat)
    requires year < later
    ensures YearsApart(year, later) <==> year >= 1970 || later >= 1972 || (later == 1971 && !IsLeapYear(year))
  {
    hide IsLeapYear, YearStart;
    if year >= 1970 {
      YearStartGrows(year, later);
    } else {
      EarlyYears();
      assert YearStart(year) == 0 by { NoDaysBefore1970(year); }
      if later > 1972 {
        YearStartGrows(1972, later);
      } else if later <= 1970 {
        NoDaysBefore1970(later);
      }
    }
  }

  lemma NoDaysBefore1970(year: nat)
    ensures year <= 1970 ==> YearStart(year) == 0
  {
  }

  lemma EarlyYears()
    ensures YearStart(1971) == 365 && YearStart(1972) == 730
  {
    assert YearStart(1970) == 0;
    assert YearStart(1971) == YearStart(1970) + 365;
  }

  lemma WithinItsYear(f: Fields)
    requires ValidFields(f)
    ensures YearStart(f.year) <= DayNumber(f) < YearStart(f.year) + DaysInYear(f.year)
  {
    hide YearStart, MonthStart, DaysInMonth, DaysInYear;
    MonthStartGrows(f.year, f.month, 13);
    MonthsMakeAYear(f.year);
  }

  lemma EdgesOfYears(year: nat, later: nat)
    ensures var last, first := Fields(year, 12, 31, 23, 59, 59, 999), Fields(later, 1, 1, 0, 0, 0, 0);
      ValidFields(last) && ValidFields(first) && (Millis(last) < Millis(first) ==> YearsApart(year, later))
  {
    hide YearStart, DaysInYear;
    MonthsMakeAYear(year);
  }

  /** All times of one year come before all times of a later one exactly if the earlier year is 1970 or after, or the later
      one is at least 1972, or it is 1971 and the earlier is not a leap year, which is a day longer than 1970. */
  lemma YearsAreOrderedExactly(year: nat, later: nat)
    requires year < later
    ensures (forall f, g :: ValidFields(f) && ValidFields(g) && f.year == year && g.year == later ==> Millis(f) < Millis(g))
      <==> year >= 1970 || later >= 1972 || (later == 1971 && !IsLeapYear(year))
  {
    hide YearStart, DaysInYear, IsLeapYear, DayNumber, ValidFields;
    YearsApartExactly(year, later);
    EdgesOfYears(year, later);
    if YearsApart(year, later) {
      forall f, g | ValidFields(f) && ValidFields(g) && f.year == year && g.year == later ensures Millis(f) < Millis(g) {
        WithinItsYear(f);
        WithinItsYear(g);
        EarlierDay(f, g);
      }
    }
  }

  lemma EarlierDay(f: Fields, g: Fields)
    requires ValidFields(f) && ValidFields(g) && DayNumber(f) < DayNumber(g)
    ensures Millis(f) < Millis(g)
  {
    hide DayNumber;
  }

  /** The sort key as arithmetic. */
  lemma SortKeyIs(f: Fields)
    requires ValidFields(f) && f.year <= 9999
    ensures SortKey(f)
         == (((((f.year * 100 + f.month) * 100 + f.day) * 100 + f.hour) * 100 + f.minute) * 100 + f.second) * 1000 + f.milli
  {
    hide Value, Padded, Power, Shifted;
    assert Power(2) == 100 && Power(3) == 1000 && Power(4) == 10000 by {
      SmallPowers();
    }
    var y, mo, d := Padded(f.year, 4), Padded(f.month, 2), Padded(f.day, 2);
    var h, mi, s, ms := Padded(f.hour, 2), Padded(f.minute, 2), Padded(f.second, 2), Padded(f.milli, 3);
    PaddedIsExact(f.year, 4);
    PaddedIsExact(f.milli, 3);
    Appended(y, f.month);
    Appended(y + mo, f.day);
    Appended(y + mo + d, f.hour);
    Appended(y + mo + d + h, f.minute);
    Appended(y + mo + d + h + mi, f.second);
    ValueOfConcat(y + mo + d + h + mi + s, ms);
    ShiftedIs(Value(y + mo + d + h + mi + s), 3);
  }

  lemma SmallPowers()
    ensures Power(2) == 100 && Power(3) == 1000 && Power(4) == 10000
  {
  }

  lemma ShiftedIs(n: nat, width: nat)
    ensures Shifted(n, width) == n * Power(width)
  {
  }

  /** Two more digits. */
  lemma Appended(digits: string, n: nat)
    requires AllDigits(digits) && n <= 99
    ensures AllDigits(digits + Padded(n, 2)) && Value(digits + Padded(n, 2)) == Value(digits) * 100 + n
  {
    hide Value, Padded, Shifted;
    SmallPowers();
    PaddedIsExact(n, 2);
    ValueOfConcat(digits, Padded(n, 2));
    ShiftedIs(Value(digits), 2);
  }

  lemma SortKeysGrow(f: Fields, g: Fields)
    requires ValidFields(f) && ValidFields(g) && f.year <= 9999 && g.year <= 9999 && Earlier(f, g)
    ensures SortKey(f) < SortKey(g)
  {
    hide SortKey, DaysInMonth;
    SortKeyIs(f);
    SortKeyIs(g);
    assert f.day <= 31 && g.day <= 31 by {
      MonthsHaveAtMost31(f);
      MonthsHaveAtMost31(g);
    }
  }

  lemma MonthsHaveAtMost31(f: Fields)
    requires ValidFields(f)
    ensures f.day <= 31
  {
  }

  /** The script orders valid times as the runtime does. */
  lemma SortKeysAreChronological(f: Fields, g: Fields)
    requires ValidFields(f) && ValidFields(g) && f.year <= 9999 && g.year <= 9999
    ensures SortKey(f) < SortKey(g) <==> Earlier(f, g)
  {
    hide SortKey;
    if Earlier(f, g) {
      SortKeysGrow(f, g);
    } else if Earlier(g, f) {
      SortKeysGrow(g, f);
    } else {
      assert f == g;
    }
  }

  // ---- The layouts ----

  /** The three layouts, with whatever separators stand between the parts that the runtime does not look at. */
  datatype Layout =
    | Dashed(between: char, afterHour: char, afterMinute: char)
    | Compact
    | Spaced(afterHour: char, afterMinute: char)

  predicate Separator(c: char) {
    !IsDigit(c) && c != '.'
  }

  predicate ValidLayout(l: Layout) {
    match l
    case Dashed(a, b, c) => Separator(a) && Separator(b) && Separator(c)
    case Compact => true
    case Spaced(b, c) => Separator(b) && Separator(c)
  }

  /** What stands before the month, the day, the hour, the minute and the second. */
  function Separators(l: Layout): (seps: seq<string>)
    ensures |seps| == 5
  {
    match l
    case Dashed(between, afterHour, afterMinute) => ["-", "-", [between], [afterHour], [afterMinute]]
    case Compact => ["", "", "", "", ""]
    case Spaced(afterHour, afterMinute) => ["", "", " ", [afterHour], [afterMinute]]
  }

  /** The date and time without the fraction, built up part by part. */
  function Base(f: Fields, l: Layout): string {
    var seps := Separators(l);
    var toMonth := Padded(f.year, 4) + seps[0] + Padded(f.month, 2);
    var toDay := toMonth + seps[1] + Padded(f.day, 2);
    var toHour := toDay + seps[2] + Padded(f.hour, 2);
    var toMinute := toHour + seps[3] + Padded(f.minute, 2);
    toMinute + seps[4] + Padded(f.second, 2)
  }

  /** The time written out, with any digits after the point. */
  function Rendered(f: Fields, l: Layout, fraction: string): string {
    Base(f, l) + Tail(fraction)
  }

  function Tail(fraction: string): string {
    if fraction == "" then "" else "." + fraction
  }

  /** The milliseconds that digits after the point stand for: the first three, filled up on the right. */
  function FractionMillis(fraction: string): nat
    requires AllDigits(fraction)
  {
    Thousandths(if |fraction| <= 3 then fraction else fraction[..3])
  }

  lemma {:induction false} LeadingOfDigits(text: string, limit: nat)
    requires AllDigits(text)
    ensures LeadingDigits(text, limit) == if |text| <= limit then text else text[..limit]
  {
    if limit > 0 && text != "" {
      LeadingOfDigits(text[1..], limit - 1);
      assert text == [text[0]] + text[1..];
    }
  }

  lemma {:induction false} OnlyDigitsOfDigits(text: string)
    requires AllDigits(text)
    ensures OnlyDigits(text) == text
  {
    if text != "" {
      OnlyDigitsOfDigits(text[1..]);
    }
  }

  lemma {:induction false} OnlyDigitsConcat(s: string, t: string)
    ensures OnlyDigits(s + t) == OnlyDigits(s) + OnlyDigits(t)
  {
    hide IfDigit, AllDigits;
    if s == "" {
      assert s + t == t;
    } else {
      OnlyDigitsConcat(s[1..], t);
      assert (s + t)[1..] == s[1..] + t;
      var first, rest := IfDigit(s[0]), OnlyDigits(s[1..]);
      assert OnlyDigits(s + t) == first + (rest + OnlyDigits(t));
      Regrouped(first, rest, OnlyDigits(t));
    }
  }

  lemma Regrouped(a: string, b: string, c: string)
    ensures a + (b + c) == a + b + c
  {
  }

  lemma {:induction false} BeforePointOf(base: string, fraction: string)
    requires '.' !in base
    ensures BeforePoint(base) == base && BeforePoint(base + "." + fraction) == base
  {
    if base != "" {
      BeforePointOf(base[1..], fraction);
      assert (base + "." + fraction)[1..] == base[1..] + "." + fraction;
    }
  }

  function FourteenDigits(f: Fields): string {
    Padded(f.year, 4) + Padded(f.month, 2) + Padded(f.day, 2) + Padded(f.hour, 2) + Padded(f.minute, 2) + Padded(f.second, 2)
  }

  /** The fields of a time that can be written with a four-digit year. */
  predicate Writable(f: Fields) {
    ValidFields(f) && f.year <= 9999
  }

  lemma Widths(f: Fields)
    requires Writable(f)
    ensures |Padded(f.year, 4)| == 4 && Value(Padded(f.year, 4)) == f.year
    ensures |Padded(f.month, 2)| == 2 && Value(Padded(f.month, 2)) == f.month
    ensures |Padded(f.day, 2)| == 2 && Value(Padded(f.day, 2)) == f.day
    ensures |Padded(f.hour, 2)| == 2 && Value(Padded(f.hour, 2)) == f.hour
    ensures |Padded(f.minute, 2)| == 2 && Value(Padded(f.minute, 2)) == f.minute
    ensures |Padded(f.second, 2)| == 2 && Value(Padded(f.second, 2)) == f.second
  {
    hide Value, Padded;
    SmallPowers();
    MonthsHaveAtMost31(f);
    PaddedIsExact(f.year, 4);
    PaddedIsExact(f.month, 2);
    PaddedIsExact(f.day, 2);
    PaddedIsExact(f.hour, 2);
    PaddedIsExact(f.minute, 2);
    PaddedIsExact(f.second, 2);
  }

  lemma StaysPut(text: string, more: string, offset: nat, width: nat)
    requires offset + width <= |text|
    ensures FixedWidth(text + more, offset, width) == FixedWidth(text, offset, width)
  {
    hide Value;
    assert (text + more)[offset..offset + width] == text[offset..offset + width];
  }

  lemma FoundAtTheEnd(text: string, part: string)
    requires AllDigits(part)
    ensures FixedWidth(text + part, |text|, |part|) == Value(part)
  {
    hide Value;
    assert (text + part)[|text|..|text| + |part|] == part;
  }

  /** What is read from a text is still read after something is added to it. */
  ghost predicate Keeps(longer: string, text: string) {
    forall offset: nat, width: nat {:trigger FixedWidth(text, offset, width)} ::
      offset + width <= |text| ==> FixedWidth(longer, offset, width) == FixedWidth(text, offset, width)
  }

  /** A part added to a text is found where it was put, and the earlier parts stay where they were. */
  lemma PartAdded(text: string, separator: string, part: string)
    requires AllDigits(part)
    ensures FixedWidth(text + separator + part, |text| + |separator|, |part|) == Value(part)
    ensures Keeps(text + separator + part, text)
  {
    hide Value, FixedWidth;
    var longer := text + separator + part;
    FoundAtTheEnd(text + separator, part);
    assert longer == text + (separator + part);
    forall offset: nat, width: nat | offset + width <= |text|
      ensures FixedWidth(longer, offset, width) == FixedWidth(text, offset, width) {
      StaysPut(text, separator + part, offset, width);
    }
  }

  lemma TailAdded(text: string, tail: string)
    ensures Keeps(text + tail, text)
  {
    hide Value, FixedWidth;
    PartAdded(text, tail, "");
    assert text + tail + "" == text + tail;
  }

  /** Where the parts of a written time are. */
  lemma PartsOf(f: Fields, l: Layout, tail: string)
    requires Writable(f)
    ensures var t, seps := Base(f, l) + tail, Separators(l);
      var month := 4 + |seps[0]|;
      var day := month + 2 + |seps[1]|;
      var hour := day + 2 + |seps[2]|;
      var minute := hour + 2 + |seps[3]|;
      var second := minute + 2 + |seps[4]|;
      && |Base(f, l)| == second + 2
      && FixedWidth(t, 0, 4) == f.year && FixedWidth(t, month, 2) == f.month && FixedWidth(t, day, 2) == f.day
      && FixedWidth(t, hour, 2) == f.hour && FixedWidth(t, minute, 2) == f.minute && FixedWidth(t, second, 2) == f.second
  {
    hide Value, Padded, FixedWidth, Separators, Writable;
    var seps := Separators(l);
    Widths(f);
    var year := Padded(f.year, 4);
    var toMonth := year + seps[0] + Padded(f.month, 2);
    var toDay := toMonth + seps[1] + Padded(f.day, 2);
    var toHour := toDay + seps[2] + Padded(f.hour, 2);
    var toMinute := toHour + seps[3] + Padded(f.minute, 2);
    PartAdded("", "", year);
    assert "" + "" + year == year;
    PartAdded(year, seps[0], Padded(f.month, 2));
    PartAdded(toMonth, seps[1], Padded(f.day, 2));
    PartAdded(toDay, seps[2], Padded(f.hour, 2));
    PartAdded(toHour, seps[3], Padded(f.minute, 2));
    PartAdded(toMinute, seps[4], Padded(f.second, 2));
    TailAdded(Base(f, l), tail);
  }

  lemma FractionAt(text: string, base: string, fraction: string)
    requires AllDigits(fraction) && text == base + Tail(fraction)
    ensures fraction == "" ==> |text| == |base| && FractionMillis(fraction) == 0
    ensures fraction != "" ==>
      |text| > |base| + 1 && text[|base|] == '.' && text[|base| + 1] == fraction[0]
      && FractionalMillis(text, |base| + 1) == FractionMillis(fraction)
  {
    hide Value;
    if fraction == "" {
      NoFraction();
    } else {
      assert text[|base| + 1..] == fraction;
      LeadingOfDigits(fraction, 3);
    }
  }

  lemma DashedSpells(f: Fields, l: Layout, fraction: string)
    requires Writable(f) && AllDigits(fraction) && l.Dashed?
    ensures Spell(Rendered(f, l, fraction))
         == Spelled(f.year, f.month, f.day, f.hour, f.minute, f.second, FractionMillis(fraction))
  {
    hide Value, Padded, FixedWidth, FractionMillis, FractionalMillis, Writable;
    var text := Base(f, l) + Tail(fraction);
    Widths(f);
    PartsOf(f, l, Tail(fraction));
    FractionAt(text, Base(f, l), fraction);
    assert text[4] == '-' && text[7] == '-';
  }

  lemma CompactSpells(f: Fields, l: Layout, fraction: string)
    requires Writable(f) && AllDigits(fraction) && l.Compact?
    ensures Spell(Rendered(f, l, fraction))
         == Spelled(f.year, f.month, f.day, f.hour, f.minute, f.second, FractionMillis(fraction))
  {
    hide Value, Padded, FixedWidth, FractionMillis, FractionalMillis, Writable;
    var text := Base(f, l) + Tail(fraction);
    Widths(f);
    PartsOf(f, l, Tail(fraction));
    FractionAt(text, Base(f, l), fraction);
    assert text[..14] == Base(f, l);
    assert IsDigit(text[..14][4]);
  }

  lemma SpacedSpells(f: Fields, l: Layout, fraction: string)
    requires Writable(f) && AllDigits(fraction) && l.Spaced?
    ensures Spell(Rendered(f, l, fraction))
         == Spelled(f.year, f.month, f.day, f.hour, f.minute, f.second, FractionMillis(fraction))
  {
    hide Value, Padded, FixedWidth, FractionMillis, FractionalMillis, Writable;
    var text := Base(f, l) + Tail(fraction);
    Widths(f);
    PartsOf(f, l, Tail(fraction));
    FractionAt(text, Base(f, l), fraction);
    assert text[4] == Padded(f.month, 2)[0] && text[8] == ' ';
    assert text[..14][8] == ' ';
  }

  lemma RenderedIsTrimmed(f: Fields, l: Layout, fraction: string)
    requires Writable(f) && AllDigits(fraction)
    ensures Rendered(f, l, fraction) != "" && Trimmed(Rendered(f, l, fraction))
  {
    hide Value, Padded;
    Widths(f);
    var t := Rendered(f, l, fraction);
    assert t[0] == Padded(f.year, 4)[0];
    assert t[|t| - 1] == if fraction == "" then Padded(f.second, 2)[1] else fraction[|fraction| - 1];
  }

  /** The runtime reads a time back from each of its layouts, to the millisecond. */
  lemma RuntimeReadsBack(f: Fields, l: Layout, fraction: string)
    requires Writable(f) && AllDigits(fraction) && f.milli == FractionMillis(fraction)
    ensures ParseMillis(Rendered(f, l, fraction)) == Some(Millis(f))
  {
    hide Spell, Rendered, Millis, FractionMillis, Trim;
    RenderedIsTrimmed(f, l, fraction);
    TrimmedIsFixed(Rendered(f, l, fraction));
    match l {
      case Dashed(_, _, _) => DashedSpells(f, l, fraction);
      case Compact => CompactSpells(f, l, fraction);
      case Spaced(_, _) => SpacedSpells(f, l, fraction);
    }
  }

  // ---- The same layouts in the script ----

  lemma OnlyDigitsAdds(text: string, separator: string, part: string)
    requires OnlyDigits(separator) == "" && AllDigits(part)
    ensures OnlyDigits(text + separator + part) == OnlyDigits(text) + part
  {
    OnlyDigitsConcat(text + separator, part);
    OnlyDigitsConcat(text, separator);
    OnlyDigitsOfDigits(part);
  }

  lemma SeparatorsHaveNoDigits(l: Layout)
    requires ValidLayout(l)
    ensures forall i :: 0 <= i < 5 ==> OnlyDigits(Separators(l)[i]) == ""
  {
  }

  /** The digits of the part before the point are the fourteen digits of the time, whatever the layout. */
  lemma BaseDigits(f: Fields, l: Layout)
    requires ValidLayout(l)
    ensures OnlyDigits(Base(f, l)) == FourteenDigits(f)
  {
    hide Padded, OnlyDigits, Separators;
    var seps := Separators(l);
    var year := Padded(f.year, 4);
    var toMonth := year + seps[0] + Padded(f.month, 2);
    var toDay := toMonth + seps[1] + Padded(f.day, 2);
    var toHour := toDay + seps[2] + Padded(f.hour, 2);
    var toMinute := toHour + seps[3] + Padded(f.minute, 2);
    SeparatorsHaveNoDigits(l);
    OnlyDigitsOfDigits(year);
    OnlyDigitsAdds(year, seps[0], Padded(f.month, 2));
    OnlyDigitsAdds(toMonth, seps[1], Padded(f.day, 2));
    OnlyDigitsAdds(toDay, seps[2], Padded(f.hour, 2));
    OnlyDigitsAdds(toHour, seps[3], Padded(f.minute, 2));
    OnlyDigitsAdds(toMinute, seps[4], Padded(f.second, 2));
  }

  lemma BaseHasNoPoint(f: Fields, l: Layout)
    requires ValidLayout(l)
    ensures '.' !in Base(f, l)
  {
    hide Padded;
  }

  lemma FourteenParts(f: Fields)
    requires Writable(f)
    ensures var t := FourteenDigits(f);
      && |t| == 14 && FixedWidth(t, 0, 4) == f.year && FixedWidth(t, 4, 2) == f.month && FixedWidth(t, 6, 2) == f.day
      && FixedWidth(t, 8, 2) == f.hour && FixedWidth(t, 10, 2) == f.minute && FixedWidth(t, 12, 2) == f.second
  {
    hide Padded, FixedWidth, Writable;
    PartsOf(f, Compact, "");
    assert Base(f, Compact) + "" == FourteenDigits(f);
  }

  lemma ScriptMillisOf(fraction: string)
    requires AllDigits(fraction)
    ensures ScriptMillis(fraction) == FractionMillis(fraction)
  {
    OnlyDigitsOfDigits(fraction);
  }

  /** The text and the fraction around the point. */
  lemma AroundPoint(base: string, fraction: string)
    requires '.' !in base && AllDigits(fraction)
    ensures var text := base + Tail(fraction);
      && BeforePoint(text) == base
      && (|base| < |text| <==> fraction != "")
      && (fraction != "" ==> text[|base| + 1..] == fraction)
  {
    hide BeforePoint, AllDigits;
    BeforePointOf(base, fraction);
    if fraction == "" {
      assert base + Tail(fraction) == base;
    } else {
      assert base + Tail(fraction) == base + "." + fraction;
    }
  }

  /** The script finds the same fields in each layout. */
  lemma ScriptReadsBack(f: Fields, l: Layout, fraction: string)
    requires Writable(f) && ValidLayout(l) && AllDigits(fraction) && f.milli == FractionMillis(fraction)
    ensures ScriptKey(Rendered(f, l, fraction)) == Some(SortKey(f))
  {
    hide Base, SortKey, Trim, FourteenDigits, FixedWidth, Writable, Tail, ScriptMillis, FractionMillis, BeforePoint,
      OnlyDigits;
    var text := Rendered(f, l, fraction);
    RenderedIsTrimmed(f, l, fraction);
    TrimmedIsFixed(text);
    BaseHasNoPoint(f, l);
    AroundPoint(Base(f, l), fraction);
    BaseDigits(f, l);
    FourteenParts(f);
    ScriptMillisOf(fraction);
    NoFraction();
  }

  lemma NoFraction()
    ensures FractionMillis("") == 0
  {
    NoThousandths();
    assert "" + seq(3, _ => '0') == "000";
  }

  /** Written in whichever layouts, two times from 1970 on are ordered alike by the runtime's milliseconds, by the script's
      sort key, and by the calendar. */
  lemma RuntimeAndScriptAgree(f: Fields, l: Layout, a: string, g: Fields, k: Layout, b: string)
    requires Writable(f) && ValidLayout(l) && AllDigits(a) && f.milli == FractionMillis(a) && f.year >= 1970
    requires Writable(g) && ValidLayout(k) && AllDigits(b) && g.milli == FractionMillis(b) && g.year >= 1970
    ensures var m, n := ParseMillis(Rendered(f, l, a)), ParseMillis(Rendered(g, k, b));
      var p, q := ScriptKey(Rendered(f, l, a)), ScriptKey(Rendered(g, k, b));
      && m.Some? && n.Some? && p.Some? && q.Some?
      && (m.value < n.value <==> Earlier(f, g))
      && (p.value < q.value <==> Earlier(f, g))
      && (m == n ==> f == g)
  {
    hide Rendered, ParseMillis, ScriptKey, Millis, SortKey, FractionMillis, Earlier, ValidFields, ValidLayout;
    RuntimeReadsBack(f, l, a);
    RuntimeReadsBack(g, k, b);
    ScriptReadsBack(f, l, a);
    ScriptReadsBack(g, k, b);
    MillisAreChronological(f, g);
    SortKeysAreChronological(f, g);
  }
}
