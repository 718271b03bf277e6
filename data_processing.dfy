/** Pregnancy date arithmetic on DDMMYYYY strings: parsing with Python's `int()` and
    `datetime` rules, the clamped pregnancy week, the due date and the trimester label. */
module DataProcessing {
  import opened Wrappers
  import opened Values
  import opened Seqs
  import opened Text

  // ---------------------------------------------------------------------------
  // Python's int() on a short field

  function StripLeft(s: string): string {
    if s != [] && IsSpace(s[0]) then StripLeft(s[1..]) else s
  }

  function StripRight(s: string): string {
    if s != [] && IsSpace(s[|s| - 1]) then StripRight(s[..|s| - 1]) else s
  }

  /** `s.strip()`. */
  function Strip(s: string): string {
    StripRight(StripLeft(s))
  }

  /** Digits with single underscores between them, as `int()` accepts them. */
  predicate DigitGroups(s: string) {
    |s| > 0 && IsDigit(s[0]) && IsDigit(s[|s| - 1])
    && (forall i :: 0 <= i < |s| ==> IsDigit(s[i]) || s[i] == '_')
    && !Contains(s, "__")
  }

  function RemoveUnderscores(s: string): (r: string)
    requires forall i :: 0 <= i < |s| ==> IsDigit(s[i]) || s[i] == '_'
    ensures AllDigits(r)
  {
    if s == [] then []
    else (if s[0] == '_' then [] else [s[0]]) + RemoveUnderscores(s[1..])
  }

  /** `int(s)` for ASCII text: surrounding whitespace, an optional sign, then digits;
      `None` where `int()` raises `ValueError`. */
  function PyInt(s: string): Option<int> {
    IntLiteral(Strip(s))
  }

  /** `int()` after stripping: an optional sign, then digits. */
  function IntLiteral(t: string): Option<int> {
    if |t| > 0 && (t[0] == '+' || t[0] == '-') then
      if DigitGroups(t[1..]) then
        var v: int := DecimalValue(RemoveUnderscores(t[1..]));
        Some(if t[0] == '-' then -v else v)
      else None
    else if DigitGroups(t) then Some(DecimalValue(RemoveUnderscores(t)))
    else None
  }

  // ---------------------------------------------------------------------------
  // The proleptic Gregorian calendar of Python's `datetime`

  datatype Date = Date(year: int, month: int, day: int)

  predicate IsLeapYear(y: int) {
    y % 4 == 0 && (y % 100 != 0 || y % 400 == 0)
  }

  function DaysInMonth(y: int, m: int): int
    requires 1 <= m <= 12
  {
    if m == 2 then (if IsLeapYear(y) then 29 else 28)
    else if m == 4 || m == 6 || m == 9 || m == 11 then 30
    else 31
  }

  /** The date `datetime(year, month, day)` accepts. */
  predicate ValidDate(d: Date) {
    1 <= d.year <= 9999 && 1 <= d.month <= 12 && 1 <= d.day <= DaysInMonth(d.year, d.month)
  }

  function DaysInYear(y: int): int {
    if IsLeapYear(y) then 366 else 365
  }

  function DaysBeforeYear(y: int): int {
    var p := y - 1;
    p * 365 + p / 4 - p / 100 + p / 400
  }

  function DaysBeforeMonth(y: int, m: int): int
    requires 1 <= m <= 12
    decreases m
  {
    if m == 1 then 0 else DaysBeforeMonth(y, m - 1) + DaysInMonth(y, m - 1)
  }

  /** `date.toordinal()`: 1 for 1 January of year 1, counting days. Differences of day
      numbers are the `.days` of a subtraction of dates. */
  function DayNumber(d: Date): int
    requires ValidDate(d)
  {
    DaysBeforeYear(d.year) + DaysBeforeMonth(d.year, d.month) + d.day
  }

  /** The calendar day after `d`. */
  function NextDay(d: Date): Date
    requires ValidDate(d)
  {
    if d.day < DaysInMonth(d.year, d.month) then Date(d.year, d.month, d.day + 1)
    else if d.month < 12 then Date(d.year, d.month + 1, 1)
    else Date(d.year + 1, 1, 1)
  }

  /** A multiple of 400 is one of 100, and a multiple of 100 one of 4. */
  lemma MultipleChain(y: int)
    ensures y % 400 == 0 ==> y % 100 == 0
    ensures y % 100 == 0 ==> y % 4 == 0
  {
    var a, b := y / 400, y / 100;
    assert y == 400 * a + y % 400;
    assert y == 100 * b + y % 100;
    if y % 400 == 0 {
      assert y - 100 * b == 100 * (4 * a - b);
    }
    if y % 100 == 0 {
      assert y == 4 * (25 * b);
    }
  }

  lemma YearLength(y: int)
    ensures DaysBeforeYear(y + 1) == DaysBeforeYear(y) + DaysInYear(y)
  {
    assert y / 4 == (y - 1) / 4 + (if y % 4 == 0 then 1 else 0);
    assert y / 100 == (y - 1) / 100 + (if y % 100 == 0 then 1 else 0);
    assert y / 400 == (y - 1) / 400 + (if y % 400 == 0 then 1 else 0);
    MultipleChain(y);
    assert DaysBeforeYear(y + 1) == y * 365 + y / 4 - y / 100 + y / 400;
    assert DaysBeforeYear(y) == (y - 1) * 365 + (y - 1) / 4 - (y - 1) / 100 + (y - 1) / 400;
  }

  /** Day numbers count calendar days: the next day's number is one more. */
  lemma DayNumberNextDay(d: Date)
    requires ValidDate(d) && d.year < 9999
    ensures ValidDate(NextDay(d)) && DayNumber(NextDay(d)) == DayNumber(d) + 1
  {
    if d.day == DaysInMonth(d.year, d.month) && d.month == 12 {
      YearLength(d.year);
      assert DaysBeforeMonth(d.year, 12) + DaysInMonth(d.year, 12) == DaysInYear(d.year);
    }
  }

  // ---------------------------------------------------------------------------
  // DDMMYYYY

  /** `parse_ddmmyyyy`: day, month and year from characters [0:2], [2:4] and [4:8], each
      read with `int()`, within 1..31, 1..12 and 1900..2100 and forming a calendar date;
      `None` where the source raises `ValueError`. */
  function ParseDdmmyyyy(s: string): (r: Option<Date>)
    ensures s == "" || s == "0" || |s| != 8 ==> r.None?
    ensures r.Some? ==>
      (ValidDate(r.value) && 1900 <= r.value.year <= 2100
       && PyInt(s[..2]) == Some(r.value.day) && PyInt(s[2..4]) == Some(r.value.month)
       && PyInt(s[4..8]) == Some(r.value.year))
  {
    if s == "" || s == "0" || |s| != 8 then None
    else
      var day, month, year := PyInt(s[..2]), PyInt(s[2..4]), PyInt(s[4..8]);
      if day.None? || month.None? || year.None? then None
      else CheckedDate(day.value, month.value, year.value)
  }

  /** The range checks of `parse_ddmmyyyy`, then `datetime(year, month, day)`. */
  function CheckedDate(day: int, month: int, year: int): Option<Date> {
    if !(1 <= day <= 31 && 1 <= month <= 12 && 1900 <= year <= 2100) then None
    else if ValidDate(Date(year, month, day)) then Some(Date(year, month, day))
    else None
  }

  /** Two decimal digits with a leading zero. */
  function TwoDigits(n: nat): (s: string)
    requires n < 100
    ensures |s| == 2 && AllDigits(s)
  {
    [DigitChar(n / 10), DigitChar(n % 10)]
  }

  function FourDigits(n: nat): (s: string)
    requires n < 10000
    ensures |s| == 4 && AllDigits(s)
  {
    TwoDigits(n / 100) + TwoDigits(n % 100)
  }

  /** The DDMMYYYY rendering of a date (`strftime("%d%m%Y")`). */
  function FormatDdmmyyyy(d: Date): (s: string)
    requires ValidDate(d)
    ensures |s| == 8 && AllDigits(s)
  {
    TwoDigits(d.day) + TwoDigits(d.month) + FourDigits(d.year)
  }

  lemma StripDigits(s: string)
    requires |s| > 0 && AllDigits(s)
    ensures Strip(s) == s
  {
    assert !IsSpace(s[0]) && !IsSpace(s[|s| - 1]);
  }

  lemma RemoveUnderscoresDigits(s: string)
    requires AllDigits(s)
    ensures RemoveUnderscores(s) == s
  {
    if s != [] {
      RemoveUnderscoresDigits(s[1..]);
      assert s == [s[0]] + s[1..];
    }
  }

  /** `int()` of a string of ASCII digits is its decimal value. */
  lemma PyIntDigits(s: string)
    requires |s| > 0 && AllDigits(s)
    ensures PyInt(s) == Some(DecimalValue(s))
  {
    StripDigits(s);
    assert DigitGroups(s) by {
      forall i | 0 <= i <= |s| - 2 ensures !OccursAt(s, "__", i) {
        assert IsDigit(s[i]);
        assert s[i..i + 2][0] == s[i];
      }
    }
    RemoveUnderscoresDigits(s);
    assert !(s[0] == '+' || s[0] == '-') by {
      assert IsDigit(s[0]);
    }
  }

  lemma TwoDigitsValue(n: nat)
    requires n < 100
    ensures DecimalValue(TwoDigits(n)) == n
  {
    var s := TwoDigits(n);
    assert s[..1] == [DigitChar(n / 10)];
    DigitRoundTrip(n / 10);
    DigitRoundTrip(n % 10);
  }

  lemma FourDigitsValue(n: nat)
    requires n < 10000
    ensures DecimalValue(FourDigits(n)) == n
  {
    var s := FourDigits(n);
    var hi, lo := n / 100, n % 100;
    assert s[..3][..2] == s[..2] == TwoDigits(hi);
    assert s[..3][2] == DigitChar(lo / 10) && s[3] == DigitChar(lo % 10);
    TwoDigitsValue(hi);
    DigitRoundTrip(lo / 10);
    DigitRoundTrip(lo % 10);
    assert DecimalValue(s[..3]) == hi * 10 + lo / 10;
  }

  /** Every date of the accepted range survives rendering and parsing unchanged. */
  lemma ParseFormat(d: Date)
    requires ValidDate(d) && 1900 <= d.year <= 2100
    ensures ParseDdmmyyyy(FormatDdmmyyyy(d)) == Some(d)
  {
    var s := FormatDdmmyyyy(d);
    assert s[..2] == TwoDigits(d.day);
    assert s[2..4] == TwoDigits(d.month);
    assert s[4..8] == FourDigits(d.year);
    TwoDigitsValue(d.day);
    TwoDigitsValue(d.month);
    FourDigitsValue(d.year);
    PyIntDigits(s[..2]);
    PyIntDigits(s[2..4]);
    PyIntDigits(s[4..8]);
  }

  /** An all-digit string that parses is the rendering of its date: for digit strings,
      DDMMYYYY and the dates of 1900..2100 correspond one to one. */
  lemma FormatParse(s: string)
    requires AllDigits(s) && ParseDdmmyyyy(s).Some?
    ensures FormatDdmmyyyy(ParseDdmmyyyy(s).value) == s
  {
    var d := ParseDdmmyyyy(s).value;
    FieldRendering(s[..2], d.day);
    FieldRendering(s[2..4], d.month);
    FieldRendering(s[4..8], d.year);
    FieldsRendering(s, d);
  }

  /** Three fields that are the renderings of `d`'s parts make up `d`'s rendering. */
  lemma FieldsRendering(s: string, d: Date)
    requires |s| == 8 && ValidDate(d)
    requires s[..2] == TwoDigits(d.day) && s[2..4] == TwoDigits(d.month) && s[4..8] == FourDigits(d.year)
    ensures FormatDdmmyyyy(d) == s
  {
    assert s == s[..2] + s[2..4] + s[4..8];
  }

  /** A field of two or four ASCII digits that `int()` reads as `v` is the rendering of `v`. */
  lemma FieldRendering(field: string, v: int)
    requires |field| == 2 || |field| == 4
    requires AllDigits(field) && PyInt(field) == Some(v)
    ensures |field| == 2 ==> 0 <= v < 100 && field == TwoDigits(v)
    ensures |field| == 4 ==> 0 <= v < 10000 && field == FourDigits(v)
  {
    PyIntDigits(field);
    DecimalValueBound(field);
    if |field| == 2 {
      assert Pow10(2) == 100;
      TwoDigitsValue(v);
      DigitsUnique(field, TwoDigits(v));
    } else {
      assert Pow10(4) == 10000;
      FourDigitsValue(v);
      DigitsUnique(field, FourDigits(v));
    }
  }

  function Pow10(n: nat): nat {
    if n == 0 then 1 else 10 * Pow10(n - 1)
  }

  /** A string of `n` digits is worth less than `10^n`. */
  lemma {:induction false} DecimalValueBound(s: string)
    requires AllDigits(s)
    ensures DecimalValue(s) < Pow10(|s|)
  {
    if s != [] {
      DecimalValueBound(s[..|s| - 1]);
    }
  }

  /** A value's last decimal digit and the value above it are determined. */
  lemma LastDigit(x: nat, y: nat, da: nat, db: nat)
    requires da < 10 && db < 10 && x * 10 + da == y * 10 + db
    ensures x == y && da == db
  {
  }

  /** Digit strings of the same length and value are equal. */
  lemma DigitsUnique(a: string, b: string)
    requires AllDigits(a) && AllDigits(b) && |a| == |b| && DecimalValue(a) == DecimalValue(b)
    ensures a == b
    decreases |a|
  {
    if a != [] {
      var n := |a| - 1;
      var x, y := DecimalValue(a[..n]), DecimalValue(b[..n]);
      var da, db := DigitValue(a[n]), DigitValue(b[n]);
      assert x * 10 + da == y * 10 + db;
      LastDigit(x, y, da, db);
      DigitsUnique(a[..n], b[..n]);
      assert a[n] as int - '0' as int == b[n] as int - '0' as int;
      assert a == a[..n] + [a[n]] && b == b[..n] + [b[n]];
    }
  }

  /** 31 February is refused. */
  lemma NoThirtyFirstOfFebruary()
    ensures ParseDdmmyyyy("31022024") == None
  {
    var s := "31022024";
    assert s[..2] == "31" && s[2..4] == "02" && s[4..8] == "2024";
    assert DecimalValue("31") == 31 by { assert "31"[..1] == "3"; }
    assert DecimalValue("02") == 2 by { assert "02"[..1] == "0"; }
    FieldValue("31", 31);
    FieldValue("02", 2);
    FebruaryHasNo31st(s);
  }

  /** Whatever the year field holds, day 31 of month 2 is refused. */
  lemma FebruaryHasNo31st(s: string)
    requires |s| == 8 && PyInt(s[..2]) == Some(31) && PyInt(s[2..4]) == Some(2)
    ensures ParseDdmmyyyy(s) == None
  {
  }

  /** `int()` of a field of ASCII digits is their decimal value. */
  lemma FieldValue(field: string, v: int)
    requires AllDigits(field) && |field| > 0 && DecimalValue(field) == v
    ensures PyInt(field) == Some(v)
  {
    PyIntDigits(field);
  }

  // ---------------------------------------------------------------------------
  // Derived pregnancy data

  /** `max(1, min(weeks, 42))`. */
  function ClampWeek(weeks: int): (w: int)
    ensures 1 <= w <= 42
    ensures 1 <= weeks <= 42 ==> w == weeks
    ensures weeks < 1 ==> w == 1
    ensures weeks > 42 ==> w == 42
  {
    Max(1, Min(weeks, 42))
  }

  /** `calculate_pregnancy_week`: whole weeks from the LMP to `today` (floor division),
      clamped to 1..42; `None` when the LMP does not parse. `today` is a day number. */
  function CalculatePregnancyWeek(lmpDate: string, today: int): (r: Option<int>)
    ensures r.None? <==> ParseDdmmyyyy(lmpDate).None?
    ensures r.Some? ==> 1 <= r.value <= 42
    ensures r.Some? ==> var days := today - DayNumber(ParseDdmmyyyy(lmpDate).value);
      (7 <= days < 43 * 7 ==> r.value == days / 7) && (days < 14 ==> r.value == 1)
  {
    match ParseDdmmyyyy(lmpDate)
    case None => None
    case Some(lmp) => Some(ClampWeek((today - DayNumber(lmp)) / 7))
  }

  /** `calculate_due_date`: forty weeks after the LMP, as a day number. */
  function CalculateDueDate(lmpDate: string): (r: Option<int>)
    ensures r.None? <==> ParseDdmmyyyy(lmpDate).None?
    ensures r.Some? ==> r.value - DayNumber(ParseDdmmyyyy(lmpDate).value) == 40 * 7
  {
    match ParseDdmmyyyy(lmpDate)
    case None => None
    case Some(lmp) => Some(DayNumber(lmp) + 280)
  }

  /** `calculate_trimester`, as written: weeks up to 13 are "first" and every later week,
      including 14 to 26, is "third". */
  function CalculateTrimester(week: Option<int>): string {
    match week
    case None => "unknown"
    case Some(w) => if w <= 13 then "first" else if w <= 26 then "third" else "third"
  }

  /** The labels `calculate_trimester` can give, and where each applies. */
  lemma TrimesterLabels(week: Option<int>)
    ensures CalculateTrimester(week) == "unknown" <==> week.None?
    ensures CalculateTrimester(week) == "first" <==> week.Some? && week.value <= 13
    ensures CalculateTrimester(week) == "third" <==> week.Some? && week.value > 13
    ensures CalculateTrimester(week) != "second"
  {
  }

  /** `lmp_date and lmp_date != "0"`. */
  predicate LmpGiven(lmpDate: Option<string>) {
    lmpDate.Some? && lmpDate.value != "" && lmpDate.value != "0"
  }

  /** `process_user_profile_data`: the name and the caller's other fields, plus, when an
      LMP other than "0" is given, the LMP, the derived week and due date, and the
      trimester when there is a week. Dates are stored as day numbers. */
  method ProcessUserProfileData(name: string, lmpDate: Option<string>, kwargs: Metadata, today: int)
    returns (processed: Metadata)
    requires "name" !in kwargs && "lmp_date" !in kwargs
    ensures "name" in processed && processed["name"] == Str(name)
    ensures forall k :: k in kwargs && k !in {"pregnancy_week", "due_date", "trimester"} ==>
      k in processed && processed[k] == kwargs[k]
    ensures !LmpGiven(lmpDate) ==> processed == kwargs[("name") := Str(name)]
    ensures LmpGiven(lmpDate) ==>
      var week := CalculatePregnancyWeek(lmpDate.value, today);
      var due := CalculateDueDate(lmpDate.value);
      processed.Keys == kwargs.Keys + {"name", "lmp_date", "pregnancy_week", "due_date"}
        + (if week.Some? then {"trimester"} else {})
      && processed["lmp_date"] == Str(lmpDate.value)
      && processed["pregnancy_week"] == (if week.Some? then Int(week.value) else Null)
      && processed["due_date"] == (if due.Some? then Day(due.value) else Null)
      && (week.Some? ==> processed["trimester"] == Str(CalculateTrimester(week)))
  {
    processed := kwargs[("name") := Str(name)];
    if lmpDate.Some? && lmpDate.value != "" && lmpDate.value != "0" {
      processed := processed[("lmp_date") := Str(lmpDate.value)];
      var week := CalculatePregnancyWeek(lmpDate.value, today);
      processed := processed[("pregnancy_week") := if week.Some? then Int(week.value) else Null];
      var due := CalculateDueDate(lmpDate.value);
      processed := processed[("due_date") := if due.Some? then Day(due.value) else Null];
      if week.Some? && week.value != 0 {
        processed := processed[("trimester") := Str(CalculateTrimester(week))];
      }
    }
  }
}
