/**
 * Proleptic Gregorian calendar dates as Python's `datetime.date` handles them:
 * validity, the next and previous day, the day ordinal and weekday, the
 * `'%Y-%m-%d'` rendering (an ISO 8601 calendar date in extended format,
 * YYYY-MM-DD) and the two `strptime` formats the scraper tries.
 */
module Calendar {
  import opened Wrappers
  import opened Text

  datatype Date = Date(year: int, month: int, day: int)

  predicate IsLeap(y: int) {
    y % 4 == 0 && (y % 100 != 0 || y % 400 == 0)
  }

  function DaysInMonth(y: int, m: int): (r: nat)
    requires 1 <= m <= 12
    ensures 28 <= r <= 31
  {
    if m == 2 then (if IsLeap(y) then 29 else 28)
    else if m == 4 || m == 6 || m == 9 || m == 11 then 30
    else 31
  }

  /** A date `datetime.date` accepts: years 1 to 9999, real months and days. */
  predicate Valid(d: Date) {
    1 <= d.year <= 9999 && 1 <= d.month <= 12 && 1 <= d.day <= DaysInMonth(d.year, d.month)
  }

  /** Python's tuple comparison of dates. */
  predicate Before(a: Date, b: Date) {
    a.year < b.year
    || (a.year == b.year && a.month < b.month)
    || (a.year == b.year && a.month == b.month && a.day < b.day)
  }

  predicate AtMost(a: Date, b: Date) { a == b || Before(a, b) }

  /** `d` is not 9999-12-31, so `d + timedelta(days=1)` does not overflow. */
  predicate HasNext(d: Date) { d.year < 9999 || d.month < 12 || d.day < 31 }

  /** `d` is not 0001-01-01, so `d - timedelta(days=1)` does not overflow. */
  predicate HasPrev(d: Date) { d.year > 1 || d.month > 1 || d.day > 1 }

  /** `d + timedelta(days=1)`. */
  function NextDay(d: Date): (r: Date)
    requires Valid(d)
    ensures Before(d, r)
    ensures HasNext(d) ==> Valid(r) && HasPrev(r)
  {
    if d.day < DaysInMonth(d.year, d.month) then Date(d.year, d.month, d.day + 1)
    else if d.month < 12 then Date(d.year, d.month + 1, 1)
    else Date(d.year + 1, 1, 1)
  }

  /** `d - timedelta(days=1)`. */
  function PrevDay(d: Date): (r: Date)
    requires Valid(d)
    ensures Before(r, d)
    ensures HasPrev(d) ==> Valid(r) && HasNext(r)
  {
    if d.day > 1 then Date(d.year, d.month, d.day - 1)
    else if d.month > 1 then Date(d.year, d.month - 1, DaysInMonth(d.year, d.month - 1))
    else Date(d.year - 1, 12, 31)
  }

  /** Days from 0001-01-01 before January 1st of `y`: the lengths of the years before it. */
  function DaysBeforeYear(y: int): int
    requires y >= 1
  {
    if y == 1 then 0 else DaysBeforeYear(y - 1) + YearLength(y - 1)
  }

  function YearLength(y: int): nat {
    if IsLeap(y) then 366 else 365
  }

  /** Days in year `y` before the first of month `m` (Python's `_days_before_month`). */
  function DaysBeforeMonth(y: int, m: int): nat
    requires 1 <= m <= 12
  {
    var leap := if m > 2 && IsLeap(y) then 1 else 0;
    if m == 1 then 0 else if m == 2 then 31 else if m == 3 then 59 + leap
    else if m == 4 then 90 + leap else if m == 5 then 120 + leap
    else if m == 6 then 151 + leap else if m == 7 then 181 + leap
    else if m == 8 then 212 + leap else if m == 9 then 243 + leap
    else if m == 10 then 273 + leap else if m == 11 then 304 + leap
    else 334 + leap
  }

  /** Python's `date.toordinal()`: 0001-01-01 is day 1. */
  function Ordinal(d: Date): int
    requires Valid(d)
  {
    DaysBeforeYear(d.year) + DaysBeforeMonth(d.year, d.month) + d.day
  }

  /** Python's `date.weekday()`: Monday is 0, Thursday is 3. */
  function Weekday(d: Date): (r: nat)
    requires Valid(d)
    ensures r < 7
  {
    (Ordinal(d) + 6) % 7
  }

  lemma {:induction false} DivStep(p: int, k: int)
    requires p >= 0 && (k == 4 || k == 100 || k == 400)
    ensures (p + 1) / k - p / k == if (p + 1) % k == 0 then 1 else 0
  {
    if k == 4 {
    } else if k == 100 {
    } else {
    }
  }

  /** One more year of days: the step of `DaysBeforeYearFormula`. */
  lemma {:induction false} YearStep(y: int)
    requires y >= 1
    ensures var p := y - 1;
      (p + 1) * 365 + (p + 1) / 4 - (p + 1) / 100 + (p + 1) / 400
      == p * 365 + p / 4 - p / 100 + p / 400 + YearLength(y)
  {
    var p := y - 1;
    DivStep(p, 4);
    DivStep(p, 100);
    DivStep(p, 400);
    if y % 400 == 0 {
      var q := y / 400;
      assert y == 100 * (4 * q) && y == 4 * (100 * q);
    } else if y % 100 == 0 {
      var q := y / 100;
      assert y == 4 * (25 * q);
    }
  }

  /** Python's `_days_before_year` closed form counts the same days. */
  lemma {:induction false} DaysBeforeYearFormula(y: int)
    requires y >= 1
    ensures var p := y - 1; DaysBeforeYear(y) == p * 365 + p / 4 - p / 100 + p / 400
  {
    if y > 1 {
      DaysBeforeYearFormula(y - 1);
      YearStep(y - 1);
    }
  }

  lemma {:induction false} DaysBeforeYearMono(y1: int, y2: int)
    requires 1 <= y1 <= y2
    decreases y2 - y1
    ensures DaysBeforeYear(y1) <= DaysBeforeYear(y2)
  {
    if y1 < y2 {
      DaysBeforeYearMono(y1, y2 - 1);
    }
  }

  lemma {:induction false} MonthStep(y: int, m: int)
    requires 1 <= m < 12
    ensures DaysBeforeMonth(y, m + 1) == DaysBeforeMonth(y, m) + DaysInMonth(y, m)
  {
  }

  lemma {:induction false} MonthMono(y: int, m1: int, m2: int)
    requires 1 <= m1 < m2 <= 12
    decreases m2 - m1
    ensures DaysBeforeMonth(y, m1) + DaysInMonth(y, m1) <= DaysBeforeMonth(y, m2)
  {
    MonthStep(y, m1);
    if m1 + 1 < m2 {
      MonthMono(y, m1 + 1, m2);
    }
  }

  lemma {:induction false} YearEnd(d: Date)
    requires Valid(d)
    ensures DaysBeforeMonth(d.year, d.month) + d.day <= YearLength(d.year)
  {
    if d.month < 12 {
      MonthMono(d.year, d.month, 12);
    }
  }

  /** Later dates have larger ordinals. */
  lemma {:induction false} OrdinalMonotone(a: Date, b: Date)
    requires Valid(a) && Valid(b) && Before(a, b)
    ensures Ordinal(a) < Ordinal(b)
  {
    if a.year < b.year {
      YearEnd(a);
      DaysBeforeYearMono(a.year + 1, b.year);
    } else if a.month < b.month {
      MonthMono(a.year, a.month, b.month);
    }
  }

  /** Date order is ordinal order; equal ordinals mean equal dates. */
  lemma {:induction false} OrdinalOrder(a: Date, b: Date)
    requires Valid(a) && Valid(b)
    ensures Before(a, b) <==> Ordinal(a) < Ordinal(b)
    ensures a == b <==> Ordinal(a) == Ordinal(b)
  {
    if Before(a, b) { OrdinalMonotone(a, b); }
    if Before(b, a) { OrdinalMonotone(b, a); }
  }

  /** Consecutive days have consecutive ordinals. */
  lemma {:induction false} OrdinalNext(d: Date)
    requires Valid(d) && HasNext(d)
    ensures Ordinal(NextDay(d)) == Ordinal(d) + 1
  {
    if d.day == DaysInMonth(d.year, d.month) {
      if d.month < 12 {
        MonthStep(d.year, d.month);
      }
    }
  }

  lemma {:induction false} ModSevenNext(o: int)
    ensures (o + 7) % 7 == ((o + 6) % 7 + 1) % 7
  {
    var q, w := (o + 6) / 7, (o + 6) % 7;
    assert o + 7 == 7 * q + (w + 1);
    if w + 1 == 7 {
      assert o + 7 == 7 * (q + 1);
    }
  }

  /** Consecutive days have consecutive weekdays. */
  lemma {:induction false} WeekdayNext(d: Date)
    requires Valid(d) && HasNext(d)
    ensures Weekday(NextDay(d)) == (Weekday(d) + 1) % 7
  {
    var o, o' := Ordinal(d), Ordinal(NextDay(d));
    OrdinalNext(d);
    ModSevenNext(o);
    assert Weekday(NextDay(d)) == (o' + 6) % 7 == (o + 7) % 7;
  }

  /** 2024-01-01 was a Monday, as `date(2024, 1, 1).weekday()` says. */
  lemma {:induction false} WeekdayAnchor()
    ensures Weekday(Date(2024, 1, 1)) == 0
  {
    DaysBeforeYearFormula(2024);
    assert Ordinal(Date(2024, 1, 1)) == 738886;
  }

  /** `d - timedelta(days=n)`, one day at a time. */
  function MinusDays(d: Date, n: nat): (r: Date)
    requires Valid(d) && Ordinal(d) > n
    decreases n
    ensures Valid(r) && Ordinal(r) == Ordinal(d) - n
  {
    if n == 0 then d
    else
      var p := PrevDay(d);
      assert HasPrev(d);
      OrdinalNext(p);
      assert NextDay(p) == d by { OrdinalOrder(NextDay(p), d); }
      MinusDays(p, n - 1)
  }

  // ---- the '%Y-%m-%d' rendering and its inverse ----

  function Zeros(z: nat): (r: string)
    ensures |r| == z && forall i :: 0 <= i < z ==> r[i] == '0'
  {
    seq(z, _ => '0')
  }

  function Pow10(w: nat): (r: nat)
    ensures r >= 1
  {
    if w == 0 then 1 else 10 * Pow10(w - 1)
  }

  lemma {:induction false} ValueLeadingZeros(z: nat, s: string)
    requires forall i :: 0 <= i < |s| ==> IsDigit(s[i])
    ensures forall i :: 0 <= i < |Zeros(z) + s| ==> IsDigit((Zeros(z) + s)[i])
    ensures Value(Zeros(z) + s) == Value(s)
  {
    var t := Zeros(z) + s;
    if s == [] {
      assert t == Zeros(z);
      ValueZeros(z);
    } else {
      ValueLeadingZeros(z, s[..|s| - 1]);
      assert t[..|t| - 1] == Zeros(z) + s[..|s| - 1];
    }
  }

  lemma {:induction false} ValueZeros(z: nat)
    ensures Value(Zeros(z)) == 0
  {
    if z > 0 {
      assert Zeros(z)[..z - 1] == Zeros(z - 1);
      ValueZeros(z - 1);
    }
  }

  /** A string of w digits stands for less than 10^w. */
  lemma {:induction false} ValueBound(s: string)
    requires forall i :: 0 <= i < |s| ==> IsDigit(s[i])
    ensures Value(s) < Pow10(|s|)
  {
    if s != [] {
      ValueBound(s[..|s| - 1]);
    }
  }

  /** A number below 10^w renders in at most w digits. */
  lemma {:induction false} NatToStringWidth(n: nat, w: nat)
    requires n < Pow10(w)
    ensures |NatToString(n)| <= w || (n < 10 && w == 0)
  {
    if n >= 10 {
      assert w > 0;
      NatToStringWidth(n / 10, w - 1);
    }
  }

  /** `n` rendered with at least `w` digits, as `%Y`, `%m` and `%d` do. */
  function Digits(n: nat, w: nat): (r: string)
    ensures |r| >= w
    ensures n < Pow10(w) && w > 0 ==> |r| == w
    ensures AllDigits(r) && Value(r) == n
  {
    var s := NatToString(n);
    ValueLeadingZeros(if |s| < w then w - |s| else 0, s);
    assert n < Pow10(w) && w > 0 ==> |s| <= w by {
      if n < Pow10(w) && w > 0 { NatToStringWidth(n, w); }
    }
    if |s| < w then Zeros(w - |s|) + s else s
  }

  /** `d.strftime('%Y-%m-%d')`. */
  function FormatIso(d: Date): string
    requires Valid(d)
  {
    Digits(d.year, 4) + "-" + Digits(d.month, 2) + "-" + Digits(d.day, 2)
  }

  /** The shape YYYY-MM-DD: ten characters, dashes at 4 and 7, digits elsewhere. */
  predicate IsIsoShape(s: string) {
    |s| == 10 && s[4] == '-' && s[7] == '-'
    && forall i :: 0 <= i < 10 && i != 4 && i != 7 ==> IsDigit(s[i])
  }

  /** Reads a YYYY-MM-DD string back into a date. */
  function ParseIso(s: string): Option<Date> {
    if IsIsoShape(s) then
      var d := Date(Value(s[..4]), Value(s[5..7]), Value(s[8..]));
      if Valid(d) then Some(d) else None
    else None
  }

  /** Every valid date renders as YYYY-MM-DD and reads back as itself. */
  lemma {:induction false} FormatIsoRoundTrip(d: Date)
    requires Valid(d)
    ensures IsIsoShape(FormatIso(d))
    ensures ParseIso(FormatIso(d)) == Some(d)
  {
    assert Pow10(4) == 10000 && Pow10(2) == 100;
    var y, m, dd := Digits(d.year, 4), Digits(d.month, 2), Digits(d.day, 2);
    var s := FormatIso(d);
    assert s[..4] == y && s[5..7] == m && s[8..] == dd;
  }

  /** Rendering is injective on valid dates. */
  lemma {:induction false} FormatIsoInjective(a: Date, b: Date)
    requires Valid(a) && Valid(b) && FormatIso(a) == FormatIso(b)
    ensures a == b
  {
    FormatIsoRoundTrip(a);
    FormatIsoRoundTrip(b);
  }

  // ---- strptime with '%d %B %Y' and '%d %b %Y' ----

  const FullMonthNames: seq<string> :=
    ["january", "february", "march", "april", "may", "june", "july",
     "august", "september", "october", "november", "december"]

  const AbbrMonthNames: seq<string> :=
    ["jan", "feb", "mar", "apr", "may", "jun", "jul", "aug", "sep", "oct", "nov", "dec"]

  /** The month number whose name equals `name` ignoring case (`%B` or `%b`). */
  function MonthNumber(name: string, names: seq<string>): (r: Option<int>)
    requires |names| == 12
    ensures r.Some? ==> 1 <= r.value <= 12 && LowerString(name) == names[r.value - 1]
    ensures r.None? ==> forall k :: 0 <= k < 12 ==> LowerString(name) != names[k]
  {
    MonthFrom(LowerString(name), names, 0)
  }

  function MonthFrom(lname: string, names: seq<string>, k: nat): (r: Option<int>)
    requires |names| == 12 && k <= 12
    decreases 12 - k
    ensures r.Some? ==> k + 1 <= r.value <= 12 && lname == names[r.value - 1]
    ensures r.None? ==> forall j :: k <= j < 12 ==> lname != names[j]
  {
    if k == 12 then None
    else if lname == names[k] then Some(k + 1)
    else MonthFrom(lname, names, k + 1)
  }

  /** No name occurs twice in the list. */
  predicate DistinctNames(names: seq<string>) {
    forall i, j :: 0 <= i < j < |names| ==> names[i] != names[j]
  }

  lemma {:induction false} MonthNamesDistinct()
    ensures DistinctNames(FullMonthNames) && DistinctNames(AbbrMonthNames)
  {
    forall i, j | 0 <= i < j < 12 ensures FullMonthNames[i] != FullMonthNames[j] {
      assert FullMonthNames[i][..3] == AbbrMonthNames[i];
      assert FullMonthNames[j][..3] == AbbrMonthNames[j];
    }
  }

  /** A name that lower-cases to month `m`'s entry of a list without repeats gives month `m`. */
  lemma {:induction false} MonthOfName(name: string, names: seq<string>, m: int)
    requires |names| == 12 && DistinctNames(names) && 1 <= m <= 12
    requires LowerString(name) == names[m - 1]
    ensures MonthNumber(name, names) == Some(m)
  {
    var r := MonthNumber(name, names);
    assert r.Some?;
    if r.value < m {
      assert false;
    } else if r.value > m {
      assert false;
    }
  }

  /** The three fields of a `\d{1,2}\s+[A-Za-z]+\s+\d{4}` match. */
  datatype DateToken = DateToken(day: string, month: string, year: string)

  predicate WellFormedToken(t: DateToken) {
    1 <= |t.day| <= 2 && AllDigits(t.day) && |t.month| > 0
    && (forall i :: 0 <= i < |t.month| ==> IsLetter(t.month[i]))
    && |t.year| == 4 && AllDigits(t.year)
  }

  /**
   * `datetime.strptime(token, fmt)` for `fmt` = '%d <month> %Y': `%d` accepts
   * 1 to 31 (so "0" and "00" fail), the month must be one of `names`, year 0
   * is out of range and the day must exist in that month.
   */
  function Strptime(t: DateToken, names: seq<string>): (r: Option<Date>)
    requires WellFormedToken(t) && |names| == 12
    ensures r.Some? ==> Valid(r.value)
    ensures r.Some? ==> MonthNumber(t.month, names).Some?
                        && r.value == Date(Value(t.year), MonthNumber(t.month, names).value, Value(t.day))
    ensures MonthNumber(t.month, names).Some? && Valid(Date(Value(t.year), MonthNumber(t.month, names).value, Value(t.day)))
            ==> r.Some?
  {
    var day, year := Value(t.day), Value(t.year);
    ValueBound(t.year);
    assert Pow10(4) == 10000;
    match MonthNumber(t.month, names)
    case None => None
    case Some(m) =>
      if 1 <= day <= 31 && 1 <= year && day <= DaysInMonth(year, m) then Some(Date(year, m, day))
      else None
  }

  /** The format list `['%d %B %Y', '%d %b %Y']`, tried in order; first success wins. */
  function ParseDateToken(t: DateToken): (r: Option<Date>)
    requires WellFormedToken(t)
    ensures r.Some? ==> Valid(r.value)
  {
    match Strptime(t, FullMonthNames)
    case Some(d) => Some(d)
    case None => Strptime(t, AbbrMonthNames)
  }

  /**
   * A token that writes the valid date `d` (its day, its month's name in
   * any case, its year) parses to `d`.
   */
  lemma {:induction false} StrptimeWrites(t: DateToken, names: seq<string>, d: Date)
    requires WellFormedToken(t) && |names| == 12 && DistinctNames(names) && Valid(d)
    requires Value(t.day) == d.day && Value(t.year) == d.year && LowerString(t.month) == names[d.month - 1]
    ensures Strptime(t, names) == Some(d)
  {
    MonthOfName(t.month, names, d.month);
  }

  /** `%d %B %Y`: a date written with the full month name parses to that date. */
  lemma {:induction false} ParseFullName(t: DateToken, d: Date)
    requires WellFormedToken(t) && Valid(d)
    requires Value(t.day) == d.day && Value(t.year) == d.year && LowerString(t.month) == FullMonthNames[d.month - 1]
    ensures ParseDateToken(t) == Some(d)
  {
    MonthNamesDistinct();
    StrptimeWrites(t, FullMonthNames, d);
  }

  /** `%d %b %Y`: a date written with the abbreviated month name parses to that date. */
  lemma {:induction false} ParseAbbrName(t: DateToken, d: Date)
    requires WellFormedToken(t) && Valid(d)
    requires Value(t.day) == d.day && Value(t.year) == d.year && LowerString(t.month) == AbbrMonthNames[d.month - 1]
    ensures ParseDateToken(t) == Some(d)
  {
    MonthNamesDistinct();
    StrptimeWrites(t, AbbrMonthNames, d);
    FormatOrderIrrelevant(t);
  }

  /**
   * The order of the two formats never changes the outcome: a token both
   * accept ("may" is the only name in both lists) gives the same date, so
   * the result is whichever attempt succeeds.
   */
  lemma {:induction false} FormatOrderIrrelevant(t: DateToken)
    requires WellFormedToken(t)
    ensures Strptime(t, FullMonthNames).Some? && Strptime(t, AbbrMonthNames).Some?
            ==> Strptime(t, FullMonthNames) == Strptime(t, AbbrMonthNames)
    ensures ParseDateToken(t).Some? <==>
            Strptime(t, FullMonthNames).Some? || Strptime(t, AbbrMonthNames).Some?
  {
    var f, a := MonthNumber(t.month, FullMonthNames), MonthNumber(t.month, AbbrMonthNames);
    if f.Some? && a.Some? {
      var l := LowerString(t.month);
      assert l == FullMonthNames[f.value - 1] && l == AbbrMonthNames[a.value - 1];
      assert f.value == 5 && a.value == 5;
    }
  }
}
