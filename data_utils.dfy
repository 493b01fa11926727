/**
 * The missing-draw calendar and the display of a draw's numbers
 * (`get_missing_draw_dates` and `format_winning_numbers` in data_utils.py).
 */
module DataUtils {
  import opened Wrappers
  import opened Text
  import opened Calendar
  import opened Records

  // ---------------------------------------------------------------------
  // Candidate draw dates
  // ---------------------------------------------------------------------

  /** TOTO draws fall on Mondays (weekday 0) and Thursdays (weekday 3). */
  predicate IsDrawDay(d: Date)
    requires Valid(d)
  {
    Weekday(d) == 0 || Weekday(d) == 3
  }

  /**
   * What the source needs of "today": 90 days back must still be a date
   * (else `today - timedelta(days=90)` overflows), and so must the day
   * after today, which the loop steps onto before it stops.
   */
  predicate TodayInRange(today: Date) {
    Valid(today) && Ordinal(today) > 90 && HasNext(today)
  }

  /** Day `k` (0..90) of the window: today minus `90 - k` days. */
  function WindowDay(today: Date, k: nat): (d: Date)
    requires TodayInRange(today) && k <= 90
    ensures Valid(d) && Ordinal(d) == Ordinal(today) - 90 + k
  {
    MinusDays(today, 90 - k)
  }

  /** The Mondays and Thursdays among the first `k` days of the window, as YYYY-MM-DD. */
  function DrawDaysBefore(today: Date, k: nat): seq<string>
    requires TodayInRange(today) && k <= 91
  {
    if k == 0 then []
    else
      var d := WindowDay(today, k - 1);
      DrawDaysBefore(today, k - 1) + (if IsDrawDay(d) then [FormatIso(d)] else [])
  }

  /** `dates_to_check`: every Monday and Thursday from today - 90 to today. */
  function CandidateDates(today: Date): seq<string>
    requires TodayInRange(today)
  {
    DrawDaysBefore(today, 91)
  }

  // ---------------------------------------------------------------------
  // The stored dates and the filter
  // ---------------------------------------------------------------------

  /**
   * The `draw_date` column of the stored frame: datetimes, which are
   * rendered as YYYY-MM-DD, or any other values, taken as they are.
   */
  datatype DateColumn = DatetimeColumn(dates: seq<Date>) | ObjectColumn(values: seq<string>)

  predicate ColumnEmpty(c: DateColumn) {
    match c
    case DatetimeColumn(ds) => ds == []
    case ObjectColumn(vs) => vs == []
  }

  predicate ValidColumn(c: DateColumn) {
    c.DatetimeColumn? ==> forall i :: 0 <= i < |c.dates| ==> Valid(c.dates[i])
  }

  /** `existing_dates` (lines 67-70). */
  function ExistingDates(c: DateColumn): set<string>
    requires ValidColumn(c)
  {
    match c
    case DatetimeColumn(ds) => set i | 0 <= i < |ds| :: FormatIso(ds[i])
    case ObjectColumn(vs) => set i | 0 <= i < |vs| :: vs[i]
  }

  /** Line 73: the candidates in order, less those already stored. */
  function MissingDates(candidates: seq<string>, existing: set<string>): (r: seq<string>)
    ensures |r| <= |candidates|
  {
    if candidates == [] then []
    else
      var last := candidates[|candidates| - 1];
      MissingDates(candidates[..|candidates| - 1], existing) + (if last !in existing then [last] else [])
  }

  /** What `get_missing_draw_dates` returns. */
  function MissingDrawDates(today: Date, current: Option<DateColumn>): seq<string>
    requires TodayInRange(today)
    requires current.Some? ==> ValidColumn(current.value)
  {
    if current.None? || ColumnEmpty(current.value) then CandidateDates(today)
    else MissingDates(CandidateDates(today), ExistingDates(current.value))
  }

  /** The loop's position: day `k` of the window, or the day after today once all 91 are done. */
  predicate AtWindowDay(today: Date, k: nat, d: Date)
    requires TodayInRange(today)
  {
    k <= 91 && (if k <= 90 then d == WindowDay(today, k) else d == NextDay(today))
  }

  /** While the current date is not past today, it is a window day and stepping on reaches the next one. */
  lemma {:induction false} WindowStep(today: Date, k: nat, d: Date)
    requires TodayInRange(today) && AtWindowDay(today, k, d)
    ensures Valid(d)
    ensures AtMost(d, today) <==> k <= 90
    ensures k <= 90 ==> HasNext(d) && AtWindowDay(today, k + 1, NextDay(d))
  {
    OrdinalNext(today);
    OrdinalOrder(d, today);
    if k <= 90 {
      OrdinalNext(d);
      if k < 90 {
        OrdinalOrder(NextDay(d), WindowDay(today, k + 1));
      } else {
        OrdinalOrder(d, today);
      }
    }
  }

  /** The loop's state: at window day `k`, having collected the draw days before it. */
  predicate Scanned(today: Date, k: nat, d: Date, acc: seq<string>)
    requires TodayInRange(today)
  {
    AtWindowDay(today, k, d) && acc == DrawDaysBefore(today, k)
  }

  /** One more window day adds its date exactly when it is a Monday or a Thursday. */
  lemma {:induction false} CandidateStep(today: Date, k: nat, d: Date, acc: seq<string>)
    requires TodayInRange(today) && k <= 90 && Scanned(today, k, d, acc)
    ensures Valid(d) && HasNext(d)
    ensures Scanned(today, k + 1, NextDay(d),
                    acc + (if Weekday(d) == 0 || Weekday(d) == 3 then [FormatIso(d)] else []))
  {
    WindowStep(today, k, d);
  }

  /** Lines 56-60: one day of the loop, kept when it is a Monday or a Thursday. */
  method ScanDay(today: Date, ghost k: nat, currentDate: Date, datesToCheck: seq<string>)
    returns (nextDate: Date, dates: seq<string>)
    requires TodayInRange(today) && k <= 90 && Scanned(today, k, currentDate, datesToCheck)
    ensures Scanned(today, k + 1, nextDate, dates)
  {
    CandidateStep(today, k, currentDate, datesToCheck);
    dates := datesToCheck;
    if Weekday(currentDate) == 0 || Weekday(currentDate) == 3 {
      dates := dates + [FormatIso(currentDate)];
    }
    nextDate := NextDay(currentDate);
  }

  /** Lines 49-60 of `get_missing_draw_dates`: the Mondays and Thursdays from today - 90 to today. */
  method CollectCandidates(today: Date) returns (datesToCheck: seq<string>)
    requires TodayInRange(today)
    ensures datesToCheck == CandidateDates(today)
  {
    var threeMonthsAgo := MinusDays(today, 90);
    datesToCheck := [];
    var currentDate := threeMonthsAgo;
    ghost var k: nat := 0;
    WindowStep(today, k, currentDate);
    while AtMost(currentDate, today)
      invariant Scanned(today, k, currentDate, datesToCheck)
      decreases 91 - k
    {
      WindowStep(today, k, currentDate);
      currentDate, datesToCheck := ScanDay(today, k, currentDate, datesToCheck);
      k := k + 1;
      WindowStep(today, k, currentDate);
    }
    WindowStep(today, k, currentDate);
    assert k == 91;
  }

  /** `get_missing_draw_dates`, with today passed in. */
  method GetMissingDrawDates(today: Date, current: Option<DateColumn>) returns (dates: seq<string>)
    requires TodayInRange(today)
    requires current.Some? ==> ValidColumn(current.value)
    ensures dates == MissingDrawDates(today, current)
  {
    var datesToCheck := CollectCandidates(today);
    if current.None? || ColumnEmpty(current.value) {
      return datesToCheck;
    }
    var existing := ExistingDates(current.value);
    dates := MissingDates(datesToCheck, existing);
  }

  // ---------------------------------------------------------------------
  // Properties of the calendar and the filter
  // ---------------------------------------------------------------------

  /** `x` is window day `j`, written YYYY-MM-DD, and that day is a draw day. */
  predicate DrawDayIs(today: Date, j: nat, x: string)
    requires TodayInRange(today) && j <= 90
  {
    IsDrawDay(WindowDay(today, j)) && x == FormatIso(WindowDay(today, j))
  }

  lemma {:induction false} DrawDaysBeforeExact(today: Date, k: nat, x: string)
    requires TodayInRange(today) && k <= 91
    ensures x in DrawDaysBefore(today, k) <==> exists j: nat :: j < k && DrawDayIs(today, j, x)
  {
    if k > 0 {
      DrawDaysBeforeExact(today, k - 1, x);
      if x in DrawDaysBefore(today, k) && x !in DrawDaysBefore(today, k - 1) {
        assert DrawDayIs(today, k - 1, x);
      }
    }
  }

  /**
   * The candidates are exactly the Mondays and Thursdays from today - 90
   * to today, both included.
   */
  lemma {:induction false} CandidatesExact(today: Date, d: Date)
    requires TodayInRange(today) && Valid(d)
    ensures FormatIso(d) in CandidateDates(today) <==>
      Ordinal(today) - 90 <= Ordinal(d) <= Ordinal(today) && IsDrawDay(d)
  {
    DrawDaysBeforeExact(today, 91, FormatIso(d));
    if Ordinal(today) - 90 <= Ordinal(d) <= Ordinal(today) {
      var j := Ordinal(d) - (Ordinal(today) - 90);
      OrdinalOrder(d, WindowDay(today, j));
      if IsDrawDay(d) {
        assert DrawDayIs(today, j, FormatIso(d));
      }
    }
    if FormatIso(d) in CandidateDates(today) {
      var j: nat :| j < 91 && DrawDayIs(today, j, FormatIso(d));
      FormatIsoInjective(d, WindowDay(today, j));
    }
  }

  /** `a` and `b` are YYYY-MM-DD dates and `a` comes first. */
  predicate IsoBefore(a: string, b: string) {
    ParseIso(a).Some? && ParseIso(b).Some? && Calendar.Before(ParseIso(a).value, ParseIso(b).value)
  }

  lemma {:induction false} DrawDaysBeforeBound(today: Date, k: nat)
    requires TodayInRange(today) && k <= 91
    ensures forall i :: 0 <= i < |DrawDaysBefore(today, k)| ==>
      ParseIso(DrawDaysBefore(today, k)[i]).Some?
      && Ordinal(ParseIso(DrawDaysBefore(today, k)[i]).value) < Ordinal(today) - 90 + k
  {
    if k > 0 {
      DrawDaysBeforeBound(today, k - 1);
      FormatIsoRoundTrip(WindowDay(today, k - 1));
    }
  }

  /** The candidates come in ascending date order. */
  lemma {:induction false} DrawDaysAscending(today: Date, k: nat)
    requires TodayInRange(today) && k <= 91
    ensures forall i, j :: 0 <= i < j < |DrawDaysBefore(today, k)| ==>
      IsoBefore(DrawDaysBefore(today, k)[i], DrawDaysBefore(today, k)[j])
  {
    if k > 0 {
      var prev := DrawDaysBefore(today, k - 1);
      var s := DrawDaysBefore(today, k);
      DrawDaysAscending(today, k - 1);
      var d := WindowDay(today, k - 1);
      if IsDrawDay(d) {
        DrawDaysBeforeBound(today, k - 1);
        FormatIsoRoundTrip(d);
        forall i, j | 0 <= i < j < |s| ensures IsoBefore(s[i], s[j]) {
          if j == |s| - 1 {
            assert s[i] == prev[i];
            OrdinalOrder(ParseIso(prev[i]).value, d);
          } else {
            assert s[i] == prev[i] && s[j] == prev[j];
          }
        }
      }
    }
  }

  lemma {:induction false} CandidatesAscending(today: Date)
    requires TodayInRange(today)
    ensures forall i, j :: 0 <= i < j < |CandidateDates(today)| ==>
      IsoBefore(CandidateDates(today)[i], CandidateDates(today)[j])
  {
    DrawDaysAscending(today, 91);
  }

  /** A date survives the filter exactly when it is a candidate and not stored. */
  lemma {:induction false} MissingExact(candidates: seq<string>, existing: set<string>, x: string)
    ensures x in MissingDates(candidates, existing) <==> x in candidates && x !in existing
  {
    if candidates != [] {
      var init := candidates[..|candidates| - 1];
      MissingExact(init, existing, x);
      assert candidates == init + [candidates[|candidates| - 1]];
    }
  }

  /** The filter keeps order: it distributes over concatenation. */
  lemma {:induction false} MissingConcat(a: seq<string>, b: seq<string>, existing: set<string>)
    ensures MissingDates(a + b, existing) == MissingDates(a, existing) + MissingDates(b, existing)
    decreases |b|
  {
    if b != [] {
      var initB := b[..|b| - 1];
      assert (a + b)[..|a + b| - 1] == a + initB;
      MissingConcat(a, initB, existing);
    } else {
      assert a + b == a;
    }
  }

  /** Nothing stored among the candidates: the filter keeps them all. */
  lemma {:induction false} MissingKeepsUnstored(candidates: seq<string>, existing: set<string>)
    requires forall k :: 0 <= k < |candidates| ==> candidates[k] !in existing
    ensures MissingDates(candidates, existing) == candidates
  {
    if candidates != [] {
      MissingKeepsUnstored(candidates[..|candidates| - 1], existing);
    }
  }

  /** Filtering twice with the same stored set changes nothing. */
  lemma {:induction false} MissingIdempotent(candidates: seq<string>, existing: set<string>)
    ensures MissingDates(MissingDates(candidates, existing), existing) == MissingDates(candidates, existing)
  {
    var r := MissingDates(candidates, existing);
    forall k | 0 <= k < |r| ensures r[k] !in existing {
      MissingExact(candidates, existing, r[k]);
    }
    MissingKeepsUnstored(r, existing);
  }

  /**
   * The result holds no stored date, and holds every candidate that is not
   * stored; with nothing stored it is every candidate.
   */
  lemma {:induction false} MissingDrawDatesSpec(today: Date, current: Option<DateColumn>, x: string)
    requires TodayInRange(today)
    requires current.Some? ==> ValidColumn(current.value)
    ensures current.None? || ColumnEmpty(current.value) ==> MissingDrawDates(today, current) == CandidateDates(today)
    ensures current.Some? ==>
      (x in MissingDrawDates(today, current) <==> x in CandidateDates(today) && x !in ExistingDates(current.value))
  {
    if current.Some? {
      MissingExact(CandidateDates(today), ExistingDates(current.value), x);
      if ColumnEmpty(current.value) {
        assert ExistingDates(current.value) == {};
      }
    }
  }

  // ---------------------------------------------------------------------
  // format_winning_numbers
  // ---------------------------------------------------------------------

  /** `sep.join(xs)`. */
  function Join(xs: seq<string>, sep: string): string {
    if xs == [] then ""
    else if |xs| == 1 then xs[0]
    else xs[0] + sep + Join(xs[1..], sep)
  }

  function NumberStrings(ns: seq<int>): (r: seq<string>)
    ensures |r| == |ns| && forall k :: 0 <= k < |ns| ==> r[k] == IntToString(ns[k])
  {
    if ns == [] then [] else [IntToString(ns[0])] + NumberStrings(ns[1..])
  }

  /** How the additional number prints: `str()` of it, or "None" when it is missing. */
  function AdditionalText(a: Option<int>): string {
    if a.Some? then IntToString(a.value) else "None"
  }

  /** `format_winning_numbers` (lines 87-89). */
  function FormatWinningNumbers(r: Row): string {
    match r.winningNumbers
    case NumberList(ns) => Join(NumberStrings(ns), ", ") + " + " + AdditionalText(r.additionalNumber)
    case NotAList => "N/A"
  }

  /** `s.split(sep)`. */
  function Split(s: string, sep: string): (r: seq<string>)
    requires |sep| > 0
    ensures |r| > 0
    decreases |s|
  {
    match Find(s, sep)
    case Some(i) => [s[..i]] + Split(s[i + |sep|..], sep)
    case None => [s]
  }

  function ParseAll(strs: seq<string>): Option<seq<int>> {
    if strs == [] then Some([])
    else match (ParseInt(strs[0]), ParseAll(strs[1..]))
      case (Some(n), Some(rest)) => Some([n] + rest)
      case _ => None
  }

  /**
   * Reads a formatted draw back: the numbers before the first " + ", split
   * at ", ", and the text after it.
   */
  function ParseFormatted(s: string): Option<(seq<int>, string)> {
    match Find(s, "+")
    case Some(i) =>
      if i >= 1 && HasAt(s, " + ", i - 1) then
        match ParseAll(Split(s[..i - 1], ", "))
        case Some(ns) => Some((ns, s[i + 2..]))
        case None => None
      else None
    case None => None
  }

  /** A printed integer holds only digits and '-'. */
  lemma {:induction false} IntToStringChars(n: int, c: char)
    requires c != '-' && !IsDigit(c)
    ensures c !in IntToString(n)
  {
  }

  lemma {:induction false} JoinChars(xs: seq<string>, sep: string, c: char)
    requires c !in sep && forall k :: 0 <= k < |xs| ==> c !in xs[k]
    ensures c !in Join(xs, sep)
  {
    if |xs| > 1 {
      JoinChars(xs[1..], sep, c);
    }
  }

  /** `sep.join` then `split(sep)` gives the pieces back, when no piece holds the separator's first character. */
  lemma {:induction false} SplitJoin(xs: seq<string>, sep: string)
    requires |xs| > 0 && |sep| > 0
    requires forall k :: 0 <= k < |xs| ==> sep[0] !in xs[k]
    ensures Split(Join(xs, sep), sep) == xs
  {
    var x := xs[0];
    if |xs| == 1 {
      assert Find(x, sep).None?;
    } else {
      var rest := Join(xs[1..], sep);
      var s := x + sep + rest;
      forall j: nat | j < |x| ensures !HasAt(s, sep, j) {
        assert s[j] == x[j];
      }
      assert s[|x|..|x| + |sep|] == sep;
      FindIs(s, sep, |x|);
      assert s[|x| + |sep|..] == rest;
      assert s[..|x|] == x;
      assert Join(xs, sep) == s;
      SplitJoin(xs[1..], sep);
      assert Split(s, sep) == [x] + Split(rest, sep);
      assert xs == [x] + xs[1..];
    }
  }

  lemma {:induction false} ParseAllNumbers(ns: seq<int>)
    ensures ParseAll(NumberStrings(ns)) == Some(ns)
  {
    if ns != [] {
      ParseIntToString(ns[0]);
      ParseAllNumbers(ns[1..]);
      assert NumberStrings(ns)[1..] == NumberStrings(ns[1..]);
      assert [ns[0]] + ns[1..] == ns;
    }
  }

  /** With no '+' in the numbers, the first '+' is the separator's. */
  lemma {:induction false} FirstPlus(j: string, a: string)
    requires '+' !in j
    ensures Find(j + " + " + a, "+") == Some(|j| + 1)
  {
    var s := j + " + " + a;
    forall i: nat | i < |j| + 1 ensures !HasAt(s, "+", i) {
      if i < |j| {
        assert s[i] == j[i];
        assert s[i..i + 1][0] == s[i];
      } else {
        assert s[i] == ' ';
      }
    }
    assert s[|j| + 1..|j| + 2] == "+";
    FindIs(s, "+", |j| + 1);
  }

  /** The text before the separator is the number list and the text after it the additional number. */
  lemma {:induction false} PlusSeparates(j: string, a: string)
    requires '+' !in j
    ensures ParseFormatted(j + " + " + a) ==
      match ParseAll(Split(j, ", "))
      case Some(ns) => Some((ns, a))
      case None => None
  {
    var s := j + " + " + a;
    FirstPlus(j, a);
    assert s[|j|..|j| + 3] == " + ";
    assert s[..|j|] == j;
    assert s[|j| + 3..] == a;
  }

  /**
   * A listed draw prints so that its numbers and its additional number
   * can be read back; with the additional number present it reads back as
   * that number.
   */
  lemma {:induction false} FormatReadsBack(r: Row)
    requires r.winningNumbers.NumberList? && r.winningNumbers.nums != []
    ensures ParseFormatted(FormatWinningNumbers(r)) == Some((r.winningNumbers.nums, AdditionalText(r.additionalNumber)))
    ensures r.additionalNumber.Some? ==> ParseInt(AdditionalText(r.additionalNumber)) == r.additionalNumber
  {
    var ns := r.winningNumbers.nums;
    var strs := NumberStrings(ns);
    forall k | 0 <= k < |strs| ensures '+' !in strs[k] && ',' !in strs[k] {
      IntToStringChars(ns[k], '+');
      IntToStringChars(ns[k], ',');
    }
    JoinChars(strs, ", ", '+');
    PlusSeparates(Join(strs, ", "), AdditionalText(r.additionalNumber));
    SplitJoin(strs, ", ");
    ParseAllNumbers(ns);
    if r.additionalNumber.Some? {
      ParseIntToString(r.additionalNumber.value);
    }
  }


  /** A listed draw never prints as "N/A". */
  lemma {:induction false} ListedIsNotNA(r: Row)
    requires r.winningNumbers.NumberList?
    ensures FormatWinningNumbers(r) != "N/A"
  {
    var s := FormatWinningNumbers(r);
    var j := Join(NumberStrings(r.winningNumbers.nums), ", ");
    assert s[|j| + 1] == '+';
  }
}
