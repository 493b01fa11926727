/**
 * The data the charts of visualization.py are drawn from: the frequency
 * of each winning number, the 49-by-n heatmap matrix, and the prize
 * points of each tier that had winners. Building the Plotly figures is
 * not modelled.
 */
module Visualization {
  import opened Wrappers
  import opened Records

  // ---------------------------------------------------------------------
  // Frequency of winning numbers (lines 17-25)
  // ---------------------------------------------------------------------

  /** The numbers a row contributes: its list, or nothing when the cell is not a list. */
  function Listed(r: Row): seq<int> {
    match r.winningNumbers
    case NumberList(nums) => nums
    case NotAList => []
  }

  /** `all_numbers` after the rows `df`. */
  function AllNumbers(df: seq<Row>): seq<int> {
    if df == [] then [] else AllNumbers(df[..|df| - 1]) + Listed(df[|df| - 1])
  }

  /** Lines 17-20: extend `all_numbers` with every list-valued `winning_numbers`. */
  method CollectNumbers(df: seq<Row>) returns (allNumbers: seq<int>)
    ensures allNumbers == AllNumbers(df)
  {
    allNumbers := [];
    var i := 0;
    while i < |df|
      invariant 0 <= i <= |df|
      invariant allNumbers == AllNumbers(df[..i])
    {
      assert df[..i + 1][..i] == df[..i];
      match df[i].winningNumbers {
        case NumberList(nums) =>
          allNumbers := allNumbers + nums;
        case NotAList =>
      }
      i := i + 1;
    }
    assert df[..i] == df;
  }

  /** One bar of the chart: a number and how often it was drawn. */
  datatype Count = Count(number: int, frequency: nat)

  /** Numbers strictly increase along the table. */
  predicate Ordered(cs: seq<Count>) {
    forall i :: 0 <= i < |cs| - 1 ==> cs[i].number < cs[i + 1].number
  }

  /** Every number in the table was seen at least once. */
  predicate Positive(cs: seq<Count>) {
    forall i :: 0 <= i < |cs| ==> cs[i].frequency > 0
  }

  /** Count one more `x` in a table ordered by number. */
  function Tally(cs: seq<Count>, x: int): (r: seq<Count>)
    ensures r != []
    ensures r[0].number == x || (cs != [] && r[0].number == cs[0].number)
  {
    if cs == [] then [Count(x, 1)]
    else if x < cs[0].number then [Count(x, 1)] + cs
    else if x == cs[0].number then [Count(x, cs[0].frequency + 1)] + cs[1..]
    else [cs[0]] + Tally(cs[1..], x)
  }

  /** `value_counts()` followed by `sort_values('Number')`. */
  function ValueCounts(xs: seq<int>): seq<Count> {
    if xs == [] then [] else Tally(ValueCounts(xs[..|xs| - 1]), xs[|xs| - 1])
  }

  /** The frequency table the bar chart plots. */
  function NumberFrequencies(df: seq<Row>): seq<Count> {
    ValueCounts(AllNumbers(df))
  }

  /** The frequency the table gives `v` (0 when `v` has no row). */
  function FrequencyOf(cs: seq<Count>, v: int): nat {
    if cs == [] then 0 else (if cs[0].number == v then cs[0].frequency else 0) + FrequencyOf(cs[1..], v)
  }

  /** The sum of the `Frequency` column. */
  function Total(cs: seq<Count>): nat {
    if cs == [] then 0 else cs[0].frequency + Total(cs[1..])
  }

  /** The `Number` column, as a set. */
  function Numbers(cs: seq<Count>): set<int> {
    if cs == [] then {} else {cs[0].number} + Numbers(cs[1..])
  }

  lemma {:induction false} TallyOrdered(cs: seq<Count>, x: int)
    requires Ordered(cs) && Positive(cs)
    ensures Ordered(Tally(cs, x)) && Positive(Tally(cs, x))
    decreases |cs|
  {
    if cs != [] && x > cs[0].number {
      TallyOrdered(cs[1..], x);
      var r := Tally(cs, x);
      assert r == [cs[0]] + Tally(cs[1..], x);
    }
  }

  lemma {:induction false} TallyCounts(cs: seq<Count>, x: int, v: int)
    requires Ordered(cs)
    ensures FrequencyOf(Tally(cs, x), v) == FrequencyOf(cs, v) + (if v == x then 1 else 0)
    ensures Total(Tally(cs, x)) == Total(cs) + 1
    ensures Numbers(Tally(cs, x)) == Numbers(cs) + {x}
    decreases |cs|
  {
    var r := Tally(cs, x);
    if cs == [] {
    } else if x < cs[0].number {
      assert r[1..] == cs;
    } else if x == cs[0].number {
      assert r[1..] == cs[1..];
    } else {
      TallyCounts(cs[1..], x, v);
      assert r[1..] == Tally(cs[1..], x);
    }
  }

  /** In a table ordered by number, nothing below the first number is counted. */
  lemma {:induction false} AbsentBelow(cs: seq<Count>, x: int)
    requires Ordered(cs) && cs != [] && x < cs[0].number
    ensures FrequencyOf(cs, x) == 0
    decreases |cs|
  {
    if |cs| > 1 {
      AbsentBelow(cs[1..], x);
    }
  }

  /**
   * The frequency table is ordered by number, lists each drawn number
   * once with a positive count equal to its multiplicity, and its counts
   * add up to the number of numbers.
   */
  lemma {:induction false} ValueCountsSpec(xs: seq<int>)
    ensures Ordered(ValueCounts(xs)) && Positive(ValueCounts(xs))
    ensures forall v :: FrequencyOf(ValueCounts(xs), v) == multiset(xs)[v]
    ensures Total(ValueCounts(xs)) == |xs|
    ensures Numbers(ValueCounts(xs)) == set x | x in xs
  {
    if xs != [] {
      var init, x := xs[..|xs| - 1], xs[|xs| - 1];
      ValueCountsSpec(init);
      assert xs == init + [x];
      forall v ensures FrequencyOf(ValueCounts(xs), v) == multiset(xs)[v] {
        TallyCounts(ValueCounts(init), x, v);
      }
      TallyCounts(ValueCounts(init), x, x);
      TallyOrdered(ValueCounts(init), x);
    }
  }

  /** A number is drawn in the frequency table exactly when some list-valued row holds it. */
  lemma {:induction false} AllNumbersExact(df: seq<Row>, x: int)
    ensures x in AllNumbers(df) <==> exists i :: 0 <= i < |df| && x in Listed(df[i])
  {
    if df != [] {
      var init := df[..|df| - 1];
      AllNumbersExact(init, x);
      if exists i :: 0 <= i < |init| && x in Listed(init[i]) {
        var i :| 0 <= i < |init| && x in Listed(init[i]);
        assert df[i] == init[i];
      }
      if exists i :: 0 <= i < |df| && x in Listed(df[i]) {
        var i :| 0 <= i < |df| && x in Listed(df[i]);
        if i < |init| {
          assert init[i] == df[i];
        }
      }
    }
  }

  /** Rows whose numbers are not a list add nothing to the frequencies. */
  lemma {:induction false} NonListIgnored(df: seq<Row>, r: Row)
    requires r.winningNumbers.NotAList?
    ensures NumberFrequencies(df + [r]) == NumberFrequencies(df)
  {
    assert (df + [r])[..|df|] == df;
    assert AllNumbers(df + [r]) == AllNumbers(df) + [];
    assert AllNumbers(df) + [] == AllNumbers(df);
  }

  // ---------------------------------------------------------------------
  // Winning-number heatmap (lines 114-126)
  // ---------------------------------------------------------------------

  /** Python truth of the additional number: present and non-zero. */
  predicate Truthy(a: Option<int>) {
    a.Some? && a.value != 0
  }

  /** Line 125: the additional number marks a cell of a list-valued row. */
  predicate MarksAdditional(r: Row) {
    r.winningNumbers.NumberList? && Truthy(r.additionalNumber) && 1 <= r.additionalNumber.value <= 49
  }

  /**
   * `matrix[k, i]` for row `i` = `r` and number `k + 1`: 0, 1 or 2; 2 only
   * in the additional number's cell, non-zero exactly where the draw had
   * the number, and 0 throughout a column whose numbers are not a list.
   */
  function HeatCell(r: Row, k: nat): (c: int)
    ensures 0 <= c <= 2
    ensures c == 2 <==> MarksAdditional(r) && r.additionalNumber.value == k + 1
    ensures k < 49 ==>
      (c > 0 <==> r.winningNumbers.NumberList?
                  && (k + 1 in r.winningNumbers.nums || (Truthy(r.additionalNumber) && r.additionalNumber.value == k + 1)))
    ensures r.winningNumbers.NotAList? ==> c == 0
  {
    if MarksAdditional(r) && r.additionalNumber.value == k + 1 then 2
    else if r.winningNumbers.NumberList? && k + 1 in r.winningNumbers.nums then 1
    else 0
  }

  /** Lines 114-126: a 49 x n matrix of zeros, row `num - 1` of column `i` marked per draw. */
  method WinningNumbersHeatmap(df: seq<Row>) returns (matrix: array2<int>)
    ensures fresh(matrix) && matrix.Length0 == 49 && matrix.Length1 == |df|
    ensures forall k, i :: 0 <= k < 49 && 0 <= i < |df| ==> matrix[k, i] == HeatCell(df[i], k)
  {
    matrix := new int[49, |df|]((k, i) => 0);
    var i := 0;
    while i < |df|
      invariant 0 <= i <= |df|
      invariant forall k, c :: 0 <= k < 49 && 0 <= c < |df| ==>
        matrix[k, c] == (if c < i then HeatCell(df[c], k) else 0)
    {
      var row := df[i];
      if row.winningNumbers.NumberList? {
        var nums := row.winningNumbers.nums;
        var j := 0;
        while j < |nums|
          invariant 0 <= j <= |nums|
          invariant forall k, c :: 0 <= k < 49 && 0 <= c < |df| ==>
            matrix[k, c] == (if c < i then HeatCell(df[c], k) else if c == i && k + 1 in nums[..j] then 1 else 0)
        {
          var num := nums[j];
          assert nums[..j + 1] == nums[..j] + [num];
          if 1 <= num <= 49 {
            matrix[num - 1, i] := 1;
          }
          j := j + 1;
        }
        assert nums[..j] == nums;
        if Truthy(row.additionalNumber) && 1 <= row.additionalNumber.value <= 49 {
          matrix[row.additionalNumber.value - 1, i] := 2;
        }
      }
      i := i + 1;
    }
  }

  // ---------------------------------------------------------------------
  // Prize points by tier (lines 163-179)
  // ---------------------------------------------------------------------

  /** One entry of `prize_data`: the tier and the prize (`None` for NaN). */
  datatype PrizePoint = PrizePoint(group: nat, prize: Option<real>)

  /** `df[winners_col] > 0`; a missing count (NaN) compares false. */
  predicate HadWinners(r: Row, g: nat)
    requires WellShaped(r) && 1 <= g <= 7
  {
    r.winners[g - 1].Some? && r.winners[g - 1].value > 0
  }

  /** The points of tier `g` over the rows `df`, in row order. */
  function GroupPoints(df: seq<Row>, g: nat): seq<PrizePoint>
    requires AllWellShaped(df) && 1 <= g <= 7
  {
    if df == [] then []
    else
      var r := df[|df| - 1];
      GroupPoints(df[..|df| - 1], g) + (if HadWinners(r, g) then [PrizePoint(g, r.prizes[g - 1])] else [])
  }

  /** The points of tiers 1..g, tier by tier. */
  function PointsUpTo(df: seq<Row>, g: nat): seq<PrizePoint>
    requires AllWellShaped(df) && g <= 7
  {
    if g == 0 then [] else PointsUpTo(df, g - 1) + GroupPoints(df, g)
  }

  /** One more row extends a tier's points by that row's prize when the tier had winners. */
  lemma {:induction false} GroupPointsStep(before: seq<PrizePoint>, df: seq<Row>, i: nat, g: nat)
    requires AllWellShaped(df) && 1 <= g <= 7 && i < |df|
    ensures before + GroupPoints(df[..i + 1], g) ==
      (before + GroupPoints(df[..i], g)) + (if HadWinners(df[i], g) then [PrizePoint(g, df[i].prizes[g - 1])] else [])
  {
    assert df[..i + 1][..i] == df[..i];
  }

  /** Lines 169-179: the inner loop, appending tier `group`'s points to `prizeData0`. */
  method AppendGroupPoints(df: seq<Row>, group: nat, prizeData0: seq<PrizePoint>) returns (prizeData: seq<PrizePoint>)
    requires AllWellShaped(df) && 1 <= group <= 7
    ensures prizeData == prizeData0 + GroupPoints(df, group)
  {
    prizeData := prizeData0;
    var i := 0;
    while i < |df|
      invariant 0 <= i <= |df|
      invariant prizeData == prizeData0 + GroupPoints(df[..i], group)
    {
      GroupPointsStep(prizeData0, df, i, group);
      var row := df[i];
      if row.winners[group - 1].Some? && row.winners[group - 1].value > 0 {
        prizeData := prizeData + [PrizePoint(group, row.prizes[group - 1])];
      }
      i := i + 1;
    }
    assert df[..i] == df;
  }

  /** Lines 163-179: `prize_data` for the box plot. */
  method GroupPrizeDistribution(df: seq<Row>) returns (prizeData: seq<PrizePoint>)
    requires AllWellShaped(df)
    ensures prizeData == PointsUpTo(df, 7)
  {
    prizeData := [];
    var group := 1;
    while group < 8
      invariant 1 <= group <= 8
      invariant prizeData == PointsUpTo(df, group - 1)
    {
      prizeData := AppendGroupPoints(df, group, prizeData);
      group := group + 1;
    }
  }

  /** Every point of a tier is the prize of a row where that tier had winners. */
  lemma {:induction false} GroupPointsSound(df: seq<Row>, g: nat, p: PrizePoint)
    requires AllWellShaped(df) && 1 <= g <= 7 && p in GroupPoints(df, g)
    ensures p.group == g && exists i :: 0 <= i < |df| && HadWinners(df[i], g) && p.prize == df[i].prizes[g - 1]
  {
    var init := df[..|df| - 1];
    var last := |df| - 1;
    if p in GroupPoints(init, g) {
      GroupPointsSound(init, g, p);
      var i :| 0 <= i < |init| && HadWinners(init[i], g) && p.prize == init[i].prizes[g - 1];
      assert df[i] == init[i];
    } else {
      assert HadWinners(df[last], g) && p.prize == df[last].prizes[g - 1];
    }
  }

  /** Every row where a tier had winners gives that tier a point. */
  lemma {:induction false} GroupPointsComplete(df: seq<Row>, g: nat, i: nat)
    requires AllWellShaped(df) && 1 <= g <= 7 && i < |df| && HadWinners(df[i], g)
    ensures PrizePoint(g, df[i].prizes[g - 1]) in GroupPoints(df, g)
  {
    var init := df[..|df| - 1];
    if i < |init| {
      assert init[i] == df[i];
      GroupPointsComplete(init, g, i);
    }
  }

  /** A tier's points are exactly the prizes of the rows where it had winners. */
  lemma {:induction false} GroupPointsExact(df: seq<Row>, g: nat, p: PrizePoint)
    requires AllWellShaped(df) && 1 <= g <= 7
    ensures p in GroupPoints(df, g) <==>
      p.group == g && exists i :: 0 <= i < |df| && HadWinners(df[i], g) && p.prize == df[i].prizes[g - 1]
  {
    if p in GroupPoints(df, g) {
      GroupPointsSound(df, g, p);
    }
    if p.group == g && exists i :: 0 <= i < |df| && HadWinners(df[i], g) && p.prize == df[i].prizes[g - 1] {
      var i :| 0 <= i < |df| && HadWinners(df[i], g) && p.prize == df[i].prizes[g - 1];
      assert p == PrizePoint(g, df[i].prizes[g - 1]);
      GroupPointsComplete(df, g, i);
    }
  }

  /** The points come tier by tier: every point's tier is in 1..g and tiers never go down. */
  lemma {:induction false} PointsOrdered(df: seq<Row>, g: nat)
    requires AllWellShaped(df) && g <= 7
    ensures forall i :: 0 <= i < |PointsUpTo(df, g)| ==> 1 <= PointsUpTo(df, g)[i].group <= g
    ensures forall i, j :: 0 <= i <= j < |PointsUpTo(df, g)| ==> PointsUpTo(df, g)[i].group <= PointsUpTo(df, g)[j].group
  {
    if g > 0 {
      PointsOrdered(df, g - 1);
      var xs, ys := PointsUpTo(df, g - 1), GroupPoints(df, g);
      forall k | 0 <= k < |ys| ensures ys[k].group == g {
        GroupPointsExact(df, g, ys[k]);
      }
      assert PointsUpTo(df, g) == xs + ys;
    }
  }
}
