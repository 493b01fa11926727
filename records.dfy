/**
 * One row of the TOTO results table as the analysis code passes it around
 * (a pandas DataFrame row). Tier `g` (1..7) is stored at index `g - 1`;
 * `None` in a tier stands for a missing value (NaN).
 */
module Records {
  import opened Wrappers

  /** The `winning_numbers` cell: a Python list, or any other value. */
  datatype Numbers = NumberList(nums: seq<int>) | NotAList

  /** The columns `calculate_prize_pools` adds to a row. */
  datatype PoolColumns = PoolColumns(
    totalWinners: Option<int>,
    estimatedPrizePool: real,
    expectedGroup1Prize: real,
    estimatedSales: real,
    rolloverAmount: real)

  datatype Row = Row(
    drawDate: string,
    drawNumber: int,
    winningNumbers: Numbers,
    additionalNumber: Option<int>,
    winners: seq<Option<int>>,
    prizes: seq<Option<real>>,
    pools: Option<PoolColumns>,
    estimatedJackpot: Option<real>,
    cascadeAmount: Option<real>,
    queryString: Option<string>)

  /** Seven tiers of winners and of prizes, as every results table has. */
  predicate WellShaped(r: Row) {
    |r.winners| == 7 && |r.prizes| == 7
  }

  predicate AllWellShaped(rows: seq<Row>) {
    forall i :: 0 <= i < |rows| ==> WellShaped(rows[i])
  }
}
