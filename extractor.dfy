/**
 * The results page (`scrape_toto_results` in scraper.py): draw date and
 * number, the six winning numbers and the additional number, and the
 * winners and prize of each tier.
 *
 * The HTML tree is taken as already reduced to the strings and cell
 * values the code reads from it; fetching the page is a parameter (`None`
 * when both downloads failed).
 */
module Extractor {
  import opened Wrappers
  import opened Text
  import opened Calendar
  import opened ScraperPatterns
  import opened Records

  /**
   * A table cell as `pandas.read_html` gives it. `int(str(x))` raises for
   * every float, NaN included, so a float needs no value here.
   */
  datatype Cell = Str(s: string) | Int(n: int) | Float

  /** A `<table>`: one `read_html` would reject, or its column labels and rows. */
  datatype PrizeTable = Unreadable | Table(columns: seq<string>, rows: seq<seq<Cell>>)

  /** What the code reads from the parsed page. */
  datatype ResultPage = ResultPage(
    texts: seq<string>,                  // every text node, in document order
    winningTable: Option<seq<string>>,   // cells of the table around the first "Winning Numbers" text
    additionalTable: Option<seq<string>>,// cells of the table around the first "Additional Number" text
    blocks: seq<string>,                 // the stripped text of every div and span, in document order
    tables: seq<PrizeTable>,             // every table, in document order
    group1Row: Option<seq<string>>)      // cells of the row around the first "Group 1" text

  /** The `prize_data` dict: `group_<g>_winners` and `group_<g>_prize`, by tier. */
  datatype PrizeData = PrizeData(winners: map<nat, int>, prizes: map<nat, real>)

  /** The one result a successful scrape produces. */
  datatype ScrapedDraw = ScrapedDraw(
    drawDate: string,
    drawNumber: nat,
    winningNumbers: seq<int>,
    additionalNumber: Option<int>,
    tiers: PrizeData)

  // ---------------------------------------------------------------------
  // Draw date and draw number
  // ---------------------------------------------------------------------

  /** The date one text node yields: it must hold a date, not be CDATA, and the first date must parse. */
  function TextDate(t: string): Option<string> {
    if Search(t, DateAt, 0).Some? && !Contains(t, "CDATA") then LabelDate(t) else None
  }

  /** The draw date: from the first text node that yields one (lines 228-247). */
  function PageDate(texts: seq<string>): (r: Option<string>)
    ensures r.Some? ==> IsIsoShape(r.value) && ParseIso(r.value).Some?
  {
    if texts == [] then None
    else if TextDate(texts[0]).Some? then TextDate(texts[0])
    else PageDate(texts[1..])
  }

  /** The draw number: from the first text node holding `Draw No <digits>` (lines 250-260). */
  function PageDrawNumber(texts: seq<string>): Option<nat> {
    if texts == [] then None
    else match Search(texts[0], PageDrawAt, 0)
      case Some((_, n)) => Some(n)
      case None => PageDrawNumber(texts[1..])
  }

  /**
   * A text node whose first digit starts `D Month YYYY` for the valid date
   * `d`, and which is not CDATA, yields `d` in ISO form.
   */
  lemma {:induction false} TextDateReads(pre: string, day: string, sp1: string, month: string,
                                         sp2: string, year: string, rest: string, d: Date)
    requires !exists k :: 0 <= k < |pre| && IsDigit(pre[k])
    requires 1 <= |day| <= 2 && AllDigits(day)
    requires |sp1| > 0 && All(sp1, IsSpace) && |month| > 0 && All(month, IsLetter)
    requires |sp2| > 0 && All(sp2, IsSpace) && |year| == 4 && AllDigits(year)
    requires Valid(d) && Value(day) == d.day && Value(year) == d.year
    requires LowerString(month) == FullMonthNames[d.month - 1] || LowerString(month) == AbbrMonthNames[d.month - 1]
    requires !Contains(pre + (day + sp1 + month + sp2 + year) + rest, "CDATA")
    ensures TextDate(pre + (day + sp1 + month + sp2 + year) + rest) == Some(FormatIso(d))
  {
    LabelDateReads(pre, day, sp1, month, sp2, year, rest, d);
  }

  /** The page's draw date is the date of the first text node that yields one, and `None` when none does. */
  lemma {:induction false} PageDateFirst(texts: seq<string>, k: nat)
    requires k <= |texts|
    requires forall j :: 0 <= j < k ==> TextDate(texts[j]).None?
    ensures PageDate(texts) == (if k < |texts| && TextDate(texts[k]).Some? then TextDate(texts[k]) else PageDate(texts[k..]))
  {
    if k > 0 {
      PageDateFirst(texts[1..], k - 1);
      assert texts[1..][k - 1..] == texts[k..];
    }
  }

  /** The page's draw number is the one in the first text node that has a match, and `None` when none has. */
  lemma {:induction false} PageDrawNumberFirst(texts: seq<string>, k: nat)
    requires k <= |texts|
    requires forall j :: 0 <= j < k ==> Search(texts[j], PageDrawAt, 0).None?
    ensures PageDrawNumber(texts) == PageDrawNumber(texts[k..])
    ensures k == |texts| ==> PageDrawNumber(texts).None?
  {
    if k > 0 {
      PageDrawNumberFirst(texts[1..], k - 1);
      assert texts[1..][k - 1..] == texts[k..];
    }
  }

  // ---------------------------------------------------------------------
  // Winning numbers and the additional number
  // ---------------------------------------------------------------------

  /** The TOTO numbers among table cells, in order (lines 281-284). */
  function TableNumbers(cells: seq<string>): (r: seq<int>)
    ensures |r| <= |cells|
    ensures forall k :: 0 <= k < |r| ==> 1 <= r[k] <= 49
  {
    if cells == [] then []
    else
      var last := TotoNumber(cells[|cells| - 1]);
      TableNumbers(cells[..|cells| - 1]) + (if last.Some? then [last.value] else [])
  }

  /** The first TOTO number among table cells (lines 295-299). */
  function FirstNumber(cells: seq<string>): (r: Option<int>)
    ensures r.Some? ==> 1 <= r.value <= 49
  {
    if cells == [] then None
    else if TotoNumber(cells[0]).Some? then TotoNumber(cells[0])
    else FirstNumber(cells[1..])
  }

  /**
   * The div/span pass from block `i` on (lines 304-316): collect TOTO
   * numbers; on reaching six with no additional number yet, take the next
   * block as the additional number if it is one, and stop.
   */
  function BlockScan(blocks: seq<string>, i: nat, wn: seq<int>, add: Option<int>): (r: (seq<int>, Option<int>))
    requires i <= |blocks|
    decreases |blocks| - i
  {
    if i == |blocks| then (wn, add)
    else
      var n := TotoNumber(blocks[i]);
      if n.None? then BlockScan(blocks, i + 1, wn, add)
      else
        var wn' := wn + [n.value];
        if |wn'| == 6 && add.None? then
          var next := if i + 1 < |blocks| then TotoNumber(blocks[i + 1]) else None;
          (wn', if next.Some? then next else add)
        else BlockScan(blocks, i + 1, wn', add)
  }

  /** The numbers collected before finalising: from the tables, or from the blocks when the tables gave none. */
  function Collected(p: ResultPage): (seq<int>, Option<int>) {
    var wn := if p.winningTable.Some? then TableNumbers(p.winningTable.value) else [];
    var add := if p.additionalTable.Some? then FirstNumber(p.additionalTable.value) else None;
    if wn == [] then BlockScan(p.blocks, 0, [], add) else (wn, add)
  }

  /**
   * Lines 319-331: fewer than six numbers is a failure; more than six with
   * no additional number makes the seventh the additional one and keeps
   * six; otherwise the list stays as collected.
   */
  function Finalise(wn: seq<int>, add: Option<int>): (r: Option<(seq<int>, Option<int>)>)
    ensures r.None? <==> |wn| < 6
    ensures r.Some? && add.None? && |wn| > 6 ==> r.value == (wn[..6], Some(wn[6]))
    ensures r.Some? && (add.Some? || |wn| == 6) ==> r.value == (wn, add)
  {
    if |wn| < 6 then None
    else if |wn| > 6 && add.None? then Some((wn[..6], Some(wn[6])))
    else Some((wn, add))
  }

  // ---------------------------------------------------------------------
  // Prize tables
  // ---------------------------------------------------------------------

  /** Every tier from 1 to 7 at zero (lines 334-342). */
  function InitialPrizeData(): (r: PrizeData)
    ensures forall g :: 1 <= g <= 7 ==> g in r.winners && r.winners[g] == 0 && g in r.prizes && r.prizes[g] == 0.0
    ensures forall g :: g in r.winners || g in r.prizes ==> 1 <= g <= 7
  {
    PrizeData(map[1 := 0, 2 := 0, 3 := 0, 4 := 0, 5 := 0, 6 := 0, 7 := 0],
              map[1 := 0.0, 2 := 0.0, 3 := 0.0, 4 := 0.0, 5 := 0.0, 6 := 0.0, 7 := 0.0])
  }

  predicate HasTiers(d: PrizeData) {
    forall g :: 1 <= g <= 7 ==> g in d.winners && g in d.prizes
  }

  /** A table is a prize table when a column label or a text cell mentions "group", in any case (lines 352-353). */
  predicate HasGroup(columns: seq<string>, rows: seq<seq<Cell>>) {
    (exists i :: 0 <= i < |columns| && Contains(LowerString(columns[i]), "group"))
    || (exists i, j :: 0 <= i < |rows| && 0 <= j < |rows[i]| && rows[i][j].Str?
                       && Contains(LowerString(rows[i][j].s), "group"))
  }

  /** The tier a row names: from the first text cell holding `Group <digit>` (lines 367-373). */
  function RowGroup(cells: seq<Cell>): (r: Option<nat>)
    ensures r.Some? ==> r.value < 10
  {
    if cells == [] then None
    else if cells[0].Str? && GroupNumber(cells[0].s).Some? then GroupNumber(cells[0].s)
    else RowGroup(cells[1..])
  }

  /** `prize_amount` and `winners_count` while a row's cells are read. */
  datatype Scan = Scan(prize: Option<real>, winners: Option<int>)

  /** The dollar amount a cell offers: a text cell with '$' and a match of the amount pattern. */
  function CellAmount(c: Cell): (r: Option<Amount>)
    ensures r.Some? ==> WellFormedAmount(r.value)
  {
    if c.Str? && Contains(c.s, "$") then PrizeMatch(c.s) else None
  }

  /**
   * One cell of lines 380-389. `None` is the exception that abandons the
   * table: an amount `float` rejects, or a float cell that `int(str(...))`
   * rejects.
   */
  function CellStep(acc: Scan, c: Cell): Option<Scan> {
    var afterPrize :=
      match CellAmount(c)
      case None => Some(acc)
      case Some(a) =>
        match AmountValue(a)
        case None => None
        case Some(v) => Some(acc.(prize := Some(v)));
    match afterPrize
    case None => None
    case Some(s) =>
      match c
      case Int(n) => Some(s.(winners := Some(n)))
      case Float => None
      case Str(t) => if AllDigits(t) then Some(s.(winners := Some(Value(t) as int))) else Some(s)
  }

  /** The cells of a row from the first on, or `None` if one of them raises. */
  function ScanFrom(cells: seq<Cell>, acc: Scan): Option<Scan> {
    if cells == [] then Some(acc)
    else match CellStep(acc, cells[0])
      case None => None
      case Some(s) => ScanFrom(cells[1..], s)
  }

  /** Lines 392-397: the last "N ... winners" match among the text cells, else `acc`. */
  function WinnersFrom(cells: seq<Cell>, acc: Option<int>): Option<int> {
    if cells == [] then acc
    else
      var m := if cells[0].Str? then WinnersMatch(cells[0].s) else None;
      WinnersFrom(cells[1..], if m.Some? then Some(m.value as int) else acc)
  }

  /** A text cell holding `N ... winners`. */
  predicate WinnersCell(c: Cell) {
    c.Str? && WinnersMatch(c.s).Some?
  }

  /** With no text cell holding `N ... winners`, the winners stay `acc`. */
  lemma {:induction false} WinnersFromNone(cells: seq<Cell>, acc: Option<int>)
    requires forall j :: 0 <= j < |cells| ==> !WinnersCell(cells[j])
    ensures WinnersFrom(cells, acc) == acc
  {
    if cells != [] {
      assert !WinnersCell(cells[0]);
      WinnersFromNone(cells[1..], acc);
    }
  }

  /** Each match overwrites the one before: the winners are the last matching cell's `N`. */
  lemma {:induction false} WinnersFromLast(cells: seq<Cell>, acc: Option<int>, k: nat)
    requires k < |cells| && WinnersCell(cells[k])
    requires forall j :: k < j < |cells| ==> !WinnersCell(cells[j])
    ensures WinnersFrom(cells, acc) == Some(WinnersMatch(cells[k].s).value as int)
  {
    if k == 0 {
      WinnersFromNone(cells[1..], Some(WinnersMatch(cells[0].s).value as int));
    } else {
      var m := if cells[0].Str? then WinnersMatch(cells[0].s) else None;
      WinnersFromLast(cells[1..], if m.Some? then Some(m.value as int) else acc, k - 1);
    }
  }

  datatype RowOutcome = Skip | Update(group: nat, prize: Option<real>, winners: Option<int>) | Abort

  /** One row of a prize table (lines 361-404). Tier 0 names no tier. */
  function ParseRow(cells: seq<Cell>): (r: RowOutcome)
    ensures r.Update? ==> 1 <= r.group <= 9
  {
    var g := RowGroup(cells);
    if g.None? || g.value == 0 then Skip
    else match ScanFrom(cells, Scan(None, None))
      case None => Abort
      case Some(s) =>
        Update(g.value, s.prize, if s.winners.Some? then s.winners else WinnersFrom(cells, None))
  }

  /** Lines 400-404: write what the row found into its tier. */
  function ApplyRow(d: PrizeData, g: nat, prize: Option<real>, winners: Option<int>): PrizeData {
    PrizeData(if winners.Some? then d.winners[g := winners.value] else d.winners,
              if prize.Some? then d.prizes[g := prize.value] else d.prizes)
  }

  /** The rows of one prize table from the first on; a raising row ends the table, keeping what earlier rows wrote. */
  function RowsFrom(rows: seq<seq<Cell>>, d: PrizeData): PrizeData {
    if rows == [] then d
    else match ParseRow(rows[0])
      case Abort => d
      case Skip => RowsFrom(rows[1..], d)
      case Update(g, p, w) => RowsFrom(rows[1..], ApplyRow(d, g, p, w))
  }

  function ApplyTable(t: PrizeTable, d: PrizeData): PrizeData {
    match t
    case Unreadable => d
    case Table(columns, rows) => if HasGroup(columns, rows) then RowsFrom(rows, d) else d
  }

  /** Every table of the page in turn (lines 345-407). */
  function TablesFrom(tables: seq<PrizeTable>, d: PrizeData): PrizeData {
    if tables == [] then d
    else TablesFrom(tables[1..], ApplyTable(tables[0], d))
  }

  /** Every tier prize is still zero (line 411). */
  predicate NoPrizes(d: PrizeData) {
    forall g :: g in d.prizes ==> d.prizes[g] == 0.0
  }

  /**
   * The Group 1 row fallback from the first cell on (lines 417-424). `None`
   * is the exception of an amount `float` rejects, which ends the scrape.
   */
  function Group1From(cells: seq<string>, d: PrizeData): Option<PrizeData> {
    if cells == [] then Some(d)
    else
      var c := cells[0];
      if Contains(c, "$") then
        match PrizeMatch(c)
        case None => Group1From(cells[1..], d)
        case Some(a) =>
          match AmountValue(a)
          case None => None
          case Some(v) => Group1From(cells[1..], d.(prizes := d.prizes[1 := v]))
      else if AllDigits(c) then Group1From(cells[1..], d.(winners := d.winners[1 := Value(c) as int]))
      else Group1From(cells[1..], d)
  }

  /** The tier data of a page: the tables, then the Group 1 fallback when no prize was found. */
  function PagePrizes(p: ResultPage): Option<PrizeData> {
    var d := TablesFrom(p.tables, InitialPrizeData());
    if NoPrizes(d) && p.group1Row.Some? then Group1From(p.group1Row.value, d) else Some(d)
  }

  /**
   * `scrape_toto_results`: `None` for the empty DataFrame. It needs the
   * page, a draw date, a draw number and six numbers.
   */
  function Scrape(page: Option<ResultPage>): Option<ScrapedDraw> {
    if page.None? then None
    else
      var p := page.value;
      var date := PageDate(p.texts);
      var number := PageDrawNumber(p.texts);
      if date.None? || number.None? then None
      else
        var (wn, add) := Collected(p);
        match Finalise(wn, add)
        case None => None
        case Some((nums, add')) =>
          match PagePrizes(p)
          case None => None
          case Some(d) => Some(ScrapedDraw(date.value, number.value, nums, add', d))
  }

  // ---------------------------------------------------------------------
  // Properties
  // ---------------------------------------------------------------------

  /** A number is collected from a table exactly when some cell holds it as a TOTO number. */
  lemma {:induction false} TableNumbersExact(cells: seq<string>, x: int)
    ensures x in TableNumbers(cells) <==> exists k :: 0 <= k < |cells| && TotoNumber(cells[k]) == Some(x)
  {
    if x in TableNumbers(cells) {
      TableNumbersSound(cells, x);
    }
    if exists k :: 0 <= k < |cells| && TotoNumber(cells[k]) == Some(x) {
      var k :| 0 <= k < |cells| && TotoNumber(cells[k]) == Some(x);
      TableNumbersComplete(cells, k);
    }
  }

  /** Every collected number is some cell's TOTO number. */
  lemma {:induction false} TableNumbersSound(cells: seq<string>, x: int)
    requires x in TableNumbers(cells)
    ensures exists k :: 0 <= k < |cells| && TotoNumber(cells[k]) == Some(x)
  {
    var init := cells[..|cells| - 1];
    if x in TableNumbers(init) {
      TableNumbersSound(init, x);
      var k :| 0 <= k < |init| && TotoNumber(init[k]) == Some(x);
      assert cells[k] == init[k];
    } else {
      assert TotoNumber(cells[|cells| - 1]) == Some(x);
    }
  }

  /** Every cell's TOTO number is collected. */
  lemma {:induction false} TableNumbersComplete(cells: seq<string>, k: nat)
    requires k < |cells| && TotoNumber(cells[k]).Some?
    ensures TotoNumber(cells[k]).value in TableNumbers(cells)
  {
    var init := cells[..|cells| - 1];
    if k < |init| {
      assert init[k] == cells[k];
      TableNumbersComplete(init, k);
    }
  }

  /**
   * The div/span pass collects only TOTO numbers, never replaces an
   * additional number already known, and with none known stops at six.
   */
  lemma {:induction false} BlockScanBounds(blocks: seq<string>, i: nat, wn: seq<int>, add: Option<int>)
    requires i <= |blocks|
    requires forall k :: 0 <= k < |wn| ==> 1 <= wn[k] <= 49
    requires add.Some? ==> 1 <= add.value <= 49
    ensures var r := BlockScan(blocks, i, wn, add);
      (forall k :: 0 <= k < |r.0| ==> 1 <= r.0[k] <= 49)
      && (r.1.Some? ==> 1 <= r.1.value <= 49)
      && (add.Some? ==> r.1 == add)
      && (add.None? && |wn| < 6 ==> |r.0| <= 6)
    decreases |blocks| - i
  {
    if i < |blocks| {
      var n := TotoNumber(blocks[i]);
      if n.None? {
        BlockScanBounds(blocks, i + 1, wn, add);
      } else {
        var wn' := wn + [n.value];
        if !(|wn'| == 6 && add.None?) {
          BlockScanBounds(blocks, i + 1, wn', add);
        }
      }
    }
  }

  /** The TOTO numbers of joined blocks are those of each part, in order. */
  lemma {:induction false} TableNumbersAppend(a: seq<string>, b: seq<string>)
    ensures TableNumbers(a + b) == TableNumbers(a) + TableNumbers(b)
    decreases |b|
  {
    if b != [] {
      var b' := b[..|b| - 1];
      assert (a + b)[..|a + b| - 1] == a + b';
      TableNumbersAppend(a, b');
    } else {
      assert a + b == a;
    }
  }

  /** Reading blocks `i` to `j`: the TOTO number of block `i`, if any, then those after it. */
  lemma {:induction false} TableNumbersFrom(blocks: seq<string>, i: nat, j: nat)
    requires i < j <= |blocks|
    ensures TotoNumber(blocks[i]).None? ==> TableNumbers(blocks[i..j]) == TableNumbers(blocks[i + 1..j])
    ensures TotoNumber(blocks[i]).Some? ==>
      TableNumbers(blocks[i..j]) == [TotoNumber(blocks[i]).value] + TableNumbers(blocks[i + 1..j])
  {
    assert blocks[i..j] == [blocks[i]] + blocks[i + 1..j];
    TableNumbersAppend([blocks[i]], blocks[i + 1..j]);
    assert [blocks[i]][..0] == [];
    assert [] + TableNumbers(blocks[i + 1..j]) == TableNumbers(blocks[i + 1..j]);
  }

  /** The TOTO numbers of blocks `i` onwards, read front to back. */
  function TotoNumbersFrom(blocks: seq<string>, i: nat): (r: seq<int>)
    requires i <= |blocks|
    ensures |r| <= |blocks| - i
    decreases |blocks| - i
  {
    if i == |blocks| then []
    else
      var n := TotoNumber(blocks[i]);
      (if n.Some? then [n.value] else []) + TotoNumbersFrom(blocks, i + 1)
  }

  /** Reading from the front gives the same numbers as the table scan of `blocks[i..]`. */
  lemma {:induction false} TotoNumbersFromTable(blocks: seq<string>, i: nat)
    requires i <= |blocks|
    ensures TotoNumbersFrom(blocks, i) == TableNumbers(blocks[i..])
    decreases |blocks| - i
  {
    if i == |blocks| {
      assert blocks[i..] == [];
    } else {
      TotoNumbersFromTable(blocks, i + 1);
      TableNumbersFrom(blocks, i, |blocks|);
      assert blocks[i..] == blocks[i..|blocks|] && blocks[i + 1..] == blocks[i + 1..|blocks|];
    }
  }

  /** The index of the block holding the `m`-th TOTO number read from block `i` on. */
  function NthTotoBlock(blocks: seq<string>, i: nat, m: nat): (r: Option<nat>)
    requires i <= |blocks| && m >= 1
    ensures r.Some? ==> i <= r.value < |blocks| && TotoNumber(blocks[r.value]).Some?
    decreases |blocks| - i
  {
    if i == |blocks| then None
    else if TotoNumber(blocks[i]).None? then NthTotoBlock(blocks, i + 1, m)
    else if m == 1 then Some(i)
    else NthTotoBlock(blocks, i + 1, m - 1)
  }

  /**
   * There is an `m`-th TOTO number exactly when at least `m` are read, and
   * exactly `m - 1` of them come from the blocks before its own.
   */
  lemma {:induction false} NthTotoBlockCounts(blocks: seq<string>, i: nat, m: nat)
    requires i <= |blocks| && m >= 1
    ensures NthTotoBlock(blocks, i, m).Some? <==> |TotoNumbersFrom(blocks, i)| >= m
    ensures var r := NthTotoBlock(blocks, i, m);
      r.Some? ==> |TotoNumbersFrom(blocks, i)| - |TotoNumbersFrom(blocks, r.value)| == m - 1
    decreases |blocks| - i
  {
    if i < |blocks| {
      if TotoNumber(blocks[i]).None? {
        NthTotoBlockCounts(blocks, i + 1, m);
      } else if m > 1 {
        NthTotoBlockCounts(blocks, i + 1, m - 1);
      }
    }
  }

  /**
   * With the additional number already known from its own table, the div/span
   * pass collects every TOTO number from block `i` on, in order, and keeps that
   * additional number.
   */
  lemma {:induction false} BlockScanKnown(blocks: seq<string>, i: nat, wn: seq<int>, add: Option<int>)
    requires i <= |blocks| && add.Some?
    ensures BlockScan(blocks, i, wn, add) == (wn + TotoNumbersFrom(blocks, i), add)
    decreases |blocks| - i
  {
    if i == |blocks| {
      assert wn + [] == wn;
    } else {
      var n := TotoNumber(blocks[i]);
      if n.None? {
        BlockScanKnown(blocks, i + 1, wn, add);
        assert [] + TotoNumbersFrom(blocks, i + 1) == TotoNumbersFrom(blocks, i + 1);
      } else {
        BlockScanKnown(blocks, i + 1, wn + [n.value], add);
        assert wn + [n.value] + TotoNumbersFrom(blocks, i + 1) == wn + ([n.value] + TotoNumbersFrom(blocks, i + 1));
      }
    }
  }

  /** The additional number the div/span pass takes once it holds six: the block after the sixth number's. */
  function AfterSixth(blocks: seq<string>, i: nat, need: nat): Option<int>
    requires i <= |blocks| && need >= 1
  {
    match NthTotoBlock(blocks, i, need)
    case None => None
    case Some(j) => if j + 1 < |blocks| then TotoNumber(blocks[j + 1]) else None
  }

  /**
   * With no additional number known, the div/span pass collects TOTO numbers,
   * in order, until six are held.
   */
  lemma {:induction false} BlockScanUnknown(blocks: seq<string>, i: nat, wn: seq<int>)
    requires i <= |blocks| && |wn| < 6
    ensures var ns := TotoNumbersFrom(blocks, i);
      BlockScan(blocks, i, wn, None).0 == wn + (if |ns| < 6 - |wn| then ns else ns[..6 - |wn|])
    decreases |blocks| - i
  {
    if i == |blocks| {
      assert wn + [] == wn;
    } else {
      var n := TotoNumber(blocks[i]);
      var rest := TotoNumbersFrom(blocks, i + 1);
      if n.None? {
        BlockScanUnknown(blocks, i + 1, wn);
        assert [] + rest == rest;
      } else if |wn| + 1 == 6 {
        assert ([n.value] + rest)[..1] == [n.value];
      } else {
        BlockScanUnknown(blocks, i + 1, wn + [n.value]);
        TakeAfter(wn, n.value, rest, 6 - |wn|);
      }
    }
  }

  /** Taking `need` numbers after `wn` from `[v] + rest` is taking `need - 1` after `wn + [v]` from `rest`. */
  lemma {:induction false} TakeAfter(wn: seq<int>, v: int, rest: seq<int>, need: nat)
    requires need >= 2
    ensures var ns := [v] + rest;
      wn + [v] + (if |rest| < need - 1 then rest else rest[..need - 1])
      == wn + (if |ns| < need then ns else ns[..need])
  {
    if |rest| >= need - 1 {
      assert ([v] + rest)[..need] == [v] + rest[..need - 1];
      assert wn + [v] + rest[..need - 1] == wn + ([v] + rest[..need - 1]);
    } else {
      assert wn + [v] + rest == wn + ([v] + rest);
    }
  }

  /**
   * With no additional number known, the block right after the one giving the
   * sixth number supplies the additional number, if it holds a TOTO number.
   */
  lemma {:induction false} BlockScanAdditional(blocks: seq<string>, i: nat, wn: seq<int>)
    requires i <= |blocks| && |wn| < 6
    ensures BlockScan(blocks, i, wn, None).1 == AfterSixth(blocks, i, 6 - |wn|)
    decreases |blocks| - i
  {
    if i < |blocks| {
      var n := TotoNumber(blocks[i]);
      if n.None? {
        BlockScanAdditional(blocks, i + 1, wn);
      } else if |wn| + 1 < 6 {
        BlockScanAdditional(blocks, i + 1, wn + [n.value]);
      }
    }
  }

  /** Every collected number, and the additional one if any, is a TOTO number. */
  lemma {:induction false} CollectedInRange(p: ResultPage)
    ensures var (wn, add) := Collected(p);
      (forall k :: 0 <= k < |wn| ==> 1 <= wn[k] <= 49) && (add.Some? ==> 1 <= add.value <= 49)
  {
    var add := if p.additionalTable.Some? then FirstNumber(p.additionalTable.value) else None;
    BlockScanBounds(p.blocks, 0, [], add);
  }

  /** Rows and tables only add tiers, never remove one. */
  lemma {:induction false} RowsKeepTiers(rows: seq<seq<Cell>>, d: PrizeData)
    ensures d.winners.Keys <= RowsFrom(rows, d).winners.Keys
    ensures d.prizes.Keys <= RowsFrom(rows, d).prizes.Keys
  {
    if rows != [] {
      match ParseRow(rows[0])
      case Abort =>
      case Skip => RowsKeepTiers(rows[1..], d);
      case Update(g, p, w) => RowsKeepTiers(rows[1..], ApplyRow(d, g, p, w));
    }
  }

  lemma {:induction false} TablesKeepTiers(tables: seq<PrizeTable>, d: PrizeData)
    ensures d.winners.Keys <= TablesFrom(tables, d).winners.Keys
    ensures d.prizes.Keys <= TablesFrom(tables, d).prizes.Keys
  {
    if tables != [] {
      match tables[0] {
        case Unreadable =>
        case Table(columns, rows) => RowsKeepTiers(rows, d);
      }
      TablesKeepTiers(tables[1..], ApplyTable(tables[0], d));
    }
  }

  /** A tier no row of the rows names keeps its winners and prize. */
  lemma {:induction false} RowsKeepUnnamedTier(rows: seq<seq<Cell>>, d: PrizeData, g: nat)
    requires forall k :: 0 <= k < |rows| ==> RowGroup(rows[k]) != Some(g)
    ensures var r := RowsFrom(rows, d);
      (g in r.winners <==> g in d.winners) && (g in d.winners ==> r.winners[g] == d.winners[g])
      && (g in r.prizes <==> g in d.prizes) && (g in d.prizes ==> r.prizes[g] == d.prizes[g])
  {
    if rows != [] {
      assert RowGroup(rows[0]) != Some(g);
      match ParseRow(rows[0])
      case Abort =>
      case Skip => RowsKeepUnnamedTier(rows[1..], d, g);
      case Update(h, p, w) =>
        assert h != g;
        RowsKeepUnnamedTier(rows[1..], ApplyRow(d, h, p, w), g);
    }
  }

  /** No table row names tier `g`. */
  predicate Unnamed(tables: seq<PrizeTable>, g: nat) {
    forall i, k :: 0 <= i < |tables| && tables[i].Table? && 0 <= k < |tables[i].rows| ==>
      RowGroup(tables[i].rows[k]) != Some(g)
  }

  lemma {:induction false} TablesKeepUnnamedTier(tables: seq<PrizeTable>, d: PrizeData, g: nat)
    requires Unnamed(tables, g)
    ensures var r := TablesFrom(tables, d);
      (g in r.winners <==> g in d.winners) && (g in d.winners ==> r.winners[g] == d.winners[g])
      && (g in r.prizes <==> g in d.prizes) && (g in d.prizes ==> r.prizes[g] == d.prizes[g])
  {
    if tables != [] {
      match tables[0] {
        case Unreadable =>
        case Table(columns, rows) =>
          assert forall k :: 0 <= k < |rows| ==> RowGroup(rows[k]) != Some(g) by {
            forall k | 0 <= k < |rows| ensures RowGroup(rows[k]) != Some(g) {
              assert tables[0].rows[k] == rows[k];
            }
          }
          RowsKeepUnnamedTier(rows, d, g);
      }
      assert Unnamed(tables[1..], g) by {
        forall i, k | 0 <= i < |tables[1..]| && tables[1..][i].Table? && 0 <= k < |tables[1..][i].rows|
          ensures RowGroup(tables[1..][i].rows[k]) != Some(g)
        {
          assert tables[1..][i] == tables[i + 1];
        }
      }
      TablesKeepUnnamedTier(tables[1..], ApplyTable(tables[0], d), g);
    }
  }

  /** Tier stats default to zero: a tier 1..7 that no table row names stays at 0 winners and 0 prize. */
  lemma {:induction false} UnnamedTierIsZero(tables: seq<PrizeTable>, g: nat)
    requires 1 <= g <= 7 && Unnamed(tables, g)
    ensures g in TablesFrom(tables, InitialPrizeData()).winners && g in TablesFrom(tables, InitialPrizeData()).prizes
    ensures TablesFrom(tables, InitialPrizeData()).winners[g] == 0
    ensures TablesFrom(tables, InitialPrizeData()).prizes[g] == 0.0
  {
    TablesKeepUnnamedTier(tables, InitialPrizeData(), g);
  }

  /** The Group 1 fallback writes tier 1 only. */
  lemma {:induction false} Group1OnlyTouchesTier1(cells: seq<string>, d: PrizeData, g: nat)
    requires g != 1 && Group1From(cells, d).Some?
    ensures var r := Group1From(cells, d).value;
      (g in r.winners <==> g in d.winners) && (g in d.winners ==> r.winners[g] == d.winners[g])
      && (g in r.prizes <==> g in d.prizes) && (g in d.prizes ==> r.prizes[g] == d.prizes[g])
      && d.winners.Keys <= r.winners.Keys && d.prizes.Keys <= r.prizes.Keys
  {
    if cells != [] {
      var c := cells[0];
      if Contains(c, "$") {
        match PrizeMatch(c)
        case None => Group1OnlyTouchesTier1(cells[1..], d, g);
        case Some(a) =>
          match AmountValue(a)
          case Some(v) => Group1OnlyTouchesTier1(cells[1..], d.(prizes := d.prizes[1 := v]), g);
      } else if AllDigits(c) {
        Group1OnlyTouchesTier1(cells[1..], d.(winners := d.winners[1 := Value(c) as int]), g);
      } else {
        Group1OnlyTouchesTier1(cells[1..], d, g);
      }
    }
  }

  /** The dollar amount a Group 1 fallback cell offers: a cell with `$` and a prize pattern. */
  function Group1Amount(c: string): (r: Option<Amount>)
    ensures r.Some? ==> Contains(c, "$") && r == PrizeMatch(c)
  {
    if Contains(c, "$") then PrizeMatch(c) else None
  }

  /** A fallback cell whose dollar amount cannot be read, which makes the whole fallback fail. */
  predicate Unreadable1(c: string) {
    Group1Amount(c).Some? && AmountValue(Group1Amount(c).value).None?
  }

  /** The last fallback cell offering a dollar amount. */
  function LastGroup1Amount(cells: seq<string>): (r: Option<Amount>)
    ensures r.Some? <==> exists k :: 0 <= k < |cells| && Group1Amount(cells[k]).Some?
    ensures r.Some? ==> WellFormedAmount(r.value)
  {
    if cells == [] then None
    else
      var rest := LastGroup1Amount(cells[1..]);
      assert forall k :: 1 <= k < |cells| ==> cells[k] == cells[1..][k - 1];
      if rest.Some? then rest else Group1Amount(cells[0])
  }

  /** The last fallback cell of digits only (and no `$`): the tier 1 winner count it offers. */
  function LastCountCell(cells: seq<string>): (r: Option<string>)
    ensures r.Some? ==> AllDigits(r.value) && !Contains(r.value, "$")
  {
    if cells == [] then None
    else if LastCountCell(cells[1..]).Some? then LastCountCell(cells[1..])
    else if !Contains(cells[0], "$") && AllDigits(cells[0]) then Some(cells[0])
    else None
  }

  /** The Group 1 fallback fails exactly when some `$` cell carries an amount that cannot be read. */
  lemma {:induction false} Group1FromFails(cells: seq<string>, d: PrizeData)
    ensures Group1From(cells, d).None? <==> exists k :: 0 <= k < |cells| && Unreadable1(cells[k])
  {
    if cells != [] {
      var c := cells[0];
      var d' := if Group1Amount(c).Some? && AmountValue(Group1Amount(c).value).Some? then
          d.(prizes := d.prizes[1 := AmountValue(Group1Amount(c).value).value])
        else if !Contains(c, "$") && AllDigits(c) then d.(winners := d.winners[1 := Value(c) as int])
        else d;
      Group1FromFails(cells[1..], d');
      if !Unreadable1(c) {
        assert Group1From(cells, d) == Group1From(cells[1..], d');
        if exists k :: 0 <= k < |cells| && Unreadable1(cells[k]) {
          var k :| 0 <= k < |cells| && Unreadable1(cells[k]);
          assert cells[1..][k - 1] == cells[k];
        }
        if exists k :: 0 <= k < |cells[1..]| && Unreadable1(cells[1..][k]) {
          var k :| 0 <= k < |cells[1..]| && Unreadable1(cells[1..][k]);
          assert cells[k + 1] == cells[1..][k];
        }
      }
    }
  }

  /**
   * When the Group 1 fallback succeeds, the last readable dollar amount sets
   * the tier 1 prize and the last digits-only cell sets the tier 1 winners;
   * with no such cell the prizes (or winners) are left as they were.
   */
  lemma {:induction false} Group1FromValues(cells: seq<string>, d: PrizeData)
    requires Group1From(cells, d).Some?
    ensures var r := Group1From(cells, d).value;
      var a := LastGroup1Amount(cells);
      (a.Some? ==> 1 in r.prizes && AmountValue(a.value) == Some(r.prizes[1]))
      && (a.None? ==> r.prizes == d.prizes)
    ensures var r := Group1From(cells, d).value;
      var w := LastCountCell(cells);
      (w.Some? ==> 1 in r.winners && r.winners[1] == Value(w.value) as int)
      && (w.None? ==> r.winners == d.winners)
  {
    if cells != [] {
      var c := cells[0];
      if Contains(c, "$") {
        match PrizeMatch(c)
        case None => Group1FromValues(cells[1..], d);
        case Some(a) =>
          match AmountValue(a)
          case Some(v) => Group1FromValues(cells[1..], d.(prizes := d.prizes[1 := v]));
      } else if AllDigits(c) {
        Group1FromValues(cells[1..], d.(winners := d.winners[1 := Value(c) as int]));
      } else {
        Group1FromValues(cells[1..], d);
      }
    }
  }

  /** The last cell of a row that offers a dollar amount. */
  function LastAmount(cells: seq<Cell>): (r: Option<Amount>)
    ensures r.Some? ==> WellFormedAmount(r.value)
  {
    if cells == [] then None
    else if LastAmount(cells[1..]).Some? then LastAmount(cells[1..])
    else CellAmount(cells[0])
  }

  /** A row's prize is the value of its last dollar amount (or what it was before). */
  lemma {:induction false} RowPrizeIsLastAmount(cells: seq<Cell>, acc: Scan)
    requires ScanFrom(cells, acc).Some?
    ensures LastAmount(cells).Some? ==> ScanFrom(cells, acc).value.prize == AmountValue(LastAmount(cells).value)
    ensures LastAmount(cells).None? ==> ScanFrom(cells, acc).value.prize == acc.prize
  {
    if cells != [] {
      var s := CellStep(acc, cells[0]).value;
      RowPrizeIsLastAmount(cells[1..], s);
    }
  }

  /** Facts every successful scrape satisfies. */
  predicate SoundDraw(d: ScrapedDraw) {
    IsIsoShape(d.drawDate) && ParseIso(d.drawDate).Some?
    && |d.winningNumbers| >= 6
    && (forall k :: 0 <= k < |d.winningNumbers| ==> 1 <= d.winningNumbers[k] <= 49)
    && (d.additionalNumber.Some? ==> 1 <= d.additionalNumber.value <= 49)
    && HasTiers(d.tiers)
  }

  /**
   * A scrape yields an ISO draw date, at least six TOTO numbers, an
   * additional number in range when there is one, and all seven tiers.
   */
  lemma {:induction false} ScrapeIsSound(page: Option<ResultPage>)
    ensures Scrape(page).Some? ==> SoundDraw(Scrape(page).value)
  {
    if Scrape(page).Some? {
      CollectedInRange(page.value);
      PagePrizesHaveTiers(page.value);
    }
  }

  /** The tier data of a page has every tier from 1 to 7. */
  lemma {:induction false} PagePrizesHaveTiers(p: ResultPage)
    ensures PagePrizes(p).Some? ==> HasTiers(PagePrizes(p).value)
  {
    var d := TablesFrom(p.tables, InitialPrizeData());
    TablesKeepTiers(p.tables, InitialPrizeData());
    if NoPrizes(d) && p.group1Row.Some? && Group1From(p.group1Row.value, d).Some? {
      Group1OnlyTouchesTier1(p.group1Row.value, d, 2);
    }
  }

  /**
   * With the additional number already known, a seven-number winning
   * table stays seven numbers long: the list is only truncated when the
   * additional number is missing.
   */
  lemma {:induction false} SevenKeptWhenAdditionalKnown(p: ResultPage, cells: seq<string>)
    requires p.winningTable == Some(cells) && |TableNumbers(cells)| == 7
    requires p.additionalTable.Some? && FirstNumber(p.additionalTable.value).Some?
    ensures Scrape(Some(p)).Some? ==> Scrape(Some(p)).value.winningNumbers == TableNumbers(cells)
  {
  }

  /** Without an additional number, the seventh collected number becomes it. */
  lemma {:induction false} SeventhBecomesAdditional(p: ResultPage, cells: seq<string>)
    requires p.winningTable == Some(cells) && |TableNumbers(cells)| == 7
    requires p.additionalTable.None?
    ensures Scrape(Some(p)).Some? ==>
      Scrape(Some(p)).value.winningNumbers == TableNumbers(cells)[..6]
      && Scrape(Some(p)).value.additionalNumber == Some(TableNumbers(cells)[6])
  {
  }

  // ---------------------------------------------------------------------
  // The scraper's loops
  // ---------------------------------------------------------------------

  /** Lines 231-247: the first text node that yields a date. */
  method FindDrawDate(texts: seq<string>) returns (date: Option<string>)
    ensures date == PageDate(texts)
  {
    date := None;
    var i := 0;
    while i < |texts|
      invariant 0 <= i <= |texts|
      invariant PageDate(texts) == PageDate(texts[i..])
    {
      assert texts[i..][1..] == texts[i + 1..];
      var element := texts[i];
      if Search(element, DateAt, 0).Some? && !Contains(element, "CDATA") {
        var d := LabelDate(element);
        if d.Some? {
          date := d;
          return;
        }
      }
      i := i + 1;
    }
  }

  /** Lines 250-260: the first text node holding a draw number. */
  method FindDrawNumber(texts: seq<string>) returns (number: Option<nat>)
    ensures number == PageDrawNumber(texts)
  {
    number := None;
    var i := 0;
    while i < |texts|
      invariant 0 <= i <= |texts|
      invariant PageDrawNumber(texts) == PageDrawNumber(texts[i..])
    {
      assert texts[i..][1..] == texts[i + 1..];
      var m := Search(texts[i], PageDrawAt, 0);
      if m.Some? {
        number := Some(m.value.1);
        return;
      }
      i := i + 1;
    }
  }

  /** Lines 281-284: append every TOTO number among the cells. */
  method CollectTableNumbers(cells: seq<string>) returns (numbers: seq<int>)
    ensures numbers == TableNumbers(cells)
  {
    numbers := [];
    var j := 0;
    while j < |cells|
      invariant 0 <= j <= |cells|
      invariant numbers == TableNumbers(cells[..j])
    {
      assert cells[..j + 1][..j] == cells[..j];
      var n := TotoNumber(cells[j]);
      if n.Some? {
        numbers := numbers + [n.value];
      }
      j := j + 1;
    }
    assert cells[..j] == cells;
  }

  /** Lines 295-299: the first TOTO number among the cells. */
  method FindAdditional(cells: seq<string>) returns (additional: Option<int>)
    ensures additional == FirstNumber(cells)
  {
    additional := None;
    var j := 0;
    while j < |cells|
      invariant 0 <= j <= |cells|
      invariant FirstNumber(cells) == FirstNumber(cells[j..])
    {
      assert cells[j..][1..] == cells[j + 1..];
      var n := TotoNumber(cells[j]);
      if n.Some? {
        additional := n;
        return;
      }
      j := j + 1;
    }
  }

  /** Lines 303-316: the div/span pass, appending to an empty list. */
  method ScanBlocks(blocks: seq<string>, add0: Option<int>) returns (wn: seq<int>, add: Option<int>)
    ensures (wn, add) == BlockScan(blocks, 0, [], add0)
  {
    wn := [];
    add := add0;
    var i := 0;
    while i < |blocks|
      invariant 0 <= i <= |blocks|
      invariant BlockScan(blocks, 0, [], add0) == BlockScan(blocks, i, wn, add)
    {
      var n := TotoNumber(blocks[i]);
      if n.Some? {
        wn := wn + [n.value];
        if |wn| == 6 && add.None? {
          if i + 1 < |blocks| {
            var next := TotoNumber(blocks[i + 1]);
            if next.Some? {
              add := next;
            }
          }
          return;
        }
      }
      i := i + 1;
    }
  }

  /** Lines 364-404 for one row: its tier, then its prize and winners. */
  method ParsePrizeRow(cells: seq<Cell>) returns (outcome: RowOutcome)
    ensures outcome == ParseRow(cells)
  {
    var group: Option<nat> := None;
    var j := 0;
    while j < |cells|
      invariant 0 <= j <= |cells|
      invariant RowGroup(cells) == RowGroup(cells[j..])
    {
      assert cells[j..][1..] == cells[j + 1..];
      if cells[j].Str? {
        var g := GroupNumber(cells[j].s);
        if g.Some? {
          group := g;
          break;
        }
      }
      j := j + 1;
    }
    if group.None? || group.value == 0 {
      return Skip;
    }

    var scan := Scan(None, None);
    j := 0;
    while j < |cells|
      invariant 0 <= j <= |cells|
      invariant ScanFrom(cells, Scan(None, None)) == ScanFrom(cells[j..], scan)
    {
      assert cells[j..][1..] == cells[j + 1..];
      var next := CellStep(scan, cells[j]);
      if next.None? {
        return Abort;
      }
      scan := next.value;
      j := j + 1;
    }

    var winners := scan.winners;
    if winners.None? {
      j := 0;
      while j < |cells|
        invariant 0 <= j <= |cells|
        invariant WinnersFrom(cells, None) == WinnersFrom(cells[j..], winners)
      {
        assert cells[j..][1..] == cells[j + 1..];
        if cells[j].Str? {
          var m := WinnersMatch(cells[j].s);
          if m.Some? {
            winners := Some(m.value as int);
          }
        }
        j := j + 1;
      }
    }
    outcome := Update(group.value, scan.prize, winners);
  }

  /** Lines 345-407: every table; a row that raises ends its table only. */
  method ParsePrizeTables(tables: seq<PrizeTable>) returns (data: PrizeData)
    ensures data == TablesFrom(tables, InitialPrizeData())
  {
    data := InitialPrizeData();
    var i := 0;
    while i < |tables|
      invariant 0 <= i <= |tables|
      invariant TablesFrom(tables, InitialPrizeData()) == TablesFrom(tables[i..], data)
    {
      assert tables[i..][1..] == tables[i + 1..];
      var table := tables[i];
      if table.Table? && HasGroup(table.columns, table.rows) {
        ghost var start := data;
        var k := 0;
        while k < |table.rows|
          invariant 0 <= k <= |table.rows|
          invariant RowsFrom(table.rows, start) == RowsFrom(table.rows[k..], data)
        {
          assert table.rows[k..][1..] == table.rows[k + 1..];
          var outcome := ParsePrizeRow(table.rows[k]);
          if outcome.Abort? {
            break;
          }
          if outcome.Update? {
            data := ApplyRow(data, outcome.group, outcome.prize, outcome.winners);
          }
          k := k + 1;
        }
      }
      i := i + 1;
    }
  }

  /** Lines 413-424: one cell of the Group 1 row; `None` when its amount does not convert. */
  method Group1Cell(cells: seq<string>, j: nat, d: PrizeData) returns (next: Option<PrizeData>)
    requires j < |cells|
    ensures next.None? ==> Group1From(cells[j..], d) == None
    ensures next.Some? ==> Group1From(cells[j..], d) == Group1From(cells[j + 1..], next.value)
  {
    assert cells[j..][1..] == cells[j + 1..];
    next := Some(d);
    var cellText := cells[j];
    if Contains(cellText, "$") {
      var m := PrizeMatch(cellText);
      if m.Some? {
        var v := AmountValue(m.value);
        if v.None? {
          return None;
        }
        next := Some(d.(prizes := d.prizes[1 := v.value]));
      }
    } else if AllDigits(cellText) {
      next := Some(d.(winners := d.winners[1 := Value(cellText) as int]));
    }
  }

  /** Lines 411-424: the Group 1 row, when every prize is still zero. */
  method Group1Fallback(cells: seq<string>, data0: PrizeData) returns (data: Option<PrizeData>)
    ensures data == Group1From(cells, data0)
  {
    var d := data0;
    var j := 0;
    assert cells[0..] == cells;
    while j < |cells|
      invariant 0 <= j <= |cells|
      invariant Group1From(cells, data0) == Group1From(cells[j..], d)
    {
      var next := Group1Cell(cells, j, d);
      if next.None? {
        return None;
      }
      d := next.value;
      j := j + 1;
    }
    data := Some(d);
  }

  /** `scrape_toto_results` over the fetched page (`None` when the download failed). */
  method ScrapeTotoResults(page: Option<ResultPage>) returns (result: Option<ScrapedDraw>)
    ensures result == Scrape(page)
    ensures result.Some? ==> SoundDraw(result.value)
    ensures page.Some? && (PageDate(page.value.texts).None? || PageDrawNumber(page.value.texts).None?) ==>
      result.None?
  {
    ScrapeIsSound(page);
    if page.None? {
      return None;
    }
    var p := page.value;
    var date := FindDrawDate(p.texts);
    var number := FindDrawNumber(p.texts);
    if date.None? || number.None? {
      return None;
    }

    var winning: seq<int> := [];
    if p.winningTable.Some? {
      winning := CollectTableNumbers(p.winningTable.value);
    }
    var additional: Option<int> := None;
    if p.additionalTable.Some? {
      additional := FindAdditional(p.additionalTable.value);
    }
    if winning == [] {
      winning, additional := ScanBlocks(p.blocks, additional);
    }
    assert (winning, additional) == Collected(p);

    if |winning| < 6 {
      return None;
    }
    if |winning| > 6 && additional.None? {
      additional := Some(winning[6]);
      winning := winning[..6];
    }

    var data := ParsePrizeTables(p.tables);
    if NoPrizes(data) && p.group1Row.Some? {
      var fallback := Group1Fallback(p.group1Row.value, data);
      if fallback.None? {
        return None;
      }
      data := fallback.value;
    }
    assert PagePrizes(p) == Some(data);
    result := Some(ScrapedDraw(date.value, number.value, winning, additional, data));
  }

  /** The one-row frame a scrape returns, as the rest of the program reads it. */
  function ToRow(d: ScrapedDraw): (r: Row)
    requires HasTiers(d.tiers)
    ensures WellShaped(r) && r.drawDate == d.drawDate && r.drawNumber == d.drawNumber
    ensures r.winningNumbers == NumberList(d.winningNumbers) && r.additionalNumber == d.additionalNumber
    ensures forall g :: 1 <= g <= 7 ==> r.winners[g - 1] == Some(d.tiers.winners[g]) && r.prizes[g - 1] == Some(d.tiers.prizes[g])
  {
    var w := d.tiers.winners;
    var p := d.tiers.prizes;
    Row(d.drawDate, d.drawNumber, NumberList(d.winningNumbers), d.additionalNumber,
        [Some(w[1]), Some(w[2]), Some(w[3]), Some(w[4]), Some(w[5]), Some(w[6]), Some(w[7])],
        [Some(p[1]), Some(p[2]), Some(p[3]), Some(p[4]), Some(p[5]), Some(p[6]), Some(p[7])],
        None, None, None, None)
  }

  /** The frame `scrape_toto_results` returns: one row, or none. */
  function ScrapeFrame(page: Option<ResultPage>): (rows: seq<Row>)
    ensures |rows| <= 1 && AllWellShaped(rows)
    ensures rows != [] <==> Scrape(page).Some?
  {
    ScrapeIsSound(page);
    match Scrape(page)
    case None => []
    case Some(d) => [ToRow(d)]
  }
}
