/**
 * The "update data" action of the dashboard (app.py, lines 110-261): find
 * the draw dates not yet stored, scrape them in batches of ten while a
 * progress bar advances, save intermediate results every five batches, then
 * price the new rows, merge them into the data held in the session and save
 * them to the database. With no dates to scrape it scrapes the latest draw
 * instead.
 */
module App {
  import opened Wrappers
  import opened Records
  import opened Calendar
  import opened DataUtils
  import opened Extractor
  import opened Calculator
  import opened DbUtils

  // ---------------------------------------------------------------------
  // Merging: concat then drop_duplicates(subset=[draw_date, draw_number], keep='last')
  // ---------------------------------------------------------------------

  /** The columns the merge de-duplicates on. */
  function Key(r: Row): (string, int) {
    (r.drawDate, r.drawNumber)
  }

  function Keys(xs: seq<Row>): set<(string, int)> {
    if xs == [] then {} else {Key(xs[0])} + Keys(xs[1..])
  }

  /** Each row kept unless a later row has the same key; order is kept. */
  function KeepLast(xs: seq<Row>): (r: seq<Row>)
    ensures forall x :: x in r ==> x in xs
  {
    if xs == [] then []
    else (if Key(xs[0]) in Keys(xs[1..]) then [] else [xs[0]]) + KeepLast(xs[1..])
  }

  /** The rows whose key is not in `ks`, in order. */
  function Drop(xs: seq<Row>, ks: set<(string, int)>): seq<Row> {
    if xs == [] then []
    else (if Key(xs[0]) in ks then [] else [xs[0]]) + Drop(xs[1..], ks)
  }

  /** No two rows share a key. */
  predicate UniqueKeys(xs: seq<Row>) {
    xs == [] || (Key(xs[0]) !in Keys(xs[1..]) && UniqueKeys(xs[1..]))
  }

  lemma {:induction false} KeysAppend(xs: seq<Row>, ys: seq<Row>)
    ensures Keys(xs + ys) == Keys(xs) + Keys(ys)
  {
    if xs != [] {
      assert (xs + ys)[1..] == xs[1..] + ys;
      KeysAppend(xs[1..], ys);
    } else {
      assert xs + ys == ys;
    }
  }

  lemma {:induction false} KeysDrop(xs: seq<Row>, ks: set<(string, int)>)
    ensures Keys(Drop(xs, ks)) == Keys(xs) - ks
  {
    if xs != [] {
      KeysDrop(xs[1..], ks);
      KeysAppend(if Key(xs[0]) in ks then [] else [xs[0]], Drop(xs[1..], ks));
      assert Keys([xs[0]]) == {Key(xs[0])};
    }
  }

  /** The merge loses no key. */
  lemma {:induction false} KeysKeepLast(xs: seq<Row>)
    ensures Keys(KeepLast(xs)) == Keys(xs)
  {
    if xs != [] {
      KeysKeepLast(xs[1..]);
      KeysAppend(if Key(xs[0]) in Keys(xs[1..]) then [] else [xs[0]], KeepLast(xs[1..]));
      assert Keys([xs[0]]) == {Key(xs[0])};
    }
  }

  /** After the merge the keys are unique. */
  lemma {:induction false} KeepLastUnique(xs: seq<Row>)
    ensures UniqueKeys(KeepLast(xs))
  {
    if xs != [] {
      KeepLastUnique(xs[1..]);
      KeysKeepLast(xs[1..]);
      var r := KeepLast(xs);
      if Key(xs[0]) !in Keys(xs[1..]) {
        assert r == [xs[0]] + KeepLast(xs[1..]);
        assert r[1..] == KeepLast(xs[1..]);
        assert r[0] == xs[0];
      } else {
        assert r == KeepLast(xs[1..]);
      }
    }
  }

  /** Rows that already have unique keys are all kept. */
  lemma {:induction false} KeepLastOfUnique(xs: seq<Row>)
    requires UniqueKeys(xs)
    ensures KeepLast(xs) == xs
  {
    if xs != [] {
      KeepLastOfUnique(xs[1..]);
      assert xs == [xs[0]] + xs[1..];
    }
  }

  lemma {:induction false} DropAppend(xs: seq<Row>, ys: seq<Row>, ks: set<(string, int)>)
    ensures Drop(xs + ys, ks) == Drop(xs, ks) + Drop(ys, ks)
  {
    if xs != [] {
      assert (xs + ys)[1..] == xs[1..] + ys;
      DropAppend(xs[1..], ys, ks);
    } else {
      assert xs + ys == ys;
    }
  }

  lemma {:induction false} DropCovered(ys: seq<Row>, ks: set<(string, int)>)
    requires Keys(ys) <= ks
    ensures Drop(ys, ks) == []
  {
    if ys != [] {
      DropCovered(ys[1..], ks);
    }
  }

  /** Dropping whole keys commutes with the merge. */
  lemma {:induction false} DropKeepLast(xs: seq<Row>, ks: set<(string, int)>)
    ensures Drop(KeepLast(xs), ks) == KeepLast(Drop(xs, ks))
  {
    if xs != [] {
      var x, rest := xs[0], xs[1..];
      var head := if Key(x) in Keys(rest) then [] else [x];
      DropKeepLast(rest, ks);
      assert KeepLast(xs) == head + KeepLast(rest);
      DropAppend(head, KeepLast(rest), ks);
      KeysDrop(rest, ks);
      var d := Drop(xs, ks);
      if Key(x) !in ks {
        assert d == [x] + Drop(rest, ks);
        assert d[1..] == Drop(rest, ks);
        assert d[0] == x;
        assert Drop([x], ks) == [x] + Drop([], ks);
        assert Drop(head, ks) == head;
        assert KeepLast(d) == head + KeepLast(Drop(rest, ks));
      } else {
        assert d == Drop(rest, ks);
        assert Drop([x], ks) == [] + Drop([], ks);
        assert Drop(head, ks) == [];
      }
    }
  }

  /**
   * Appending new rows and merging: the old rows whose key reappears among
   * the new ones are gone, the others stay before the merged new rows.
   */
  lemma {:induction false} NewRowsWin(xs: seq<Row>, ys: seq<Row>)
    ensures KeepLast(xs + ys) == KeepLast(Drop(xs, Keys(ys))) + KeepLast(ys)
  {
    if xs == [] {
      assert xs + ys == ys;
    } else {
      NewRowsWin(xs[1..], ys);
      assert xs == [xs[0]] + xs[1..];
      NewRowsWinStep(xs[0], xs[1..], ys);
    }
  }

  /** The step of `NewRowsWin`: one more old row in front. */
  lemma {:induction false} NewRowsWinStep(x: Row, rest: seq<Row>, ys: seq<Row>)
    requires KeepLast(rest + ys) == KeepLast(Drop(rest, Keys(ys))) + KeepLast(ys)
    ensures KeepLast([x] + rest + ys) == KeepLast(Drop([x] + rest, Keys(ys))) + KeepLast(ys)
  {
    assert [x] + rest + ys == [x] + (rest + ys);
    KeepLastCons(x, rest + ys);
    DropCons(x, rest, Keys(ys));
    KeysAppend(rest, ys);
    if Key(x) in Keys(ys) {
      assert [] + Drop(rest, Keys(ys)) == Drop(rest, Keys(ys));
      assert [] + KeepLast(rest + ys) == KeepLast(rest + ys);
    } else {
      KeptRowStep(x, rest, ys);
    }
  }

  /** The step of `NewRowsWin` for an old row whose key no new row has. */
  lemma {:induction false} KeptRowStep(x: Row, rest: seq<Row>, ys: seq<Row>)
    requires Key(x) !in Keys(ys)
    requires KeepLast(rest + ys) == KeepLast(Drop(rest, Keys(ys))) + KeepLast(ys)
    ensures KeepLast([x] + (rest + ys)) == KeepLast([x] + Drop(rest, Keys(ys))) + KeepLast(ys)
  {
    var ks := Keys(ys);
    KeysAppend(rest, ys);
    KeysDrop(rest, ks);
    KeepLastCons(x, rest + ys);
    KeepLastCons(x, Drop(rest, ks));
    assert (Key(x) in Keys(rest + ys)) == (Key(x) in Keys(rest));
    assert (Key(x) in Keys(Drop(rest, ks))) == (Key(x) in Keys(rest));
    var a, b := KeepLast(Drop(rest, ks)), KeepLast(ys);
    if Key(x) in Keys(rest) {
      assert [] + KeepLast(rest + ys) == KeepLast(rest + ys);
      assert [] + a == a;
    } else {
      assert [x] + (a + b) == ([x] + a) + b;
    }
  }

  /** Dropping keys from a row followed by others. */
  lemma {:induction false} DropCons(x: Row, rest: seq<Row>, ks: set<(string, int)>)
    ensures Drop([x] + rest, ks) == (if Key(x) in ks then [] else [x]) + Drop(rest, ks)
  {
    assert ([x] + rest)[1..] == rest;
  }

  /** The merge of a row followed by others. */
  lemma {:induction false} KeepLastCons(x: Row, rest: seq<Row>)
    ensures KeepLast([x] + rest) == (if Key(x) in Keys(rest) then [] else [x]) + KeepLast(rest)
  {
    assert ([x] + rest)[1..] == rest;
  }

  /** Merging a merged frame again with new rows is one merge of all rows. */
  lemma {:induction false} MergeTwice(xs: seq<Row>, ys: seq<Row>)
    ensures KeepLast(KeepLast(xs) + ys) == KeepLast(xs + ys)
  {
    NewRowsWin(KeepLast(xs), ys);
    NewRowsWin(xs, ys);
    DropKeepLast(xs, Keys(ys));
    KeepLastUnique(Drop(xs, Keys(ys)));
    KeepLastOfUnique(KeepLast(Drop(xs, Keys(ys))));
  }

  /** Rows whose keys all come again later leave no trace in the merge. */
  lemma {:induction false} Superseded(xs: seq<Row>, ys: seq<Row>, zs: seq<Row>)
    requires Keys(ys) <= Keys(zs)
    ensures KeepLast(xs + ys + zs) == KeepLast(xs + zs)
  {
    NewRowsWin(xs + ys, zs);
    NewRowsWin(xs, zs);
    DropAppend(xs, ys, Keys(zs));
    DropCovered(ys, Keys(zs));
    assert Drop(xs, Keys(zs)) + [] == Drop(xs, Keys(zs));
  }

  // ---------------------------------------------------------------------
  // The data held in the session across merges
  // ---------------------------------------------------------------------

  /** Lines 180-186, 209-214 and 247-251: the session's data after merging priced rows `p`. */
  function Merge(t: Option<seq<Row>>, p: seq<Row>): seq<Row> {
    if t.Some? then KeepLast(t.value + p) else p
  }

  /**
   * The session's data `t` after intermediate saves whose last one merged
   * the priced rows `p`, starting from `o`.
   */
  ghost predicate Reached(o: Option<seq<Row>>, t: Option<seq<Row>>, p: seq<Row>) {
    t.Some? && (o.Some? ==> t.value == KeepLast(o.value + p))
    && (o.None? ==> t.value == p || t.value == KeepLast(p))
  }

  /** What the session holds at the end of a batch run that scraped the priced rows `a`. */
  function FinalData(o: Option<seq<Row>>, a: seq<Row>, checkpointed: bool): seq<Row> {
    if o.Some? then KeepLast(o.value + a) else if checkpointed then KeepLast(a) else a
  }

  /** A later save merges rows that include every key of the earlier one. */
  lemma {:induction false} ReachedStep(o: Option<seq<Row>>, t: Option<seq<Row>>, p: seq<Row>, p': seq<Row>)
    requires Reached(o, t, p) && Keys(p) <= Keys(p')
    ensures Reached(o, Some(Merge(t, p')), p')
  {
    if o.Some? {
      MergeTwice(o.value + p, p');
      Superseded(o.value, p, p');
    } else {
      Superseded([], p, p');
      assert [] + p + p' == p + p';
      assert [] + p' == p';
      MergeTwice(p, p');
    }
  }

  /** The final merge after intermediate saves gives the same rows as one merge of everything. */
  lemma {:induction false} FinalStep(o: Option<seq<Row>>, t: Option<seq<Row>>, p: seq<Row>, a: seq<Row>)
    requires Reached(o, t, p) && Keys(p) <= Keys(a)
    ensures Merge(t, a) == FinalData(o, a, true)
  {
    if o.Some? {
      ReachedStep(o, t, p, a);
    } else {
      Superseded([], p, a);
      assert [] + p + a == p + a;
      assert [] + a == a;
      if t.value != p {
        MergeTwice(p, a);
      }
    }
  }

  // ---------------------------------------------------------------------
  // Batches and progress
  // ---------------------------------------------------------------------

  const BatchSize := 10

  /** `total_batches`: the ceiling of n / 10. */
  function TotalBatches(n: nat): nat {
    (n + BatchSize - 1) / BatchSize
  }

  /** The batches reach `n`, and the last one starts before it. */
  lemma {:induction false} TotalBatchesBounds(n: nat)
    ensures var r := TotalBatches(n);
      (n > 0 ==> r > 0 && (r - 1) * BatchSize < n <= r * BatchSize) && (n == 0 ==> r == 0)
  {
  }

  /** Query strings handled once `b` batches are done: `min(10 * b, n)`. */
  function Done(b: nat, n: nat): (r: nat)
    ensures r <= n && r <= b * BatchSize
  {
    if b * BatchSize < n then b * BatchSize else n
  }

  /** Batch `b` starts at `10 * b`, inside the queries, and ends at `Done(b + 1, n)`. */
  lemma {:induction false} DoneStep(b: nat, n: nat)
    requires b < TotalBatches(n)
    ensures Done(b, n) == b * BatchSize < n
    ensures Done(b + 1, n) == if b * BatchSize + BatchSize < n then b * BatchSize + BatchSize else n
  {
    MulLe(b + 1, TotalBatches(n), BatchSize);
  }

  /** Before the first batch nothing is done and nothing is saved. */
  lemma {:induction false} BatchesStart(n: nat)
    requires n > 0
    ensures Done(0, n) == 0 && SavedPrefix(0, n) == 0
  {
  }

  /** Once every batch is done, every query is done and the save point is the last checkpoint. */
  lemma {:induction false} BatchesEnd(n: nat)
    requires n > 0
    ensures Done(TotalBatches(n), n) == n
    ensures SavedPrefix(TotalBatches(n), n) == CheckpointPrefix(n)
  {
  }

  /** Line 154: the progress value after item `i` of `n`. */
  function Progress(i: nat, n: nat): int
    requires n > 0
  {
    var p := (i + 1) * 100 / n;
    if p < 100 then p else 100
  }

  /** The progress values after the first `j` items. */
  function ProgressUpTo(j: nat, n: nat): (r: seq<int>)
    requires n > 0
    ensures |r| == j
  {
    if j == 0 then [] else ProgressUpTo(j - 1, n) + [Progress(j - 1, n)]
  }

  /** Logging one more progress value extends the log by the next item's value. */
  lemma {:induction false} LogStep(log: seq<int>, j: nat, n: nat)
    requires n > 0 && log == [0] + ProgressUpTo(j, n)
    ensures log + [Progress(j, n)] == [0] + ProgressUpTo(j + 1, n)
  {
  }

  lemma {:induction false} ProgressUpToAt(j: nat, n: nat, k: nat)
    requires n > 0 && k < j
    ensures ProgressUpTo(j, n)[k] == Progress(k, n)
  {
    if k < j - 1 {
      ProgressUpToAt(j - 1, n, k);
    }
  }

  lemma {:induction false} MulLe(x: int, y: int, n: nat)
    requires x <= y
    ensures x * n <= y * n
  {
    if n > 0 {
      MulLe(x, y, n - 1);
      assert x * n == x * (n - 1) + x && y * n == y * (n - 1) + y;
    }
  }

  lemma {:induction false} DivMonotone(a: nat, b: nat, n: nat)
    requires a <= b && n > 0
    ensures a / n <= b / n
  {
    var qa, qb := a / n, b / n;
    assert qa * n <= a;
    assert b < qb * n + n;
    MulLe(qb + 1, if qa > qb then qa else qb + 1, n);
    assert (qb + 1) * n == qb * n + n;
  }

  /** The bar's values stay in 0..100, never go down and end at 100. */
  lemma {:induction false} ProgressShape(n: nat)
    requires n > 0
    ensures forall k :: 0 <= k < n ==> 0 <= ProgressUpTo(n, n)[k] <= 100
    ensures forall k, k' :: 0 <= k <= k' < n ==> ProgressUpTo(n, n)[k] <= ProgressUpTo(n, n)[k']
    ensures ProgressUpTo(n, n)[n - 1] == 100
  {
    forall k, k' | 0 <= k <= k' < n
      ensures 0 <= ProgressUpTo(n, n)[k] <= ProgressUpTo(n, n)[k'] <= 100
    {
      ProgressUpToAt(n, n, k);
      ProgressUpToAt(n, n, k');
      ProgressMonotone(k, k', n);
    }
    ProgressUpToAt(n, n, n - 1);
    ProgressEnd(n);
  }

  lemma {:induction false} ProgressEnd(n: nat)
    requires n > 0
    ensures Progress(n - 1, n) == 100
  {
    var q := n * 100 / n;
    assert q * n + n * 100 % n == n * 100;
    assert n * 100 % n == 0;
  }

  lemma {:induction false} ProgressMonotone(k: nat, k': nat, n: nat)
    requires k <= k' && n > 0
    ensures 0 <= Progress(k, n) <= Progress(k', n) <= 100
  {
    assert (k + 1) * 100 <= (k' + 1) * 100;
    DivMonotone((k + 1) * 100, (k' + 1) * 100, n);
  }

  /** The rows of the largest prefix of the queries after which an intermediate save can happen. */
  function CheckpointPrefix(n: nat): (r: nat)
    ensures r <= n
  {
    if n == 0 then 0 else 50 * ((TotalBatches(n) - 1) / 5)
  }

  /** `Cp(b)`: the prefix behind the last intermediate save once `b` batches are done. */
  function SavedPrefix(b: nat, n: nat): (r: nat)
    requires n > 0
    ensures r <= Done(b, n)
  {
    var total := TotalBatches(n);
    var m := if b < total - 1 then b else total - 1;
    50 * (m / 5)
  }

  /** After one more batch, the save point moves exactly when the source saves. */
  lemma {:induction false} SavedPrefixStep(b: nat, n: nat)
    requires n > 0 && b < TotalBatches(n)
    ensures b < TotalBatches(n) - 1 && (b + 1) % 5 == 0 ==> SavedPrefix(b + 1, n) == Done(b + 1, n)
    ensures !(b < TotalBatches(n) - 1 && (b + 1) % 5 == 0) ==> SavedPrefix(b + 1, n) == SavedPrefix(b, n)
  {
  }

  // ---------------------------------------------------------------------
  // What the scraper returns for the queries
  // ---------------------------------------------------------------------

  /** A frame `scrape_toto_results` returns: at most one row, with all seven tiers. */
  type Frame = rows: seq<Row> | |rows| <= 1 && AllWellShaped(rows)

  /** `scrape_toto_results`: a query string, or `None` for the latest draw, to its frame. */
  type Scraper = Option<string> -> Frame

  /** The scraper of scraper.py: download the page, then extract the draw from it. */
  function ScraperOf(fetch: Option<string> -> Option<ResultPage>): Scraper {
    q => ScrapeFrame(fetch(q))
  }

  /** `results_dataframes` after the queries `qs`: each non-empty scraped frame, in order. */
  function Frames(scrape: Scraper, qs: seq<string>): (fs: seq<seq<Row>>)
    ensures forall k :: 0 <= k < |fs| ==> fs[k] != [] && AllWellShaped(fs[k])
  {
    if qs == [] then []
    else
      var f := scrape(Some(qs[|qs| - 1]));
      Frames(scrape, qs[..|qs| - 1]) + (if f != [] then [f] else [])
  }

  /** `pd.concat(frames, ignore_index=True)`. */
  function Flatten(fs: seq<seq<Row>>): (r: seq<Row>)
    ensures (forall k :: 0 <= k < |fs| ==> AllWellShaped(fs[k])) ==> AllWellShaped(r)
  {
    if fs == [] then [] else Flatten(fs[..|fs| - 1]) + fs[|fs| - 1]
  }

  /** Some intermediate save happened in a run over the queries `qs`. */
  predicate Checkpointed(scrape: Scraper, qs: seq<string>) {
    Frames(scrape, qs[..CheckpointPrefix(|qs|)]) != []
  }

  /** The frames of a shorter prefix of the queries come first. */
  lemma {:induction false} FramesGrow(scrape: Scraper, qs: seq<string>, j: nat, j': nat)
    requires j <= j' <= |qs|
    ensures |Frames(scrape, qs[..j])| <= |Frames(scrape, qs[..j'])|
    ensures Frames(scrape, qs[..j]) == Frames(scrape, qs[..j'])[..|Frames(scrape, qs[..j])|]
    decreases j' - j
  {
    if j < j' {
      FramesGrow(scrape, qs, j, j' - 1);
      assert qs[..j'][..j' - 1] == qs[..j' - 1];
    }
  }

  lemma {:induction false} FlattenPrefixKeys(fs: seq<seq<Row>>, m: nat)
    requires m <= |fs|
    ensures Keys(Flatten(fs[..m])) <= Keys(Flatten(fs))
    decreases |fs|
  {
    if m < |fs| {
      assert fs[..m] == fs[..|fs| - 1][..m];
      FlattenPrefixKeys(fs[..|fs| - 1], m);
      KeysAppend(Flatten(fs[..|fs| - 1]), fs[|fs| - 1]);
    } else {
      assert fs[..m] == fs;
    }
  }

  /** Pricing keeps every row's date and number. */
  lemma {:induction false} WithPoolsKeys(xs: seq<Row>)
    requires AllWellShaped(xs)
    ensures Keys(WithPools(xs)) == Keys(xs)
  {
    if xs != [] {
      assert WithPools(xs)[1..] == WithPools(xs[1..]);
      WithPoolsKeys(xs[1..]);
    }
  }

  /** The rows priced at an earlier save have their keys among the rows priced later. */
  lemma {:induction false} SavedKeysGrow(scrape: Scraper, qs: seq<string>, j: nat, j': nat)
    requires j <= j' <= |qs|
    ensures Keys(WithPools(Flatten(Frames(scrape, qs[..j])))) <= Keys(WithPools(Flatten(Frames(scrape, qs[..j']))))
  {
    FramesGrow(scrape, qs, j, j');
    FlattenPrefixKeys(Frames(scrape, qs[..j']), |Frames(scrape, qs[..j])|);
    WithPoolsKeys(Flatten(Frames(scrape, qs[..j])));
    WithPoolsKeys(Flatten(Frames(scrape, qs[..j'])));
  }

  /** One more query adds its scraped frame when that is not empty. */
  lemma {:induction false} FramesStep(scrape: Scraper, qs: seq<string>, j: nat)
    requires j < |qs|
    ensures var f := scrape(Some(qs[j]));
      Frames(scrape, qs[..j + 1]) == Frames(scrape, qs[..j]) + (if f != [] then [f] else [])
  {
    assert qs[..j + 1][..j] == qs[..j];
  }

  /** Loop state: the session's data given the frames scraped up to the last save point. */
  ghost predicate SavedState(o: Option<seq<Row>>, t: Option<seq<Row>>,
                             scrape: Scraper, qs: seq<string>, cp: nat)
    requires cp <= |qs|
  {
    var fs := Frames(scrape, qs[..cp]);
    if fs == [] then t == o else Reached(o, t, WithPools(Flatten(fs)))
  }

  /** An intermediate save after batch `b` moves the save point to the end of that batch. */
  lemma {:induction false} SavedAfterMerge(o: Option<seq<Row>>, t: Option<seq<Row>>,
                        scrape: Scraper, qs: seq<string>, b: nat)
    requires |qs| > 0 && b < TotalBatches(|qs|) - 1 && (b + 1) % 5 == 0
    requires Frames(scrape, qs[..Done(b + 1, |qs|)]) != []
    requires SavedState(o, t, scrape, qs, SavedPrefix(b, |qs|))
    ensures SavedState(o, Some(Merge(t, WithPools(Flatten(Frames(scrape, qs[..Done(b + 1, |qs|)]))))),
                       scrape, qs, SavedPrefix(b + 1, |qs|))
    ensures Frames(scrape, qs[..SavedPrefix(b + 1, |qs|)]) != []
  {
    var n := |qs|;
    SavedPrefixStep(b, n);
    var p' := WithPools(Flatten(Frames(scrape, qs[..Done(b + 1, n)])));
    var fs := Frames(scrape, qs[..SavedPrefix(b, n)]);
    if fs != [] {
      SavedKeysGrow(scrape, qs, SavedPrefix(b, n), Done(b + 1, n));
      ReachedStep(o, t, WithPools(Flatten(fs)), p');
    }
  }

  /** Without a save after batch `b`, the save point stays or nothing has been scraped yet. */
  lemma {:induction false} SavedUnchanged(o: Option<seq<Row>>, t: Option<seq<Row>>,
                       scrape: Scraper, qs: seq<string>, b: nat)
    requires |qs| > 0 && b < TotalBatches(|qs|)
    requires !(b < TotalBatches(|qs|) - 1 && (b + 1) % 5 == 0 && Frames(scrape, qs[..Done(b + 1, |qs|)]) != [])
    requires SavedState(o, t, scrape, qs, SavedPrefix(b, |qs|))
    ensures SavedState(o, t, scrape, qs, SavedPrefix(b + 1, |qs|))
    ensures Frames(scrape, qs[..SavedPrefix(b + 1, |qs|)]) == [] ==> Frames(scrape, qs[..SavedPrefix(b, |qs|)]) == []
  {
    var n := |qs|;
    SavedPrefixStep(b, n);
    if SavedPrefix(b + 1, n) != SavedPrefix(b, n) {
      FramesGrow(scrape, qs, SavedPrefix(b, n), Done(b + 1, n));
    }
  }

  /** The draw-date column of the session's data, as `get_missing_draw_dates` reads it. */
  function DateColumnOf(t: Option<seq<Row>>): (c: Option<DateColumn>)
    ensures c.Some? ==> ValidColumn(c.value)
  {
    if t.None? then None else Some(ObjectColumn(seq(|t.value|, i requires 0 <= i < |t.value| => t.value[i].drawDate)))
  }

  // ---------------------------------------------------------------------
  // The session
  // ---------------------------------------------------------------------

  /**
   * `st.session_state`: the data in memory, the values shown by the
   * progress bar, and the database the updates are saved to. `scrape` maps
   * a query string (or `None` for the latest draw) to the page the site
   * returns; `failing` is passed on to the database.
   */
  class Session {
    var totoData: Option<seq<Row>>
    var progressLog: seq<int>
    const db: Database

    ghost predicate Valid()
      reads this, db
    {
      db.Valid()
    }

    constructor (database: Database)
      requires database.Valid()
      ensures Valid() && db == database && totoData == None && progressLog == []
    {
      db := database;
      totoData := None;
      progressLog := [];
    }

    /** Price `data`, merge it into the session's data and save the result. */
    method MergeNew(data: seq<Row>, failing: set<int>)
      requires Valid() && AllWellShaped(data)
      modifies this, db
      ensures Valid()
      ensures totoData == Some(Merge(old(totoData), WithPools(data)))
      ensures db.rows == AfterSave(old(db.rows), Merge(old(totoData), WithPools(data)), failing)
      ensures progressLog == old(progressLog)
    {
      var withPools := CalculatePrizePools(data);
      var combined: seq<Row>;
      if totoData.Some? {
        combined := KeepLast(totoData.value + withPools);
      } else {
        combined := withPools;
      }
      totoData := Some(combined);
      var saved := db.SaveDatabase(Some(combined), failing);
    }

    /** Loop state once `b` batches are done: frames, progress values and the last save point. */
    ghost predicate BatchState(qs: seq<string>, scrape: Scraper, b: nat, results: seq<seq<Row>>,
                               o: Option<seq<Row>>, oRows: seq<DbRecord>)
      reads this, db
      requires |qs| > 0
    {
      Valid()
      && results == Frames(scrape, qs[..Done(b, |qs|)])
      && progressLog == [0] + ProgressUpTo(Done(b, |qs|), |qs|)
      && SavedState(o, totoData, scrape, qs, SavedPrefix(b, |qs|))
      && (Frames(scrape, qs[..SavedPrefix(b, |qs|)]) == [] ==> db.rows == oRows)
    }

    /** Before the first batch: no frames, progress at zero, the data and the table as they were. */
    lemma {:induction false} StartState(qs: seq<string>, scrape: Scraper, results: seq<seq<Row>>,
                                        o: Option<seq<Row>>, oRows: seq<DbRecord>)
      requires |qs| > 0 && Valid() && results == [] && progressLog == [0] && totoData == o && db.rows == oRows
      ensures BatchState(qs, scrape, 0, results, o, oRows)
    {
      BatchesStart(|qs|);
      assert qs[..0] == [];
    }

    /** After the last batch: every query's frame, every progress value, the last checkpoint saved. */
    lemma {:induction false} EndState(qs: seq<string>, scrape: Scraper, results: seq<seq<Row>>,
                                      o: Option<seq<Row>>, oRows: seq<DbRecord>)
      requires |qs| > 0 && BatchState(qs, scrape, TotalBatches(|qs|), results, o, oRows)
      ensures Valid() && results == Frames(scrape, qs)
      ensures progressLog == [0] + ProgressUpTo(|qs|, |qs|)
      ensures SavedState(o, totoData, scrape, qs, CheckpointPrefix(|qs|))
      ensures !Checkpointed(scrape, qs) ==> db.rows == oRows
    {
      BatchesEnd(|qs|);
      assert qs[..|qs|] == qs;
    }

    /** Lines 136-191: scrape the queries batch by batch, saving every fifth batch. */
    method ProcessBatches(queryStrings: seq<string>, scrape: Scraper, failing: set<int>)
      returns (results: seq<seq<Row>>)
      requires Valid() && |queryStrings| > 0
      modifies this, db
      ensures Valid()
      ensures results == Frames(scrape, queryStrings)
      ensures progressLog == [0] + ProgressUpTo(|queryStrings|, |queryStrings|)
      ensures SavedState(old(totoData), totoData, scrape, queryStrings, CheckpointPrefix(|queryStrings|))
      ensures !Checkpointed(scrape, queryStrings) ==> db.rows == old(db.rows)
    {
      var n := |queryStrings|;
      results := [];
      var totalBatches := (n + BatchSize - 1) / BatchSize;
      progressLog := [0];
      StartState(queryStrings, scrape, results, old(totoData), old(db.rows));
      for batchIdx := 0 to totalBatches
        invariant BatchState(queryStrings, scrape, batchIdx, results, old(totoData), old(db.rows))
      {
        results := Batch(queryStrings, scrape, failing, batchIdx, results, old(totoData), old(db.rows));
      }
      EndState(queryStrings, scrape, results, old(totoData), old(db.rows));
    }

    /** Lines 145-191: the body of the batch loop for batch `batchIdx`. */
    method Batch(queryStrings: seq<string>, scrape: Scraper, failing: set<int>,
                 batchIdx: nat, results0: seq<seq<Row>>, ghost o: Option<seq<Row>>, ghost oRows: seq<DbRecord>)
      returns (results: seq<seq<Row>>)
      requires |queryStrings| > 0 && batchIdx < TotalBatches(|queryStrings|)
      requires BatchState(queryStrings, scrape, batchIdx, results0, o, oRows)
      modifies this, db
      ensures BatchState(queryStrings, scrape, batchIdx + 1, results, o, oRows)
    {
      var n := |queryStrings|;
      var batchStart := batchIdx * BatchSize;
      var batchEnd := if batchStart + BatchSize < n then batchStart + BatchSize else n;
      DoneStep(batchIdx, n);
      var currentBatch := queryStrings[batchStart..batchEnd];
      results := RunBatch(queryStrings, batchStart, currentBatch, scrape, results0);
      AfterBatch(queryStrings, scrape, failing, batchIdx, results, o, oRows);
    }

    /** Lines 170-191: after batch `batchIdx`, save what was scraped so far when a fifth batch ends. */
    method AfterBatch(queryStrings: seq<string>, scrape: Scraper, failing: set<int>,
                      batchIdx: nat, results: seq<seq<Row>>, ghost o: Option<seq<Row>>, ghost oRows: seq<DbRecord>)
      requires Valid() && |queryStrings| > 0 && batchIdx < TotalBatches(|queryStrings|)
      requires results == Frames(scrape, queryStrings[..Done(batchIdx + 1, |queryStrings|)])
      requires SavedState(o, totoData, scrape, queryStrings, SavedPrefix(batchIdx, |queryStrings|))
      requires Frames(scrape, queryStrings[..SavedPrefix(batchIdx, |queryStrings|)]) == [] ==> db.rows == oRows
      modifies this, db
      ensures Valid() && progressLog == old(progressLog)
      ensures SavedState(o, totoData, scrape, queryStrings, SavedPrefix(batchIdx + 1, |queryStrings|))
      ensures Frames(scrape, queryStrings[..SavedPrefix(batchIdx + 1, |queryStrings|)]) == [] ==> db.rows == oRows
    {
      var totalBatches := (|queryStrings| + BatchSize - 1) / BatchSize;
      ghost var before := totoData;
      if batchIdx < totalBatches - 1 && results != [] {
        if (batchIdx + 1) % 5 == 0 {
          SavedAfterMerge(o, before, scrape, queryStrings, batchIdx);
          MergeNew(Flatten(results), failing);
          return;
        }
      }
      SavedUnchanged(o, before, scrape, queryStrings, batchIdx);
    }

    /** Lines 152-168: one batch, item by item. */
    method RunBatch(queryStrings: seq<string>, batchStart: nat, currentBatch: seq<string>,
                    scrape: Scraper, results0: seq<seq<Row>>)
      returns (results: seq<seq<Row>>)
      requires batchStart + |currentBatch| <= |queryStrings|
      requires currentBatch == queryStrings[batchStart..batchStart + |currentBatch|]
      requires |queryStrings| > 0
      requires results0 == Frames(scrape, queryStrings[..batchStart])
      requires progressLog == [0] + ProgressUpTo(batchStart, |queryStrings|)
      modifies this`progressLog
      ensures results == Frames(scrape, queryStrings[..batchStart + |currentBatch|])
      ensures progressLog == [0] + ProgressUpTo(batchStart + |currentBatch|, |queryStrings|)
    {
      results := results0;
      var i := 0;
      while i < |currentBatch|
        invariant 0 <= i <= |currentBatch|
        invariant results == Frames(scrape, queryStrings[..batchStart + i])
        invariant progressLog == [0] + ProgressUpTo(batchStart + i, |queryStrings|)
      {
        assert currentBatch[i] == queryStrings[batchStart + i];
        results := ProcessItem(queryStrings, batchStart + i, scrape, results);
        i := i + 1;
      }
    }

    /** Lines 153-168: report progress for one query, then scrape it and keep a non-empty frame. */
    method ProcessItem(queryStrings: seq<string>, overallIdx: nat,
                       scrape: Scraper, results0: seq<seq<Row>>)
      returns (results: seq<seq<Row>>)
      requires overallIdx < |queryStrings|
      requires results0 == Frames(scrape, queryStrings[..overallIdx])
      requires progressLog == [0] + ProgressUpTo(overallIdx, |queryStrings|)
      modifies this`progressLog
      ensures results == Frames(scrape, queryStrings[..overallIdx + 1])
      ensures progressLog == [0] + ProgressUpTo(overallIdx + 1, |queryStrings|)
    {
      var progress := ProgressValue(overallIdx, |queryStrings|);
      LogStep(progressLog, overallIdx, |queryStrings|);
      progressLog := progressLog + [progress];
      var queryString := queryStrings[overallIdx];
      FramesStep(scrape, queryStrings, overallIdx);
      var singleDrawData := scrape(Some(queryString));
      results := results0;
      if singleDrawData != [] {
        results := results + [singleDrawData];
      }
    }

    /** Line 154: `min((overall_idx + 1) / n * 100, 100)` as a whole percentage. */
    method ProgressValue(overallIdx: nat, n: nat) returns (progress: int)
      requires overallIdx < n
      ensures progress == Progress(overallIdx, n)
    {
      progress := (overallIdx + 1) * 100 / n;
      if progress > 100 {
        progress := 100;
      }
    }

    /** Lines 110-261 with `today` passed in. */
    method Update(today: Date, scrape: Scraper, failing: set<int>)
      requires Valid() && TodayInRange(today)
      modifies this, db
      ensures Valid()
      ensures var qs := MissingDrawDates(today, DateColumnOf(old(totoData)));
        |qs| > 0 ==> progressLog == [0] + ProgressUpTo(|qs|, |qs|)
      ensures var qs := MissingDrawDates(today, DateColumnOf(old(totoData)));
        |qs| > 0 && Frames(scrape, qs) == [] ==> totoData == old(totoData)
      ensures var qs := MissingDrawDates(today, DateColumnOf(old(totoData)));
        |qs| > 0 && Frames(scrape, qs) != [] ==>
          totoData == Some(FinalData(old(totoData), WithPools(Flatten(Frames(scrape, qs))), Checkpointed(scrape, qs)))
      ensures var qs := MissingDrawDates(today, DateColumnOf(old(totoData)));
        var latest := scrape(None);
        |qs| == 0 ==> (progressLog == old(progressLog)
                       && totoData == (if latest == [] then old(totoData) else Some(Merge(old(totoData), WithPools(latest)))))
      ensures var qs := MissingDrawDates(today, DateColumnOf(old(totoData)));
        |qs| > 0 ==>
          db.rows == (if Frames(scrape, qs) == [] then old(db.rows)
                      else AfterSave(old(db.rows), Merge(old(totoData), WithPools(Flatten(Frames(scrape, qs)))), failing))
      ensures var qs := MissingDrawDates(today, DateColumnOf(old(totoData)));
        var latest := scrape(None);
        |qs| == 0 ==>
          db.rows == (if latest == [] then old(db.rows) else AfterSave(old(db.rows), Merge(old(totoData), WithPools(latest)), failing))
    {
      NoIntermediateSave(today, totoData, scrape);
      var queryStrings := GetMissingDrawDates(today, DateColumnOf(totoData));
      if |queryStrings| > 0 {
        var results := ProcessBatches(queryStrings, scrape, failing);
        var cp := CheckpointPrefix(|queryStrings|);
        if results != [] {
          var newData := Flatten(results);
          if newData != [] {
            assert queryStrings[..|queryStrings|] == queryStrings;
            MergeNew(newData, failing);
          }
        } else {
          FramesGrow(scrape, queryStrings, cp, |queryStrings|);
          assert queryStrings[..|queryStrings|] == queryStrings;
        }
      } else {
        var latestDraw := scrape(None);
        if latestDraw != [] {
          MergeNew(latestDraw, failing);
        }
      }
    }
  }

  // ---------------------------------------------------------------------
  // How many queries there are
  // ---------------------------------------------------------------------

  /** Window day `j` falls on weekday `(Ordinal(today) - 84 + j) % 7`. */
  lemma {:induction false} WindowWeekday(today: Date, j: nat)
    requires TodayInRange(today) && j <= 90
    ensures Weekday(WindowDay(today, j)) == (Ordinal(today) - 84 + j) % 7
  {
  }

  function DrawFlag(x: int): nat {
    if x % 7 == 0 || x % 7 == 3 then 1 else 0
  }

  /** Seven consecutive weekdays hold one Monday and one Thursday. */
  lemma {:induction false} WeekHasTwo(x: int)
    ensures DrawFlag(x) + DrawFlag(x + 1) + DrawFlag(x + 2) + DrawFlag(x + 3)
            + DrawFlag(x + 4) + DrawFlag(x + 5) + DrawFlag(x + 6) == 2
  {
    var w := x % 7;
    FlagShift(x, 0);
    FlagShift(x, 1);
    FlagShift(x, 2);
    FlagShift(x, 3);
    FlagShift(x, 4);
    FlagShift(x, 5);
    FlagShift(x, 6);
    if w == 0 {
    } else if w == 1 {
    } else if w == 2 {
    } else if w == 3 {
    } else if w == 4 {
    } else if w == 5 {
    } else {
    }
  }

  lemma {:induction false} FlagShift(x: int, i: int)
    ensures DrawFlag(x + i) == DrawFlag(x % 7 + i)
  {
    assert x == 7 * (x / 7) + x % 7;
  }

  lemma {:induction false} DrawDayStep(today: Date, j: nat, x: int)
    requires TodayInRange(today) && j < 91 && x == Ordinal(today) - 84 + j
    ensures |DrawDaysBefore(today, j + 1)| == |DrawDaysBefore(today, j)| + DrawFlag(x)
  {
    WindowWeekday(today, j);
  }

  /** Every seven consecutive window days hold one Monday and one Thursday. */
  lemma {:induction false} SevenDaysTwoDraws(today: Date, k: nat)
    requires TodayInRange(today) && k + 7 <= 91
    ensures |DrawDaysBefore(today, k + 7)| == |DrawDaysBefore(today, k)| + 2
  {
    var x := Ordinal(today) - 84 + k;
    DrawDayStep(today, k, x);
    DrawDayStep(today, k + 1, x + 1);
    DrawDayStep(today, k + 2, x + 2);
    DrawDayStep(today, k + 3, x + 3);
    DrawDayStep(today, k + 4, x + 4);
    DrawDayStep(today, k + 5, x + 5);
    DrawDayStep(today, k + 6, x + 6);
    WeekHasTwo(x);
  }

  /** The window always holds 26 draw days, so there are at most 26 queries. */
  lemma {:induction false} TwentySixCandidates(today: Date)
    requires TodayInRange(today)
    ensures |CandidateDates(today)| == 26
  {
    var k := 0;
    while k < 13
      invariant 0 <= k <= 13
      invariant |DrawDaysBefore(today, 7 * k)| == 2 * k
    {
      SevenDaysTwoDraws(today, 7 * k);
      k := k + 1;
    }
  }


  /**
   * With at most 26 queries there are at most three batches, so the
   * intermediate save after every fifth batch never happens.
   */
  lemma {:induction false} NoIntermediateSave(today: Date, t: Option<seq<Row>>, scrape: Scraper)
    requires TodayInRange(today)
    ensures var qs := MissingDrawDates(today, DateColumnOf(t));
      |qs| <= 26 && TotalBatches(|qs|) <= 3 && !Checkpointed(scrape, qs)
  {
    TwentySixCandidates(today);
    var qs := MissingDrawDates(today, DateColumnOf(t));
    assert |qs| <= 26;
    assert TotalBatches(|qs|) <= 3;
    assert CheckpointPrefix(|qs|) == 0;
    assert qs[..0] == [];
  }
}
