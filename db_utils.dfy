/**
 * The `toto_results` table and `save_database` (db_utils.py): rows are
 * converted to records, then each record replaces any stored row with the
 * same `draw_number` (delete, then insert), all inside one transaction that
 * is committed or rolled back as a whole.
 */
module DbUtils {
  import opened Wrappers
  import opened Records

  /** One row of `toto_results` (the autoincrement `id` is left out). */
  datatype DbRecord = DbRecord(
    drawNumber: int,
    drawDate: string,
    winningNumbers: Numbers,
    additionalNumber: int,
    winners: seq<Option<int>>,
    prizes: seq<Option<real>>,
    estimatedJackpot: Option<real>,
    cascadeAmount: Option<real>,
    queryString: Option<string>)

  // ---------------------------------------------------------------------
  // Record conversion (lines 114-146)
  // ---------------------------------------------------------------------

  /**
   * The record dictionary built for one row. `int(row['additional_number'])`
   * raises on a missing (NaN) additional number, and a row without the seven
   * tier columns raises on the lookup: both give `None`. Missing tier values,
   * jackpot, cascade and query string stay missing (stored as NULL).
   */
  function ToRecord(r: Row): (rec: Option<DbRecord>)
    ensures rec.Some? <==> WellShaped(r) && r.additionalNumber.Some?
    ensures rec.Some? ==>
      rec.value.drawNumber == r.drawNumber && rec.value.drawDate == r.drawDate
      && rec.value.winningNumbers == r.winningNumbers
      && rec.value.additionalNumber == r.additionalNumber.value
      && rec.value.winners == r.winners && rec.value.prizes == r.prizes
      && rec.value.estimatedJackpot == r.estimatedJackpot
      && rec.value.cascadeAmount == r.cascadeAmount
      && rec.value.queryString == r.queryString
  {
    if WellShaped(r) && r.additionalNumber.Some? then
      Some(DbRecord(r.drawNumber, r.drawDate, r.winningNumbers, r.additionalNumber.value,
                    r.winners, r.prizes, r.estimatedJackpot, r.cascadeAmount, r.queryString))
    else None
  }

  /** All the records, in row order, or `None` when some row cannot be converted. */
  function ToRecords(rows: seq<Row>): (r: Option<seq<DbRecord>>)
    ensures r.Some? <==> forall k :: 0 <= k < |rows| ==> ToRecord(rows[k]).Some?
    ensures r.Some? ==> |r.value| == |rows|
    ensures r.Some? ==> forall k :: 0 <= k < |rows| ==> ToRecord(rows[k]) == Some(r.value[k])
  {
    if rows == [] then Some([])
    else
      var init := ToRecords(rows[..|rows| - 1]);
      match ToRecord(rows[|rows| - 1])
      case Some(rec) => if init.Some? then Some(init.value + [rec]) else None
      case None => None
  }

  /** The conversion loop: stops at the first row that raises. */
  method BuildRecords(rows: seq<Row>) returns (records: Option<seq<DbRecord>>)
    ensures records == ToRecords(rows)
  {
    var acc: seq<DbRecord> := [];
    var i := 0;
    while i < |rows|
      invariant 0 <= i <= |rows|
      invariant ToRecords(rows[..i]) == Some(acc)
    {
      assert rows[..i + 1][..i] == rows[..i];
      var rec := ToRecord(rows[i]);
      if rec.None? {
        assert ToRecords(rows[..i + 1]).None?;
        ToRecordsPrefix(rows, i + 1);
        return None;
      }
      acc := acc + [rec.value];
      i := i + 1;
    }
    assert rows[..i] == rows;
    return Some(acc);
  }

  /** A prefix that cannot be converted spoils the whole frame. */
  lemma {:induction false} ToRecordsPrefix(rows: seq<Row>, n: nat)
    requires n <= |rows| && ToRecords(rows[..n]).None?
    ensures ToRecords(rows).None?
  {
    var k :| 0 <= k < n && ToRecord(rows[..n][k]).None?;
    assert rows[..n][k] == rows[k];
  }

  // ---------------------------------------------------------------------
  // The table and the upsert
  // ---------------------------------------------------------------------

  /** The stored rows with draw number `n`, in table order. */
  function WithNumber(rows: seq<DbRecord>, n: int): (r: seq<DbRecord>)
    ensures forall k :: 0 <= k < |r| ==> r[k].drawNumber == n
  {
    if rows == [] then []
    else WithNumber(rows[..|rows| - 1], n) + (if rows[|rows| - 1].drawNumber == n then [rows[|rows| - 1]] else [])
  }

  /** `DELETE ... WHERE draw_number = n`. */
  function WithoutNumber(rows: seq<DbRecord>, n: int): seq<DbRecord> {
    if rows == [] then []
    else WithoutNumber(rows[..|rows| - 1], n) + (if rows[|rows| - 1].drawNumber == n then [] else [rows[|rows| - 1]])
  }

  /** `SELECT ... WHERE draw_number = n` then `fetchone()`. */
  function Lookup(rows: seq<DbRecord>, n: int): (r: Option<DbRecord>)
    ensures r.None? <==> forall k :: 0 <= k < |rows| ==> rows[k].drawNumber != n
    ensures r.Some? ==> r.value in rows && r.value.drawNumber == n
  {
    if rows == [] then None
    else if rows[0].drawNumber == n then Some(rows[0])
    else Lookup(rows[1..], n)
  }

  /** The `unique=True` constraint on `draw_number`. */
  ghost predicate UniqueNumbers(rows: seq<DbRecord>) {
    forall n :: |WithNumber(rows, n)| <= 1
  }

  /** One record written: any row with its number deleted, then the record inserted. */
  function Upsert(rows: seq<DbRecord>, rec: DbRecord): seq<DbRecord> {
    WithoutNumber(rows, rec.drawNumber) + [rec]
  }

  /** The records written one after the other. */
  function UpsertAll(rows: seq<DbRecord>, recs: seq<DbRecord>): seq<DbRecord> {
    if recs == [] then rows else Upsert(UpsertAll(rows, recs[..|recs| - 1]), recs[|recs| - 1])
  }

  /** The last record in `recs` with draw number `n`. */
  function LatestFor(recs: seq<DbRecord>, n: int): (r: Option<DbRecord>)
    ensures r.None? <==> forall k :: 0 <= k < |recs| ==> recs[k].drawNumber != n
  {
    if recs == [] then None
    else if recs[|recs| - 1].drawNumber == n then Some(recs[|recs| - 1])
    else LatestFor(recs[..|recs| - 1], n)
  }

  /** `LatestFor` finds a record of the batch with that number, and no later record has it. */
  lemma {:induction false} LatestForIsLast(recs: seq<DbRecord>, n: int)
    requires LatestFor(recs, n).Some?
    ensures exists k :: 0 <= k < |recs| && recs[k] == LatestFor(recs, n).value && recs[k].drawNumber == n
                        && (forall j :: k < j < |recs| ==> recs[j].drawNumber != n)
  {
    var last := |recs| - 1;
    if recs[last].drawNumber == n {
      assert recs[last] == LatestFor(recs, n).value;
    } else {
      var init := recs[..last];
      assert LatestFor(recs, n) == LatestFor(init, n);
      LatestForIsLast(init, n);
      var k :| 0 <= k < |init| && init[k] == LatestFor(init, n).value && init[k].drawNumber == n
        && forall j :: k < j < |init| ==> init[j].drawNumber != n;
      assert recs[k] == init[k];
      forall j | k < j < |recs| ensures recs[j].drawNumber != n {
        if j < last {
          assert recs[j] == init[j];
        }
      }
    }
  }

  /** The insert fails: the database rejects it, or the value cannot go into the NOT NULL integer-array column. */
  predicate Rejected(rec: DbRecord, failing: set<int>) {
    rec.drawNumber in failing || rec.winningNumbers.NotAList?
  }

  predicate AnyRejected(recs: seq<DbRecord>, failing: set<int>) {
    exists k :: 0 <= k < |recs| && Rejected(recs[k], failing)
  }

  /**
   * The table after `save_database(df)` on a present frame: the upsert of
   * its records when the frame is non-empty, converts and commits; else the
   * table as it was.
   */
  function AfterSave(rows: seq<DbRecord>, df: seq<Row>, failing: set<int>): seq<DbRecord> {
    if df != [] && ToRecords(df).Some? && !AnyRejected(ToRecords(df).value, failing)
    then UpsertAll(rows, ToRecords(df).value)
    else rows
  }

  /**
   * The `toto_results` table. `failing` in `SaveDatabase` stands for the
   * draw numbers whose statements the database refuses (a lost connection,
   * a constraint outside this model), which the program cannot see in advance.
   */
  class Database {
    var rows: seq<DbRecord>

    ghost predicate Valid()
      reads this
    {
      UniqueNumbers(rows)
    }

    constructor ()
      ensures Valid() && rows == []
    {
      rows := [];
    }

    /** `save_database`: true exactly when the whole batch was committed. */
    method SaveDatabase(df: Option<seq<Row>>, failing: set<int>) returns (ok: bool)
      requires Valid()
      modifies this
      ensures Valid()
      ensures ok <==> df.Some? && df.value != [] && ToRecords(df.value).Some?
                      && !AnyRejected(ToRecords(df.value).value, failing)
      ensures ok ==> rows == UpsertAll(old(rows), ToRecords(df.value).value)
      ensures !ok ==> rows == old(rows)
      ensures df.Some? ==> rows == AfterSave(old(rows), df.value, failing)
    {
      if df.None? || df.value == [] {
        return false;
      }
      var records := BuildRecords(df.value);
      if records.None? {
        return false;
      }
      ok := WriteAll(records.value, failing);
    }

    /**
     * The transaction (lines 149-178): for each record, select by number,
     * delete when found, insert; commit at the end, or roll back to the
     * state before the first statement when one fails.
     */
    method WriteAll(recs: seq<DbRecord>, failing: set<int>) returns (ok: bool)
      requires Valid()
      modifies this
      ensures Valid()
      ensures ok <==> !AnyRejected(recs, failing)
      ensures ok ==> rows == UpsertAll(old(rows), recs)
      ensures !ok ==> rows == old(rows)
    {
      var snapshot := rows;
      var i := 0;
      while i < |recs|
        invariant 0 <= i <= |recs|
        invariant rows == UpsertAll(snapshot, recs[..i])
        invariant !AnyRejected(recs[..i], failing)
      {
        assert recs[..i + 1][..i] == recs[..i];
        var rec := recs[i];
        var existing := Lookup(rows, rec.drawNumber);
        if existing.Some? {
          rows := WithoutNumber(rows, rec.drawNumber);
        } else {
          WithoutAbsent(rows, rec.drawNumber);
        }
        if Rejected(rec, failing) {
          rows := snapshot;
          return false;
        }
        rows := rows + [rec];
        i := i + 1;
        assert !Rejected(recs[..i][i - 1], failing);
      }
      assert recs[..i] == recs;
      UpsertAllKeepsUnique(snapshot, recs);
      return true;
    }
  }

  // ---------------------------------------------------------------------
  // Properties of the upsert
  // ---------------------------------------------------------------------

  /** Deleting a number no row holds changes nothing. */
  lemma {:induction false} WithoutAbsent(rows: seq<DbRecord>, n: int)
    requires forall k :: 0 <= k < |rows| ==> rows[k].drawNumber != n
    ensures WithoutNumber(rows, n) == rows
  {
    if rows != [] {
      WithoutAbsent(rows[..|rows| - 1], n);
    }
  }

  lemma {:induction false} WithNumberAfterDelete(rows: seq<DbRecord>, n: int, m: int)
    ensures WithNumber(WithoutNumber(rows, n), m) == if m == n then [] else WithNumber(rows, m)
  {
    if rows != [] {
      var init := rows[..|rows| - 1];
      WithNumberAfterDelete(init, n, m);
      var last := rows[|rows| - 1];
      var w := WithoutNumber(init, n) + (if last.drawNumber == n then [] else [last]);
      assert WithoutNumber(rows, n) == w;
      assert WithNumber(rows, m) == WithNumber(init, m) + (if last.drawNumber == m then [last] else []);
      if last.drawNumber != n {
        assert w[..|w| - 1] == WithoutNumber(init, n);
        assert WithNumber(w, m) == WithNumber(WithoutNumber(init, n), m) + (if last.drawNumber == m then [last] else []);
      } else {
        assert w == WithoutNumber(init, n);
        assert m != n ==> WithNumber(rows, m) == WithNumber(init, m);
      }
    }
  }

  /** After one upsert, its number is held by that record alone; other numbers keep their rows. */
  lemma {:induction false} UpsertWithNumber(rows: seq<DbRecord>, rec: DbRecord, m: int)
    ensures WithNumber(Upsert(rows, rec), m) == if m == rec.drawNumber then [rec] else WithNumber(rows, m)
  {
    var u := Upsert(rows, rec);
    assert u[..|u| - 1] == WithoutNumber(rows, rec.drawNumber);
    WithNumberAfterDelete(rows, rec.drawNumber, m);
  }

  /**
   * After a batch of upserts, a draw number given in the batch is held by
   * exactly one row, the last record with that number; any other number
   * keeps exactly the rows it had.
   */
  lemma {:induction false} UpsertAllWithNumber(rows: seq<DbRecord>, recs: seq<DbRecord>, m: int)
    ensures WithNumber(UpsertAll(rows, recs), m) ==
      match LatestFor(recs, m)
      case Some(r) => [r]
      case None => WithNumber(rows, m)
  {
    if recs != [] {
      var init := recs[..|recs| - 1];
      UpsertAllWithNumber(rows, init, m);
      UpsertWithNumber(UpsertAll(rows, init), recs[|recs| - 1], m);
    }
  }

  /** Draw numbers stay unique. */
  lemma {:induction false} UpsertAllKeepsUnique(rows: seq<DbRecord>, recs: seq<DbRecord>)
    requires UniqueNumbers(rows)
    ensures UniqueNumbers(UpsertAll(rows, recs))
  {
    forall n ensures |WithNumber(UpsertAll(rows, recs), n)| <= 1 {
      UpsertAllWithNumber(rows, recs, n);
    }
  }

  /** The rows whose numbers are outside `ns`, in table order. */
  function Outside(rows: seq<DbRecord>, ns: set<int>): (r: seq<DbRecord>)
    ensures forall k :: 0 <= k < |r| ==> r[k].drawNumber !in ns
  {
    if rows == [] then []
    else Outside(rows[..|rows| - 1], ns) + (if rows[|rows| - 1].drawNumber in ns then [] else [rows[|rows| - 1]])
  }

  function NumbersOf(recs: seq<DbRecord>): set<int> {
    set k | 0 <= k < |recs| :: recs[k].drawNumber
  }

  lemma {:induction false} OutsideAfterDelete(rows: seq<DbRecord>, n: int, ns: set<int>)
    requires n in ns
    ensures Outside(WithoutNumber(rows, n), ns) == Outside(rows, ns)
  {
    if rows != [] {
      var init := rows[..|rows| - 1];
      OutsideAfterDelete(init, n, ns);
      var last := rows[|rows| - 1];
      var w := WithoutNumber(init, n) + (if last.drawNumber == n then [] else [last]);
      assert WithoutNumber(rows, n) == w;
      assert Outside(rows, ns) == Outside(init, ns) + (if last.drawNumber in ns then [] else [last]);
      if last.drawNumber != n {
        assert w[..|w| - 1] == WithoutNumber(init, n);
        assert Outside(w, ns) == Outside(WithoutNumber(init, n), ns) + (if last.drawNumber in ns then [] else [last]);
      } else {
        assert w == WithoutNumber(init, n);
        assert Outside(rows, ns) == Outside(init, ns);
      }
    }
  }

  /** The rows of numbers the batch does not touch stay as they were, in the same order. */
  lemma {:induction false} UpsertAllKeepsOthers(rows: seq<DbRecord>, recs: seq<DbRecord>, ns: set<int>)
    requires NumbersOf(recs) <= ns
    ensures Outside(UpsertAll(rows, recs), ns) == Outside(rows, ns)
  {
    if recs != [] {
      var init := recs[..|recs| - 1];
      var last := recs[|recs| - 1];
      assert NumbersOf(init) <= NumbersOf(recs) by {
        forall x | x in NumbersOf(init) ensures x in NumbersOf(recs) {
          var k :| 0 <= k < |init| && init[k].drawNumber == x;
          assert recs[k] == init[k];
        }
      }
      assert last.drawNumber in NumbersOf(recs);
      UpsertAllKeepsOthers(rows, init, ns);
      var u := UpsertAll(rows, recs);
      assert u[..|u| - 1] == WithoutNumber(UpsertAll(rows, init), last.drawNumber);
      OutsideAfterDelete(UpsertAll(rows, init), last.drawNumber, ns);
    }
  }
}
