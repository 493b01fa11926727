/**
 * The file store of data_store.py: `save_data` and `load_data` pick a
 * format from the file name's extension, and `append_data` combines new
 * data with what is stored. The file system is a map from file names to
 * what each file holds; the serialisers are taken to read back what they
 * wrote.
 */
module DataStore {
  import opened Wrappers

  /** One DataFrame row, as the cells compare for `drop_duplicates`. */
  type FrameRow = seq<string>

  /** A value handed to `save_data`: a DataFrame, a JSON-serialisable value, or any other object. */
  datatype Data = Frame(rows: seq<FrameRow>) | JsonValue(doc: string) | Other(id: nat)

  /** A file: what a loader reads back, or content no loader accepts. */
  datatype Entry = Stored(value: Data) | Garbled

  // ---------------------------------------------------------------------
  // os.path.splitext
  // ---------------------------------------------------------------------

  /** The last index below `end` holding `c`, or -1 (Python's `str.rfind`). */
  function RFind(s: string, c: char, end: nat): (r: int)
    requires end <= |s|
    ensures -1 <= r < end
    ensures r >= 0 ==> s[r] == c
    ensures forall j :: r < j < end ==> s[j] != c
  {
    if end == 0 then -1 else if s[end - 1] == c then end - 1 else RFind(s, c, end - 1)
  }

  /**
   * The extension `os.path.splitext` gives on POSIX: from the last dot of
   * the last path component, provided that component has a character other
   * than a dot before it; else empty.
   */
  function Extension(filename: string): (ext: string)
    ensures ext != [] ==> ext[0] == '.' && '/' !in ext && '.' !in ext[1..]
    ensures |ext| <= |filename| && ext == filename[|filename| - |ext|..]
  {
    var sepIndex := RFind(filename, '/', |filename|);
    var dotIndex := RFind(filename, '.', |filename|);
    if dotIndex > sepIndex && exists k :: sepIndex + 1 <= k < dotIndex && filename[k] != '.' then
      var ext := filename[dotIndex..];
      assert forall j :: 0 <= j < |ext| ==> ext[j] == filename[dotIndex + j];
      ext
    else []
  }

  /** A name's extension starts at its last dot. */
  lemma {:induction false} ExtensionOfName()
    ensures Extension("toto_data.pkl") == ".pkl"
  {
    assert RFind("toto_data.pkl", '.', 13) == 9;
    assert "toto_data.pkl"[0] != '.';
  }

  /** A hidden file has no extension. */
  lemma {:induction false} ExtensionOfHiddenFile()
    ensures Extension("data/.csv") == ""
  {
    assert RFind("data/.csv", '.', 9) == 5 && RFind("data/.csv", '/', 9) == 4;
  }

  /** A dot in a directory name is no extension. */
  lemma {:induction false} ExtensionOfDottedDirectory()
    ensures Extension("v1.2/results") == ""
  {
    assert RFind("v1.2/results", '/', 12) == 4;
  }

  // ---------------------------------------------------------------------
  // The store
  // ---------------------------------------------------------------------

  /**
   * The files after `save_data(data, filename)`. `.pkl` stores anything;
   * `.csv` calls `to_csv`, which only a DataFrame has, so anything else
   * writes nothing; `.json` opens (and empties) the file before
   * `json.dump`, so a value JSON cannot encode leaves a file no loader
   * reads; any other extension raises before opening a file.
   */
  function Save(files: map<string, Entry>, data: Data, filename: string): map<string, Entry> {
    var ext := Extension(filename);
    if ext == ".pkl" then files[filename := Stored(data)]
    else if ext == ".csv" then (if data.Frame? then files[filename := Stored(data)] else files)
    else if ext == ".json" then files[filename := if data.JsonValue? then Stored(data) else Garbled]
    else files
  }

  /** What `load_data(filename)` returns, `None` for Python's `None`. */
  function Load(files: map<string, Entry>, filename: string): (r: Option<Data>)
    ensures filename !in files ==> r.None?
    ensures Extension(filename) !in {".pkl", ".csv", ".json"} ==> r.None?
  {
    if filename !in files then None
    else
      var ext := Extension(filename);
      if ext != ".pkl" && ext != ".csv" && ext != ".json" then None
      else match files[filename]
        case Stored(v) => Some(v)
        case Garbled => None
  }

  /** `drop_duplicates()`: remove every row equal to an earlier one. */
  function DropDuplicates(rows: seq<FrameRow>): (r: seq<FrameRow>)
    ensures |r| <= |rows|
  {
    if rows == [] then []
    else
      var init, last := rows[..|rows| - 1], rows[|rows| - 1];
      DropDuplicates(init) + (if last in init then [] else [last])
  }

  /** What `append_data` returns for the stored value `existing`, `None` for the unsupported cases. */
  function Appended(existing: Option<Data>, newData: Data): Option<Data> {
    if existing.None? then Some(newData)
    else if existing.value.Frame? && newData.Frame? then Some(Frame(DropDuplicates(existing.value.rows + newData.rows)))
    else None
  }

  /** The files, file name to content. */
  class FileStore {
    var files: map<string, Entry>

    constructor(initial: map<string, Entry>)
      ensures files == initial
    {
      files := initial;
    }

    /** Lines 7-29. */
    method SaveData(data: Data, filename: string)
      modifies this
      ensures files == Save(old(files), data, filename)
    {
      var ext := Extension(filename);
      if ext == ".pkl" {
        files := files[filename := Stored(data)];
      } else if ext == ".csv" {
        if data.Frame? {
          files := files[filename := Stored(data)];
        }
      } else if ext == ".json" {
        if data.JsonValue? {
          files := files[filename := Stored(data)];
        } else {
          files := files[filename := Garbled];
        }
      }
    }

    /** Lines 31-59: `Load` on the files as they are now. */
    function LoadData(filename: string): Option<Data>
      reads this
    {
      Load(files, filename)
    }

    /** Lines 61-84. */
    method AppendData(newData: Data, filename: string) returns (combined: Option<Data>)
      modifies this
      ensures combined == Appended(Load(old(files), filename), newData)
      ensures combined.Some? ==> files == Save(old(files), combined.value, filename)
      ensures combined.None? ==> files == old(files)
    {
      var existing := LoadData(filename);
      var combinedData: Data;
      if existing.None? {
        combinedData := newData;
      } else if existing.value.Frame? && newData.Frame? {
        combinedData := Frame(DropDuplicates(existing.value.rows + newData.rows));
      } else {
        return None;
      }
      SaveData(combinedData, filename);
      return Some(combinedData);
    }
  }

  // ---------------------------------------------------------------------
  // Properties
  // ---------------------------------------------------------------------

  /**
   * What is saved loads back: anything through `.pkl`, a DataFrame through
   * `.csv`, a JSON value through `.json`; every other save loads as `None`
   * or leaves the file as it was.
   */
  lemma {:induction false} SaveLoad(files: map<string, Entry>, data: Data, filename: string)
    ensures var ext := Extension(filename);
      Load(Save(files, data, filename), filename) ==
        if ext == ".pkl" || (ext == ".csv" && data.Frame?) || (ext == ".json" && data.JsonValue?) then Some(data)
        else if ext == ".json" then None
        else Load(files, filename)
  {
  }

  /** Saving touches no other file. */
  lemma {:induction false} SaveOnlyTouches(files: map<string, Entry>, data: Data, filename: string, other: string)
    requires other != filename
    ensures other in Save(files, data, filename) <==> other in files
    ensures other in files ==> Save(files, data, filename)[other] == files[other]
  {
  }

  /** A row survives de-duplication exactly when it was there. */
  lemma {:induction false} DropDuplicatesElements(rows: seq<FrameRow>, x: FrameRow)
    ensures x in DropDuplicates(rows) <==> x in rows
  {
    if rows != [] {
      var init := rows[..|rows| - 1];
      DropDuplicatesElements(init, x);
      assert rows == init + [rows[|rows| - 1]];
    }
  }

  predicate Distinct(rows: seq<FrameRow>) {
    forall i, j :: 0 <= i < j < |rows| ==> rows[i] != rows[j]
  }

  /** No two rows of the result are equal. */
  lemma {:induction false} DropDuplicatesDistinct(rows: seq<FrameRow>)
    ensures Distinct(DropDuplicates(rows))
  {
    if rows != [] {
      var init, last := rows[..|rows| - 1], rows[|rows| - 1];
      DropDuplicatesDistinct(init);
      DropDuplicatesElements(init, last);
    }
  }

  /** Rows that are already distinct are left as they are. */
  lemma {:induction false} DropDuplicatesOfDistinct(rows: seq<FrameRow>)
    requires Distinct(rows)
    ensures DropDuplicates(rows) == rows
  {
    if rows != [] {
      var init := rows[..|rows| - 1];
      DropDuplicatesOfDistinct(init);
      assert rows == init + [rows[|rows| - 1]];
    }
  }

  /** Keep-first: the existing rows, de-duplicated, stay in front in their order. */
  lemma {:induction false} DropDuplicatesPrefix(xs: seq<FrameRow>, ys: seq<FrameRow>)
    ensures |DropDuplicates(xs)| <= |DropDuplicates(xs + ys)|
    ensures DropDuplicates(xs) == DropDuplicates(xs + ys)[..|DropDuplicates(xs)|]
    decreases |ys|
  {
    if ys == [] {
      assert xs + ys == xs;
    } else {
      var init, last := ys[..|ys| - 1], ys[|ys| - 1];
      DropDuplicatesPrefix(xs, init);
      assert xs + ys == (xs + init) + [last];
      var d := DropDuplicates(xs + init);
      assert (xs + ys)[..|xs + ys| - 1] == xs + init;
      assert DropDuplicates(xs + ys) == d + (if last in xs + init then [] else [last]);
      assert (d + (if last in xs + init then [] else [last]))[..|DropDuplicates(xs)|] == d[..|DropDuplicates(xs)|];
    }
  }

  /** De-duplicating the front first changes nothing. */
  lemma {:induction false} DropDuplicatesFront(xs: seq<FrameRow>, ys: seq<FrameRow>)
    ensures DropDuplicates(DropDuplicates(xs) + ys) == DropDuplicates(xs + ys)
    decreases |ys|
  {
    var d := DropDuplicates(xs);
    if ys == [] {
      assert d + ys == d && xs + ys == xs;
      DropDuplicatesDistinct(xs);
      DropDuplicatesOfDistinct(d);
    } else {
      var init, last := ys[..|ys| - 1], ys[|ys| - 1];
      DropDuplicatesFront(xs, init);
      assert d + ys == (d + init) + [last];
      assert xs + ys == (xs + init) + [last];
      DropDuplicatesElements(xs, last);
      assert (d + init)[..|d + init|] == d + init;
      assert last in d + init <==> last in xs + init;
    }
  }

  /** Appending twice to a stored frame is appending both batches at once. */
  lemma {:induction false} AppendTwice(stored: seq<FrameRow>, a: seq<FrameRow>, b: seq<FrameRow>)
    ensures Appended(Appended(Some(Frame(stored)), Frame(a)), Frame(b)) == Appended(Some(Frame(stored)), Frame(a + b))
  {
    DropDuplicatesFront(stored + a, b);
    assert stored + a + b == stored + (a + b);
  }

  /** Appending to a `.pkl` or `.csv` frame stores what it returns, so the next load sees it. */
  lemma {:induction false} AppendThenLoad(files: map<string, Entry>, filename: string, newData: Data)
    requires Extension(filename) == ".pkl" || (Extension(filename) == ".csv" && newData.Frame?)
    requires Appended(Load(files, filename), newData).Some?
    ensures var c := Appended(Load(files, filename), newData);
      Load(Save(files, c.value, filename), filename) == c
  {
    SaveLoad(files, Appended(Load(files, filename), newData).value, filename);
  }
}
