/**
 * The draw catalogue (`find_query_str` in scraper.py): the list of past
 * draws, each with the query string that selects its results page, read
 * from the draw-list page in up to three passes.
 */
module Catalogue {
  import opened Wrappers
  import opened Text
  import opened Calendar
  import opened ScraperPatterns

  /** One `<option>` element: its markup (`str(option)`) and its stripped text. */
  datatype OptionTag = OptionTag(markup: string, text: string)

  /** The fetched draw-list page: HTTP status, raw text, and the options of each `<select>`. */
  datatype CataloguePage = CataloguePage(status: int, content: string, selects: seq<seq<OptionTag>>)

  /** One catalogue entry. */
  datatype DrawInfo = DrawInfo(queryString: string, drawDate: Option<string>, drawNumber: Option<nat>)

  /** An entry of the first two passes: a non-empty query string without quotes, and an ISO date when there is one. */
  predicate LabelledEntry(e: DrawInfo) {
    |e.queryString| > 0 && '\'' !in e.queryString
    && (e.drawDate.Some? ==> IsIsoShape(e.drawDate.value) && ParseIso(e.drawDate.value).Some?)
  }

  /** An entry of the last-resort pass: a 25-character token, no date, no number. */
  predicate BareEntry(e: DrawInfo) {
    TokenShape(e.queryString) && e.drawDate.None? && e.drawNumber.None?
  }

  /**
   * The entry for query string `q` and option text `text`: the date and
   * the draw number written in the label, the number falling back to the
   * `id=` parameter of `q`.
   */
  function LabelEntry(q: string, text: string): (r: DrawInfo)
    requires |q| > 0 && '\'' !in q
    ensures LabelledEntry(r) && r.queryString == q
    ensures r.drawDate == LabelDate(text)
    ensures LabelDrawNumber(text).Some? ==> r.drawNumber == LabelDrawNumber(text)
    ensures LabelDrawNumber(text).None? ==> r.drawNumber == IdFallback(q)
  {
    DrawInfo(q, LabelDate(text),
             if LabelDrawNumber(text).Some? then LabelDrawNumber(text) else IdFallback(q))
  }

  /** An option yields an entry when its markup carries a quoted `queryString`. */
  function OptionEntry(o: OptionTag): (r: seq<DrawInfo>)
    ensures |r| <= 1
  {
    if Contains(o.markup, "queryString") then
      match Search(o.markup, QueryAttrAt, 0)
      case Some((_, q)) => [LabelEntry(q, o.text)]
      case None => []
    else []
  }

  /** The entries of a run of options, in order. */
  function OptionsPass(opts: seq<OptionTag>): (r: seq<DrawInfo>)
    ensures |r| <= |opts|
  {
    if opts == [] then []
    else OptionsPass(opts[..|opts| - 1]) + OptionEntry(opts[|opts| - 1])
  }

  /** First pass: every option of every `<select>`, in document order. */
  function StructuralPass(selects: seq<seq<OptionTag>>): seq<DrawInfo> {
    if selects == [] then []
    else StructuralPass(selects[..|selects| - 1]) + OptionsPass(selects[|selects| - 1])
  }

  function PairEntries(pairs: seq<(string, string)>): (r: seq<DrawInfo>)
    requires forall k :: 0 <= k < |pairs| ==> |pairs[k].0| > 0 && '\'' !in pairs[k].0
    ensures |r| == |pairs|
  {
    seq(|pairs|, k requires 0 <= k < |pairs| => LabelEntry(pairs[k].0, pairs[k].1))
  }

  /** Second pass: every `queryString='...' value='...'` pair in the raw text. */
  function PatternPass(content: string): seq<DrawInfo> {
    PairEntries(AllPairs(content, 0))
  }

  /** Last pass: every 25-character token, with neither date nor number. */
  function TokenPass(content: string): (r: seq<DrawInfo>)
    ensures forall k :: 0 <= k < |r| ==> BareEntry(r[k])
  {
    var ts := AllTokens(content, 0);
    seq(|ts|, k requires 0 <= k < |ts| => DrawInfo(ts[k], None, None))
  }

  /**
   * The catalogue: empty unless the page came back with status 200; then
   * the first pass, or the second when the first found nothing, or the
   * last when both found nothing.
   */
  function DrawList(page: CataloguePage): seq<DrawInfo> {
    if page.status != 200 then []
    else if StructuralPass(page.selects) != [] then StructuralPass(page.selects)
    else if PatternPass(page.content) != [] then PatternPass(page.content)
    else TokenPass(page.content)
  }

  /** Every entry of the first pass carries a usable query string and, if any, an ISO date. */
  lemma {:induction false} StructuralEntries(selects: seq<seq<OptionTag>>)
    ensures forall k :: 0 <= k < |StructuralPass(selects)| ==> LabelledEntry(StructuralPass(selects)[k])
  {
    if selects != [] {
      StructuralEntries(selects[..|selects| - 1]);
      OptionsEntries(selects[|selects| - 1]);
    }
  }

  lemma {:induction false} OptionsEntries(opts: seq<OptionTag>)
    ensures forall k :: 0 <= k < |OptionsPass(opts)| ==> LabelledEntry(OptionsPass(opts)[k])
  {
    if opts != [] {
      OptionsEntries(opts[..|opts| - 1]);
    }
  }

  /** The second pass keeps the order of the pairs and each pair's query string. */
  lemma {:induction false} PairEntriesFollowPairs(pairs: seq<(string, string)>)
    requires forall k :: 0 <= k < |pairs| ==> |pairs[k].0| > 0 && '\'' !in pairs[k].0
    ensures forall k :: 0 <= k < |pairs| ==>
      LabelledEntry(PairEntries(pairs)[k]) && PairEntries(pairs)[k].queryString == pairs[k].0
  {
    forall k | 0 <= k < |pairs|
      ensures LabelledEntry(PairEntries(pairs)[k]) && PairEntries(pairs)[k].queryString == pairs[k].0
    {
      var e := LabelEntry(pairs[k].0, pairs[k].1);
      assert PairEntries(pairs)[k] == e;
    }
  }

  /**
   * The passes run in order: each later pass only when the earlier ones
   * found nothing, and every entry is a labelled one or a bare token.
   */
  lemma {:induction false} FallbackOrder(page: CataloguePage)
    requires page.status == 200
    ensures StructuralPass(page.selects) != [] ==> DrawList(page) == StructuralPass(page.selects)
    ensures StructuralPass(page.selects) == [] && PatternPass(page.content) != [] ==>
      DrawList(page) == PatternPass(page.content)
    ensures StructuralPass(page.selects) == [] && PatternPass(page.content) == [] ==>
      forall k :: 0 <= k < |DrawList(page)| ==> BareEntry(DrawList(page)[k])
  {
  }

  lemma {:induction false} DrawListEntries(page: CataloguePage)
    ensures forall k :: 0 <= k < |DrawList(page)| ==>
      LabelledEntry(DrawList(page)[k]) || BareEntry(DrawList(page)[k])
  {
    StructuralEntries(page.selects);
    PairEntriesFollowPairs(AllPairs(page.content, 0));
  }

  /** The entry of the two labelled passes, built as the loops of scraper.py build it. */
  method LabelledInfo(q: string, text: string) returns (e: DrawInfo)
    requires |q| > 0 && '\'' !in q
    ensures e == LabelEntry(q, text)
  {
    var date := LabelDate(text);
    var number := LabelDrawNumber(text);
    if number.None? && Contains(q, "id=") {
      var drawId := Text.Before(SecondField(q, "id="), "&");
      if AllDigits(drawId) {
        number := Some(Value(drawId));
      }
    }
    e := DrawInfo(q, date, number);
  }

  /** The entry one option contributes (lines 55-111). */
  method ScanOption(o: OptionTag) returns (entry: seq<DrawInfo>)
    ensures entry == OptionEntry(o)
  {
    entry := [];
    if Contains(o.markup, "queryString") {
      var m := Search(o.markup, QueryAttrAt, 0);
      if m.Some? {
        var e := LabelledInfo(m.value.1, o.text);
        entry := [e];
      }
    }
  }

  /** One more option extends the pass by that option's entry. */
  lemma {:induction false} OptionsPassStep(list0: seq<DrawInfo>, options: seq<OptionTag>, j: nat)
    requires j < |options|
    ensures list0 + OptionsPass(options[..j + 1]) == (list0 + OptionsPass(options[..j])) + OptionEntry(options[j])
  {
    assert options[..j + 1][..j] == options[..j];
  }

  /** The options of one `<select>`, appended to `list` (lines 52-111). */
  method ScanOptions(options: seq<OptionTag>, list0: seq<DrawInfo>) returns (list: seq<DrawInfo>)
    ensures list == list0 + OptionsPass(options)
  {
    list := list0;
    var j := 0;
    while j < |options|
      invariant 0 <= j <= |options|
      invariant list == list0 + OptionsPass(options[..j])
    {
      var entry := ScanOption(options[j]);
      OptionsPassStep(list0, options, j);
      list := list + entry;
      j := j + 1;
    }
    assert options[..j] == options;
  }

  /** The first pass over every `<select>` (lines 49-111). */
  method ScanSelects(selects: seq<seq<OptionTag>>) returns (list: seq<DrawInfo>)
    ensures list == StructuralPass(selects)
  {
    list := [];
    var i := 0;
    while i < |selects|
      invariant 0 <= i <= |selects|
      invariant list == StructuralPass(selects[..i])
    {
      assert selects[..i + 1][..i] == selects[..i];
      list := ScanOptions(selects[i], list);
      i := i + 1;
    }
    assert selects[..i] == selects;
  }

  /** The second pass over the pairs `re.findall` returns (lines 116-166). */
  method ScanPairs(content: string) returns (list: seq<DrawInfo>)
    ensures list == PatternPass(content)
  {
    list := [];
    var matches := AllPairs(content, 0);
    var k := 0;
    while k < |matches|
      invariant 0 <= k <= |matches|
      invariant list == PairEntries(matches[..k])
    {
      assert matches[..k + 1][..k] == matches[..k];
      var e := LabelledInfo(matches[k].0, matches[k].1);
      assert PairEntries(matches[..k + 1]) == PairEntries(matches[..k]) + [e] by {
        forall j | 0 <= j <= k ensures PairEntries(matches[..k + 1])[j] == (PairEntries(matches[..k]) + [e])[j] {
          if j < k {
            assert matches[..k + 1][j] == matches[..k][j];
          }
        }
      }
      list := list + [e];
      k := k + 1;
    }
    assert matches[..k] == matches;
  }

  /** `find_query_str`, over the page as fetched. */
  method FindQueryStr(page: CataloguePage) returns (list: seq<DrawInfo>)
    ensures list == DrawList(page)
    ensures page.status != 200 ==> list == []
    ensures forall k :: 0 <= k < |list| ==> LabelledEntry(list[k]) || BareEntry(list[k])
  {
    if page.status != 200 {
      return [];
    }
    list := ScanSelects(page.selects);
    if list == [] {
      list := ScanPairs(page.content);
    }
    if list == [] {
      list := TokenPass(page.content);
    }
    DrawListEntries(page);
  }
}
