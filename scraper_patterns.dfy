/**
 * Hand-written matchers for the regular expressions of scraper.py.
 *
 * Each `...At(s, i)` function says whether its pattern matches `s` starting
 * at index `i` and what the capturing group holds; `Search` then gives
 * Python's `re.search` (the leftmost match). For every pattern here the
 * greedy quantifiers never need to give anything back: each repeated class
 * is followed by a character the class excludes, so a shorter repetition
 * would fail at once. That is why taking maximal runs is exact.
 */
module ScraperPatterns {
  import opened Wrappers
  import opened Text
  import opened Calendar

  /** `re.search`: the leftmost index at or after `from` where `at` matches, with its result. */
  function Search<T>(s: string, at: (string, nat) -> Option<T>, from: nat): (r: Option<(nat, T)>)
    decreases |s| + 1 - from
    ensures r.Some? ==> from <= r.value.0 <= |s| && at(s, r.value.0) == Some(r.value.1)
    ensures forall j: nat :: from <= j <= |s| && (r.None? || j < r.value.0) ==> at(s, j).None?
  {
    if from > |s| then None
    else match at(s, from)
      case Some(v) => Some((from, v))
      case None => Search(s, at, from + 1)
  }

  /** A match at `i` with none before it is the one `re.search` finds. */
  lemma {:induction false} SearchFirst<T>(s: string, at: (string, nat) -> Option<T>, i: nat, v: T)
    requires i <= |s| && at(s, i) == Some(v)
    requires forall j: nat :: j < i ==> at(s, j).None?
    ensures Search(s, at, 0) == Some((i, v))
  {
    var r := Search(s, at, 0);
    assert r.Some?;
    if r.value.0 < i {
      assert false;
    }
  }

  /** Every character of `s` satisfies `p`. */
  predicate All(s: string, p: char -> bool) {
    forall k :: 0 <= k < |s| ==> p(s[k])
  }

  predicate NotQuote(c: char) { c != '\'' }
  predicate NotDigit(c: char) { !IsDigit(c) }
  predicate DigitOrComma(c: char) { IsDigit(c) || c == ',' }

  // ---- r'(\d{1,2}\s+[A-Za-z]+\s+\d{4})' ----

  /**
   * The date pattern at `i`. `\d{1,2}` takes two digits when there are two;
   * giving one back would leave a digit where `\s` is needed.
   */
  function DateAt(s: string, i: nat): (r: Option<DateToken>)
    ensures r.Some? ==> WellFormedToken(r.value)
  {
    if i < |s| && IsDigit(s[i]) then
      var a := if i + 1 < |s| && IsDigit(s[i + 1]) then i + 2 else i + 1;
      var w1 := RunLength(s, a, IsSpace);
      var b := a + w1;
      var l := RunLength(s, b, IsLetter);
      var c := b + l;
      var w2 := RunLength(s, c, IsSpace);
      var e := c + w2;
      if w1 > 0 && l > 0 && w2 > 0 && e + 4 <= |s| && AllDigits(s[e..e + 4]) then
        Some(DateToken(s[i..a], s[b..c], s[e..e + 4]))
      else None
    else None
  }

  /**
   * A date written in `text`: the first match of the date pattern, parsed
   * with '%d %B %Y' and then '%d %b %Y', rendered as '%Y-%m-%d'. `None` when
   * there is no match or neither format accepts it.
   */
  function LabelDate(text: string): (r: Option<string>)
    ensures r.Some? ==> IsIsoShape(r.value) && ParseIso(r.value).Some?
  {
    match Search(text, DateAt, 0)
    case None => None
    case Some((_, t)) =>
      match ParseDateToken(t)
      case None => None
      case Some(d) =>
        FormatIsoRoundTrip(d);
        Some(FormatIso(d))
  }

  /** `p` holds on `s[i..j]`. */
  predicate RunIn(s: string, i: nat, j: nat, p: char -> bool)
    requires i <= j <= |s|
  {
    forall k :: i <= k < j ==> p(s[k])
  }

  /** The date pattern at `i`, given the lengths of its runs. */
  lemma {:induction false} DateAtRuns(s: string, i: nat, a: nat, b: nat, c: nat, e: nat)
    requires i < |s| && IsDigit(s[i]) && a == (if i + 1 < |s| && IsDigit(s[i + 1]) then i + 2 else i + 1)
    requires RunLength(s, a, IsSpace) == b - a > 0 && RunLength(s, b, IsLetter) == c - b > 0
    requires RunLength(s, c, IsSpace) == e - c > 0 && e + 4 <= |s| && AllDigits(s[e..e + 4])
    ensures DateAt(s, i) == Some(DateToken(s[i..a], s[b..c], s[e..e + 4]))
  {
  }

  /** The date pattern at `i`, given where its day, spaces, month, spaces and year end. */
  lemma {:induction false} DateAtSpans(s: string, i: nat, a: nat, b: nat, c: nat, e: nat)
    requires i < a <= i + 2 && a < b < c < e && e + 4 <= |s|
    requires RunIn(s, i, a, IsDigit) && RunIn(s, a, b, IsSpace) && RunIn(s, b, c, IsLetter)
    requires RunIn(s, c, e, IsSpace) && RunIn(s, e, e + 4, IsDigit)
    ensures DateAt(s, i) == Some(DateToken(s[i..a], s[b..c], s[e..e + 4]))
  {
    assert IsDigit(s[i]) && IsSpace(s[a]);
    assert a == (if i + 1 < |s| && IsDigit(s[i + 1]) then i + 2 else i + 1);
    RunLengthIs(s, a, IsSpace, b - a);
    RunLengthIs(s, b, IsLetter, c - b);
    RunLengthIs(s, c, IsSpace, e - c);
    assert AllDigits(s[e..e + 4]) by {
      var year := s[e..e + 4];
      forall k | 0 <= k < 4 ensures IsDigit(year[k]) {
        assert year[k] == s[e + k];
      }
    }
    DateAtRuns(s, i, a, b, c, e);
  }

  /** A run inside `t`, written in `s` at `w`, is a run of `s` shifted by `w`. */
  lemma {:induction false} RunInWindow(s: string, w: nat, t: string, i: nat, j: nat, p: char -> bool)
    requires w + |t| <= |s| && s[w..w + |t|] == t
    requires i <= j <= |t| && RunIn(t, i, j, p)
    ensures RunIn(s, w + i, w + j, p)
  {
    forall k | w + i <= k < w + j ensures p(s[k]) {
      assert s[k] == s[w..w + |t|][k - w];
    }
  }

  /** A slice of `t`, written in `s` at `w`, is a slice of `s` shifted by `w`. */
  lemma {:induction false} SliceWindow(s: string, w: nat, t: string, i: nat, j: nat)
    requires w + |t| <= |s| && s[w..w + |t|] == t
    requires i <= j <= |t|
    ensures s[w + i..w + j] == t[i..j]
  {
    var u, v := s[w + i..w + j], t[i..j];
    forall k | 0 <= k < |u| ensures u[k] == v[k] {
      assert u[k] == s[w + i + k] == s[w..w + |t|][i + k];
    }
  }

  /** A date token `tok` whose runs end at `a`, `b`, `c` and `e` is matched wherever it is written. */
  lemma {:induction false} DateAtToken(s: string, w: nat, tok: string, a: nat, b: nat, c: nat, e: nat)
    requires w + |tok| <= |s| && s[w..w + |tok|] == tok
    requires 0 < a <= 2 && a < b < c < e && e + 4 == |tok|
    requires RunIn(tok, 0, a, IsDigit) && RunIn(tok, a, b, IsSpace) && RunIn(tok, b, c, IsLetter)
    requires RunIn(tok, c, e, IsSpace) && RunIn(tok, e, e + 4, IsDigit)
    ensures DateAt(s, w) == Some(DateToken(tok[..a], tok[b..c], tok[e..]))
  {
    assert DateAt(s, w) == Some(DateToken(s[w..w + a], s[w + b..w + c], s[w + e..w + e + 4])) by {
      RunInWindow(s, w, tok, 0, a, IsDigit);
      RunInWindow(s, w, tok, a, b, IsSpace);
      RunInWindow(s, w, tok, b, c, IsLetter);
      RunInWindow(s, w, tok, c, e, IsSpace);
      RunInWindow(s, w, tok, e, e + 4, IsDigit);
      DateAtSpans(s, w, w + a, w + b, w + c, w + e);
    }
    SliceWindow(s, w, tok, 0, a);
    SliceWindow(s, w, tok, b, c);
    SliceWindow(s, w, tok, e, e + 4);
    assert tok[0..a] == tok[..a] && tok[e..e + 4] == tok[e..];
  }

  /** The date pattern reads `day`, `month` and `year` where they are written. */
  lemma {:induction false} DateAtReads(pre: string, day: string, sp1: string, month: string,
                                       sp2: string, year: string, rest: string)
    requires 1 <= |day| <= 2 && AllDigits(day)
    requires |sp1| > 0 && All(sp1, IsSpace) && |month| > 0 && All(month, IsLetter)
    requires |sp2| > 0 && All(sp2, IsSpace) && |year| == 4 && AllDigits(year)
    ensures DateAt(pre + (day + sp1 + month + sp2 + year) + rest, |pre|) == Some(DateToken(day, month, year))
  {
    var tok := day + sp1 + month + sp2 + year;
    var a := |day|;
    var b := a + |sp1|;
    var c := b + |month|;
    var e := c + |sp2|;
    assert RunIn(tok, 0, a, IsDigit) && RunIn(tok, a, b, IsSpace) && RunIn(tok, b, c, IsLetter)
           && RunIn(tok, c, e, IsSpace) && RunIn(tok, e, e + 4, IsDigit);
    assert tok[..a] == day && tok[b..c] == month && tok[e..] == year;
    var s := pre + tok + rest;
    assert s[|pre|..|pre| + |tok|] == tok;
    DateAtToken(s, |pre|, tok, a, b, c, e);
  }

  /**
   * A label whose first digit starts `D Month YYYY` for the valid date `d`,
   * the month named in full or abbreviated and in any case, yields `d` in
   * ISO form.
   */
  lemma {:induction false} LabelDateReads(pre: string, day: string, sp1: string, month: string,
                                          sp2: string, year: string, rest: string, d: Date)
    requires !exists k :: 0 <= k < |pre| && IsDigit(pre[k])
    requires 1 <= |day| <= 2 && AllDigits(day)
    requires |sp1| > 0 && All(sp1, IsSpace) && |month| > 0 && All(month, IsLetter)
    requires |sp2| > 0 && All(sp2, IsSpace) && |year| == 4 && AllDigits(year)
    requires Valid(d) && Value(day) == d.day && Value(year) == d.year
    requires LowerString(month) == FullMonthNames[d.month - 1] || LowerString(month) == AbbrMonthNames[d.month - 1]
    ensures LabelDate(pre + (day + sp1 + month + sp2 + year) + rest) == Some(FormatIso(d))
  {
    var s := pre + (day + sp1 + month + sp2 + year) + rest;
    var t := DateToken(day, month, year);
    DateAtReads(pre, day, sp1, month, sp2, year, rest);
    forall j: nat | j < |pre| ensures DateAt(s, j).None? {
      assert s[j] == pre[j];
    }
    SearchFirst(s, DateAt, |pre|, t);
    if LowerString(month) == FullMonthNames[d.month - 1] {
      ParseFullName(t, d);
    } else {
      ParseAbbrName(t, d);
    }
  }

  /** `p` is written in `s` at `o`, one character after another. */
  predicate Piece(s: string, o: nat, p: string)
    decreases |p|
  {
    if p == [] then o <= |s| else o < |s| && s[o] == p[0] && Piece(s, o + 1, p[1..])
  }

  lemma {:induction false} PieceIs(s: string, o: nat, p: string)
    decreases |p|
    ensures Piece(s, o, p) <==> o + |p| <= |s| && forall m :: 0 <= m < |p| ==> s[o + m] == p[m]
  {
    if p != [] {
      PieceIs(s, o + 1, p[1..]);
      if o + |p| <= |s| && forall m :: 0 <= m < |p| ==> s[o + m] == p[m] {
        assert forall m :: 0 <= m < |p| - 1 ==> s[o + 1 + m] == p[1..][m] by {
          forall m | 0 <= m < |p| - 1 ensures s[o + 1 + m] == p[1..][m] {
            assert s[o + (m + 1)] == p[m + 1];
          }
        }
      }
      if Piece(s, o, p) {
        forall m | 0 <= m < |p| ensures s[o + m] == p[m] {
          if m > 0 {
            assert s[o + 1 + (m - 1)] == p[1..][m - 1];
          }
        }
      }
    }
  }

  lemma {:induction false} PieceSplit(a: string, b: string)
    ensures Piece(a + b, 0, a) && Piece(a + b, |a|, b)
  {
    PieceIs(a + b, 0, a);
    PieceIs(a + b, |a|, b);
    assert forall m :: 0 <= m < |a| ==> (a + b)[0 + m] == a[m];
    assert forall m :: 0 <= m < |b| ==> (a + b)[|a| + m] == b[m];
  }

  lemma {:induction false} PieceOf(a: string, b: string, c: string)
    ensures Piece(a + b + c, |a|, b) && Piece(a + b + c, |a| + |b|, c)
  {
    PieceIs(a + b + c, |a|, b);
    PieceIs(a + b + c, |a| + |b|, c);
    assert forall m :: 0 <= m < |b| ==> (a + b + c)[|a| + m] == b[m];
    assert forall m :: 0 <= m < |c| ==> (a + b + c)[|a| + |b| + m] == c[m];
  }

  /** The two halves of a piece are pieces. */
  lemma {:induction false} PiecePrefix(s: string, w: nat, a: string, b: string)
    requires Piece(s, w, a + b)
    ensures Piece(s, w, a) && Piece(s, w + |a|, b)
  {
    PieceIs(s, w, a + b);
    PieceIs(s, w, a);
    PieceIs(s, w + |a|, b);
    forall m | 0 <= m < |a| ensures s[w + m] == a[m] {
      assert (a + b)[m] == a[m];
    }
    forall m | 0 <= m < |b| ensures s[w + |a| + m] == b[m] {
      assert s[w + (|a| + m)] == (a + b)[|a| + m];
    }
  }

  /** A piece of a piece of `s` is a piece of `s`. */
  lemma {:induction false} PieceIn(s: string, w: nat, t: string, o: nat, p: string)
    requires Piece(s, w, t) && Piece(t, o, p)
    ensures Piece(s, w + o, p)
  {
    PieceIs(s, w, t);
    PieceIs(t, o, p);
    PieceIs(s, w + o, p);
    forall m | 0 <= m < |p| ensures s[w + o + m] == p[m] {
      assert s[w + (o + m)] == t[o + m];
    }
  }

  /** A piece from `o` to `e` whose characters all satisfy `q`. */
  lemma {:induction false} PieceAll(s: string, o: nat, e: nat, p: string, q: char -> bool)
    requires Piece(s, o, p) && e == o + |p| && All(p, q)
    ensures e <= |s| && RunIn(s, o, e, q)
  {
    PieceIs(s, o, p);
    forall k | o <= k < e ensures q(s[k]) {
      assert s[o + (k - o)] == p[k - o];
    }
  }

  /** A piece that reads `pat` once lower-cased, at its start. */
  lemma {:induction false} PieceCi(s: string, o: nat, p: string, pat: string)
    requires Piece(s, o, p) && |pat| <= |p| && LowerString(p)[..|pat|] == pat
    ensures HasAtCi(s, pat, o)
  {
    PieceIs(s, o, p);
    forall m | 0 <= m < |pat| ensures Lower(s[o + m]) == pat[m] {
      assert LowerString(p)[..|pat|][m] == LowerString(p)[m];
    }
  }

  /** The character at offset `m` of a piece. */
  lemma {:induction false} PieceChar(s: string, o: nat, p: string, m: nat)
    requires Piece(s, o, p) && m < |p|
    ensures o + m < |s| && s[o + m] == p[m]
  {
    PieceIs(s, o, p);
  }

  /** A piece is the slice of `s` it covers. */
  lemma {:induction false} PieceSlice(s: string, o: nat, p: string)
    requires Piece(s, o, p)
    ensures o + |p| <= |s| && s[o..o + |p|] == p
  {
    PieceIs(s, o, p);
  }

  // ---- the parts of the two draw-number patterns ----

  /** `\s*` at `j`: where the run of spaces there ends. */
  function SkipSpaces(s: string, j: nat): nat {
    j + RunLength(s, j, IsSpace)
  }

  /** An optional `c` at `j`: past it when it is there. */
  function SkipChar(s: string, j: nat, c: char): nat {
    if j < |s| && s[j] == c then j + 1 else j
  }

  /** `(?:No\.?)?` at `j`, ignoring case. */
  function SkipNo(s: string, j: nat): nat {
    if HasAtCi(s, "no", j) then SkipChar(s, j + 2, '.') else j
  }

  /** `(\d+)` at `j`: the value of the digits there, if there are any. */
  function DigitsAt(s: string, j: nat): Option<nat> {
    var d := RunLength(s, j, IsDigit);
    if d > 0 then Some(Value(s[j..j + d])) else None
  }

  lemma {:induction false} SkipSpacesTo(s: string, j: nat, k: nat)
    requires j <= k <= |s| && RunIn(s, j, k, IsSpace) && (k == |s| || !IsSpace(s[k]))
    ensures SkipSpaces(s, j) == k
  {
    RunLengthIs(s, j, IsSpace, k - j);
  }

  lemma {:induction false} DigitsAtReads(s: string, j: nat, e: nat)
    requires j < e <= |s| && RunIn(s, j, e, IsDigit) && (e == |s| || !IsDigit(s[e]))
    ensures DigitsAt(s, j) == Some(Value(s[j..e]))
  {
    RunLengthIs(s, j, IsDigit, e - j);
  }

  // ---- r'Draw\s*(?:No\.?)?:?\s*#?(\d+)' with re.IGNORECASE (the catalogue label) ----

  /**
   * The label's draw pattern at `i`. Each optional part starts with a
   * character none of the later parts can start with, so taking it whenever
   * it is there never loses a match.
   */
  function LabelDrawAt(s: string, i: nat): Option<nat> {
    if HasAtCi(s, "draw", i) then
      DigitsAt(s, SkipChar(s, SkipSpaces(s, SkipChar(s, SkipNo(s, SkipSpaces(s, i + 4)), ':')), '#'))
    else None
  }

  /**
   * The label's draw pattern where it is written: `Draw` in any case ending
   * at `i + 4`, spaces up to `j1`, an optional `No` or `No.` up to `j2`, an
   * optional ':' up to `j3`, spaces up to `j4`, an optional '#' up to `j5`
   * and the digits up to `e`. When the optional parts between the two runs
   * of spaces are absent, the spaces count as one run.
   */
  lemma {:induction false} LabelDrawSpans(s: string, i: nat, j1: nat, j2: nat, j3: nat, j4: nat, j5: nat, e: nat)
    requires HasAtCi(s, "draw", i)
    requires i + 4 <= j1 <= j2 <= j3 <= j4 <= j5 < e <= |s|
    requires RunIn(s, i + 4, j1, IsSpace)
    requires j2 == j1 || (j2 == j1 + 2 && HasAtCi(s, "no", j1))
             || (j2 == j1 + 3 && HasAtCi(s, "no", j1) && s[j1 + 2] == '.')
    requires j3 == j2 || (j3 == j2 + 1 && s[j2] == ':')
    requires j3 == j1 ==> j4 == j3
    requires RunIn(s, j3, j4, IsSpace)
    requires j5 == j4 || (j5 == j4 + 1 && s[j4] == '#')
    requires RunIn(s, j5, e, IsDigit) && (e == |s| || !IsDigit(s[e]))
    ensures LabelDrawAt(s, i) == Some(Value(s[j5..e]))
  {
    assert IsDigit(s[j5]);
    // what follows each part is not a continuation of it
    assert !IsSpace(s[j1]) by {
      if j2 > j1 {
        assert Lower(s[j1 + 0]) == "no"[0];
      } else if j3 > j2 {
        assert s[j1] == ':';
      } else if j5 > j4 {
        assert s[j1] == '#';
      }
    }
    assert j4 < j5 || IsDigit(s[j4]);
    assert j3 < j4 || j3 < j5 || IsDigit(s[j3]);
    SkipSpacesTo(s, i + 4, j1);
    assert SkipNo(s, j1) == j2 by {
      if j2 == j1 && HasAtCi(s, "no", j1) {
        assert false;
      }
      if j2 == j1 + 2 && j3 == j2 && j4 > j3 {
        assert IsSpace(s[j3]);
      }
    }
    assert SkipChar(s, j2, ':') == j3 by {
      if j3 == j2 && j4 > j3 {
        assert IsSpace(s[j3]);
      }
    }
    SkipSpacesTo(s, j3, j4);
    assert SkipChar(s, j4, '#') == j5;
    DigitsAtReads(s, j5, e);
    LabelDrawParts(s, i, j1, j2, j3, j4, j5, DigitsAt(s, j5).value);
  }

  /** The label's draw pattern at `i`, given where each of its parts ends. */
  lemma {:induction false} LabelDrawParts(s: string, i: nat, j1: nat, j2: nat, j3: nat, j4: nat, j5: nat, v: nat)
    requires HasAtCi(s, "draw", i)
    requires SkipSpaces(s, i + 4) == j1 && SkipNo(s, j1) == j2 && SkipChar(s, j2, ':') == j3
    requires SkipSpaces(s, j3) == j4 && SkipChar(s, j4, '#') == j5 && DigitsAt(s, j5) == Some(v)
    ensures LabelDrawAt(s, i) == Some(v)
  {
  }

  /** The draw number written in an option label, if any. */
  function LabelDrawNumber(text: string): Option<nat> {
    match Search(text, LabelDrawAt, 0)
    case None => None
    case Some((_, n)) => Some(n)
  }

  /**
   * `Draw`, spaces, an optional `No` or `No.`, an optional ':', spaces, an
   * optional '#' and digits, each word in any case (`Draw No. 12`,
   * `draw: 12`, `Draw #12`, `DRAW NO12`): the label's draw pattern reads
   * the digits.
   */
  lemma {:induction false} LabelDrawAtReads(pre: string, kw: string, sp1: string, no: string, colon: string,
                                            sp2: string, hash: string, digits: string, rest: string)
    requires LowerString(kw) == "draw" && All(sp1, IsSpace) && All(sp2, IsSpace)
    requires LowerString(no) == "" || LowerString(no) == "no" || LowerString(no) == "no."
    requires (colon == "" || colon == ":") && (hash == "" || hash == "#")
    requires no == "" && colon == "" ==> sp2 == ""
    requires |digits| > 0 && AllDigits(digits) && (rest == [] || !IsDigit(rest[0]))
    ensures LabelDrawAt(pre + (kw + sp1 + no + colon + sp2 + hash + digits) + rest, |pre|) == Some(Value(digits))
  {
    var tok := kw + sp1 + no + colon + sp2 + hash + digits;
    PieceOf(pre, tok, rest);
    LabelDrawSplit(pre + tok + rest, |pre|, kw, sp1, no, colon, sp2, hash, digits, rest);
  }

  /** The label's draw pattern reads the digits when a whole label is written from `i`. */
  lemma {:induction false} LabelDrawSplit(s: string, i: nat, kw: string, sp1: string, no: string, colon: string,
                                          sp2: string, hash: string, digits: string, rest: string)
    requires LowerString(kw) == "draw" && All(sp1, IsSpace) && All(sp2, IsSpace)
    requires LowerString(no) == "" || LowerString(no) == "no" || LowerString(no) == "no."
    requires (colon == "" || colon == ":") && (hash == "" || hash == "#")
    requires no == "" && colon == "" ==> sp2 == ""
    requires |digits| > 0 && AllDigits(digits) && (rest == [] || !IsDigit(rest[0]))
    requires |s| == i + |kw + sp1 + no + colon + sp2 + hash + digits| + |rest|
    requires Piece(s, i, kw + sp1 + no + colon + sp2 + hash + digits)
    requires Piece(s, i + |kw + sp1 + no + colon + sp2 + hash + digits|, rest)
    ensures LabelDrawAt(s, i) == Some(Value(digits))
  {
    var t2 := kw + sp1;
    var t3 := t2 + no;
    var t4 := t3 + colon;
    var t5 := t4 + sp2;
    var t6 := t5 + hash;
    var tok := t6 + digits;
    PiecePrefix(s, i, t6, digits);
    PiecePrefix(s, i, t5, hash);
    PiecePrefix(s, i, t4, sp2);
    PiecePrefix(s, i, t3, colon);
    PiecePrefix(s, i, t2, no);
    PiecePrefix(s, i, kw, sp1);
    assert |kw| == |LowerString(kw)| == 4;
    LabelDrawPieces(s, i, kw, sp1, no, colon, sp2, hash, digits, rest,
                    i + |kw|, i + |t2|, i + |t3|, i + |t4|, i + |t5|, i + |t6|, i + |tok|);
  }

  /** The label's draw pattern reads the digits when the parts of a label are written one after another from `i`. */
  lemma {:induction false} LabelDrawPieces(s: string, i: nat, kw: string, sp1: string, no: string, colon: string,
                                           sp2: string, hash: string, digits: string, rest: string,
                                           j0: nat, j1: nat, j2: nat, j3: nat, j4: nat, j5: nat, e: nat)
    requires LowerString(kw) == "draw" && All(sp1, IsSpace) && All(sp2, IsSpace)
    requires LowerString(no) == "" || LowerString(no) == "no" || LowerString(no) == "no."
    requires (colon == "" || colon == ":") && (hash == "" || hash == "#")
    requires no == "" && colon == "" ==> sp2 == ""
    requires |digits| > 0 && AllDigits(digits) && (rest == [] || !IsDigit(rest[0]))
    requires j0 == i + 4 && j1 == j0 + |sp1| && j2 == j1 + |no| && j3 == j2 + |colon|
    requires j4 == j3 + |sp2| && j5 == j4 + |hash| && e == j5 + |digits| && |s| == e + |rest|
    requires Piece(s, i, kw) && Piece(s, j0, sp1) && Piece(s, j1, no) && Piece(s, j2, colon)
    requires Piece(s, j3, sp2) && Piece(s, j4, hash) && Piece(s, j5, digits) && Piece(s, e, rest)
    ensures LabelDrawAt(s, i) == Some(Value(digits))
  {
    PieceCi(s, i, kw, "draw");
    PieceAll(s, j0, j1, sp1, IsSpace);
    NoPart(s, j1, j2, no);
    OptionalPart(s, j2, j3, colon, ':');
    PieceAll(s, j3, j4, sp2, IsSpace);
    OptionalPart(s, j4, j5, hash, '#');
    DigitsPart(s, j5, e, digits, rest);
    LabelDrawSpans(s, i, j1, j2, j3, j4, j5, e);
  }

  /** An optional `No` or `No.` written from `j` to `k`. */
  lemma {:induction false} NoPart(s: string, j: nat, k: nat, no: string)
    requires Piece(s, j, no) && k == j + |no|
    requires LowerString(no) == "" || LowerString(no) == "no" || LowerString(no) == "no."
    ensures k <= |s|
    ensures k == j || (k == j + 2 && HasAtCi(s, "no", j)) || (k == j + 3 && HasAtCi(s, "no", j) && s[j + 2] == '.')
  {
    PieceIs(s, j, no);
    if |no| >= 2 {
      PieceCi(s, j, no, "no");
    }
    if |no| == 3 {
      assert Lower(no[2]) == LowerString(no)[2];
    }
  }

  /** An optional `c` written from `j` to `k`. */
  lemma {:induction false} OptionalPart(s: string, j: nat, k: nat, p: string, c: char)
    requires Piece(s, j, p) && k == j + |p| && (p == [] || p == [c])
    ensures k <= |s| && (k == j || (k == j + 1 && s[j] == c))
  {
    PieceIs(s, j, p);
    assert p != [] ==> s[j + 0] == p[0];
  }

  /** Digits written from `j` to `e`, followed by the end of `s` or by `rest`, which does not start with a digit. */
  lemma {:induction false} DigitsPart(s: string, j: nat, e: nat, digits: string, rest: string)
    requires Piece(s, j, digits) && e == j + |digits| && AllDigits(digits) && Piece(s, e, rest)
    requires |s| == e + |rest| && (rest == [] || !IsDigit(rest[0]))
    ensures e <= |s| && RunIn(s, j, e, IsDigit) && (e == |s| || !IsDigit(s[e]))
    ensures s[j..e] == digits
  {
    PieceAll(s, j, e, digits, IsDigit);
    PieceSlice(s, j, digits);
    if rest != [] {
      PieceChar(s, e, rest, 0);
    }
  }

  /** The same, in a label with no 'd' before it: the label's draw number is those digits. */
  lemma {:induction false} LabelDrawReads(pre: string, kw: string, sp1: string, no: string, colon: string,
                                          sp2: string, hash: string, digits: string, rest: string)
    requires forall k :: 0 <= k < |pre| ==> Lower(pre[k]) != 'd'
    requires LowerString(kw) == "draw" && All(sp1, IsSpace) && All(sp2, IsSpace)
    requires LowerString(no) == "" || LowerString(no) == "no" || LowerString(no) == "no."
    requires (colon == "" || colon == ":") && (hash == "" || hash == "#")
    requires no == "" && colon == "" ==> sp2 == ""
    requires |digits| > 0 && AllDigits(digits) && (rest == [] || !IsDigit(rest[0]))
    ensures LabelDrawNumber(pre + (kw + sp1 + no + colon + sp2 + hash + digits) + rest) == Some(Value(digits))
  {
    var s := pre + (kw + sp1 + no + colon + sp2 + hash + digits) + rest;
    LabelDrawAtReads(pre, kw, sp1, no, colon, sp2, hash, digits, rest);
    forall p: nat | p < |pre| ensures LabelDrawAt(s, p).None? {
      assert s[p + 0] == pre[p];
    }
    SearchFirst(s, LabelDrawAt, |pre|, Value(digits));
  }

  // ---- r'Draw No\.?\s*(\d+)' with re.IGNORECASE (the results page) ----

  function PageDrawAt(s: string, i: nat): Option<nat> {
    if HasAtCi(s, "draw no", i) then DigitsAt(s, SkipSpaces(s, SkipChar(s, i + 7, '.'))) else None
  }

  /**
   * The results page's draw pattern where it is written: `Draw No` in any
   * case ending at `i + 7`, an optional '.' up to `j`, spaces up to `k` and
   * the digits up to `e`.
   */
  lemma {:induction false} PageDrawSpans(s: string, i: nat, j: nat, k: nat, e: nat)
    requires HasAtCi(s, "draw no", i)
    requires j <= k < e <= |s|
    requires j == i + 7 || (j == i + 8 && s[i + 7] == '.')
    requires RunIn(s, j, k, IsSpace) && RunIn(s, k, e, IsDigit) && (e == |s| || !IsDigit(s[e]))
    ensures PageDrawAt(s, i) == Some(Value(s[k..e]))
  {
    assert IsDigit(s[k]);
    assert j == i + 7 && j < k ==> IsSpace(s[j]);
    SkipSpacesTo(s, j, k);
    DigitsAtReads(s, k, e);
  }

  /** `Draw No` or `Draw No.`, in any case, then spaces and digits: the results page's draw pattern reads the digits. */
  lemma {:induction false} PageDrawAtReads(pre: string, head: string, sp: string, digits: string, rest: string)
    requires LowerString(head) == "draw no" || LowerString(head) == "draw no."
    requires All(sp, IsSpace) && |digits| > 0 && AllDigits(digits)
    requires rest == [] || !IsDigit(rest[0])
    ensures PageDrawAt(pre + head + sp + digits + rest, |pre|) == Some(Value(digits))
  {
    var s := pre + head + sp + digits + rest;
    var i := |pre|;
    var j := i + |head|;
    var k := j + |sp|;
    var e := k + |digits|;
    assert HasAtCi(s, "draw no", i) by {
      forall m | 0 <= m < 7 ensures Lower(s[i + m]) == "draw no"[m] {
        assert s[i + m] == head[m];
        assert Lower(head[m]) == LowerString(head)[m];
      }
    }
    assert j == i + 8 ==> s[i + 7] == '.' by {
      if j == i + 8 {
        assert s[i + 7] == head[7];
        assert Lower(head[7]) == LowerString(head)[7] == '.';
      }
    }
    assert RunIn(s, j, k, IsSpace) by {
      forall m | j <= m < k ensures IsSpace(s[m]) { assert s[m] == sp[m - j]; }
    }
    assert RunIn(s, k, e, IsDigit) by {
      forall m | k <= m < e ensures IsDigit(s[m]) { assert s[m] == digits[m - k]; }
    }
    assert e < |s| ==> s[e] == rest[0];
    assert s[k..e] == digits;
    PageDrawSpans(s, i, j, k, e);
  }

  /**
   * The same, in a text with no 'd' before it: the first match of the
   * results page's draw pattern is there.
   */
  lemma {:induction false} PageDrawReads(pre: string, head: string, sp: string, digits: string, rest: string)
    requires forall k :: 0 <= k < |pre| ==> Lower(pre[k]) != 'd'
    requires LowerString(head) == "draw no" || LowerString(head) == "draw no."
    requires All(sp, IsSpace) && |digits| > 0 && AllDigits(digits)
    requires rest == [] || !IsDigit(rest[0])
    ensures Search(pre + head + sp + digits + rest, PageDrawAt, 0) == Some((|pre|, Value(digits)))
  {
    var s := pre + head + sp + digits + rest;
    PageDrawAtReads(pre, head, sp, digits, rest);
    forall p: nat | p < |pre| ensures PageDrawAt(s, p).None? {
      assert s[p + 0] == pre[p];
    }
    SearchFirst(s, PageDrawAt, |pre|, Value(digits));
  }

  // ---- r"queryString='([^']+)'" ----

  function QueryAttrAt(s: string, i: nat): (r: Option<string>)
    ensures r.Some? ==> |r.value| > 0 && '\'' !in r.value
  {
    if HasAt(s, "queryString='", i) then
      var j := i + 13;
      var n := RunLength(s, j, NotQuote);
      if n > 0 && j + n < |s| then Some(s[j..j + n]) else None
    else None
  }

  // ---- r"queryString='([^']+)' value='([^']+)'" (re.findall) ----

  /** A match at `i`: where it ends, the query string and the option text. */
  function PairAt(s: string, i: nat): (r: Option<(nat, (string, string))>)
    ensures r.Some? ==> i < r.value.0 <= |s|
    ensures r.Some? ==> |r.value.1.0| > 0 && '\'' !in r.value.1.0
  {
    if HasAt(s, "queryString='", i) then
      var j := i + 13;
      var n1 := RunLength(s, j, NotQuote);
      var k := j + n1;
      if n1 > 0 && HasAt(s, "' value='", k) then
        var m := k + 9;
        var n2 := RunLength(s, m, NotQuote);
        if n2 > 0 && m + n2 < |s| then Some((m + n2 + 1, (s[j..k], s[m..m + n2]))) else None
      else None
    else None
  }

  /** `re.findall` of the pair pattern: non-overlapping matches, left to right. */
  function AllPairs(s: string, from: nat): (r: seq<(string, string)>)
    decreases |s| - from
    ensures forall k :: 0 <= k < |r| ==> |r[k].0| > 0 && '\'' !in r[k].0
  {
    if from >= |s| then []
    else match PairAt(s, from)
      case Some((e, p)) => [p] + AllPairs(s, e)
      case None => AllPairs(s, from + 1)
  }

  // ---- r"queryString='(.{4}=.{20})' value='" (re.findall) ----

  /** 25 characters, none a newline (what `.` excludes), with '=' fifth. */
  predicate TokenShape(t: string) {
    |t| == 25 && t[4] == '=' && forall k :: 0 <= k < 25 ==> t[k] != '\n'
  }

  function TokenAt(s: string, i: nat): (r: Option<(nat, string)>)
    ensures r.Some? ==> i < r.value.0 <= |s| && TokenShape(r.value.1)
  {
    if HasAt(s, "queryString='", i) && i + 13 + 25 <= |s| && TokenShape(s[i + 13..i + 38])
       && HasAt(s, "' value='", i + 38)
    then Some((i + 47, s[i + 13..i + 38]))
    else None
  }

  function AllTokens(s: string, from: nat): (r: seq<string>)
    decreases |s| - from
    ensures forall k :: 0 <= k < |r| ==> TokenShape(r[k])
  {
    if from >= |s| then []
    else match TokenAt(s, from)
      case Some((e, t)) => [t] + AllTokens(s, e)
      case None => AllTokens(s, from + 1)
  }

  // ---- the `id=` fallback: query_string.split('id=')[1].split('&')[0] ----

  /**
   * The draw number carried by a query string's `id=` parameter: the text
   * after the first `id=`, up to the next `id=` or `&`, when it is all digits.
   */
  function IdFallback(q: string): Option<nat> {
    if Contains(q, "id=") then
      var piece := Text.Before(SecondField(q, "id="), "&");
      if AllDigits(piece) then Some(Value(piece)) else None
    else None
  }

  /** A digit string contains neither 'i' (so no "id=") nor '&'. */
  lemma {:induction false} DigitsHaveNoSeparator(t: string, digits: string, sep: string)
    requires AllDigits(digits) && |digits| <= |t| && digits == t[..|digits|]
    requires |sep| > 0 && !IsDigit(sep[0])
    ensures forall j: nat :: j < |digits| ==> !HasAt(t, sep, j)
  {
    forall j: nat | j < |digits| ensures !HasAt(t, sep, j) {
      assert t[j] == digits[j];
    }
  }

  /**
   * The `id=` fallback reads back the digits written after the first
   * `id=`, when they are followed by the end of the string, a `&`, or a
   * second `id=`.
   */
  lemma {:induction false} IdFallbackReadsDigits(pre: string, digits: string, rest: string)
    requires !Contains(pre, "id=")
    requires AllDigits(digits)
    requires rest == [] || rest[0] == '&' || HasAt(rest, "id=", 0)
    ensures IdFallback(pre + "id=" + digits + rest) == Some(Value(digits))
  {
    var q := pre + "id=" + digits + rest;
    FirstIdAfter(pre, digits + rest);
    assert q == pre + "id=" + (digits + rest);
    assert q[|pre| + 3..] == digits + rest;
    DigitsField(digits, rest);
  }

  /** With no `id=` in `pre`, the first `id=` of `pre + "id=" + t` follows `pre`. */
  lemma {:induction false} FirstIdAfter(pre: string, t: string)
    requires !Contains(pre, "id=")
    ensures Find(pre + "id=" + t, "id=") == Some(|pre|)
  {
    var q := pre + "id=" + t;
    forall j: nat | j < |pre| ensures !HasAt(q, "id=", j) {
      if j + 3 <= |pre| {
        assert q[j..j + 3] == pre[j..j + 3];
        assert !HasAt(pre, "id=", j);
      } else {
        assert q[j..j + 3][|pre| - j] == 'i';
        assert "id="[|pre| - j] != 'i';
      }
    }
    assert HasAt(q, "id=", |pre|);
    FindIs(q, "id=", |pre|);
  }

  /** The text up to the next `id=`, then up to the first `&`, is the leading digits. */
  lemma {:induction false} DigitsField(digits: string, rest: string)
    requires AllDigits(digits)
    requires rest == [] || rest[0] == '&' || HasAt(rest, "id=", 0)
    ensures Text.Before(Text.Before(digits + rest, "id="), "&") == digits
  {
    var t := digits + rest;
    DigitsHaveNoSeparator(t, digits, "id=");
    DigitsHaveNoSeparator(digits, digits, "&");
    var field := Text.Before(t, "id=");
    if rest == [] {
      assert t == digits;
      assert Find(digits, "&").None?;
    } else if HasAt(rest, "id=", 0) {
      assert HasAt(t, "id=", |digits|);
      FindIs(t, "id=", |digits|);
      assert field == digits;
      assert Find(digits, "&").None?;
    } else {
      assert t[|digits|] == '&';
      assert !HasAt(t, "id=", |digits|);
      assert |field| > |digits| by {
        match Find(t, "id=")
        case None =>
        case Some(x) =>
          assert x >= |digits|;
          assert x != |digits|;
      }
      assert field[..|digits|] == digits;
      assert HasAt(field, "&", |digits|);
      DigitsHaveNoSeparator(field, digits, "&");
      FindIs(field, "&", |digits|);
    }
  }

  // ---- r'Group\s*(\d)' with re.IGNORECASE ----

  function GroupAt(s: string, i: nat): (r: Option<nat>)
    ensures r.Some? ==> r.value < 10
  {
    if HasAtCi(s, "group", i) then
      var j := i + 5 + RunLength(s, i + 5, IsSpace);
      if j < |s| && IsDigit(s[j]) then Some(DigitValue(s[j])) else None
    else None
  }

  /** The tier named by the first `Group <digit>` in `s`. */
  function GroupNumber(s: string): (r: Option<nat>)
    ensures r.Some? ==> r.value < 10
  {
    match Search(s, GroupAt, 0)
    case None => None
    case Some((_, g)) => Some(g)
  }

  // ---- r'\$\s*([\d,]+\.?\d*)' and float(group.replace(',', '')) ----

  /** The captured amount: `[\d,]+`, whether `\.` matched, and the `\d*` after it. */
  datatype Amount = Amount(whole: string, dot: bool, frac: string)

  /** What the amount pattern can capture: digits and commas, then digits after the dot. */
  predicate WellFormedAmount(a: Amount) {
    (forall k :: 0 <= k < |a.whole| ==> DigitOrComma(a.whole[k]))
    && (forall k :: 0 <= k < |a.frac| ==> IsDigit(a.frac[k]))
  }

  function PrizeAt(s: string, i: nat): (r: Option<Amount>)
    ensures r.Some? ==> |r.value.whole| > 0 && WellFormedAmount(r.value)
  {
    if i < |s| && s[i] == '$' then
      var j := i + 1 + RunLength(s, i + 1, IsSpace);
      var n := RunLength(s, j, DigitOrComma);
      if n > 0 then
        var k := j + n;
        if k < |s| && s[k] == '.' then
          var f := RunLength(s, k + 1, IsDigit);
          Some(Amount(s[j..k], true, s[k + 1..k + 1 + f]))
        else Some(Amount(s[j..k], false, []))
      else None
    else None
  }

  /** The first dollar amount in `s`. */
  function PrizeMatch(s: string): (r: Option<Amount>)
    ensures r.Some? ==> WellFormedAmount(r.value)
  {
    match Search(s, PrizeAt, 0)
    case None => None
    case Some((_, a)) => Some(a)
  }

  /**
   * `float` of the amount with commas removed. Python rejects "" and ".",
   * which is what an amount made only of commas leaves.
   */
  function AmountValue(a: Amount): (r: Option<real>)
    requires WellFormedAmount(a)
    ensures r.Some? ==> r.value >= 0.0
  {
    var w := Without(a.whole, ',');
    assert forall k :: 0 <= k < |w| ==> IsDigit(w[k]) by {
      forall k | 0 <= k < |w| ensures IsDigit(w[k]) {
        assert w[k] in w;
        var m :| 0 <= m < |a.whole| && a.whole[m] == w[k];
        assert DigitOrComma(a.whole[m]) && w[k] != ',';
      }
    }
    DecimalValue(w, a.frac)
  }

  /** `float` of the digits `w`, a dot and the digits `frac`; None when both are empty. */
  function DecimalValue(w: string, frac: string): (r: Option<real>)
    requires forall k :: 0 <= k < |w| ==> IsDigit(w[k])
    requires forall k :: 0 <= k < |frac| ==> IsDigit(frac[k])
    ensures r.Some? ==> r.value >= 0.0
    ensures r.None? <==> |w| == 0 && |frac| == 0
  {
    if |w| == 0 && |frac| == 0 then None
    else Some(Value(w) as real + Value(frac) as real / Pow10(|frac|) as real)
  }

  /** A comma put into the whole part leaves the amount one the pattern can capture. */
  lemma {:induction false} CommaKeepsShape(a: string, b: string, dot: bool, f: string)
    requires WellFormedAmount(Amount(a + b, dot, f))
    ensures WellFormedAmount(Amount(a + "," + b, dot, f))
  {
    var w := a + "," + b;
    forall k | 0 <= k < |w| ensures DigitOrComma(w[k]) {
      if k < |a| {
        assert w[k] == (a + b)[k];
      } else if k > |a| {
        assert w[k] == (a + b)[k - 1];
      }
    }
  }

  /** A comma anywhere in the whole part does not change the value. */
  lemma {:induction false} CommaIgnored(a: string, b: string, dot: bool, f: string)
    requires WellFormedAmount(Amount(a + b, dot, f))
    ensures WellFormedAmount(Amount(a + "," + b, dot, f))
    ensures AmountValue(Amount(a + "," + b, dot, f)) == AmountValue(Amount(a + b, dot, f))
  {
    CommaKeepsShape(a, b, dot, f);
    WithoutDropsOne(a, b, ',');
  }

  /** The digits "1234", a dot and "50" are worth 1234.5. */
  lemma {:induction false} DecimalExample()
    ensures DecimalValue("1234", "50") == Some(1234.5)
  {
    assert "1234"[..3] == "123" && "123"[..2] == "12" && "12"[..1] == "1" && "1"[..0] == "";
    assert "50"[..1] == "5" && "5"[..0] == "";
    assert Pow10(2) == 100;
  }

  /** "1,234.50" is worth 1234.5. */
  lemma {:induction false} AmountExample()
    ensures AmountValue(Amount("1,234", true, "50")) == Some(1234.5)
  {
    assert "1,234" == "1" + "," + "234" && "1" + "234" == "1234";
    CommaIgnored("1", "234", true, "50");
    WithoutNothingToRemove("1234", ',');
    DecimalExample();
  }

  // ---- r'(\d+)[^\d]*winners' with re.IGNORECASE ----

  /**
   * The winners pattern at `i`: a run of digits, then a stretch without
   * digits in which "winners" occurs. `\d+` cannot give digits back, since
   * `[^\d]*` and "winners" accept none.
   */
  function WinnersAt(s: string, i: nat): Option<nat> {
    var d := RunLength(s, i, IsDigit);
    if d == 0 then None
    else
      var k := i + d;
      var e := k + RunLength(s, k, NotDigit);
      if exists p :: k <= p && p + 7 <= e && HasAtCi(s, "winners", p) then Some(Value(s[i..k]))
      else None
  }

  function WinnersMatch(s: string): Option<nat> {
    match Search(s, WinnersAt, 0)
    case None => None
    case Some((_, n)) => Some(n)
  }

  /** The winners pattern at `i`: digits up to `k`, non-digits from `k`, `winners` at `p`. */
  lemma {:induction false} WinnersSpans(s: string, i: nat, k: nat, p: nat)
    requires i < k <= p && p + 7 <= |s|
    requires forall m :: i <= m < k ==> IsDigit(s[m])
    requires forall m :: k <= m < p + 7 ==> NotDigit(s[m])
    requires HasAtCi(s, "winners", p)
    ensures WinnersAt(s, i) == Some(Value(s[i..k]))
  {
    RunLengthIs(s, i, IsDigit, k - i);
    RunLengthAtLeast(s, k, NotDigit, p + 7 - k);
  }

  /**
   * `N winners` where it is written: the first digits of the cell, then
   * anything but digits, then `winners` in any case, give the number `N`.
   */
  lemma {:induction false} WinnersReads(pre: string, digits: string, gap: string, kw: string, rest: string)
    requires forall k :: 0 <= k < |pre| ==> !IsDigit(pre[k])
    requires AllDigits(digits) && All(gap, NotDigit) && LowerString(kw) == "winners"
    ensures WinnersMatch(pre + digits + gap + kw + rest) == Some(Value(digits))
  {
    var s := pre + digits + gap + kw + rest;
    var i := |pre|;
    var k := i + |digits|;
    var p := k + |gap|;
    forall m | i <= m < k ensures IsDigit(s[m]) {
      assert s[m] == digits[m - i];
    }
    forall m | k <= m < p + 7 ensures NotDigit(s[m]) {
      if m < p {
        assert s[m] == gap[m - k];
      } else {
        assert s[m] == kw[m - p] && Lower(kw[m - p]) == "winners"[m - p];
      }
    }
    forall m | 0 <= m < 7 ensures Lower(s[p + m]) == "winners"[m] {
      assert s[p + m] == kw[m];
    }
    forall m | 0 <= m < i ensures !IsDigit(s[m]) {
      assert s[m] == pre[m];
    }
    assert s[i..k] == digits;
    WinnersFirst(s, i, k, p, digits);
  }

  /** The winners pattern at `i` with no digit before it is the one `re.search` finds. */
  lemma {:induction false} WinnersFirst(s: string, i: nat, k: nat, p: nat, digits: string)
    requires i < k <= p && p + 7 <= |s| && s[i..k] == digits
    requires forall m :: 0 <= m < i ==> !IsDigit(s[m])
    requires forall m :: i <= m < k ==> IsDigit(s[m])
    requires forall m :: k <= m < p + 7 ==> NotDigit(s[m])
    requires HasAtCi(s, "winners", p)
    ensures WinnersMatch(s) == Some(Value(digits))
  {
    WinnersSpans(s, i, k, p);
    forall j: nat | j < i ensures WinnersAt(s, j).None? {
      assert RunLength(s, j, IsDigit) == 0;
    }
    SearchFirst(s, WinnersAt, i, Value(digits));
  }

  /** A cell that `isdigit()` and holds 1 to 49: a TOTO number. */
  function TotoNumber(t: string): (r: Option<int>)
    ensures r.Some? ==> 1 <= r.value <= 49
    ensures r.Some? <==> AllDigits(t) && 1 <= Value(t) <= 49
  {
    if AllDigits(t) && 1 <= Value(t) <= 49 then Some(Value(t) as int) else None
  }
}
