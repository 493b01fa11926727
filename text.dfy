/**
 * Character classes and string helpers shared by the scraper's matchers.
 *
 * Python's `str.isdigit`, `\d`, `\s`, `[A-Za-z]` and `re.IGNORECASE` are
 * modelled on ASCII only.
 */
module Text {
  import opened Wrappers

  predicate IsDigit(c: char) { '0' <= c <= '9' }

  /** Python's `\s` restricted to ASCII: space, \t \n \v \f \r and \x1c..\x1f. */
  predicate IsSpace(c: char) {
    c == ' ' || ('\t' <= c <= '\r') || ('\U{1C}' <= c <= '\U{1F}')
  }

  predicate IsLetter(c: char) { ('a' <= c <= 'z') || ('A' <= c <= 'Z') }

  /** ASCII lower-casing. */
  function Lower(c: char): (r: char)
    ensures IsLetter(c) <==> IsLetter(r) && 'a' <= r <= 'z'
    ensures !IsLetter(c) ==> r == c
  {
    if 'A' <= c <= 'Z' then (c as int - 'A' as int + 'a' as int) as char else c
  }

  function LowerString(s: string): (r: string)
    ensures |r| == |s|
    ensures forall i :: 0 <= i < |s| ==> r[i] == Lower(s[i])
  {
    if s == [] then [] else [Lower(s[0])] + LowerString(s[1..])
  }

  /** Python's `str.isdigit()`: non-empty and every character a digit. */
  predicate AllDigits(s: string) {
    |s| > 0 && forall i :: 0 <= i < |s| ==> IsDigit(s[i])
  }

  function DigitValue(c: char): (r: nat)
    requires IsDigit(c)
    ensures r < 10
  {
    c as int - '0' as int
  }

  /** The decimal value of a string of digits (Python's `int` on it). */
  function Value(s: string): nat
    requires forall i :: 0 <= i < |s| ==> IsDigit(s[i])
  {
    if s == [] then 0 else Value(s[..|s| - 1]) * 10 + DigitValue(s[|s| - 1])
  }

  /** Python's `str(n)` for a non-negative integer. */
  function NatToString(n: nat): (r: string)
    ensures AllDigits(r)
    ensures Value(r) == n
    ensures |r| > 1 ==> r[0] != '0'
  {
    if n < 10 then [('0' as int + n) as char]
    else
      var r := NatToString(n / 10) + [('0' as int + n % 10) as char];
      assert r[..|r| - 1] == NatToString(n / 10);
      r
  }

  /** Python's `str(i)` for any integer. */
  function IntToString(i: int): (r: string)
    ensures |r| > 0
    ensures i >= 0 ==> r == NatToString(i)
    ensures i < 0 ==> r == "-" + NatToString(-i)
  {
    if i >= 0 then NatToString(i) else "-" + NatToString(-i)
  }

  /** Python's `int(s)` on the strings `IntToString` produces. */
  function ParseInt(s: string): Option<int> {
    if AllDigits(s) then Some(Value(s) as int)
    else if |s| > 1 && s[0] == '-' && AllDigits(s[1..]) then Some(-(Value(s[1..]) as int))
    else None
  }

  lemma {:induction false} ParseIntToString(i: int)
    ensures ParseInt(IntToString(i)) == Some(i)
  {
    if i < 0 {
      var r := IntToString(i);
      assert r[1..] == NatToString(-i);
    }
  }

  /** `pat` occurs in `s` starting at index `i`. */
  predicate HasAt(s: string, pat: string, i: nat) {
    i + |pat| <= |s| && s[i..i + |pat|] == pat
  }

  /** `pat` (given in lower case) occurs in `s` at `i`, ignoring ASCII case. */
  predicate HasAtCi(s: string, pat: string, i: nat) {
    i + |pat| <= |s| && forall k :: 0 <= k < |pat| ==> Lower(s[i + k]) == pat[k]
  }

  /** The first index at or after `from` where `pat` occurs (Python's `str.find`). */
  function FindFrom(s: string, pat: string, from: nat): (r: Option<nat>)
    decreases |s| - from
    ensures r.Some? ==> from <= r.value && HasAt(s, pat, r.value)
    ensures forall j: nat :: from <= j && (r.None? || j < r.value) ==> !HasAt(s, pat, j)
  {
    if from + |pat| > |s| then None
    else if HasAt(s, pat, from) then Some(from)
    else FindFrom(s, pat, from + 1)
  }

  function Find(s: string, pat: string): (r: Option<nat>)
    ensures r.Some? ==> HasAt(s, pat, r.value)
    ensures forall j: nat :: (r.None? || j < r.value) ==> !HasAt(s, pat, j)
  {
    FindFrom(s, pat, 0)
  }

  /** No index of `s` before `n` starts `pat`, while `n` does: `str.find` gives `n`. */
  lemma {:induction false} FindIs(s: string, pat: string, n: nat)
    requires HasAt(s, pat, n)
    requires forall j: nat :: j < n ==> !HasAt(s, pat, j)
    ensures Find(s, pat) == Some(n)
  {
  }

  /** Python's `pat in s`. */
  predicate Contains(s: string, pat: string) {
    Find(s, pat).Some?
  }

  /** The text before the first `sep`, or all of `s` (Python's `s.split(sep)[0]`). */
  function Before(s: string, sep: string): (r: string)
    ensures |r| <= |s| && r == s[..|r|]
    ensures forall j: nat :: j < |r| ==> !HasAt(s, sep, j)
    ensures |r| == |s| || HasAt(s, sep, |r|)
  {
    match Find(s, sep)
    case Some(i) => s[..i]
    case None => s
  }

  /**
   * Python's `s.split(sep)[1]`: the text between the first and the second
   * occurrence of `sep`, or to the end when there is no second one.
   */
  function SecondField(s: string, sep: string): string
    requires |sep| > 0 && Contains(s, sep)
  {
    Before(s[Find(s, sep).value + |sep|..], sep)
  }

  /** Number of consecutive characters from `i` that satisfy `p`. */
  function RunLength(s: string, i: nat, p: char -> bool): (r: nat)
    decreases |s| - i
    ensures i + r <= |s| || r == 0
    ensures forall k :: i <= k < i + r ==> p(s[k])
  {
    if i < |s| && p(s[i]) then 1 + RunLength(s, i + 1, p) else 0
  }

  /** The run ends at the end of `s` or at a character that fails `p`. */
  lemma {:induction false} RunLengthStops(s: string, i: nat, p: char -> bool)
    decreases |s| - i
    ensures i + RunLength(s, i, p) < |s| ==> !p(s[i + RunLength(s, i, p)])
  {
    if i < |s| && p(s[i]) {
      RunLengthStops(s, i + 1, p);
    }
  }

  /** A run of exactly `n` characters satisfying `p`, ended by the end of `s` or one that does not. */
  lemma {:induction false} RunLengthIs(s: string, i: nat, p: char -> bool, n: nat)
    requires i + n <= |s| && forall k :: i <= k < i + n ==> p(s[k])
    requires i + n == |s| || !p(s[i + n])
    ensures RunLength(s, i, p) == n
  {
    var r := RunLength(s, i, p);
    RunLengthStops(s, i, p);
    if r < n {
      assert false;
    } else if r > n {
      assert false;
    }
  }

  /** A run reaches at least as far as `n` characters satisfying `p` go. */
  lemma {:induction false} RunLengthAtLeast(s: string, i: nat, p: char -> bool, n: nat)
    requires i + n <= |s| && forall k :: i <= k < i + n ==> p(s[k])
    ensures RunLength(s, i, p) >= n
  {
    RunLengthStops(s, i, p);
    if RunLength(s, i, p) < n {
      assert false;
    }
  }

  /** Remove every occurrence of `c` (Python's `s.replace(c, '')`). */
  function Without(s: string, c: char): (r: string)
    ensures c !in r
    ensures forall x :: x in r <==> x in s && x != c
  {
    if s == [] then [] else (if s[0] == c then [] else [s[0]]) + Without(s[1..], c)
  }

  /** Removing `c` works piece by piece: the rest of the text keeps its order. */
  lemma {:induction false} WithoutAppend(a: string, b: string, c: char)
    ensures Without(a + b, c) == Without(a, c) + Without(b, c)
  {
    if a != [] {
      assert (a + b)[1..] == a[1..] + b;
      WithoutAppend(a[1..], b, c);
    } else {
      assert a + b == b;
    }
  }

  /** One more `c` anywhere makes no difference. */
  lemma {:induction false} WithoutDropsOne(a: string, b: string, c: char)
    ensures Without(a + [c] + b, c) == Without(a + b, c)
  {
    assert Without([c], c) == [];
    WithoutAppend(a + [c], b, c);
    WithoutAppend(a, [c], c);
    WithoutAppend(a, b, c);
  }

  /** Text without `c` is left as it is. */
  lemma {:induction false} WithoutNothingToRemove(s: string, c: char)
    requires c !in s
    ensures Without(s, c) == s
  {
    if s != [] {
      assert s == [s[0]] + s[1..];
      WithoutNothingToRemove(s[1..], c);
    }
  }
}
