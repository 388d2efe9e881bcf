/** JavaScript string helpers the components rely on: the whitespace class shared by
    the regular-expression escape `\s` and `String.prototype.trim`, trimming, prefix
    tests and the word count `s.split(/\s+/).filter(w => w.length > 0).length`. */
module Text {
  import opened Types

  /** JavaScript's WhiteSpace and LineTerminator characters. */
  predicate IsSpace(c: char) {
    c == ' ' || c == '\t' || c == '\n' || c == '\r' || c == '\U{0B}' || c == '\U{0C}'
    || c == '\U{A0}' || c == '\U{1680}' || ('\U{2000}' <= c <= '\U{200A}')
    || c == '\U{2028}' || c == '\U{2029}' || c == '\U{202F}' || c == '\U{205F}'
    || c == '\U{3000}' || c == '\U{FEFF}'
  }

  /** `!s.trim()`: the string is empty or whitespace only. */
  predicate IsBlank(s: string) {
    forall i :: 0 <= i < |s| ==> IsSpace(s[i])
  }

  predicate StartsWith(s: string, prefix: string) {
    |prefix| <= |s| && s[..|prefix|] == prefix
  }

  /** `pat` occurs in `s` starting at position `i`. */
  predicate OccursAt(s: string, pat: string, i: nat) {
    i + |pat| <= |s| && s[i..i + |pat|] == pat
  }

  /** In a concatenation of four parts, the first is a prefix and the third sits after
      the first two. */
  lemma {:induction false} ConcatParts(a: string, b: string, c: string, d: string)
    ensures StartsWith(a + b + c + d, a)
    ensures OccursAt(a + b + c + d, c, |a| + |b|)
  {
    var s := a + b + c + d;
    assert s[..|a|] == a;
    assert s[|a| + |b|..|a| + |b| + |c|] == c;
  }

  /** The first position of `c` in `s`. */
  function FirstIndexOf(s: string, c: char): (r: Option<nat>)
    ensures r.Some? ==> r.value < |s| && s[r.value] == c
    ensures r.Some? ==> forall k :: 0 <= k < r.value ==> s[k] != c
    ensures r.None? ==> forall k :: 0 <= k < |s| ==> s[k] != c
    decreases |s|
  {
    if s == [] then None
    else if s[0] == c then Some(0)
    else
      var r := FirstIndexOf(s[1..], c);
      if r.None? then None else Some(r.value + 1)
  }

  /** The last position of `c` in `s`. */
  function LastIndexOf(s: string, c: char): (r: Option<nat>)
    ensures r.Some? ==> r.value < |s| && s[r.value] == c
    ensures r.Some? ==> forall k :: r.value < k < |s| ==> s[k] != c
    ensures r.None? ==> forall k :: 0 <= k < |s| ==> s[k] != c
    decreases |s|
  {
    if s == [] then None
    else if s[|s| - 1] == c then Some(|s| - 1)
    else LastIndexOf(s[..|s| - 1], c)
  }

  /** Number of leading whitespace characters: where `trimStart` cuts. */
  function LeadingSpaces(s: string): (n: nat)
    ensures n <= |s|
    ensures n < |s| ==> !IsSpace(s[n])
    decreases |s|
  {
    if s != [] && IsSpace(s[0]) then 1 + LeadingSpaces(s[1..]) else 0
  }

  /** Length of `s` without its trailing whitespace: where `trimEnd` cuts. */
  function ContentEnd(s: string): (n: nat)
    ensures n <= |s|
    ensures n > 0 ==> !IsSpace(s[n - 1])
    decreases |s|
  {
    if s != [] && IsSpace(s[|s| - 1]) then ContentEnd(s[..|s| - 1]) else |s|
  }

  /** `s.trimStart()`. */
  function TrimStart(s: string): string {
    s[LeadingSpaces(s)..]
  }

  /** `s.trimEnd()`. */
  function TrimEnd(s: string): string {
    s[..ContentEnd(s)]
  }

  /** `trimStart` drops whitespace and nothing else. */
  lemma {:induction false} LeadingSpacesAreSpaces(s: string)
    ensures forall i :: 0 <= i < LeadingSpaces(s) ==> IsSpace(s[i])
    decreases |s|
  {
    if s != [] && IsSpace(s[0]) {
      LeadingSpacesAreSpaces(s[1..]);
      forall i | 1 <= i < LeadingSpaces(s) ensures IsSpace(s[i]) {
        assert s[i] == s[1..][i - 1];
      }
    }
  }

  /** `trimEnd` drops whitespace and nothing else. */
  lemma {:induction false} TrailingSpacesAreSpaces(s: string)
    ensures forall i :: ContentEnd(s) <= i < |s| ==> IsSpace(s[i])
    decreases |s|
  {
    if s != [] && IsSpace(s[|s| - 1]) {
      TrailingSpacesAreSpaces(s[..|s| - 1]);
      forall i | ContentEnd(s) <= i < |s| - 1 ensures IsSpace(s[i]) {
        assert s[i] == s[..|s| - 1][i];
      }
    }
  }

  /** The content of a string ends just after its last non-whitespace character. */
  lemma {:induction false} ContentEndAt(s: string, k: nat)
    requires k < |s| && !IsSpace(s[k])
    requires forall j :: k < j < |s| ==> IsSpace(s[j])
    ensures ContentEnd(s) == k + 1
    decreases |s|
  {
    if k + 1 < |s| {
      var t := s[..|s| - 1];
      assert t[k] == s[k];
      assert forall j :: k < j < |t| ==> t[j] == s[j];
      ContentEndAt(t, k);
    }
  }

  /** `s.trim()`: the substring between the first and the last non-whitespace characters;
      only whitespace lies before and after it. */
  function Trim(s: string): (r: string)
    ensures LeadingSpaces(s) + |r| <= |s| && r == s[LeadingSpaces(s)..LeadingSpaces(s) + |r|]
    ensures r == [] || (!IsSpace(r[0]) && !IsSpace(r[|r| - 1]))
    ensures forall k :: 0 <= k < LeadingSpaces(s) ==> IsSpace(s[k])
    ensures forall k :: LeadingSpaces(s) + |r| <= k < |s| ==> IsSpace(s[k])
  {
    var t := TrimStart(s);
    assert ContentEnd(t) > 0 ==> t[0] == s[LeadingSpaces(s)];
    LeadingSpacesAreSpaces(s);
    TrailingSpacesAreSpaces(t);
    assert forall k :: LeadingSpaces(s) <= k < |s| ==> s[k] == t[k - LeadingSpaces(s)];
    TrimEnd(t)
  }

  /** A string that neither starts nor ends with whitespace is its own trim. */
  lemma {:induction false} TrimOfTrimmed(s: string)
    ensures s == [] || (!IsSpace(s[0]) && !IsSpace(s[|s| - 1])) ==> Trim(s) == s
  {
    if s != [] && !IsSpace(s[0]) && !IsSpace(s[|s| - 1]) {
      assert LeadingSpaces(s) == 0;
      ContentEndAt(s, |s| - 1);
      assert TrimStart(s) == s;
    }
  }

  /** `s.trim()` is empty exactly when `s` is blank. */
  lemma TrimEmptyIffBlank(s: string)
    ensures Trim(s) == [] <==> IsBlank(s)
  {
    LeadingSpacesAreSpaces(s);
    var t := TrimStart(s);
    TrailingSpacesAreSpaces(t);
    assert Trim(s) == [] ==> LeadingSpaces(s) == |s|;
  }

  /** Counts word starts: non-whitespace characters not preceded by another one. */
  function WordsFrom(s: string, inWord: bool): (n: nat)
    ensures n <= |s|
    ensures !inWord ==> (n == 0 <==> IsBlank(s))
    decreases |s|
  {
    if s == [] then 0
    else if IsSpace(s[0]) then WordsFrom(s[1..], false)
    else (if inWord then 0 else 1) + WordsFrom(s[1..], true)
  }

  /** `s.split(/\s+/).filter(w => w.length > 0).length`: the number of maximal runs of
      non-whitespace characters. */
  function WordCount(s: string): nat {
    WordsFrom(s, false)
  }

  lemma {:induction false} WordCountBounds(s: string)
    ensures WordCount(s) <= |s|
    ensures WordCount(s) == 0 <==> IsBlank(s)
  {
  }

  /** The words of `a` and of `b` add up when a whitespace character separates them. */
  lemma {:induction false} WordCountJoin(a: string, c: char, b: string)
    requires IsSpace(c)
    ensures WordCount(a + [c] + b) == WordCount(a) + WordCount(b)
  {
    WordsFromJoin(a, false, c, b);
  }

  lemma {:induction false} WordsFromJoin(a: string, inWord: bool, c: char, b: string)
    requires IsSpace(c)
    ensures WordsFrom(a + [c] + b, inWord) == WordsFrom(a, inWord) + WordsFrom(b, false)
    decreases |a|
  {
    if a == [] {
      assert a + [c] + b == [c] + b;
      assert ([c] + b)[1..] == b;
    } else {
      assert (a + [c] + b)[0] == a[0];
      assert (a + [c] + b)[1..] == a[1..] + [c] + b;
      WordsFromJoin(a[1..], !IsSpace(a[0]), c, b);
    }
  }
}
