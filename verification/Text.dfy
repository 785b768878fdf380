/**
  Python's text operations as the chunker uses them: whitespace, `strip`, runs of
  non-blank characters ("words"), `find` and `rfind`.
*/
module Text {
  /** The whitespace of `str.isspace` and of the pattern `\s` below U+0100, and the common wider ones. */
  predicate IsSpace(c: char) {
    '\t' <= c <= '\r' || '\U{1c}' <= c <= ' ' || c == '\U{85}' || c == '\U{a0}' || c == '\U{1680}'
    || '\U{2000}' <= c <= '\U{200a}' || c == '\U{2028}' || c == '\U{2029}' || c == '\U{202f}'
    || c == '\U{205f}' || c == '\U{3000}'
  }

  predicate Blank(s: string) {
    forall i :: 0 <= i < |s| ==> IsSpace(s[i])
  }

  /** How many blank characters a text begins with. */
  function LeadingBlanks(s: string): (n: nat)
    ensures n <= |s| && Blank(s[..n])
    ensures n < |s| ==> !IsSpace(s[n])
  {
    if s == "" || !IsSpace(s[0]) then 0
    else
      var n := LeadingBlanks(s[1..]);
      assert forall i :: 0 < i < n + 1 ==> s[i] == s[1..][..n][i - 1];
      1 + n
  }

  /** Where the blank tail of a text begins. */
  function BlankTail(s: string): (n: nat)
    ensures n <= |s| && Blank(s[n..])
    ensures n > 0 ==> !IsSpace(s[n - 1])
  {
    if s == "" || !IsSpace(s[|s| - 1]) then |s|
    else
      var n := BlankTail(s[..|s| - 1]);
      assert forall i :: n <= i < |s| - 1 ==> s[i] == s[..|s| - 1][n..][i - n];
      n
  }

  function LStrip(s: string): string {
    s[LeadingBlanks(s)..]
  }

  function RStrip(s: string): string {
    s[..BlankTail(s)]
  }

  function Strip(s: string): string {
    if Blank(s) then "" else StripOrder(s); s[LeadingBlanks(s)..BlankTail(s)]
  }

  lemma StripOrder(s: string)
    requires !Blank(s)
    ensures LeadingBlanks(s) < BlankTail(s)
  {
    var i :| 0 <= i < |s| && !IsSpace(s[i]);
    assert i >= LeadingBlanks(s) by {
      assert forall k :: 0 <= k < LeadingBlanks(s) ==> s[..LeadingBlanks(s)][k] == s[k];
    }
    assert i < BlankTail(s) by {
      assert forall k :: BlankTail(s) <= k < |s| ==> s[BlankTail(s)..][k - BlankTail(s)] == s[k];
    }
  }

  /** Stripping loses only blanks at the two ends. */
  lemma StripKeeps(s: string, p: nat)
    requires p < |s| && !IsSpace(s[p])
    ensures !Blank(s) && LeadingBlanks(s) <= p < BlankTail(s)
  {
    assert forall k :: 0 <= k < LeadingBlanks(s) ==> s[..LeadingBlanks(s)][k] == s[k];
    assert forall k :: BlankTail(s) <= k < |s| ==> s[BlankTail(s)..][k - BlankTail(s)] == s[k];
  }

  lemma StrippedFromStart(s: string)
    requires s != "" && !IsSpace(s[0])
    ensures !Blank(s) && Strip(s) == s[..BlankTail(s)] == RStrip(s) && BlankTail(s) > 0
  {
    StripKeeps(s, 0);
  }

  /** A stripped text begins and ends with a character that shows, and stripping it again changes nothing. */
  lemma StripEnds(s: string)
    requires !Blank(s)
    ensures Strip(s) != "" && !IsSpace(Strip(s)[0]) && !IsSpace(Strip(s)[|Strip(s)| - 1])
    ensures RStrip(Strip(s)) == Strip(s)
  {
    StripOrder(s);
    var t := Strip(s);
    assert t[0] == s[LeadingBlanks(s)] && t[|t| - 1] == s[BlankTail(s) - 1];
  }

  lemma StripBlank(s: string)
    requires Strip(s) != ""
    ensures !Blank(s)
  {
  }

  // ------------------------------------------------------------------------ words

  predicate WordStart(s: string, i: nat)
    requires i < |s|
  {
    !IsSpace(s[i]) && (i == 0 || IsSpace(s[i - 1]))
  }

  /** The number of words: maximal runs of characters that are not blank. */
  function WordsIn(s: string): nat {
    if s == "" then 0
    else WordsIn(s[..|s| - 1]) + if WordStart(s, |s| - 1) then 1 else 0
  }

  lemma {:induction false} WordsOfPrefix(s: string, i: nat)
    requires i <= |s|
    ensures WordsIn(s[..i]) <= WordsIn(s)
    decreases |s| - i
  {
    if i == |s| {
      assert s[..i] == s;
    } else {
      assert s[..i + 1][..i] == s[..i];
      WordsOfPrefix(s, i + 1);
    }
  }

  /** Where the k-th word ends. */
  ghost predicate EndsWord(s: string, k: nat, end: nat) {
    && 0 < end <= |s| && WordsIn(s[..end]) == k
    && !IsSpace(s[end - 1]) && (end == |s| || IsSpace(s[end]))
  }

  method WordEnd(s: string, k: nat) returns (end: nat)
    requires 0 < k <= WordsIn(s)
    ensures EndsWord(s, k, end)
  {
    end := 0;
    var seen := 0;
    while end < |s| && (seen < k || !IsSpace(s[end]))
      invariant end <= |s| && seen == WordsIn(s[..end]) <= k
      invariant seen == k ==> end > 0 && !IsSpace(s[end - 1])
    {
      assert s[..end + 1][..end] == s[..end];
      if WordStart(s, end) {
        seen := seen + 1;
      }
      end := end + 1;
    }
    assert end == |s| ==> s[..end] == s;
  }

  // ---------------------------------------------------------------------- searching

  predicate At(s: string, sub: string, i: int) {
    0 <= i <= |s| - |sub| && s[i..i + |sub|] == sub
  }

  /** `s.find(sub)`: the first place, or -1. */
  function Find(s: string, sub: string): (r: int)
    ensures r == -1 || At(s, sub, r)
    ensures forall i :: 0 <= i < (if r == -1 then |s| + 1 else r) ==> !At(s, sub, i)
  {
    FindFrom(s, sub, 0)
  }

  function FindFrom(s: string, sub: string, from: nat): (r: int)
    requires from <= |s| + 1
    ensures r == -1 || (r >= from && At(s, sub, r))
    ensures forall i :: from <= i < (if r == -1 then |s| + 1 else r) ==> !At(s, sub, i)
    decreases |s| + 1 - from
  {
    if from > |s| then -1 else if At(s, sub, from) then from else FindFrom(s, sub, from + 1)
  }

  /** `s.rfind(sub)`: the last place, or -1. */
  function RFind(s: string, sub: string): (r: int)
    ensures r == -1 || At(s, sub, r)
    ensures forall i :: r < i <= |s| && 0 <= i ==> !At(s, sub, i)
  {
    RFindTo(s, sub, |s|)
  }

  function RFindTo(s: string, sub: string, hi: nat): (r: int)
    requires hi <= |s|
    ensures r <= hi && (r == -1 || At(s, sub, r))
    ensures forall i :: r < i <= hi && 0 <= i ==> !At(s, sub, i)
  {
    if At(s, sub, hi) then hi else if hi == 0 then -1 else RFindTo(s, sub, hi - 1)
  }

  predicate EndsWith(s: string, sub: string) {
    |sub| <= |s| && s[|s| - |sub|..] == sub
  }

  /** The last occurrence of a suffix is the suffix. */
  lemma RFindSuffix(s: string, sub: string)
    requires sub != "" && EndsWith(s, sub)
    ensures RFind(s, sub) == |s| - |sub|
  {
    assert At(s, sub, |s| - |sub|);
  }

  lemma FindPrefix(s: string, n: nat)
    requires n <= |s|
    ensures Find(s, s[..n]) == 0
  {
    assert At(s, s[..n], 0);
  }

  /** `s.rfind("\n", from, hi)`. */
  function LastNewline(s: string, from: nat, hi: int): (r: int)
    requires hi <= |s|
    ensures r == -1 || (from <= r < hi && s[r] == '\n')
    ensures forall i :: from <= i < hi && i > r ==> s[i] != '\n'
    decreases hi
  {
    if hi <= from then -1 else if s[hi - 1] == '\n' then hi - 1 else LastNewline(s, from, hi - 1)
  }
}
