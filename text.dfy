/**
 * The string primitives the ledger relies on, written out with JavaScript's meaning:
 * `trim`, ASCII `toLowerCase`/`toUpperCase`, `startsWith`, `includes`, `indexOf`,
 * `split('\n')`, and the line terminators that a regular-expression `.` refuses to match.
 */
module Text {

  /** The characters a regular-expression `.` does not match. */
  predicate IsLineTerminator(c: char) {
    c == '\n' || c == '\r' || c == '\U{2028}' || c == '\U{2029}'
  }

  /** JavaScript's WhiteSpace and LineTerminator code points: what `trim` removes. */
  predicate IsWhitespace(c: char) {
    IsLineTerminator(c) || c == '\t' || c == '\U{000B}' || c == '\U{000C}' || c == ' '
    || c == '\U{00A0}' || c == '\U{1680}' || ('\U{2000}' <= c <= '\U{200A}')
    || c == '\U{202F}' || c == '\U{205F}' || c == '\U{3000}' || c == '\U{FEFF}'
  }

  predicate NoLineTerminator(s: string) {
    forall i :: 0 <= i < |s| ==> !IsLineTerminator(s[i])
  }

  function TrimStart(s: string): (r: string)
    ensures |r| <= |s| && r == s[|s| - |r|..]
    ensures r == [] || !IsWhitespace(r[0])
    ensures forall i :: 0 <= i < |s| - |r| ==> IsWhitespace(s[i])
  {
    if |s| > 0 && IsWhitespace(s[0]) then TrimStart(s[1..]) else s
  }

  function TrimEnd(s: string): (r: string)
    ensures |r| <= |s| && r == s[..|r|]
    ensures r == [] || !IsWhitespace(r[|r| - 1])
    ensures forall i :: |r| <= i < |s| ==> IsWhitespace(s[i])
  {
    if |s| > 0 && IsWhitespace(s[|s| - 1]) then TrimEnd(s[..|s| - 1]) else s
  }

  /** `s.trim()`: the longest slice of `s` that neither starts nor ends with whitespace. */
  function Trim(s: string): string {
    TrimEnd(TrimStart(s))
  }

  predicate IsTrimmed(s: string) {
    s == [] || (!IsWhitespace(s[0]) && !IsWhitespace(s[|s| - 1]))
  }

  /** Trimming keeps a contiguous slice of the input, strips only whitespace and leaves
      nothing to strip. */
  lemma TrimSlice(s: string)
    ensures exists i, j :: 0 <= i <= j <= |s| && Trim(s) == s[i..j]
    ensures IsTrimmed(Trim(s))
    ensures |Trim(s)| <= |s|
  {
    var t := TrimStart(s);
    var r := TrimEnd(t);
    var i, n := |s| - |t|, |r|;
    assert t == s[i..] && r == t[..n];
    assert r == s[i..i + n];
    if r != [] {
      assert r[0] == t[0] && !IsWhitespace(t[0]);
      assert !IsWhitespace(r[n - 1]);
    }
  }

  /** A string that is already trimmed is its own trim: `trim` is idempotent. */
  lemma TrimOfTrimmed(s: string)
    requires IsTrimmed(s)
    ensures Trim(s) == s
  {
  }

  lemma TrimIdempotent(s: string)
    ensures Trim(Trim(s)) == Trim(s)
  {
    TrimSlice(s);
    TrimOfTrimmed(Trim(s));
  }

  /** No line terminator survives trimming that was not already inside the input. */
  lemma TrimKeepsNoLineTerminator(s: string)
    requires NoLineTerminator(s)
    ensures NoLineTerminator(Trim(s))
  {
    TrimSlice(s);
    var i, j :| 0 <= i <= j <= |s| && Trim(s) == s[i..j];
    SliceKeepsNoLineTerminator(s, i, j);
  }

  lemma SliceKeepsNoLineTerminator(s: string, i: int, j: int)
    requires NoLineTerminator(s) && 0 <= i <= j <= |s|
    ensures NoLineTerminator(s[i..j])
  {
    forall k | 0 <= k < j - i ensures !IsLineTerminator(s[i..j][k]) {
      assert s[i..j][k] == s[i + k];
    }
  }

  function LowerChar(c: char): char {
    if 'A' <= c <= 'Z' then (c as int + 32) as char else c
  }

  function UpperChar(c: char): char {
    if 'a' <= c <= 'z' then (c as int - 32) as char else c
  }

  /** `toLowerCase`, restricted to the ASCII letters. */
  function Lower(s: string): (r: string)
    ensures |r| == |s|
  {
    seq(|s|, i requires 0 <= i < |s| => LowerChar(s[i]))
  }

  /** `toUpperCase`, restricted to the ASCII letters. */
  function Upper(s: string): (r: string)
    ensures |r| == |s|
  {
    seq(|s|, i requires 0 <= i < |s| => UpperChar(s[i]))
  }

  /** `s.startsWith(p)`. */
  predicate HasPrefix(s: string, p: string) {
    |p| <= |s| && s[..|p|] == p
  }

  /** `p` occurs in `s` starting at index `i`. */
  predicate OccursAt(s: string, p: string, i: int) {
    0 <= i && i + |p| <= |s| && s[i..i + |p|] == p
  }

  /** `s.includes(p)`. */
  predicate Contains(s: string, p: string) {
    exists i | 0 <= i <= |s| :: OccursAt(s, p, i)
  }

  /** The greatest index below `n` at which `p` occurs in `s`, or -1. */
  function LastOccurrenceBelow(s: string, p: string, n: nat): (r: int)
    ensures -1 <= r < n
    ensures r >= 0 ==> OccursAt(s, p, r)
    ensures forall i :: r < i < n ==> !OccursAt(s, p, i)
  {
    if n == 0 then -1
    else if OccursAt(s, p, n - 1) then n - 1
    else LastOccurrenceBelow(s, p, n - 1)
  }

  /** The least index at or after `from` at which `p` occurs in `s`, or -1. */
  function FirstOccurrenceFrom(s: string, p: string, from: nat): (r: int)
    ensures r == -1 || (from <= r && OccursAt(s, p, r))
    ensures forall i :: from <= i && (r == -1 || i < r) ==> !OccursAt(s, p, i)
    decreases |s| + 1 - from
  {
    if from > |s| then -1
    else if OccursAt(s, p, from) then from
    else FirstOccurrenceFrom(s, p, from + 1)
  }

  /** `s.indexOf(c)` for one character. */
  function IndexOfChar(s: string, c: char): (r: int)
    ensures -1 <= r < |s|
    ensures r >= 0 ==> s[r] == c
    ensures forall i :: 0 <= i < |s| && (r == -1 || i < r) ==> s[i] != c
  {
    if s == [] then -1
    else if s[0] == c then 0
    else var k := IndexOfChar(s[1..], c); if k == -1 then -1 else k + 1
  }

  /** The index of the first line terminator of `s`, or `|s|`: where the first line ends. */
  function LineEnd(s: string): (n: nat)
    ensures n <= |s|
    ensures n < |s| ==> IsLineTerminator(s[n])
    ensures NoLineTerminator(s[..n])
  {
    if s == [] || IsLineTerminator(s[0]) then 0
    else
      var k := LineEnd(s[1..]);
      assert s[..k + 1] == [s[0]] + s[1..][..k];
      k + 1
  }

  /** `s.split('\n')`. */
  function SplitLines(s: string): (r: seq<string>)
    ensures |r| >= 1
    decreases |s|
  {
    var k := IndexOfChar(s, '\n');
    if k == -1 then [s] else [s[..k]] + SplitLines(s[k + 1..])
  }

  /** `lines.join('\n')`. */
  function JoinLines(lines: seq<string>): string
    requires |lines| >= 1
  {
    if |lines| == 1 then lines[0] else lines[0] + "\n" + JoinLines(lines[1..])
  }

  /** Splitting at the newlines loses nothing: joining the pieces gives the text back. */
  lemma {:induction false} SplitJoin(s: string)
    ensures JoinLines(SplitLines(s)) == s
    decreases |s|
  {
    var k := IndexOfChar(s, '\n');
    if k != -1 {
      SplitJoin(s[k + 1..]);
      SplitJoinAt(s, k);
    }
  }

  /** One step of `SplitJoin`: the first line, a newline, and the rest joined back. */
  lemma SplitJoinAt(s: string, k: int)
    requires k == IndexOfChar(s, '\n') && k != -1
    requires JoinLines(SplitLines(s[k + 1..])) == s[k + 1..]
    ensures JoinLines(SplitLines(s)) == s
  {
    var head, tail := s[..k], s[k + 1..];
    var rest := SplitLines(tail);
    SplitUnfold(s, k);
    JoinCons(head, rest);
    assert JoinLines(SplitLines(s)) == head + "\n" + tail;
    CutAt(s, k);
  }

  lemma SplitUnfold(s: string, k: int)
    requires k == IndexOfChar(s, '\n') && k != -1
    ensures SplitLines(s) == [s[..k]] + SplitLines(s[k + 1..])
  {
  }

  lemma JoinCons(head: string, rest: seq<string>)
    requires |rest| >= 1
    ensures JoinLines([head] + rest) == head + "\n" + JoinLines(rest)
  {
    assert ([head] + rest)[1..] == rest;
  }

  lemma CutAt(s: string, k: nat)
    requires k < |s| && s[k] == '\n'
    ensures s == s[..k] + "\n" + s[k + 1..]
  {
    assert s[k..] == [s[k]] + s[k + 1..];
    assert s == s[..k] + s[k..];
  }

  /** An occurrence inside the right part of a concatenation is an occurrence in that part. */
  lemma OccursInRight(a: string, b: string, p: string, i: int)
    requires OccursAt(a + b, p, i) && i >= |a|
    ensures OccursAt(b, p, i - |a|)
  {
    assert (a + b)[i..i + |p|] == b[i - |a|..i - |a| + |p|];
  }

  /** An occurrence inside the left part of a concatenation is an occurrence in that part. */
  lemma OccursInLeft(a: string, b: string, p: string, i: int)
    requires OccursAt(a, p, i)
    ensures OccursAt(a + b, p, i)
  {
    assert (a + b)[i..i + |p|] == a[i..i + |p|];
  }

  /** Occurrences survive putting text in front. */
  lemma OccursShift(a: string, b: string, p: string, i: int)
    requires OccursAt(b, p, i)
    ensures OccursAt(a + b, p, i + |a|)
  {
    assert (a + b)[i + |a|..i + |a| + |p|] == b[i..i + |p|];
  }
}
