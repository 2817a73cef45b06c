/**
 * The two detail-text formats of the daily log and the regular expressions that read them
 * back when a credit entry is mirrored into the creditor ledger:
 *   `<name> - Desc: <desc>`                       read by  /(.*) - Desc: (.*)/
 *   `From: <name> (<Cash|Online>) - Desc: <desc>` read by  /From: (.*) \((Cash|Online)\) - Desc: (.*)/
 * A match never crosses a line terminator (a `.` refuses them), the search is unanchored and
 * the groups are greedy, so each pattern is decided line by line, in order.
 */
module DetailCodec {
  import opened Wrappers
  import opened Text
  import opened Records

  const DescSep: string := " - Desc: "
  const FromTag: string := "From: "

  const CashMarker: string := " (Cash) - Desc: "
  const OnlineMarker: string := " (Online) - Desc: "

  /** The text between the customer name and the description in the Udhari payment format. */
  function MarkerOf(m: PayMethod): string {
    match m
    case ByCash => CashMarker
    case ByOnline => OnlineMarker
  }

  /** `<name> - Desc: <desc>`. */
  function FormatDesc(name: string, desc: string): string {
    name + DescSep + desc
  }

  /** `From: <name> (<method>) - Desc: <desc>`. */
  function FormatFrom(name: string, m: PayMethod, desc: string): string {
    FromTag + name + MarkerOf(m) + desc
  }

  /** `/(.*) - Desc: (.*)/` on one line: greedy, so the split is at the last separator. */
  function DescMatchInLine(line: string): Option<(string, string)> {
    var k := LastOccurrenceBelow(line, DescSep, |line| + 1);
    if k < 0 then None else Some((line[..k], line[k + |DescSep|..]))
  }

  /** `details.match(/(.*) - Desc: (.*)/)`: the groups of the first line that matches. */
  function MatchDesc(s: string): Option<(string, string)>
    decreases |s|
  {
    var n := LineEnd(s);
    match DescMatchInLine(s[..n])
    case Some(g) => Some(g)
    case None => if n == |s| then None else MatchDesc(s[n + 1..])
  }

  /** The `From:` pattern on one line: the match starts at the first `From: `, and the greedy
      name group runs to the last method marker after it. */
  function FromMatchInLine(line: string): Option<(string, PayMethod, string)> {
    FromGroups(line, FirstOccurrenceFrom(line, FromTag, 0),
               LastOccurrenceBelow(line, MarkerOf(ByCash), |line| + 1),
               LastOccurrenceBelow(line, MarkerOf(ByOnline), |line| + 1))
  }

  /** The groups, given where `From: ` first occurs (`p`) and where each marker last occurs
      (`c` for cash, `o` for online); -1 stands for no occurrence. */
  function FromGroups(line: string, p: int, c: int, o: int): Option<(string, PayMethod, string)>
    requires -1 <= p <= |line| && -1 <= c <= |line| && -1 <= o <= |line|
    requires c >= 0 ==> c + |MarkerOf(ByCash)| <= |line|
    requires o >= 0 ==> o + |MarkerOf(ByOnline)| <= |line|
  {
    var m := if c >= o then c else o;
    if p < 0 || m < p + |FromTag| then None
    else
      var meth := if c >= o then ByCash else ByOnline;
      Some((line[p + |FromTag|..m], meth, line[m + |MarkerOf(meth)|..]))
  }

  /** `details.match(/From: (.*) \((Cash|Online)\) - Desc: (.*)/)`. */
  function MatchFrom(s: string): Option<(string, PayMethod, string)>
    decreases |s|
  {
    var n := LineEnd(s);
    match FromMatchInLine(s[..n])
    case Some(g) => Some(g)
    case None => if n == |s| then None else MatchFrom(s[n + 1..])
  }

  lemma LineEndOfSingleLine(s: string)
    requires NoLineTerminator(s)
    ensures LineEnd(s) == |s|
  {
  }

  lemma NoLineTerminatorConcat(a: string, b: string)
    requires NoLineTerminator(a) && NoLineTerminator(b)
    ensures NoLineTerminator(a + b)
  {
    forall i | 0 <= i < |a + b| ensures !IsLineTerminator((a + b)[i]) {
      if i >= |a| { assert (a + b)[i] == b[i - |a|]; }
    }
  }

  lemma OccursChars(s: string, p: string, i: int)
    requires OccursAt(s, p, i)
    ensures forall k :: i <= k < i + |p| ==> s[k] == p[k - i]
  {
    forall k | i <= k < i + |p| ensures s[k] == p[k - i] {
      assert s[i..i + |p|][k - i] == s[k];
    }
  }

  /** A pattern without line terminators that occurs in a text occurs in its first line or
      after the first line terminator. */
  lemma OccursBesideTerminator(s: string, p: string, n: nat, i: int)
    requires n < |s| && IsLineTerminator(s[n]) && NoLineTerminator(p)
    requires OccursAt(s, p, i)
    ensures OccursAt(s[..n], p, i) || OccursAt(s[n + 1..], p, i - n - 1)
  {
    OccursChars(s, p, i);
    if i > n {
      assert s[i..i + |p|] == s[n + 1..][i - n - 1..i - n - 1 + |p|];
    } else if i + |p| <= n {
      assert s[..n][i..i + |p|] == s[i..i + |p|];
    }
  }

  /** When the first line of `s` does not hold `p`, and `p` holds no line terminator, `s`
      holds `p` exactly when the text after the first line terminator does. */
  lemma ContainsPastFirstLine(s: string, p: string, n: nat)
    requires n < |s| && IsLineTerminator(s[n]) && NoLineTerminator(p)
    requires !Contains(s[..n], p)
    ensures Contains(s, p) <==> Contains(s[n + 1..], p)
  {
    if Contains(s, p) {
      var i :| 0 <= i <= |s| && OccursAt(s, p, i);
      OccursBesideTerminator(s, p, n, i);
      assert 0 <= i - n - 1 <= |s[n + 1..]|;
    }
    if Contains(s[n + 1..], p) {
      var i :| 0 <= i <= |s[n + 1..]| && OccursAt(s[n + 1..], p, i);
      assert s == s[..n + 1] + s[n + 1..];
      OccursShift(s[..n + 1], s[n + 1..], p, i);
    }
  }

  /** Reading `<name> - Desc: <desc>` fails exactly when the text holds no separator at all. */
  lemma {:induction false} MatchDescNoneIff(s: string)
    ensures MatchDesc(s).None? <==> !Contains(s, DescSep)
    decreases |s|
  {
    var n := LineEnd(s);
    var k := LastOccurrenceBelow(s[..n], DescSep, n + 1);
    if k >= 0 {
      assert s == s[..n] + s[n..];
      OccursInLeft(s[..n], s[n..], DescSep, k);
    } else if n == |s| {
      assert s[..n] == s;
    } else {
      DescSepShape();
      MatchDescNoneIff(s[n + 1..]);
      ContainsPastFirstLine(s, DescSep, n);
    }
  }

  /** On one line, a match splits the line into name, separator and description, and the
      description holds no later separator. */
  lemma DescLineFound(line: string)
    requires NoLineTerminator(line) && DescMatchInLine(line).Some?
    ensures var (name, desc) := DescMatchInLine(line).value;
      NoLineTerminator(name) && NoLineTerminator(desc) && !Contains(desc, DescSep)
      && line == FormatDesc(name, desc)
  {
    var k := LastOccurrenceBelow(line, DescSep, |line| + 1);
    var name, desc := line[..k], line[k + |DescSep|..];
    assert line == name + DescSep + desc by {
      assert line == line[..k] + line[k..k + |DescSep|] + line[k + |DescSep|..];
    }
    forall i | 0 <= i < |name| ensures !IsLineTerminator(name[i]) { assert name[i] == line[i]; }
    forall i | 0 <= i < |desc| ensures !IsLineTerminator(desc[i]) { assert desc[i] == line[k + |DescSep| + i]; }
    if Contains(desc, DescSep) {
      var j :| 0 <= j <= |desc| && OccursAt(desc, DescSep, j);
      OccursShift(name + DescSep, desc, DescSep, j);
    }
  }

  /** When `<name> - Desc: <desc>` is read, the two groups hold no line terminator, the
      description holds no separator, and the re-encoded text is part of the input. */
  lemma {:induction false} MatchDescFound(s: string)
    requires MatchDesc(s).Some?
    ensures var (name, desc) := MatchDesc(s).value;
      NoLineTerminator(name) && NoLineTerminator(desc) && !Contains(desc, DescSep)
      && Contains(s, FormatDesc(name, desc))
    decreases |s|
  {
    var n := LineEnd(s);
    var line := s[..n];
    if DescMatchInLine(line).Some? {
      DescLineFound(line);
      var (name, desc) := DescMatchInLine(line).value;
      assert line[0..|line|] == line;
      OccursInLeft(line, s[n..], FormatDesc(name, desc), 0);
      assert s == line + s[n..];
    } else {
      var rest := s[n + 1..];
      MatchDescFound(rest);
      var (name, desc) := MatchDesc(rest).value;
      var j :| 0 <= j <= |rest| && OccursAt(rest, FormatDesc(name, desc), j);
      assert s == s[..n + 1] + rest;
      OccursShift(s[..n + 1], rest, FormatDesc(name, desc), j);
    }
  }

  /** No occurrence of `p` begins strictly inside `mk` (before its last character) when the
      first two characters of `p` appear in `mk` only at its start. */
  lemma NoStraddle(a: string, mk: string, post: string, p: string)
    requires 2 <= |p| && 2 <= |mk|
    requires forall j :: 1 <= j < |mk| - 1 ==> mk[j] != p[0] || mk[j + 1] != p[1]
    ensures forall i :: |a| < i < |a| + |mk| - 1 ==> !OccursAt(a + mk + post, p, i)
  {
    var s := a + mk + post;
    forall i | |a| < i < |a| + |mk| - 1 ensures !OccursAt(s, p, i) {
      assert s[i] == mk[i - |a|] && s[i + 1] == mk[i - |a| + 1];
    }
  }

  /** No occurrence of `p` in `a + mk + post` lies past the start of `mk` when `mk` ends with
      a space that `p` cannot start a match with, in front of `post`. */
  lemma NoLaterOccurrence(a: string, mk: string, post: string, p: string)
    requires 2 <= |p| && 2 <= |mk| && mk[|mk| - 1] == ' '
    requires forall j :: 1 <= j < |mk| - 1 ==> mk[j] != p[0] || mk[j + 1] != p[1]
    requires !Contains(" " + post, p)
    ensures forall i :: |a| < i ==> !OccursAt(a + mk + post, p, i)
  {
    var s := a + mk + post;
    NoStraddle(a, mk, post, p);
    var left := a + mk[..|mk| - 1];
    assert s == left + (" " + post) by {
      assert mk == mk[..|mk| - 1] + " ";
    }
    forall i | |a| + |mk| - 1 <= i ensures !OccursAt(s, p, i) {
      if OccursAt(s, p, i) {
        OccursInRight(left, " " + post, p, i);
      }
    }
  }

  lemma DescSepShape()
    ensures forall j :: 1 <= j < |DescSep| - 1 ==> DescSep[j] != DescSep[0] || DescSep[j + 1] != DescSep[1]
    ensures NoLineTerminator(DescSep)
  {
  }

  /** Reading back `<name> - Desc: <desc>` recovers both parts whenever neither holds a line
      terminator and the description cannot complete a later separator. */
  lemma DescRoundTrip(name: string, desc: string)
    requires NoLineTerminator(name) && NoLineTerminator(desc)
    requires !Contains(" " + desc, DescSep)
    ensures MatchDesc(FormatDesc(name, desc)) == Some((name, desc))
  {
    var s := FormatDesc(name, desc);
    DescSepShape();
    NoLineTerminatorConcat(name, DescSep);
    NoLineTerminatorConcat(name + DescSep, desc);
    LineEndOfSingleLine(s);
    assert s[..|s|] == s;
    NoLaterOccurrence(name, DescSep, desc, DescSep);
    assert OccursAt(s, DescSep, |name|);
    var k := LastOccurrenceBelow(s, DescSep, |s| + 1);
    assert k == |name|;
    assert s[..k] == name;
    assert s[k + |DescSep|..] == desc;
  }

  lemma MarkerShape()
    ensures |CashMarker| >= 2 && CashMarker[|CashMarker| - 1] == ' ' && NoLineTerminator(CashMarker)
    ensures |OnlineMarker| >= 2 && OnlineMarker[|OnlineMarker| - 1] == ' ' && NoLineTerminator(OnlineMarker)
    ensures forall j :: 1 <= j < |CashMarker| - 1 ==> CashMarker[j] != ' ' || CashMarker[j + 1] != '('
    ensures forall j :: 1 <= j < |OnlineMarker| - 1 ==> OnlineMarker[j] != ' ' || OnlineMarker[j + 1] != '('
    ensures CashMarker[..2] == OnlineMarker[..2] == " ("
    ensures CashMarker[2] == 'C' && OnlineMarker[2] == 'O'
    ensures NoLineTerminator(FromTag)
  {
  }

  /** In a text that has a marker at `|a|`, the other method's marker does not start there. */
  lemma OtherMarkerNotAt(a: string, m: PayMethod, post: string, q: PayMethod)
    requires m != q
    ensures !OccursAt(a + MarkerOf(m) + post, MarkerOf(q), |a|)
  {
    var s := a + MarkerOf(m) + post;
    MarkerShape();
    assert s[|a| + 2] == MarkerOf(m)[2];
  }

  /** After `a`, the marker of `m` occurs only where it was put, and the other marker not
      at all, when the description cannot complete a marker. */
  lemma LastMarkers(a: string, m: PayMethod, desc: string, q: PayMethod)
    requires m != q
    requires !Contains(" " + desc, CashMarker) && !Contains(" " + desc, OnlineMarker)
    ensures var s := a + MarkerOf(m) + desc;
      LastOccurrenceBelow(s, MarkerOf(m), |s| + 1) == |a| && LastOccurrenceBelow(s, MarkerOf(q), |s| + 1) < |a|
  {
    var s := a + MarkerOf(m) + desc;
    var mk, mq := MarkerOf(m), MarkerOf(q);
    MarkerFacts(m);
    MarkerFacts(q);
    assert !Contains(" " + desc, mk) && !Contains(" " + desc, mq) by {
      if m == ByCash { assert mk == CashMarker && mq == OnlineMarker; }
      else { assert mk == OnlineMarker && mq == CashMarker; }
    }
    NoLaterOccurrence(a, mk, desc, mk);
    NoLaterOccurrence(a, mk, desc, mq);
    OtherMarkerNotAt(a, m, desc, q);
    assert s[|a|..|a| + |mk|] == mk;
    LastOccurrenceIs(s, mk, |a|);
    NoOccurrenceFrom(s, mq, |a|);
  }

  /** What `MarkerShape` says, for the marker of either method. */
  lemma MarkerFacts(m: PayMethod)
    ensures var mk := MarkerOf(m);
      |mk| >= 2 && mk[0] == ' ' && mk[1] == '(' && mk[|mk| - 1] == ' '
      && forall j :: 1 <= j < |mk| - 1 ==> mk[j] != ' ' || mk[j + 1] != '('
  {
    MarkerShape();
    var mk := MarkerOf(m);
    assert mk == CashMarker || mk == OnlineMarker;
    assert mk[..2] == " (";
  }

  /** An occurrence with none after it is the last one. */
  lemma LastOccurrenceIs(s: string, p: string, k: int)
    requires OccursAt(s, p, k)
    requires forall i :: k < i ==> !OccursAt(s, p, i)
    ensures LastOccurrenceBelow(s, p, |s| + 1) == k
  {
  }

  /** With no occurrence at or after `k`, the last one is before `k`. */
  lemma NoOccurrenceFrom(s: string, p: string, k: nat)
    requires forall i :: k <= i ==> !OccursAt(s, p, i)
    ensures LastOccurrenceBelow(s, p, |s| + 1) < k
  {
  }

  /** The `From:` pattern, on one line, reads back what the Udhari form wrote. */
  lemma FromLineRoundTrip(name: string, m: PayMethod, desc: string)
    requires !Contains(" " + desc, CashMarker) && !Contains(" " + desc, OnlineMarker)
    ensures FromMatchInLine(FormatFrom(name, m, desc)) == Some((name, m, desc))
  {
    var a := FromTag + name;
    var s := a + MarkerOf(m) + desc;
    FourParts(FromTag, name, MarkerOf(m), desc);
    LastMarkers(a, m, desc, if m == ByCash then ByOnline else ByCash);
    FromMatchAt(s, |a|, m);
  }

  /** The parts of `w + x + y + z` can be cut back out of it. */
  lemma FourParts(w: string, x: string, y: string, z: string)
    ensures var s := w + x + y + z;
      OccursAt(s, w, 0) && s[|w|..|w| + |x|] == x && s[|w| + |x| + |y|..] == z
  {
    var s := w + x + y + z;
    assert s[..|w|] == w;
  }

  /** The `From:` pattern on a line that starts with `From: ` and whose last marker, of
      method `m`, is at `k`: the groups are what lies between. */
  lemma FromMatchAt(line: string, k: int, m: PayMethod)
    requires OccursAt(line, FromTag, 0) && k >= |FromTag|
    requires LastOccurrenceBelow(line, MarkerOf(m), |line| + 1) == k
    requires LastOccurrenceBelow(line, MarkerOf(if m == ByCash then ByOnline else ByCash), |line| + 1) < k
    ensures FromMatchInLine(line) == Some((line[|FromTag|..k], m, line[k + |MarkerOf(m)|..]))
  {
    assert FirstOccurrenceFrom(line, FromTag, 0) == 0;
    var c := LastOccurrenceBelow(line, MarkerOf(ByCash), |line| + 1);
    var o := LastOccurrenceBelow(line, MarkerOf(ByOnline), |line| + 1);
    FromGroupsAt(line, c, o, k, m);
  }

  lemma FromGroupsAt(line: string, c: int, o: int, k: int, m: PayMethod)
    requires -1 <= c <= |line| && -1 <= o <= |line| && |FromTag| <= k
    requires c >= 0 ==> c + |MarkerOf(ByCash)| <= |line|
    requires o >= 0 ==> o + |MarkerOf(ByOnline)| <= |line|
    requires m == ByCash ==> c == k && o < k
    requires m == ByOnline ==> o == k && c < k
    ensures FromGroups(line, 0, c, o) == Some((line[|FromTag|..k], m, line[k + |MarkerOf(m)|..]))
  {
  }

  /** Reading back `From: <name> (<method>) - Desc: <desc>` recovers the name, the method and
      the description whenever neither text holds a line terminator and the description
      cannot complete a later method marker. */
  lemma FromRoundTrip(name: string, m: PayMethod, desc: string)
    requires NoLineTerminator(name) && NoLineTerminator(desc)
    requires !Contains(" " + desc, CashMarker) && !Contains(" " + desc, OnlineMarker)
    ensures MatchFrom(FormatFrom(name, m, desc)) == Some((name, m, desc))
  {
    var s := FormatFrom(name, m, desc);
    MarkerShape();
    NoLineTerminatorConcat(FromTag, name);
    NoLineTerminatorConcat(FromTag + name, MarkerOf(m));
    NoLineTerminatorConcat(FromTag + name + MarkerOf(m), desc);
    LineEndOfSingleLine(s);
    assert s[..|s|] == s;
    FromLineRoundTrip(name, m, desc);
  }

  /** A text without either method marker never reads as an Udhari payment. */
  lemma {:induction false} MatchFromNeedsMarker(s: string)
    requires !Contains(s, MarkerOf(ByCash)) && !Contains(s, MarkerOf(ByOnline))
    ensures MatchFrom(s) == None
    decreases |s|
  {
    var n := LineEnd(s);
    assert s == s[..n] + s[n..];
    NotContainsParts(s[..n], s[n..], MarkerOf(ByCash));
    NotContainsParts(s[..n], s[n..], MarkerOf(ByOnline));
    FromLineNeedsMarker(s[..n]);
    if n < |s| {
      var rest := s[n + 1..];
      assert s == s[..n + 1] + rest;
      NotContainsParts(s[..n + 1], rest, MarkerOf(ByCash));
      NotContainsParts(s[..n + 1], rest, MarkerOf(ByOnline));
      MatchFromNeedsMarker(rest);
    }
  }

  /** On one line, the `From:` pattern needs one of the two method markers. */
  lemma FromLineNeedsMarker(line: string)
    requires !Contains(line, MarkerOf(ByCash)) && !Contains(line, MarkerOf(ByOnline))
    ensures FromMatchInLine(line) == None
  {
    var c := LastOccurrenceBelow(line, MarkerOf(ByCash), |line| + 1);
    var o := LastOccurrenceBelow(line, MarkerOf(ByOnline), |line| + 1);
    assert c < 0 && o < 0;
  }

  /** A text that does not hold `p` has no part that holds it. */
  lemma NotContainsParts(a: string, b: string, p: string)
    requires !Contains(a + b, p)
    ensures !Contains(a, p) && !Contains(b, p)
  {
    if Contains(a, p) {
      var i :| 0 <= i <= |a| && OccursAt(a, p, i);
      OccursInLeft(a, b, p, i);
    }
    if Contains(b, p) {
      var j :| 0 <= j <= |b| && OccursAt(b, p, j);
      OccursShift(a, b, p, j);
    }
  }

  /** A text without some character of `p` does not contain `p`. */
  lemma MissingChar(s: string, p: string, j: int)
    requires 0 <= j < |p| && p[j] !in s
    ensures !Contains(s, p)
  {
    forall i | 0 <= i <= |s| ensures !OccursAt(s, p, i) {
      if i + |p| <= |s| {
        assert s[i + j] == s[i..i + |p|][j];
      }
    }
  }

  /** The descriptions the forms write by default never spoil the round trips: none of them
      holds a `-`, which every marker and the separator do. */
  lemma DefaultDescriptionsAreSafe(m: PayMethod)
    ensures var d := "Payment Received (" + MethodName(m) + ")";
      NoLineTerminator(d) && !Contains(" " + d, CashMarker) && !Contains(" " + d, OnlineMarker)
  {
    var pre, name, post := "Payment Received (", MethodName(m), ")";
    assert NoLineTerminator(pre) && NoLineTerminator(post) && '-' !in pre && '-' !in post;
    assert NoLineTerminator(name) && '-' !in name by {
      if m == ByCash { assert name == "Cash"; } else { assert name == "Online"; }
    }
    NoLineTerminatorConcat(pre, name);
    NoLineTerminatorConcat(pre + name, post);
    var d := " " + (pre + name + post);
    assert '-' !in d;
    assert CashMarker[8] == '-' && OnlineMarker[10] == '-';
    MissingChar(d, CashMarker, 8);
    MissingChar(d, OnlineMarker, 10);
    assert " " + pre + name + post == d;
  }

  lemma DefaultSaleDescriptionsAreSafe()
    ensures NoLineTerminator("Udhari Sale") && !Contains(" " + "Udhari Sale", DescSep)
    ensures NoLineTerminator("Credit Return") && !Contains(" " + "Credit Return", DescSep)
  {
    assert DescSep[1] == '-';
    assert '-' !in " " + "Udhari Sale";
    assert '-' !in " " + "Credit Return";
    MissingChar(" " + "Udhari Sale", DescSep, 1);
    MissingChar(" " + "Credit Return", DescSep, 1);
  }
}
