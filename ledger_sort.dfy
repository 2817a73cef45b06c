/**
 * The re-sort of a creditor's ledger after an add or an update:
 * `transactions.sort((a, b) => new Date(b.date).getTime() - new Date(a.date).getTime())`,
 * newest first.  `Array.prototype.sort` is stable, so lines of the same day keep their order;
 * the reference definition is an insertion sort, and the in-place method is proved equal to it.
 */
module LedgerSort {
  import opened Records
  import opened Seqs

  /** Newest first. */
  predicate SortedDesc(s: seq<CreditorTransaction>) {
    forall i, j :: 0 <= i < j < |s| ==> s[i].date >= s[j].date
  }

  /** Insert `x` after every line at least as new as it, so that equal dates keep their order. */
  function InsertByDate(s: seq<CreditorTransaction>, x: CreditorTransaction): seq<CreditorTransaction>
    decreases |s|
  {
    if s == [] || s[|s| - 1].date >= x.date then s + [x]
    else InsertByDate(s[..|s| - 1], x) + [s[|s| - 1]]
  }

  /** The stable sort, newest first. */
  function SortByDateDesc(s: seq<CreditorTransaction>): seq<CreditorTransaction>
    decreases |s|
  {
    if s == [] then [] else InsertByDate(SortByDateDesc(s[..|s| - 1]), s[|s| - 1])
  }

  /** The lines of one day, in order. */
  function OnDay(s: seq<CreditorTransaction>, d: Date): seq<CreditorTransaction> {
    if s == [] then []
    else OnDay(s[..|s| - 1], d) + (if s[|s| - 1].date == d then [s[|s| - 1]] else [])
  }

  lemma {:induction false} InsertPermutation(s: seq<CreditorTransaction>, x: CreditorTransaction)
    ensures multiset(InsertByDate(s, x)) == multiset(s) + multiset{x}
    decreases |s|
  {
    if s != [] && s[|s| - 1].date < x.date {
      var init := s[..|s| - 1];
      InsertPermutation(init, x);
      SplitLast(s);
    }
  }

  lemma {:induction false} InsertSorted(s: seq<CreditorTransaction>, x: CreditorTransaction)
    requires SortedDesc(s)
    ensures SortedDesc(InsertByDate(s, x))
    decreases |s|
  {
    if s != [] && s[|s| - 1].date < x.date {
      var init := s[..|s| - 1];
      var last := s[|s| - 1];
      InsertSorted(init, x);
      InsertPermutation(init, x);
      var r := InsertByDate(init, x);
      forall k | 0 <= k < |r| ensures r[k].date >= last.date {
        assert r[k] in multiset(r);
        if r[k] != x {
          assert r[k] in multiset(init);
          var m :| 0 <= m < |init| && init[m] == r[k];
          assert s[m] == r[k];
        }
      }
    }
  }

  /** The sort yields lines newest first, and the same lines as often as before. */
  lemma {:induction false} SortProperties(s: seq<CreditorTransaction>)
    ensures SortedDesc(SortByDateDesc(s))
    ensures multiset(SortByDateDesc(s)) == multiset(s)
    ensures |SortByDateDesc(s)| == |s|
    decreases |s|
  {
    if s != [] {
      var init := s[..|s| - 1];
      SortProperties(init);
      InsertSorted(SortByDateDesc(init), s[|s| - 1]);
      InsertPermutation(SortByDateDesc(init), s[|s| - 1]);
      SplitLast(s);
    }
    assert |SortByDateDesc(s)| == |multiset(SortByDateDesc(s))| == |multiset(s)| == |s|;
  }

  lemma OnDayAppend(s: seq<CreditorTransaction>, x: CreditorTransaction, d: Date)
    ensures OnDay(s + [x], d) == OnDay(s, d) + (if x.date == d then [x] else [])
  {
    assert (s + [x])[..|s|] == s;
  }

  lemma {:induction false} InsertStable(s: seq<CreditorTransaction>, x: CreditorTransaction, d: Date)
    ensures OnDay(InsertByDate(s, x), d) == OnDay(s, d) + (if x.date == d then [x] else [])
    decreases |s|
  {
    if s == [] || s[|s| - 1].date >= x.date {
      OnDayAppend(s, x, d);
    } else {
      InsertStable(s[..|s| - 1], x, d);
      InsertStableStep(s, x, d);
    }
  }

  /** The step of `InsertStable` where `x` moves past the last line. */
  lemma InsertStableStep(s: seq<CreditorTransaction>, x: CreditorTransaction, d: Date)
    requires s != [] && s[|s| - 1].date < x.date
    requires OnDay(InsertByDate(s[..|s| - 1], x), d) == OnDay(s[..|s| - 1], d) + (if x.date == d then [x] else [])
    ensures OnDay(InsertByDate(s, x), d) == OnDay(s, d) + (if x.date == d then [x] else [])
  {
    var init, last := s[..|s| - 1], s[|s| - 1];
    var mx := if x.date == d then [x] else [];
    var ml := if last.date == d then [last] else [];
    assert InsertByDate(s, x) == InsertByDate(init, x) + [last];
    OnDayAppend(InsertByDate(init, x), last, d);
    SwapTail(OnDay(init, d), mx, ml);
    SplitLast(s);
    OnDayAppend(init, last, d);
  }

  lemma SwapTail(a: seq<CreditorTransaction>, x: seq<CreditorTransaction>, l: seq<CreditorTransaction>)
    requires x == [] || l == []
    ensures a + x + l == a + l + x
  {
  }

  /** Stability: the sort keeps the lines of each day in their original order. */
  lemma {:induction false} SortStable(s: seq<CreditorTransaction>, d: Date)
    ensures OnDay(SortByDateDesc(s), d) == OnDay(s, d)
    decreases |s|
  {
    if s != [] {
      var init := s[..|s| - 1];
      SortStable(init, d);
      InsertStable(SortByDateDesc(init), s[|s| - 1], d);
    }
  }

  /** A ledger already newest first is left exactly as it is. */
  lemma {:induction false} SortOfSorted(s: seq<CreditorTransaction>)
    requires SortedDesc(s)
    ensures SortByDateDesc(s) == s
    decreases |s|
  {
    if s != [] {
      var init := s[..|s| - 1];
      assert SortedDesc(init);
      SortOfSorted(init);
      SplitLast(s);
    }
  }

  /** Inserting `x` goes in front of the tail of lines strictly older than it. */
  lemma {:induction false} InsertSplit(s: seq<CreditorTransaction>, j: nat, x: CreditorTransaction)
    requires j <= |s|
    requires j > 0 ==> s[j - 1].date >= x.date
    requires forall k :: j <= k < |s| ==> s[k].date < x.date
    ensures InsertByDate(s, x) == s[..j] + [x] + s[j..]
    decreases |s|
  {
    if j == |s| {
      assert s[..j] == s;
    } else {
      var init := s[..|s| - 1];
      var last := s[|s| - 1];
      assert last.date < x.date;
      assert InsertByDate(s, x) == InsertByDate(init, x) + [last];
      assert j > 0 ==> init[j - 1] == s[j - 1];
      assert forall k :: j <= k < |init| ==> init[k] == s[k];
      InsertSplit(init, j, x);
      assert init[..j] == s[..j];
      assert init[j..] + [last] == s[j..];
      assert init[..j] + [x] + init[j..] + [last] == s[..j] + [x] + (init[j..] + [last]);
    }
  }

  /** One insertion step: shift the older lines of `a[..i]` up by one and drop `a[i]` in the gap. */
  method InsertAt(a: array<CreditorTransaction>, i: int)
    requires 0 <= i < a.Length
    modifies a
    ensures a[..i + 1] == InsertByDate(old(a[..i]), old(a[i]))
    ensures a[i + 1..] == old(a[i + 1..])
  {
    var x := a[i];
    ghost var s := a[..];
    var j := i;
    while j > 0 && a[j - 1].date < x.date
      invariant 0 <= j <= i
      invariant forall k :: 0 <= k < j ==> a[k] == s[k]
      invariant forall k :: j < k <= i ==> a[k] == s[k - 1]
      invariant forall k :: i < k < a.Length ==> a[k] == s[k]
      invariant forall k :: j <= k < i ==> s[k].date < x.date
    {
      a[j] := a[j - 1];
      j := j - 1;
    }
    a[j] := x;
    FinishInsert(a[..], s, i, j);
  }

  /** After the shifting loop the array holds `s[..j]`, then `s[i]`, then `s[j..i]` moved up
      by one, then the untouched rest: that is the insertion of `s[i]` into `s[..i]`. */
  lemma FinishInsert(t: seq<CreditorTransaction>, s: seq<CreditorTransaction>, i: int, j: int)
    requires 0 <= j <= i < |s| == |t| && t[j] == s[i]
    requires forall k :: 0 <= k < j ==> t[k] == s[k]
    requires forall k :: j < k <= i ==> t[k] == s[k - 1]
    requires forall k :: i < k < |t| ==> t[k] == s[k]
    requires j > 0 ==> s[j - 1].date >= s[i].date
    requires forall k :: j <= k < i ==> s[k].date < s[i].date
    ensures t[..i + 1] == InsertByDate(s[..i], s[i])
    ensures t[i + 1..] == s[i + 1..]
  {
    var sorted := s[..i];
    InsertSplit(sorted, j, s[i]);
    assert t[..i + 1] == sorted[..j] + [s[i]] + sorted[j..];
  }

  /** The in-place stable insertion sort of a creditor's ledger. */
  method SortByDate(a: array<CreditorTransaction>)
    modifies a
    ensures a[..] == SortByDateDesc(old(a[..]))
  {
    ghost var s := a[..];
    var i := 0;
    while i < a.Length
      invariant 0 <= i <= a.Length
      invariant a[..i] == SortByDateDesc(s[..i])
      invariant a[i..] == s[i..]
    {
      assert a[i] == s[i];
      InsertAt(a, i);
      assert s[..i + 1][..i] == s[..i];
      assert a[i + 1..] == s[i + 1..];
      i := i + 1;
    }
    assert a[..] == a[..a.Length] && s == s[..a.Length];
  }
}
