/**
 * The denomination calculator: a count per note or coin, and the total
 * `denominations.reduce((sum, d) => sum + (counts[d] || 0) * d, 0)`.
 */
module Calculator {
  import opened Wrappers

  const Denominations: seq<int> := [500, 200, 100, 50, 20, 10, 5, 2, 1]

  /** `counts[d] || 0`: a denomination with no count counts as zero. */
  function CountOf(counts: map<int, int>, d: int): int {
    if d in counts then counts[d] else 0
  }

  /** The reduce over a list of denominations, from the front. */
  function SumOver(ds: seq<int>, counts: map<int, int>): int {
    if ds == [] then 0 else SumOver(ds[..|ds| - 1], counts) + CountOf(counts, ds[|ds| - 1]) * ds[|ds| - 1]
  }

  function Total(counts: map<int, int>): int {
    SumOver(Denominations, counts)
  }

  /** `parseInt(value) || 0`: what does not parse is stored as zero. */
  function SetCount(counts: map<int, int>, d: int, parsed: Option<int>): map<int, int> {
    counts[d := if parsed.Some? then parsed.value else 0]
  }

  /** The total written out note by note; nothing entered means a total of zero. */
  lemma TotalFormula(counts: map<int, int>)
    ensures Total(counts) == 500 * CountOf(counts, 500) + 200 * CountOf(counts, 200) + 100 * CountOf(counts, 100)
      + 50 * CountOf(counts, 50) + 20 * CountOf(counts, 20) + 10 * CountOf(counts, 10)
      + 5 * CountOf(counts, 5) + 2 * CountOf(counts, 2) + CountOf(counts, 1)
    ensures counts == map[] ==> Total(counts) == 0
  {
    var p1, p2, p3 := [500], [500, 200], [500, 200, 100];
    var p4, p5, p6 := p3 + [50], p3 + [50, 20], p3 + [50, 20, 10];
    var p7, p8 := p6 + [5], p6 + [5, 2];
    assert p1[..0] == [] && p2[..1] == p1 && p3[..2] == p2 && p4[..3] == p3 && p5[..4] == p4;
    assert p6[..5] == p5 && p7[..6] == p6 && p8[..7] == p7 && Denominations[..8] == p8;
    assert SumOver(p1, counts) == CountOf(counts, 500) * 500;
    assert SumOver(p2, counts) == SumOver(p1, counts) + CountOf(counts, 200) * 200;
    assert SumOver(p3, counts) == SumOver(p2, counts) + CountOf(counts, 100) * 100;
    assert SumOver(p4, counts) == SumOver(p3, counts) + CountOf(counts, 50) * 50;
    assert SumOver(p5, counts) == SumOver(p4, counts) + CountOf(counts, 20) * 20;
    assert SumOver(p6, counts) == SumOver(p5, counts) + CountOf(counts, 10) * 10;
    assert SumOver(p7, counts) == SumOver(p6, counts) + CountOf(counts, 5) * 5;
    assert SumOver(p8, counts) == SumOver(p7, counts) + CountOf(counts, 2) * 2;
    assert Total(counts) == SumOver(p8, counts) + CountOf(counts, 1) * 1;
  }

  predicate Distinct(ds: seq<int>) {
    forall i, j :: 0 <= i < j < |ds| ==> ds[i] != ds[j]
  }

  lemma {:induction false} SumOverUpdate(ds: seq<int>, counts: map<int, int>, d: int, v: int)
    requires Distinct(ds)
    ensures d in ds ==> SumOver(ds, counts[d := v]) == SumOver(ds, counts) + (v - CountOf(counts, d)) * d
    ensures d !in ds ==> SumOver(ds, counts[d := v]) == SumOver(ds, counts)
    decreases |ds|
  {
    if ds != [] {
      var init, last := ds[..|ds| - 1], ds[|ds| - 1];
      assert Distinct(init);
      SumOverUpdate(init, counts, d, v);
      assert ds == init + [last];
      if last == d {
        assert forall m :: 0 <= m < |init| ==> init[m] == ds[m] && ds[m] != ds[|ds| - 1];
        var c := CountOf(counts, d);
        assert CountOf(counts[d := v], d) * d == v * d;
        assert v * d == c * d + (v - c) * d;
      } else {
        assert CountOf(counts[d := v], last) == CountOf(counts, last);
      }
    }
  }

  /** Changing one count moves the total by the change times that denomination, and a count for
      an amount that is not a denomination never shows in the total. */
  lemma SetCountEffect(counts: map<int, int>, d: int, parsed: Option<int>)
    ensures var v := if parsed.Some? then parsed.value else 0;
      (d in Denominations ==> Total(SetCount(counts, d, parsed)) == Total(counts) + (v - CountOf(counts, d)) * d)
      && (d !in Denominations ==> Total(SetCount(counts, d, parsed)) == Total(counts))
  {
    var v := if parsed.Some? then parsed.value else 0;
    assert Distinct(Denominations);
    SumOverUpdate(Denominations, counts, d, v);
  }

  /** With no negative count the total is never negative. */
  lemma {:induction false} SumOverNonNegative(ds: seq<int>, counts: map<int, int>)
    requires forall i :: 0 <= i < |ds| ==> ds[i] > 0
    requires forall d :: d in counts ==> counts[d] >= 0
    ensures SumOver(ds, counts) >= 0
    decreases |ds|
  {
    if ds != [] {
      SumOverNonNegative(ds[..|ds| - 1], counts);
      var d := ds[|ds| - 1];
      assert CountOf(counts, d) >= 0 && d > 0;
      assert CountOf(counts, d) * d >= 0;
    }
  }

  lemma TotalNonNegative(counts: map<int, int>)
    requires forall d :: d in counts ==> counts[d] >= 0
    ensures Total(counts) >= 0
  {
    SumOverNonNegative(Denominations, counts);
  }
}
