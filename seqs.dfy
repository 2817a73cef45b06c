/** Facts about cutting a sequence apart, stated once for every element type. */
module Seqs {
  lemma SplitLast<T>(s: seq<T>)
    requires s != []
    ensures s == s[..|s| - 1] + [s[|s| - 1]]
    ensures multiset(s) == multiset(s[..|s| - 1]) + multiset{s[|s| - 1]}
  {
    assert s == s[..|s| - 1] + [s[|s| - 1]];
  }

  lemma SplitFirst<T>(s: seq<T>)
    requires s != []
    ensures s == [s[0]] + s[1..]
    ensures multiset(s[1..]) == multiset(s) - multiset{s[0]}
  {
    assert s == [s[0]] + s[1..];
  }

  /** Taking out the element at `i` takes one copy of it out of the multiset. */
  lemma RemoveAt<T>(s: seq<T>, i: int)
    requires 0 <= i < |s|
    ensures s == s[..i] + [s[i]] + s[i + 1..]
    ensures multiset(s[..i] + s[i + 1..]) == multiset(s) - multiset{s[i]}
  {
    assert s == s[..i] + [s[i]] + s[i + 1..];
    assert multiset(s) == multiset(s[..i]) + multiset{s[i]} + multiset(s[i + 1..]);
  }

  /** `s.filter(p)`: the elements `p` accepts, in their order, each as often as in `s`. */
  function Keep<T(!new)>(s: seq<T>, p: T -> bool): (r: seq<T>)
    ensures |r| <= |s|
    ensures forall x :: x in r <==> x in s && p(x)
  {
    if s == [] then []
    else
      SplitLast(s);
      Keep(s[..|s| - 1], p) + (if p(s[|s| - 1]) then [s[|s| - 1]] else [])
  }

  /** Each accepted element survives as often as it occurs, each other one not at all. */
  lemma {:induction false} KeepCount<T(!new)>(s: seq<T>, p: T -> bool)
    ensures forall x :: multiset(Keep(s, p))[x] == if p(x) then multiset(s)[x] else 0
    decreases |s|
  {
    if s != [] {
      KeepCount(s[..|s| - 1], p);
      KeepStep(s, p);
      SplitLast(s);
    }
  }

  /** Filtering a concatenation filters each part: the survivors keep their order. */
  lemma {:induction false} KeepConcat<T(!new)>(a: seq<T>, b: seq<T>, p: T -> bool)
    ensures Keep(a + b, p) == Keep(a, p) + Keep(b, p)
    decreases |b|
  {
    if b == [] {
      assert a + b == a;
    } else {
      var ab := a + b;
      var init := b[..|b| - 1];
      assert ab[..|ab| - 1] == a + init && ab[|ab| - 1] == b[|b| - 1];
      KeepConcat(a, init, p);
      KeepStep(ab, p);
      KeepStep(b, p);
      if p(b[|b| - 1]) {
        Assoc(Keep(a, p), Keep(init, p), [b[|b| - 1]]);
      }
    }
  }

  lemma Assoc<T>(x: seq<T>, y: seq<T>, z: seq<T>)
    ensures x + y + z == x + (y + z)
  {
  }

  lemma KeepStep<T(!new)>(s: seq<T>, p: T -> bool)
    requires s != []
    ensures p(s[|s| - 1]) ==> Keep(s, p) == Keep(s[..|s| - 1], p) + [s[|s| - 1]]
    ensures !p(s[|s| - 1]) ==> Keep(s, p) == Keep(s[..|s| - 1], p)
  {
    var init := Keep(s[..|s| - 1], p);
    assert init + [] == init;
  }

  /** A relation that holds between every element and every later one still holds after
      filtering, since filtering keeps the order. */
  lemma {:induction false} KeepPairwise<T(!new)>(s: seq<T>, p: T -> bool, rel: (T, T) -> bool)
    requires forall i, j :: 0 <= i < j < |s| ==> rel(s[i], s[j])
    ensures var r := Keep(s, p); forall i, j :: 0 <= i < j < |r| ==> rel(r[i], r[j])
    decreases |s|
  {
    if s != [] {
      var init, last := s[..|s| - 1], s[|s| - 1];
      KeepPairwise(init, p, rel);
      KeepStep(s, p);
      var rest := Keep(init, p);
      if p(last) {
        var r := rest + [last];
        forall i, j | 0 <= i < j < |r| ensures rel(r[i], r[j]) {
          if j == |r| - 1 {
            assert r[i] in rest;
            var m :| 0 <= m < |init| && init[m] == r[i];
            assert s[m] == r[i];
          } else {
            assert r[i] == rest[i] && r[j] == rest[j];
          }
        }
      }
    }
  }
}
