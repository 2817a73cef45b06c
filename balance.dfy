/**
 * The balance calculator of the creditor ledger (`calculateBalance`): a left fold from 0 in
 * which a `len-den` line adds its amount and a `jama` line subtracts it.
 */
module Balance {
  import opened Records
  import opened Seqs

  function Step(bal: int, tx: CreditorTransaction): int {
    match tx.kind
    case LenDen => bal + tx.amount
    case Jama => bal - tx.amount
  }

  /** `transactions.reduce(step, start)`. */
  function Fold(start: int, txs: seq<CreditorTransaction>): int
    decreases |txs|
  {
    if txs == [] then start else Fold(Step(start, txs[0]), txs[1..])
  }

  function CalculateBalance(txs: seq<CreditorTransaction>): int {
    Fold(0, txs)
  }

  /** Sum of the amounts of the `len-den` lines. */
  function SumLenDen(txs: seq<CreditorTransaction>): int {
    if txs == [] then 0
    else SumLenDen(txs[..|txs| - 1]) + (if txs[|txs| - 1].kind == LenDen then txs[|txs| - 1].amount else 0)
  }

  /** Sum of the amounts of the `jama` lines. */
  function SumJama(txs: seq<CreditorTransaction>): int {
    if txs == [] then 0
    else SumJama(txs[..|txs| - 1]) + (if txs[|txs| - 1].kind == Jama then txs[|txs| - 1].amount else 0)
  }

  lemma {:induction false} FoldOffset(start: int, txs: seq<CreditorTransaction>)
    ensures Fold(start, txs) == start + Fold(0, txs)
    decreases |txs|
  {
    if txs != [] {
      FoldOffset(Step(start, txs[0]), txs[1..]);
      FoldOffset(Step(0, txs[0]), txs[1..]);
    }
  }

  lemma {:induction false} FoldAppend(start: int, txs: seq<CreditorTransaction>, tx: CreditorTransaction)
    ensures Fold(start, txs + [tx]) == Step(Fold(start, txs), tx)
    decreases |txs|
  {
    if txs == [] {
      assert [] + [tx] == [tx];
    } else {
      assert (txs + [tx])[1..] == txs[1..] + [tx];
      FoldAppend(Step(start, txs[0]), txs[1..], tx);
    }
  }

  /** The balance is what was given on credit minus what was paid back; an empty ledger is 0. */
  lemma {:induction false} BalanceIsDifference(txs: seq<CreditorTransaction>)
    ensures CalculateBalance(txs) == SumLenDen(txs) - SumJama(txs)
    ensures txs == [] ==> CalculateBalance(txs) == 0
    decreases |txs|
  {
    if txs != [] {
      var init := txs[..|txs| - 1];
      var last := txs[|txs| - 1];
      SplitLast(txs);
      BalanceIsDifference(init);
      FoldAppend(0, init, last);
    }
  }

  lemma BalanceAppend(txs: seq<CreditorTransaction>, tx: CreditorTransaction)
    ensures CalculateBalance(txs + [tx]) == CalculateBalance(txs) + (if tx.kind == LenDen then tx.amount else -tx.amount)
  {
    FoldAppend(0, txs, tx);
  }

  lemma {:induction false} BalanceConcat(a: seq<CreditorTransaction>, b: seq<CreditorTransaction>)
    ensures CalculateBalance(a + b) == CalculateBalance(a) + CalculateBalance(b)
    decreases |b|
  {
    if b == [] {
      assert a + b == a;
    } else {
      var init := b[..|b| - 1];
      var last := b[|b| - 1];
      SplitLast(b);
      assert a + b == (a + init) + [last];
      BalanceConcat(a, init);
      BalanceAppend(a + init, last);
      BalanceAppend(init, last);
    }
  }

  /** The balance does not depend on the order of the ledger lines: every re-sorting of a
      creditor's transactions shows the same balance. */
  lemma {:induction false} BalancePermutationInvariant(a: seq<CreditorTransaction>, b: seq<CreditorTransaction>)
    requires multiset(a) == multiset(b)
    ensures CalculateBalance(a) == CalculateBalance(b)
    decreases |a|
  {
    if a == [] {
      assert |b| == |multiset(b)| == 0;
    } else {
      var x := a[0];
      assert x in multiset(b);
      var i :| 0 <= i < |b| && b[i] == x;
      var rest := b[..i] + b[i + 1..];
      SplitFirst(a);
      RemoveAt(b, i);
      BalancePermutationInvariant(a[1..], rest);
      BalanceConcat([x], a[1..]);
      BalanceConcat(b[..i] + [x], b[i + 1..]);
      BalanceConcat(b[..i], [x]);
      BalanceConcat(b[..i], b[i + 1..]);
    }
  }

  /** The label next to a balance: a positive balance is owed to the shop. */
  function BalanceLabel(txs: seq<CreditorTransaction>): (caption: string)
    ensures caption == "Dena Hai" <==> SumLenDen(txs) > SumJama(txs)
    ensures caption == "Dena Hai" || caption == "Lena Hai"
  {
    BalanceIsDifference(txs);
    if CalculateBalance(txs) > 0 then "Dena Hai" else "Lena Hai"
  }

  /** The figure shown in the detail view: the balance itself when it is owed to the shop,
      its magnitude otherwise. */
  function BalanceShown(txs: seq<CreditorTransaction>): (shown: int)
    ensures shown >= 0
    ensures shown == Abs(SumLenDen(txs) - SumJama(txs))
  {
    BalanceIsDifference(txs);
    var b := CalculateBalance(txs);
    if b > 0 then b else Abs(b)
  }
}
