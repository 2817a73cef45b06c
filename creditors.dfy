/**
 * The creditor ledger's own handlers: adding a creditor (refused when the trimmed name is
 * empty or already present up to case), editing a creditor's details, removing one, and
 * adding, replacing or deleting ledger lines directly, with the newest-first re-sort.
 */
module CreditorBook {
  import opened Text
  import opened Records
  import opened Balance
  import opened LedgerSort
  import opened Seqs

  /** `handleAddOrUpdateCreditor`; `id` stands for the clock reading used as a fresh id. */
  function AddCreditor(prev: AppState, name: string, phone: string, id: int): AppState {
    if Trim(name) == "" then prev
    else if FindByName(prev.creditors, Trim(name)) >= 0 then prev
    else prev.(creditors := [Creditor(id, Trim(name), Trim(phone), [])] + prev.creditors)
  }

  /** A creditor is added only under a new non-empty trimmed name, in front of the list with an
      empty ledger; otherwise nothing changes.  Either way the name is present afterwards,
      names that were distinct stay distinct, and the daily log is untouched. */
  lemma AddCreditorEffect(prev: AppState, name: string, phone: string, id: int)
    ensures var next := AddCreditor(prev, name, phone, id);
      var present := exists i :: 0 <= i < |prev.creditors| && Lower(prev.creditors[i].name) == Lower(Trim(name));
      (Trim(name) == "" || present ==> next == prev)
      && (Trim(name) != "" && !present ==> next.creditors == [Creditor(id, Trim(name), Trim(phone), [])] + prev.creditors)
      && (Trim(name) != "" ==> exists i :: 0 <= i < |next.creditors| && Lower(next.creditors[i].name) == Lower(Trim(name)))
      && (DistinctNames(prev.creditors) ==> DistinctNames(next.creditors))
      && next.entries == prev.entries
  {
    var next := AddCreditor(prev, name, phone, id);
    var k := FindByName(prev.creditors, Trim(name));
    if Trim(name) != "" {
      if k >= 0 {
        assert Lower(next.creditors[k].name) == Lower(Trim(name));
      } else {
        var c := Creditor(id, Trim(name), Trim(phone), []);
        assert Lower(next.creditors[0].name) == Lower(Trim(name));
        if DistinctNames(prev.creditors) {
          PrependKeepsDistinct(prev.creditors, c);
        }
      }
    }
  }

  /** A creditor whose name no other creditor has can go in front without breaking distinctness. */
  lemma PrependKeepsDistinct(cs: seq<Creditor>, c: Creditor)
    requires DistinctNames(cs)
    requires forall i :: 0 <= i < |cs| ==> Lower(cs[i].name) != Lower(c.name)
    ensures DistinctNames([c] + cs)
  {
    var r := [c] + cs;
    forall i, j | 0 <= i < j < |r| ensures Lower(r[i].name) != Lower(r[j].name) {
      if i > 0 {
        assert r[i] == cs[i - 1];
      }
      assert r[j] == cs[j - 1];
    }
  }

  /** Adding the same name twice is adding it once. */
  lemma AddCreditorIdempotent(prev: AppState, name: string, phone: string, id: int, phone2: string, id2: int)
    ensures AddCreditor(AddCreditor(prev, name, phone, id), name, phone2, id2) == AddCreditor(prev, name, phone, id)
  {
    var next := AddCreditor(prev, name, phone, id);
    if Trim(name) != "" && FindByName(prev.creditors, Trim(name)) < 0 {
      assert Lower(next.creditors[0].name) == Lower(Trim(name));
    }
  }

  /** `creditors.map(c => c.id === creditorId ? { ...c, name, phone } : c)`: the new details
      are taken as typed, without trimming. */
  function RenameCreditor(cs: seq<Creditor>, creditorId: int, name: string, phone: string): (r: seq<Creditor>)
    ensures |r| == |cs|
    ensures forall i :: 0 <= i < |cs| ==>
      r[i] == (if cs[i].id == creditorId then cs[i].(name := name, phone := phone) else cs[i])
  {
    if cs == [] then []
    else
      var c := cs[|cs| - 1];
      RenameCreditor(cs[..|cs| - 1], creditorId, name, phone)
        + [if c.id == creditorId then c.(name := name, phone := phone) else c]
  }

  function UpdateCreditorDetails(prev: AppState, creditorId: int, name: string, phone: string): AppState {
    prev.(creditors := RenameCreditor(prev.creditors, creditorId, name, phone))
  }

  /** Editing details keeps every creditor's id, ledger and balance. */
  lemma UpdateDetailsKeepsLedgers(prev: AppState, creditorId: int, name: string, phone: string)
    ensures var next := UpdateCreditorDetails(prev, creditorId, name, phone);
      |next.creditors| == |prev.creditors| && next.entries == prev.entries
      && forall i :: 0 <= i < |prev.creditors| ==>
           next.creditors[i].id == prev.creditors[i].id
           && next.creditors[i].transactions == prev.creditors[i].transactions
           && CalculateBalance(next.creditors[i].transactions) == CalculateBalance(prev.creditors[i].transactions)
  {
  }

  /** Unlike adding, editing does not check names: it can give two creditors the same name. */
  lemma UpdateDetailsMayDuplicateNames()
    ensures var prev := [Creditor(1, "Asha", "", []), Creditor(2, "Ravi", "", [])];
      DistinctNames(prev) && !DistinctNames(RenameCreditor(prev, 2, "asha", ""))
  {
    var prev := [Creditor(1, "Asha", "", []), Creditor(2, "Ravi", "", [])];
    assert Lower("Asha") == "asha" && Lower("Ravi") == "ravi" && Lower("asha") == "asha";
    var r := RenameCreditor(prev, 2, "asha", "");
    assert r[0].name == "Asha" && r[1].name == "asha";
  }

  /** The test of `creditors.filter(c => c.id !== creditorId)`. */
  function OtherCreditor(creditorId: int): Creditor -> bool {
    (c: Creditor) => c.id != creditorId
  }

  /** `creditors.filter(c => c.id !== creditorId)`: the other creditors, in order (`KeepConcat`),
      each as often as before. */
  function KeepOtherCreditors(cs: seq<Creditor>, creditorId: int): (r: seq<Creditor>)
    ensures forall c :: c in r <==> c in cs && c.id != creditorId
    ensures forall c :: multiset(r)[c] == if c.id != creditorId then multiset(cs)[c] else 0
    ensures |r| <= |cs|
  {
    KeepCount(cs, OtherCreditor(creditorId));
    Keep(cs, OtherCreditor(creditorId))
  }

  function RemoveCreditor(prev: AppState, creditorId: int): AppState {
    prev.(creditors := KeepOtherCreditors(prev.creditors, creditorId))
  }

  /** Removing a creditor removes exactly the creditors with that id; the daily log keeps every
      entry that named them. */
  lemma RemoveCreditorEffect(prev: AppState, creditorId: int)
    ensures var next := RemoveCreditor(prev, creditorId);
      (forall c :: c in next.creditors <==> c in prev.creditors && c.id != creditorId)
      && next.entries == prev.entries && next.staff == prev.staff
      && (DistinctNames(prev.creditors) ==> DistinctNames(next.creditors))
  {
    var next := RemoveCreditor(prev, creditorId);
    if DistinctNames(prev.creditors) {
      KeepPreservesDistinct(prev.creditors, creditorId);
    }
  }

  lemma KeepPreservesDistinct(cs: seq<Creditor>, creditorId: int)
    requires DistinctNames(cs)
    ensures DistinctNames(KeepOtherCreditors(cs, creditorId))
  {
    var rel := (a: Creditor, b: Creditor) => Lower(a.name) != Lower(b.name);
    assert forall i, j :: 0 <= i < j < |cs| ==> rel(cs[i], cs[j]);
    KeepPairwise(cs, OtherCreditor(creditorId), rel);
    var r := KeepOtherCreditors(cs, creditorId);
    assert r == Keep(cs, OtherCreditor(creditorId));
    assert forall i, j :: 0 <= i < j < |r| ==> rel(r[i], r[j]);
  }

  /** A direct change to one creditor's ledger: a new line, or a replacement for the line with
      the same id. */
  datatype LedgerEdit = AddLine(tx: CreditorTransaction) | ReplaceLine(updated: CreditorTransaction)

  /** `transactions.map(tx => tx.id === updated.id ? updated : tx)`. */
  function ReplaceTx(txs: seq<CreditorTransaction>, u: CreditorTransaction): (r: seq<CreditorTransaction>)
    ensures |r| == |txs|
    ensures forall i :: 0 <= i < |txs| ==> r[i] == (if txs[i].id == u.id then u else txs[i])
  {
    if txs == [] then []
    else
      var t := txs[|txs| - 1];
      ReplaceTx(txs[..|txs| - 1], u) + [if t.id == u.id then u else t]
  }

  /** The lines before the re-sort. */
  function EditedLines(txs: seq<CreditorTransaction>, edit: LedgerEdit): seq<CreditorTransaction> {
    match edit
    case AddLine(tx) => txs + [tx]
    case ReplaceLine(u) => ReplaceTx(txs, u)
  }

  /** The creditors after a direct ledger change: each creditor with that id gets the edited
      lines, re-sorted newest first; every other creditor stays as it was. */
  function EditCreditors(cs: seq<Creditor>, creditorId: int, edit: LedgerEdit): (r: seq<Creditor>)
    ensures |r| == |cs|
    ensures forall i :: 0 <= i < |cs| ==>
      r[i] == (if cs[i].id == creditorId
               then cs[i].(transactions := SortByDateDesc(EditedLines(cs[i].transactions, edit)))
               else cs[i])
  {
    if cs == [] then []
    else
      var c := cs[|cs| - 1];
      EditCreditors(cs[..|cs| - 1], creditorId, edit)
        + [if c.id == creditorId then c.(transactions := SortByDateDesc(EditedLines(c.transactions, edit))) else c]
  }

  /** Copy a ledger into a fresh array and sort it in place. */
  method Resort(txs: seq<CreditorTransaction>) returns (sorted: seq<CreditorTransaction>)
    ensures sorted == SortByDateDesc(txs)
  {
    var a := new CreditorTransaction[|txs|](k requires 0 <= k < |txs| => txs[k]);
    assert a[..] == txs;
    SortByDate(a);
    sorted := a[..];
  }

  /** `handleAddTransaction` and `handleUpdateTransaction`: map over the creditors, and for the
      one with that id build the new list and sort it in place. */
  method EditLedger(prev: AppState, creditorId: int, edit: LedgerEdit) returns (next: AppState)
    ensures next == prev.(creditors := EditCreditors(prev.creditors, creditorId, edit))
  {
    var cs := prev.creditors;
    var out: seq<Creditor> := [];
    var i := 0;
    while i < |cs|
      invariant 0 <= i <= |cs|
      invariant out == EditCreditors(cs[..i], creditorId, edit)
    {
      var c := cs[i];
      if c.id == creditorId {
        var sorted := Resort(EditedLines(c.transactions, edit));
        c := c.(transactions := sorted);
      }
      EditCreditorsSnoc(cs, i, creditorId, edit);
      out := out + [c];
      i := i + 1;
    }
    assert cs[..i] == cs;
    next := prev.(creditors := out);
  }

  lemma EditCreditorsSnoc(cs: seq<Creditor>, i: int, creditorId: int, edit: LedgerEdit)
    requires 0 <= i < |cs|
    ensures var c := cs[i];
      EditCreditors(cs[..i + 1], creditorId, edit) == EditCreditors(cs[..i], creditorId, edit)
        + [if c.id == creditorId then c.(transactions := SortByDateDesc(EditedLines(c.transactions, edit))) else c]
  {
    assert cs[..i + 1][..i] == cs[..i];
  }

  /** `handleAddTransaction`; the line's id stands for the clock reading the component uses. */
  method AddTransaction(prev: AppState, creditorId: int, tx: CreditorTransaction) returns (next: AppState)
    ensures next == prev.(creditors := EditCreditors(prev.creditors, creditorId, AddLine(tx)))
  {
    next := EditLedger(prev, creditorId, AddLine(tx));
  }

  method UpdateTransaction(prev: AppState, creditorId: int, updated: CreditorTransaction) returns (next: AppState)
    ensures next == prev.(creditors := EditCreditors(prev.creditors, creditorId, ReplaceLine(updated)))
  {
    next := EditLedger(prev, creditorId, ReplaceLine(updated));
  }

  /** After a direct change, the creditor's ledger is newest first, holds exactly the edited
      lines, keeps the lines of each day in their order, and shows the balance of the edited
      lines; the creditor's id, name and phone and every other creditor are unchanged. */
  lemma EditLedgerEffect(cs: seq<Creditor>, creditorId: int, edit: LedgerEdit, i: int)
    requires 0 <= i < |cs|
    ensures var r := EditCreditors(cs, creditorId, edit);
      var lines := EditedLines(cs[i].transactions, edit);
      (cs[i].id == creditorId ==>
        SortedDesc(r[i].transactions)
        && multiset(r[i].transactions) == multiset(lines)
        && (forall d :: OnDay(r[i].transactions, d) == OnDay(lines, d))
        && CalculateBalance(r[i].transactions) == CalculateBalance(lines)
        && r[i].id == cs[i].id && r[i].name == cs[i].name && r[i].phone == cs[i].phone)
      && (cs[i].id != creditorId ==> r[i] == cs[i])
  {
    var lines := EditedLines(cs[i].transactions, edit);
    SortProperties(lines);
    forall d ensures OnDay(SortByDateDesc(lines), d) == OnDay(lines, d) {
      SortStable(lines, d);
    }
    BalancePermutationInvariant(SortByDateDesc(lines), lines);
  }

  /** A new line moves the creditor's balance by its signed amount, whatever the sort does. */
  lemma AddTransactionBalance(cs: seq<Creditor>, creditorId: int, tx: CreditorTransaction, i: int)
    requires 0 <= i < |cs| && cs[i].id == creditorId
    ensures CalculateBalance(EditCreditors(cs, creditorId, AddLine(tx))[i].transactions)
            == CalculateBalance(cs[i].transactions) + (if tx.kind == LenDen then tx.amount else -tx.amount)
    ensures multiset(EditCreditors(cs, creditorId, AddLine(tx))[i].transactions)
            == multiset(cs[i].transactions) + multiset{tx}
  {
    EditLedgerEffect(cs, creditorId, AddLine(tx), i);
    BalanceAppend(cs[i].transactions, tx);
  }

  /** The test of `transactions.filter(tx => tx.id !== transactionId)`. */
  function OtherLine(txId: int): CreditorTransaction -> bool {
    (t: CreditorTransaction) => t.id != txId
  }

  /** `transactions.filter(tx => tx.id !== transactionId)`: the other lines, in order
      (`KeepConcat`), each as often as before. */
  function KeepOtherLines(txs: seq<CreditorTransaction>, txId: int): (r: seq<CreditorTransaction>)
    ensures forall t :: t in r <==> t in txs && t.id != txId
    ensures forall t :: multiset(r)[t] == if t.id != txId then multiset(txs)[t] else 0
  {
    KeepCount(txs, OtherLine(txId));
    Keep(txs, OtherLine(txId))
  }

  function DeleteLineIn(cs: seq<Creditor>, creditorId: int, txId: int): (r: seq<Creditor>)
    ensures |r| == |cs|
    ensures forall i :: 0 <= i < |cs| ==>
      r[i] == (if cs[i].id == creditorId then cs[i].(transactions := KeepOtherLines(cs[i].transactions, txId)) else cs[i])
  {
    if cs == [] then []
    else
      var c := cs[|cs| - 1];
      DeleteLineIn(cs[..|cs| - 1], creditorId, txId)
        + [if c.id == creditorId then c.(transactions := KeepOtherLines(c.transactions, txId)) else c]
  }

  /** `handleDeleteTransaction`. */
  function DeleteTransaction(prev: AppState, creditorId: int, txId: int): AppState {
    prev.(creditors := DeleteLineIn(prev.creditors, creditorId, txId))
  }

  /** Deleting lines keeps a newest-first ledger newest first. */
  lemma KeepOtherLinesSorted(txs: seq<CreditorTransaction>, txId: int)
    requires SortedDesc(txs)
    ensures SortedDesc(KeepOtherLines(txs, txId))
  {
    var rel := (a: CreditorTransaction, b: CreditorTransaction) => a.date >= b.date;
    assert forall i, j :: 0 <= i < j < |txs| ==> rel(txs[i], txs[j]);
    KeepPairwise(txs, OtherLine(txId), rel);
    var r := KeepOtherLines(txs, txId);
    assert r == Keep(txs, OtherLine(txId));
    assert forall i, j :: 0 <= i < j < |r| ==> rel(r[i], r[j]);
  }

  /** Deleting a line keeps a ledger newest first when it was, removes only lines with that id,
      and only from that creditor; the daily log keeps its entry. */
  lemma DeleteTransactionEffect(prev: AppState, creditorId: int, txId: int, i: int)
    requires 0 <= i < |prev.creditors|
    ensures var next := DeleteTransaction(prev, creditorId, txId);
      var before := prev.creditors[i].transactions;
      var after := next.creditors[i].transactions;
      |next.creditors| == |prev.creditors| && next.entries == prev.entries
      && (prev.creditors[i].id == creditorId ==>
            (forall t :: t in after <==> t in before && t.id != txId)
            && (SortedDesc(before) ==> SortedDesc(after)))
      && (prev.creditors[i].id != creditorId ==> next.creditors[i] == prev.creditors[i])
  {
    if prev.creditors[i].id == creditorId && SortedDesc(prev.creditors[i].transactions) {
      KeepOtherLinesSorted(prev.creditors[i].transactions, txId);
    }
  }
}
