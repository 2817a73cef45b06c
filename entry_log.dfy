/**
 * The daily log's mutation engine: adding an entry (with its mirror into the creditor
 * ledger), updating, deleting and clearing the selected day.  Each operation maps the
 * previous application state to the next one, as the component's state updaters do.
 */
module EntryLog {
  import opened Wrappers
  import opened Text
  import opened Records
  import opened Balance
  import opened DetailCodec
  import opened EntryForms
  import opened DailyReport

  /** What a credit entry copies into the creditor ledger: the customer name it names, the
      ledger line, and the phone a new creditor would be given. */
  datatype Mirror = Mirror(name: string, tx: CreditorTransaction, phone: string)

  /** The ledger line `handleAddEntry` derives from a new entry, if any. */
  function MirrorOf(kind: EntryType, details: string, amount: int, phone: string, id: int, date: Date): (r: Option<Mirror>)
    ensures r.Some? <==> IsCreditSale(kind) || (kind == UdhariPaid && MatchFrom(details).Some?)
    ensures r.Some? ==> r.value.tx.id == id && r.value.tx.date == date && r.value.tx.amount == Abs(amount)
    ensures r.Some? ==> (r.value.tx.kind == LenDen <==> kind == UdharDiye)
    ensures IsCreditSale(kind) && MatchDesc(details).Some? ==>
      (r.value.name, r.value.tx.description) == MatchDesc(details).value && r.value.phone == ""
    ensures IsCreditSale(kind) && !Contains(details, DescSep) ==>
      r.value.name == details && r.value.tx.description == DefaultSaleDescription(kind) && r.value.phone == ""
    ensures kind == UdhariPaid && MatchFrom(details).Some? ==>
      var (name, m, desc) := MatchFrom(details).value;
      r.value.name == name && r.value.phone == phone
      && r.value.tx.description == (if desc == "" then DefaultPaymentDescription(m) else desc)
  {
    if IsCreditSale(kind) then
      MatchDescNoneIff(details);
      var (name, desc) := match MatchDesc(details)
                          case Some(g) => g
                          case None => (details, DefaultSaleDescription(kind));
      Some(Mirror(name, CreditorTransaction(id, date, if kind == UdharDiye then LenDen else Jama, Abs(amount), desc), ""))
    else if kind == UdhariPaid then
      match MatchFrom(details)
      case None => None
      case Some((name, m, desc)) =>
        Some(Mirror(name, CreditorTransaction(id, date, Jama, Abs(amount), if desc == "" then DefaultPaymentDescription(m) else desc), phone))
    else None
  }

  /** The creditors after a mirror: the line goes to the end of the first creditor whose name
      matches up to case, or to a creditor created for it at the end of the list. */
  function MirrorInto(cs: seq<Creditor>, m: Mirror, creditorId: int): seq<Creditor> {
    var k := FindByName(cs, m.name);
    if k >= 0 then cs[k := cs[k].(transactions := cs[k].transactions + [m.tx])]
    else cs + [Creditor(creditorId, m.name, m.phone, [m.tx])]
  }

  /** The state `handleAddEntry` produces; `entryId` and `creditorId` stand for the clock
      readings the component uses as fresh ids. */
  function AddEntryState(prev: AppState, kind: EntryType, amount: int, details: string, phone: string,
                         time: string, entryId: int, creditorId: int): AppState
  {
    var entry := Entry(entryId, prev.selectedDate, time, kind, details, amount);
    var m := MirrorOf(kind, details, amount, phone, entryId, prev.selectedDate);
    prev.(entries := prev.entries + [entry],
          creditors := if m.Some? then MirrorInto(prev.creditors, m.value, creditorId) else prev.creditors)
  }

  /** `handleAddEntry`: append the entry, then look the customer up and push the mirrored line. */
  method AddEntry(prev: AppState, kind: EntryType, amount: int, details: string, phone: string,
                  time: string, entryId: int, creditorId: int) returns (next: AppState)
    ensures next == AddEntryState(prev, kind, amount, details, phone, time, entryId, creditorId)
  {
    var entry := Entry(entryId, prev.selectedDate, time, kind, details, amount);
    next := prev.(entries := prev.entries + [entry]);
    var mirror := MirrorOf(kind, details, amount, phone, entryId, prev.selectedDate);
    if mirror.Some? {
      var m := mirror.value;
      var cs := next.creditors;
      var i := FindCreditor(cs, m.name);
      if i >= 0 {
        cs := cs[i := cs[i].(transactions := cs[i].transactions + [m.tx])];
      } else {
        cs := cs + [Creditor(creditorId, m.name, m.phone, [m.tx])];
      }
      next := next.(creditors := cs);
    }
  }

  /** `creditors.find(c => c.name.toLowerCase() === name.toLowerCase())`, as a position. */
  method FindCreditor(cs: seq<Creditor>, name: string) returns (i: int)
    ensures i == FindByName(cs, name)
  {
    i := 0;
    while i < |cs| && Lower(cs[i].name) != Lower(name)
      invariant 0 <= i <= |cs|
      invariant forall j :: 0 <= j < i ==> Lower(cs[j].name) != Lower(name)
    {
      i := i + 1;
    }
    if i == |cs| {
      i := -1;
    }
  }

  /** A form submission reaches the log only when it validated; a rejected one leaves the
      state exactly as it was. */
  method SubmitEntry(prev: AppState, r: Result<Submission, FormError>, time: string, entryId: int, creditorId: int)
    returns (next: AppState)
    ensures r.Err? ==> next == prev
    ensures r.Ok? ==> next == AddEntryState(prev, r.value.kind, r.value.amount, r.value.details, r.value.phone,
                                            time, entryId, creditorId)
  {
    match r
    case Err(_) => next := prev;
    case Ok(s) => next := AddEntry(prev, s.kind, s.amount, s.details, s.phone, time, entryId, creditorId);
  }

  /** Adding appends exactly one entry, dated the selected day, at the end of the log, and
      touches neither the staff, the opening balance nor the selected day; an entry that
      mirrors nothing leaves the creditors as they were. */
  lemma AddEntryAppendsOne(prev: AppState, kind: EntryType, amount: int, details: string, phone: string,
                           time: string, entryId: int, creditorId: int)
    ensures var next := AddEntryState(prev, kind, amount, details, phone, time, entryId, creditorId);
      |next.entries| == |prev.entries| + 1
      && next.entries[..|prev.entries|] == prev.entries
      && next.entries[|prev.entries|] == Entry(entryId, prev.selectedDate, time, kind, details, amount)
      && next.staff == prev.staff && next.openingBalance == prev.openingBalance
      && next.selectedDate == prev.selectedDate
      && (MirrorOf(kind, details, amount, phone, entryId, prev.selectedDate).None? ==> next.creditors == prev.creditors)
  {
    var next := AddEntryState(prev, kind, amount, details, phone, time, entryId, creditorId);
    assert next.entries[..|prev.entries|] == prev.entries;
  }

  /** Number of ledger lines with a given id in one creditor's list. */
  function CountId(txs: seq<CreditorTransaction>, id: int): nat {
    if txs == [] then 0
    else CountId(txs[..|txs| - 1], id) + (if txs[|txs| - 1].id == id then 1 else 0)
  }

  /** Number of ledger lines with a given id across all creditors. */
  function TxCount(cs: seq<Creditor>, id: int): nat {
    if cs == [] then 0 else TxCount(cs[..|cs| - 1], id) + CountId(cs[|cs| - 1].transactions, id)
  }

  lemma CountIdAppend(txs: seq<CreditorTransaction>, tx: CreditorTransaction, id: int)
    ensures CountId(txs + [tx], id) == CountId(txs, id) + (if tx.id == id then 1 else 0)
  {
    assert (txs + [tx])[..|txs|] == txs;
  }

  lemma TxCountAppend(cs: seq<Creditor>, c: Creditor, id: int)
    ensures TxCount(cs + [c], id) == TxCount(cs, id) + CountId(c.transactions, id)
  {
    assert (cs + [c])[..|cs|] == cs;
  }

  lemma {:induction false} TxCountUpdate(cs: seq<Creditor>, k: int, c: Creditor, id: int)
    requires 0 <= k < |cs|
    ensures TxCount(cs[k := c], id) == TxCount(cs, id) - CountId(cs[k].transactions, id) + CountId(c.transactions, id)
    decreases |cs|
  {
    var init := cs[..|cs| - 1];
    var u := cs[k := c];
    if k == |cs| - 1 {
      assert u[..|u| - 1] == init;
    } else {
      assert u[..|u| - 1] == init[k := c];
      TxCountUpdate(init, k, c, id);
    }
  }

  /** A mirror adds exactly one ledger line with its id. */
  lemma MirrorAddsOneLine(cs: seq<Creditor>, m: Mirror, creditorId: int)
    ensures TxCount(MirrorInto(cs, m, creditorId), m.tx.id) == TxCount(cs, m.tx.id) + 1
  {
    var k := FindByName(cs, m.name);
    var id := m.tx.id;
    if k >= 0 {
      TxCountUpdate(cs, k, cs[k].(transactions := cs[k].transactions + [m.tx]), id);
      CountIdAppend(cs[k].transactions, m.tx, id);
    } else {
      TxCountAppend(cs, Creditor(creditorId, m.name, m.phone, [m.tx]), id);
      CountIdAppend([], m.tx, id);
      assert [] + [m.tx] == [m.tx];
    }
  }

  /** With a fresh entry id, a credit entry leaves exactly one ledger line carrying that id;
      any other entry leaves none. */
  lemma AddEntryMirrorsOnce(prev: AppState, kind: EntryType, amount: int, details: string, phone: string,
                            time: string, entryId: int, creditorId: int)
    requires TxCount(prev.creditors, entryId) == 0
    ensures var next := AddEntryState(prev, kind, amount, details, phone, time, entryId, creditorId);
      TxCount(next.creditors, entryId)
        == (if IsCreditSale(kind) || (kind == UdhariPaid && MatchFrom(details).Some?) then 1 else 0)
  {
    var m := MirrorOf(kind, details, amount, phone, entryId, prev.selectedDate);
    if m.Some? {
      MirrorAddsOneLine(prev.creditors, m.value, creditorId);
    }
  }

  /** The creditor a mirror lands in: the first match, or the new last creditor. */
  function MirrorTarget(cs: seq<Creditor>, name: string): nat {
    var k := FindByName(cs, name);
    if k >= 0 then k else |cs|
  }

  /** The mirror goes to the first creditor whose name matches up to case, which keeps its id,
      name and phone and gains the line at the end, unsorted; when none matches, exactly one
      creditor is created for it at the end.  Nothing else changes, the target's balance moves by
      the line's signed amount, and a ledger free of duplicate names stays so. */
  lemma MirrorEffect(cs: seq<Creditor>, m: Mirror, creditorId: int)
    ensures var r := MirrorInto(cs, m, creditorId);
      var t := MirrorTarget(cs, m.name);
      (DistinctNames(cs) ==> DistinctNames(r))
      && t <= |cs| && (forall i :: 0 <= i < t && i < |cs| ==> Lower(cs[i].name) != Lower(m.name))
      && (t < |cs| <==> exists i :: 0 <= i < |cs| && Lower(cs[i].name) == Lower(m.name))
      && (t < |cs| ==> Lower(cs[t].name) == Lower(m.name))
      && |r| == (if t < |cs| then |cs| else |cs| + 1)
      && r[t] == (if t < |cs| then cs[t].(transactions := cs[t].transactions + [m.tx])
                  else Creditor(creditorId, m.name, m.phone, [m.tx]))
      && CalculateBalance(r[t].transactions)
         == CalculateBalance(if t < |cs| then cs[t].transactions else [])
            + (if m.tx.kind == LenDen then m.tx.amount else -m.tx.amount)
      && (forall i :: 0 <= i < |cs| && i != t ==> r[i] == cs[i])
  {
    var r := MirrorInto(cs, m, creditorId);
    var t := MirrorTarget(cs, m.name);
    var before := if t < |cs| then cs[t].transactions else [];
    BalanceAppend(before, m.tx);
    if t < |cs| {
      assert r[t].transactions == before + [m.tx];
    } else {
      assert r[t].transactions == [] + [m.tx];
    }
  }

  /** The same, for `handleAddEntry` as a whole. */
  lemma AddEntryKeepsNamesDistinct(prev: AppState, kind: EntryType, amount: int, details: string, phone: string,
                                   time: string, entryId: int, creditorId: int)
    requires DistinctNames(prev.creditors)
    ensures DistinctNames(AddEntryState(prev, kind, amount, details, phone, time, entryId, creditorId).creditors)
  {
    var m := MirrorOf(kind, details, amount, phone, entryId, prev.selectedDate);
    if m.Some? {
      MirrorEffect(prev.creditors, m.value, creditorId);
    }
  }

  /** A credit sale moves the customer's balance up by the sale, a credit return or an Udhari
      payment moves it down by the amount. */
  lemma AddEntryBalanceEffect(prev: AppState, kind: EntryType, amount: int, details: string, phone: string,
                              time: string, entryId: int, creditorId: int)
    requires MirrorOf(kind, details, amount, phone, entryId, prev.selectedDate).Some?
    ensures var m := MirrorOf(kind, details, amount, phone, entryId, prev.selectedDate).value;
      var next := AddEntryState(prev, kind, amount, details, phone, time, entryId, creditorId);
      var t := MirrorTarget(prev.creditors, m.name);
      t < |next.creditors|
      && CalculateBalance(next.creditors[t].transactions)
         == CalculateBalance(if t < |prev.creditors| then prev.creditors[t].transactions else [])
            + (if kind == UdharDiye then Abs(amount) else -Abs(amount))
  {
    var m := MirrorOf(kind, details, amount, phone, entryId, prev.selectedDate).value;
    MirrorEffect(prev.creditors, m, creditorId);
  }

  /** A credit sale written by the Sales form is mirrored under the trimmed customer name, with
      the description the form chose. */
  lemma SaleMirrorsFormFields(saleType: EntryType, amount: int, customer: string, description: string,
                              id: int, date: Date)
    requires IsSaleType(saleType) && IsCreditSale(saleType)
    requires SalesSubmit(saleType, amount, customer, description).Ok?
    requires NoLineTerminator(customer) && NoLineTerminator(description)
    requires !Contains(" " + Trim(description), DescSep)
    ensures var s := SalesSubmit(saleType, amount, customer, description).value;
      var m := MirrorOf(s.kind, s.details, s.amount, s.phone, id, date);
      m.Some? && m.value.name == Trim(customer)
      && m.value.tx.description == TrimOr(description, DefaultSaleDescription(saleType))
      && m.value.tx.amount == amount
  {
    SalesRoundTrip(saleType, amount, customer, description);
  }

  /** An Udhari payment written by the Udhari form is always mirrored, as a payment under the
      trimmed customer name, with the method's default description when none was typed. */
  lemma PaymentMirrorsFormFields(amount: int, customer: string, phone: string, m: PayMethod, description: string,
                                 id: int, date: Date)
    requires UdhariSubmit(amount, customer, phone, m, description).Ok?
    requires NoLineTerminator(customer) && NoLineTerminator(description)
    requires !Contains(" " + Trim(description), CashMarker) && !Contains(" " + Trim(description), OnlineMarker)
    ensures var s := UdhariSubmit(amount, customer, phone, m, description).value;
      var mr := MirrorOf(s.kind, s.details, s.amount, s.phone, id, date);
      mr.Some? && mr.value.name == Trim(customer) && mr.value.tx.kind == Jama
      && mr.value.tx.description == TrimOr(description, DefaultPaymentDescription(m))
      && mr.value.tx.amount == amount && mr.value.phone == Trim(phone)
  {
    UdhariRoundTrip(amount, customer, phone, m, description);
    DefaultDescriptionsAreSafe(m);
  }

  /** Adding an entry moves the closing cash of its day by exactly the entry's cash effect. */
  lemma AddEntryClosingCash(prev: AppState, kind: EntryType, amount: int, details: string, phone: string,
                            time: string, entryId: int, creditorId: int)
    ensures var next := AddEntryState(prev, kind, amount, details, phone, time, entryId, creditorId);
      ComputeAnalytics(next.entries, prev.selectedDate, prev.openingBalance).todaysCash
        == ComputeAnalytics(prev.entries, prev.selectedDate, prev.openingBalance).todaysCash
           + CashEffect(Entry(entryId, prev.selectedDate, time, kind, details, amount))
  {
    var e := Entry(entryId, prev.selectedDate, time, kind, details, amount);
    AddEntryAppendsOne(prev, kind, amount, details, phone, time, entryId, creditorId);
    var next := AddEntryState(prev, kind, amount, details, phone, time, entryId, creditorId);
    assert next.entries == next.entries[..|prev.entries|] + [next.entries[|prev.entries|]];
    assert next.entries == prev.entries + [e];
    AppendClosingCash(prev.entries, e, prev.selectedDate, prev.openingBalance);
  }

  /** `entries.map(e => e.id === updated.id ? updated : e)`. */
  function ReplaceById(es: seq<Entry>, u: Entry): (r: seq<Entry>)
    ensures |r| == |es|
    ensures forall i :: 0 <= i < |es| ==> r[i] == (if es[i].id == u.id then u else es[i])
  {
    if es == [] then []
    else ReplaceById(es[..|es| - 1], u) + [if es[|es| - 1].id == u.id then u else es[|es| - 1]]
  }

  function UpdateEntry(prev: AppState, u: Entry): AppState {
    prev.(entries := ReplaceById(prev.entries, u))
  }

  /** Updating keeps every entry with another id, in order. */
  lemma {:induction false} UpdateKeepsOthers(es: seq<Entry>, u: Entry)
    ensures Filter(ReplaceById(es, u), Not(HasId(u.id))) == Filter(es, Not(HasId(u.id)))
    decreases |es|
  {
    if es != [] {
      var init := es[..|es| - 1];
      var last := es[|es| - 1];
      var x := if last.id == u.id then u else last;
      var sel := Not(HasId(u.id));
      UpdateKeepsOthers(init, u);
      assert ReplaceById(es, u) == ReplaceById(init, u) + [x];
      FilterAppend(ReplaceById(init, u), x, sel);
      assert Selects(sel, x) <==> Selects(sel, last);
      if Selects(sel, last) {
        assert x == last;
      }
    }
  }

  /** The updated entry is in the log when some entry had its id. */
  lemma UpdatePlacesEntry(es: seq<Entry>, u: Entry, i: int)
    requires 0 <= i < |es| && es[i].id == u.id
    ensures u in ReplaceById(es, u)
  {
    assert ReplaceById(es, u)[i] == u;
  }

  lemma UpdateEntryState(prev: AppState, u: Entry)
    ensures var next := UpdateEntry(prev, u);
      next.creditors == prev.creditors && next.staff == prev.staff
      && next.openingBalance == prev.openingBalance && next.selectedDate == prev.selectedDate
      && |next.entries| == |prev.entries|
      && Filter(next.entries, Not(HasId(u.id))) == Filter(prev.entries, Not(HasId(u.id)))
  {
    UpdateKeepsOthers(prev.entries, u);
  }

  /** `entries.filter(e => e.id !== entryId)`. */
  function DeleteEntry(prev: AppState, entryId: int): AppState {
    prev.(entries := Filter(prev.entries, Not(HasId(entryId))))
  }

  /** Deleting removes exactly the entries with that id, keeps every other one as often as
      before, and leaves the creditor ledger alone: the mirrored line stays. */
  lemma DeleteRemovesOnlyId(prev: AppState, entryId: int)
    ensures var next := DeleteEntry(prev, entryId);
      (forall e :: e in next.entries <==> e in prev.entries && e.id != entryId)
      && multiset(next.entries) + multiset(Filter(prev.entries, HasId(entryId))) == multiset(prev.entries)
      && next.creditors == prev.creditors && next.staff == prev.staff
      && next.openingBalance == prev.openingBalance && next.selectedDate == prev.selectedDate
  {
    FilterMembers(prev.entries, Not(HasId(entryId)));
    forall e ensures Selects(Not(HasId(entryId)), e) <==> e.id != entryId {}
    FilterComplement(prev.entries, HasId(entryId));
  }

  /** `entries.filter(e => e.date !== prev.selectedDate)`. */
  function ClearTodaysData(prev: AppState): AppState {
    prev.(entries := Filter(prev.entries, Not(OnDate(prev.selectedDate))))
  }

  /** Clearing removes exactly the selected day's entries: every other day keeps its entries
      in their order, the cleared day's closing cash falls back to the opening balance, and
      the creditor ledger is untouched. */
  lemma ClearRemovesOnlyToday(prev: AppState, d: Date)
    ensures var next := ClearTodaysData(prev);
      (forall e :: e in next.entries <==> e in prev.entries && e.date != prev.selectedDate)
      && (d != prev.selectedDate ==> TodaysEntries(next.entries, d) == TodaysEntries(prev.entries, d))
      && TodaysEntries(next.entries, prev.selectedDate) == []
      && ComputeAnalytics(next.entries, prev.selectedDate, prev.openingBalance).todaysCash == prev.openingBalance
      && next.creditors == prev.creditors
  {
    var sel := prev.selectedDate;
    var kept := Filter(prev.entries, Not(OnDate(sel)));
    FilterMembers(prev.entries, Not(OnDate(sel)));
    forall e ensures Selects(Not(OnDate(sel)), e) <==> e.date != sel {}
    if d != sel {
      FilterNarrow(prev.entries, Not(OnDate(sel)), OnDate(d));
    }
    FilterMembers(kept, OnDate(sel));
    var today := TodaysEntries(kept, sel);
    if today != [] {
      assert today[0] in today;
    }
    ClosingCashFormula(kept, sel, prev.openingBalance);
  }
}
