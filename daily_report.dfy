/**
 * The daily aggregator: the summary cards of the selected day (`analytics`), the closing
 * cash of the PDF report computed along its own path, and the three lists of the on-screen
 * report (cash in, online, outflows).
 */
module DailyReport {
  import opened Records
  import opened Text
  import opened Seqs

  /** The marker that makes an Udhari payment an online one. */
  const OnlineTag: string := "(Online)"

  /** The filters the ledger applies, one per `entries.filter(...)` of the component. */
  datatype Selector =
    | OfKind(kind: EntryType)
    | HasId(id: int)
    | Not(inner: Selector)
    | PaidCash
    | PaidOnline
    | OnDate(date: Date)
    | CashIn
    | OnlineIn
    | Outflow

  predicate Selects(s: Selector, e: Entry) {
    match s
    case OfKind(t) => e.kind == t
    case HasId(id) => e.id == id
    case Not(inner) => !Selects(inner, e)
    case PaidCash => e.kind == UdhariPaid && !Contains(e.details, OnlineTag)
    case PaidOnline => e.kind == UdhariPaid && Contains(e.details, OnlineTag)
    case OnDate(d) => e.date == d
    case CashIn => e.kind == Cash || (e.kind == UdhariPaid && !Contains(e.details, OnlineTag))
    case OnlineIn => e.kind == Online || (e.kind == UdhariPaid && Contains(e.details, OnlineTag))
    case Outflow => e.kind == Expense || e.kind == CashReturn || e.kind == CreditReturn || e.kind == UdharDiye
  }

  /** `entries.filter(...)`: the selected entries, in their order. */
  function Filter(es: seq<Entry>, s: Selector): (r: seq<Entry>)
    ensures |r| <= |es|
    ensures forall e :: e in r ==> e in es && Selects(s, e)
  {
    if es == [] then []
    else Filter(es[..|es| - 1], s) + (if Selects(s, es[|es| - 1]) then [es[|es| - 1]] else [])
  }

  /** `entries.reduce((sum, e) => sum + e.amount, 0)`. */
  function Sum(es: seq<Entry>): int {
    if es == [] then 0 else Sum(es[..|es| - 1]) + es[|es| - 1].amount
  }

  datatype Analytics = Analytics(
    opening: int,
    totalCashIn: int,
    totalOnlineIn: int,
    totalUdhariPaid: int,
    totalExpenses: int,
    todaysCash: int)

  function TodaysEntries(entries: seq<Entry>, selectedDate: Date): seq<Entry> {
    Filter(entries, OnDate(selectedDate))
  }

  /** The summary cards of the selected day. */
  function ComputeAnalytics(entries: seq<Entry>, selectedDate: Date, opening: int): Analytics {
    var today := TodaysEntries(entries, selectedDate);
    var cashSales := Sum(Filter(today, OfKind(Cash)));
    var onlineSales := Sum(Filter(today, OfKind(Online)));
    var udhariPaidCash := Sum(Filter(today, PaidCash));
    var udhariPaidOnline := Sum(Filter(today, PaidOnline));
    var expenses := Sum(Filter(today, OfKind(Expense)));
    var cashReturn := Sum(Filter(today, OfKind(CashReturn)));
    var totalCashIn := cashSales + udhariPaidCash;
    Analytics(
      opening,
      totalCashIn,
      onlineSales + udhariPaidOnline,
      udhariPaidCash + udhariPaidOnline,
      Abs(expenses),
      opening + totalCashIn + expenses + cashReturn)
  }

  datatype PdfSummary = PdfSummary(
    opening: int,
    cashSales: int,
    onlineSales: int,
    udhariPaid: int,
    totalExpenses: int,
    cashReturn: int,
    udhariPaidCash: int,
    totalInHand: int)

  /** The summary table of the PDF export, over the entries the report was given. */
  function ComputePdfSummary(entries: seq<Entry>, opening: int): PdfSummary {
    var cashSales := Sum(Filter(entries, OfKind(Cash)));
    var cashReturn := Sum(Filter(entries, OfKind(CashReturn)));
    var udhariPaidCash := Sum(Filter(entries, PaidCash));
    PdfSummary(
      opening,
      cashSales,
      Sum(Filter(entries, OfKind(Online))),
      Sum(Filter(entries, OfKind(UdhariPaid))),
      Abs(Sum(Filter(entries, OfKind(Expense)))),
      cashReturn,
      udhariPaidCash,
      opening + cashSales + udhariPaidCash + cashReturn + Sum(Filter(entries, OfKind(Expense))))
  }

  /** What one entry does to the cash in the till. */
  function CashEffect(e: Entry): int {
    if e.kind == Cash || e.kind == Expense || e.kind == CashReturn || Selects(PaidCash, e) then e.amount else 0
  }

  /** Reference definition of the day's cash movement: one pass, entry by entry. */
  function CashMovement(es: seq<Entry>): int {
    if es == [] then 0 else CashMovement(es[..|es| - 1]) + CashEffect(es[|es| - 1])
  }

  lemma FilterAppend(es: seq<Entry>, e: Entry, s: Selector)
    ensures Filter(es + [e], s) == Filter(es, s) + (if Selects(s, e) then [e] else [])
  {
    assert (es + [e])[..|es|] == es;
  }

  lemma SumConcat(a: seq<Entry>, b: seq<Entry>)
    ensures Sum(a + b) == Sum(a) + Sum(b)
    decreases |b|
  {
    if b != [] {
      var init := b[..|b| - 1];
      var ab := a + b;
      assert ab[..|ab| - 1] == a + init;
      assert ab[|ab| - 1] == b[|b| - 1];
      assert Sum(ab) == Sum(a + init) + b[|b| - 1].amount;
      SumConcat(a, init);
    } else {
      assert a + b == a;
    }
  }

  /** Filtering twice by the same selector is filtering once. */
  lemma {:induction false} FilterIdempotent(es: seq<Entry>, s: Selector)
    ensures Filter(Filter(es, s), s) == Filter(es, s)
    decreases |es|
  {
    if es != [] {
      var init := es[..|es| - 1];
      var last := es[|es| - 1];
      FilterIdempotent(init, s);
      if Selects(s, last) {
        FilterAppend(Filter(init, s), last, s);
      } else {
        assert Filter(es, s) == Filter(init, s);
      }
    }
  }

  /** A filter keeps exactly the selected entries. */
  lemma {:induction false} FilterMembers(es: seq<Entry>, s: Selector)
    ensures forall e :: e in Filter(es, s) <==> e in es && Selects(s, e)
    decreases |es|
  {
    if es != [] {
      FilterMembers(es[..|es| - 1], s);
      assert es == es[..|es| - 1] + [es[|es| - 1]];
    }
  }

  /** Filtering by a selector and its negation splits the entries in two: together the two
      lists hold every entry exactly as often as the input does. */
  lemma {:induction false} FilterComplement(es: seq<Entry>, s: Selector)
    ensures multiset(Filter(es, s)) + multiset(Filter(es, Not(s))) == multiset(es)
    decreases |es|
  {
    if es != [] {
      FilterComplement(es[..|es| - 1], s);
      FilterMultisetStep(es, s);
      FilterMultisetStep(es, Not(s));
      SplitLast(es);
    }
  }

  /** A filter's multiset grows by the last entry exactly when the filter takes it. */
  lemma FilterMultisetStep(es: seq<Entry>, s: Selector)
    requires es != []
    ensures var last := es[|es| - 1];
      multiset(Filter(es, s)) == multiset(Filter(es[..|es| - 1], s)) + (if Selects(s, last) then multiset{last} else multiset{})
  {
  }

  /** Filtering by a wider selector first does not change what a narrower one keeps, nor the
      order in which it keeps it. */
  lemma {:induction false} FilterNarrow(es: seq<Entry>, a: Selector, b: Selector)
    requires forall e :: Selects(b, e) ==> Selects(a, e)
    ensures Filter(Filter(es, a), b) == Filter(es, b)
    decreases |es|
  {
    if es != [] {
      var init := es[..|es| - 1];
      var last := es[|es| - 1];
      FilterNarrow(init, a, b);
      FilterStep(es, a);
      FilterStep(es, b);
      if Selects(a, last) {
        FilterAppend(Filter(init, a), last, b);
        if !Selects(b, last) {
          assert Filter(init, a) + [last] + [] == Filter(init, a) + [last];
        }
      } else {
        assert !Selects(b, last);
      }
    }
  }

  lemma FilterStep(es: seq<Entry>, s: Selector)
    requires es != []
    ensures Selects(s, es[|es| - 1]) ==> Filter(es, s) == Filter(es[..|es| - 1], s) + [es[|es| - 1]]
    ensures !Selects(s, es[|es| - 1]) ==> Filter(es, s) == Filter(es[..|es| - 1], s)
  {
    var init := Filter(es[..|es| - 1], s);
    assert init + [] == init;
  }

  /** When selector `c` takes exactly what `a` or `b` takes and these two never overlap, the
      total of `c` is the total of `a` plus the total of `b`. */
  lemma {:induction false} FilterUnionSum(es: seq<Entry>, a: Selector, b: Selector, c: Selector)
    requires forall e :: Selects(c, e) <==> (Selects(a, e) || Selects(b, e))
    requires forall e :: !(Selects(a, e) && Selects(b, e))
    ensures Sum(Filter(es, c)) == Sum(Filter(es, a)) + Sum(Filter(es, b))
    decreases |es|
  {
    if es != [] {
      var init := es[..|es| - 1];
      var last := es[|es| - 1];
      FilterUnionSum(init, a, b, c);
      FilterSumStep(es, a);
      FilterSumStep(es, b);
      FilterSumStep(es, c);
    }
  }

  /** The total of a filter grows by the last entry exactly when the filter takes it. */
  lemma FilterSumStep(es: seq<Entry>, s: Selector)
    requires es != []
    ensures var last := es[|es| - 1];
      Sum(Filter(es, s)) == Sum(Filter(es[..|es| - 1], s)) + (if Selects(s, last) then last.amount else 0)
  {
    var last := es[|es| - 1];
    var tail := if Selects(s, last) then [last] else [];
    SumConcat(Filter(es[..|es| - 1], s), tail);
    assert Sum(tail) == (if Selects(s, last) then last.amount else 0) by {
      if tail != [] { assert tail[..0] == []; }
    }
  }

  /** A UDHARI PAID entry is counted as online exactly when its details contain "(Online)",
      so the cash part and the online part add up to all Udhari payments, on the cards and in
      the PDF alike. */
  lemma UdhariPaidSplit(entries: seq<Entry>, selectedDate: Date, opening: int)
    ensures var today := TodaysEntries(entries, selectedDate);
      ComputeAnalytics(entries, selectedDate, opening).totalUdhariPaid == Sum(Filter(today, OfKind(UdhariPaid)))
      && ComputeAnalytics(entries, selectedDate, opening).totalUdhariPaid == ComputePdfSummary(today, opening).udhariPaid
      && Sum(Filter(today, PaidCash)) + Sum(Filter(today, PaidOnline)) == Sum(Filter(today, OfKind(UdhariPaid)))
  {
    var today := TodaysEntries(entries, selectedDate);
    FilterUnionSum(today, PaidCash, PaidOnline, OfKind(UdhariPaid));
  }

  lemma {:induction false} CashMovementParts(es: seq<Entry>)
    ensures CashMovement(es) == Sum(Filter(es, OfKind(Cash))) + Sum(Filter(es, PaidCash))
                                + Sum(Filter(es, OfKind(Expense))) + Sum(Filter(es, OfKind(CashReturn)))
    decreases |es|
  {
    if es != [] {
      var init := es[..|es| - 1];
      var last := es[|es| - 1];
      CashMovementParts(init);
      SumConcat(Filter(init, OfKind(Cash)), if Selects(OfKind(Cash), last) then [last] else []);
      SumConcat(Filter(init, PaidCash), if Selects(PaidCash, last) then [last] else []);
      SumConcat(Filter(init, OfKind(Expense)), if Selects(OfKind(Expense), last) then [last] else []);
      SumConcat(Filter(init, OfKind(CashReturn)), if Selects(OfKind(CashReturn), last) then [last] else []);
    }
  }

  /** Today's cash is the opening balance plus the cash effect of each entry of the selected
      day; the PDF export's closing cash is the same figure for the same day. */
  lemma ClosingCashFormula(entries: seq<Entry>, selectedDate: Date, opening: int)
    ensures ComputeAnalytics(entries, selectedDate, opening).todaysCash
            == opening + CashMovement(TodaysEntries(entries, selectedDate))
    ensures ComputePdfSummary(TodaysEntries(entries, selectedDate), opening).totalInHand
            == ComputeAnalytics(entries, selectedDate, opening).todaysCash
  {
    var today := TodaysEntries(entries, selectedDate);
    CashMovementParts(today);
  }

  /** The PDF is handed the day's entries already filtered; filtering them again inside the
      aggregator changes nothing, so both paths agree for the report the user sees. */
  lemma PdfMatchesCards(entries: seq<Entry>, selectedDate: Date, opening: int)
    ensures var pdf := ComputePdfSummary(TodaysEntries(entries, selectedDate), opening);
            var cards := ComputeAnalytics(TodaysEntries(entries, selectedDate), selectedDate, opening);
      pdf.totalInHand == cards.todaysCash && pdf.totalExpenses == cards.totalExpenses
  {
    FilterIdempotent(entries, OnDate(selectedDate));
  }

  /** The PDF's "Total Online Sales" footer carries only the Online sales, while the card
      carries Online sales plus online Udhari payments; the difference is exactly the online
      Udhari payments of the day. */
  lemma PdfOnlineLeavesOutUdhariOnline(entries: seq<Entry>, selectedDate: Date, opening: int)
    ensures var today := TodaysEntries(entries, selectedDate);
      ComputeAnalytics(entries, selectedDate, opening).totalOnlineIn
        == ComputePdfSummary(today, opening).onlineSales + Sum(Filter(today, PaidOnline))
  {
  }

  /** The cash movement of a list grows by the cash effect of an appended entry. */
  lemma CashMovementAppend(es: seq<Entry>, e: Entry)
    ensures CashMovement(es + [e]) == CashMovement(es) + CashEffect(e)
  {
    assert (es + [e])[..|es|] == es;
  }

  lemma DayMovementIgnores(entries: seq<Entry>, e: Entry, selectedDate: Date)
    requires CashEffect(e) == 0 || e.date != selectedDate
    ensures CashMovement(TodaysEntries(entries + [e], selectedDate)) == CashMovement(TodaysEntries(entries, selectedDate))
  {
    var today := TodaysEntries(entries, selectedDate);
    FilterAppend(entries, e, OnDate(selectedDate));
    if e.date == selectedDate {
      assert TodaysEntries(entries + [e], selectedDate) == today + [e];
      CashMovementAppend(today, e);
    } else {
      assert TodaysEntries(entries + [e], selectedDate) == today;
    }
  }

  /** Appending an entry moves the closing cash of a day by the entry's cash effect when the
      entry is of that day, and not at all otherwise. */
  lemma AppendClosingCash(entries: seq<Entry>, e: Entry, selectedDate: Date, opening: int)
    ensures ComputeAnalytics(entries + [e], selectedDate, opening).todaysCash
            == ComputeAnalytics(entries, selectedDate, opening).todaysCash
               + (if e.date == selectedDate then CashEffect(e) else 0)
  {
    ClosingCashFormula(entries, selectedDate, opening);
    ClosingCashFormula(entries + [e], selectedDate, opening);
    var today := TodaysEntries(entries, selectedDate);
    FilterAppend(entries, e, OnDate(selectedDate));
    if e.date == selectedDate {
      assert TodaysEntries(entries + [e], selectedDate) == today + [e];
      CashMovementAppend(today, e);
    } else {
      assert TodaysEntries(entries + [e], selectedDate) == today;
    }
  }

  /** Credit sales, credit returns, online sales, online Udhari payments and entries of
      other days never move the closing cash. */
  lemma NonCashEntryLeavesClosingCash(entries: seq<Entry>, e: Entry, selectedDate: Date, opening: int)
    requires e.kind == Online || e.kind == UdharDiye || e.kind == CreditReturn
             || Selects(PaidOnline, e) || e.date != selectedDate
    ensures ComputeAnalytics(entries + [e], selectedDate, opening).todaysCash
            == ComputeAnalytics(entries, selectedDate, opening).todaysCash
  {
    assert CashEffect(e) == 0 || e.date != selectedDate;
    ClosingCashFormula(entries, selectedDate, opening);
    ClosingCashFormula(entries + [e], selectedDate, opening);
    DayMovementIgnores(entries, e, selectedDate);
  }

  function CashInEntries(entries: seq<Entry>): seq<Entry> { Filter(entries, CashIn) }
  function OnlineInEntries(entries: seq<Entry>): seq<Entry> { Filter(entries, OnlineIn) }
  function OutflowEntries(entries: seq<Entry>): seq<Entry> { Filter(entries, Outflow) }

  /** Every entry falls in exactly one of the report's three lists. */
  lemma ReportListsDisjoint(e: Entry)
    ensures Selects(CashIn, e) || Selects(OnlineIn, e) || Selects(Outflow, e)
    ensures !(Selects(CashIn, e) && Selects(OnlineIn, e))
    ensures !(Selects(CashIn, e) && Selects(Outflow, e))
    ensures !(Selects(OnlineIn, e) && Selects(Outflow, e))
  {
  }

  /** The three lists of the report are, together, a rearrangement of the day's entries:
      nothing is shown twice and nothing is missing. */
  lemma {:induction false} ReportPartition(entries: seq<Entry>)
    ensures multiset(CashInEntries(entries)) + multiset(OnlineInEntries(entries)) + multiset(OutflowEntries(entries))
            == multiset(entries)
    decreases |entries|
  {
    if entries != [] {
      var init := entries[..|entries| - 1];
      var last := entries[|entries| - 1];
      ReportPartition(init);
      ReportListsDisjoint(last);
      FilterMultisetStep(entries, CashIn);
      FilterMultisetStep(entries, OnlineIn);
      FilterMultisetStep(entries, Outflow);
      SplitLast(entries);
      PartitionStep(multiset(CashInEntries(init)), multiset(OnlineInEntries(init)), multiset(OutflowEntries(init)),
                    multiset(init), last, Selects(CashIn, last), Selects(OnlineIn, last), Selects(Outflow, last));
    }
  }

  /** One more element, taken by exactly one of three parts, keeps the parts a partition. */
  lemma PartitionStep(a: multiset<Entry>, b: multiset<Entry>, c: multiset<Entry>, all: multiset<Entry>, x: Entry,
                      inA: bool, inB: bool, inC: bool)
    requires a + b + c == all
    requires (inA || inB || inC) && !(inA && inB) && !(inA && inC) && !(inB && inC)
    ensures (a + (if inA then multiset{x} else multiset{})) + (b + (if inB then multiset{x} else multiset{}))
            + (c + (if inC then multiset{x} else multiset{})) == all + multiset{x}
  {
  }

  /** The totals under the report's Cash In and Online tables are the card figures. */
  lemma ReportTotalsMatchCards(entries: seq<Entry>, selectedDate: Date, opening: int)
    ensures var today := TodaysEntries(entries, selectedDate);
      Sum(CashInEntries(today)) == ComputeAnalytics(entries, selectedDate, opening).totalCashIn
      && Sum(OnlineInEntries(today)) == ComputeAnalytics(entries, selectedDate, opening).totalOnlineIn
  {
    var today := TodaysEntries(entries, selectedDate);
    FilterUnionSum(today, OfKind(Cash), PaidCash, CashIn);
    FilterUnionSum(today, OfKind(Online), PaidOnline, OnlineIn);
  }
}
