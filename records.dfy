/**
 * The record shapes of the shop's book (src/lib/types.ts).  Amounts are whole numbers of
 * the smallest currency unit; a date is a day number standing for a `YYYY-MM-DD` string.
 */
module Records {
  import opened Text

  /** A calendar day. Equal day numbers are equal `YYYY-MM-DD` strings, and the order of day
      numbers is the order of `new Date(d).getTime()`. */
  type Date = int

  /** The seven kinds of daily entry. */
  datatype EntryType = Cash | Online | UdharDiye | CashReturn | CreditReturn | Expense | UdhariPaid

  /** The text the application stores for each kind. */
  function TypeName(t: EntryType): string {
    match t
    case Cash => "Cash"
    case Online => "Online"
    case UdharDiye => "UDHAR DIYE"
    case CashReturn => "Cash Return"
    case CreditReturn => "Credit Return"
    case Expense => "Expense"
    case UdhariPaid => "UDHARI PAID"
  }

  datatype Entry = Entry(id: int, date: Date, time: string, kind: EntryType, details: string, amount: int)

  /** `jama` is a payment received, `len-den` is credit given. */
  datatype TxType = Jama | LenDen

  datatype CreditorTransaction = CreditorTransaction(id: int, date: Date, kind: TxType, amount: int, description: string)

  datatype Creditor = Creditor(id: int, name: string, phone: string, transactions: seq<CreditorTransaction>)

  datatype StaffPayment = StaffPayment(id: int, date: Date, amount: int, description: string)

  datatype StaffMember = StaffMember(id: int, name: string, monthlySalary: int, absences: seq<Date>, payments: seq<StaffPayment>)

  /** The application state the component keeps (its initial value has no deletion log). */
  datatype AppState = AppState(
    entries: seq<Entry>,
    staff: seq<StaffMember>,
    openingBalance: int,
    selectedDate: Date,
    creditors: seq<Creditor>)

  /** How an Udhari payment was made; its name is what the detail text carries. */
  datatype PayMethod = ByCash | ByOnline

  function MethodName(m: PayMethod): string {
    match m
    case ByCash => "Cash"
    case ByOnline => "Online"
  }

  function Abs(x: int): (r: int)
    ensures r >= 0 && (r == x || r == -x)
  {
    if x < 0 then -x else x
  }

  /** Kinds whose amount is stored negative: money leaves the till or a credit is returned. */
  predicate StoredNegative(t: EntryType) {
    t == Expense || t == CashReturn || t == CreditReturn
  }

  /** The sign convention of the daily log. */
  predicate SignFollowsType(e: Entry) {
    if StoredNegative(e.kind) then e.amount < 0 else e.amount > 0
  }

  /** `creditors.find(c => c.name.toLowerCase() === name.toLowerCase())`, as an index:
      the first creditor whose name equals `name` up to case, or -1. */
  function FindByName(cs: seq<Creditor>, name: string): (r: int)
    ensures -1 <= r < |cs|
    ensures r >= 0 ==> Lower(cs[r].name) == Lower(name)
    ensures forall i :: 0 <= i < |cs| && (r == -1 || i < r) ==> Lower(cs[i].name) != Lower(name)
  {
    if cs == [] then -1
    else if Lower(cs[0].name) == Lower(name) then 0
    else var k := FindByName(cs[1..], name); if k == -1 then -1 else k + 1
  }

  /** No two creditors share a name up to case. */
  predicate DistinctNames(cs: seq<Creditor>) {
    forall i, j :: 0 <= i < j < |cs| ==> Lower(cs[i].name) != Lower(cs[j].name)
  }
}
