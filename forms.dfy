/**
 * The pure part of the four entry forms: validation, the sign rule and the detail text each
 * form hands to the ledger.  The amount is the number the user typed, already read as a
 * whole number of the smallest currency unit.
 */
module EntryForms {
  import opened Wrappers
  import opened Text
  import opened Records
  import opened DetailCodec

  /** Why a form refused to submit (each one a toast in the application). */
  datatype FormError = InvalidAmount | CustomerNameRequired | DescriptionRequired | DetailsRequired

  /** What a form hands to `handleAddEntry`: a type, a signed amount, the detail text and the
      phone number of the optional extra argument (empty when there is none). */
  datatype Submission = Submission(kind: EntryType, amount: int, details: string, phone: string)

  /** The kinds the Sales tab offers: three sale buttons and two return buttons. */
  predicate IsSaleType(t: EntryType) {
    t == Cash || t == Online || t == UdharDiye || t == CashReturn || t == CreditReturn
  }

  predicate IsCreditSale(t: EntryType) {
    t == UdharDiye || t == CreditReturn
  }

  /** The description a credit sale falls back to when none was typed. */
  function DefaultSaleDescription(t: EntryType): string {
    if t == UdharDiye then "Udhari Sale" else "Credit Return"
  }

  /** The description an Udhari payment falls back to when none was typed. */
  function DefaultPaymentDescription(m: PayMethod): string {
    "Payment Received (" + MethodName(m) + ")"
  }

  /** `value.trim() || fallback`. */
  function TrimOr(value: string, fallback: string): string {
    if Trim(value) == "" then fallback else Trim(value)
  }

  /** A submitted entry carries the sign its kind calls for. */
  predicate SignRule(s: Submission) {
    if StoredNegative(s.kind) then s.amount < 0 else s.amount > 0
  }

  /** The Sales tab: cash, online and credit sales, cash and credit returns. */
  function SalesSubmit(saleType: EntryType, amount: int, customer: string, description: string): (r: Result<Submission, FormError>)
    requires IsSaleType(saleType)
    ensures r.Err? <==> amount <= 0 || (IsCreditSale(saleType) && Trim(customer) == "")
    ensures r == Err(InvalidAmount) <==> amount <= 0
    ensures r.Ok? ==> r.value.kind == saleType && SignRule(r.value) && Abs(r.value.amount) == amount
    ensures r.Ok? && !IsCreditSale(saleType) ==> r.value.details == TypeName(saleType)
  {
    if amount <= 0 then Err(InvalidAmount)
    else if IsCreditSale(saleType) && Trim(customer) == "" then Err(CustomerNameRequired)
    else
      var finalAmount := if saleType == CashReturn || saleType == CreditReturn then -Abs(amount) else amount;
      var details :=
        if IsCreditSale(saleType) then
          Trim(customer) + " - Desc: " + TrimOr(description, DefaultSaleDescription(saleType))
        else TypeName(saleType);
      Ok(Submission(saleType, finalAmount, details, ""))
  }

  /** The Expenses tab. */
  function ExpenseSubmit(amount: int, description: string): (r: Result<Submission, FormError>)
    ensures r.Err? <==> amount <= 0 || Trim(description) == ""
    ensures r == Err(InvalidAmount) <==> amount <= 0
    ensures r.Ok? ==> r.value.kind == Expense && SignRule(r.value) && r.value.amount == -amount
                      && r.value.details == Trim(description) && r.value.details != ""
  {
    if amount <= 0 then Err(InvalidAmount)
    else if Trim(description) == "" then Err(DescriptionRequired)
    else Ok(Submission(Expense, -Abs(amount), Trim(description), ""))
  }

  /** The Udhari tab: a payment received from a credit customer. */
  function UdhariSubmit(amount: int, customer: string, phone: string, m: PayMethod, description: string): (r: Result<Submission, FormError>)
    ensures r.Err? <==> amount <= 0 || Trim(customer) == ""
    ensures r == Err(InvalidAmount) <==> amount <= 0
    ensures r.Ok? ==> r.value.kind == UdhariPaid && SignRule(r.value) && r.value.amount == amount
                      && r.value.phone == Trim(phone)
  {
    if amount <= 0 then Err(InvalidAmount)
    else if Trim(customer) == "" then Err(CustomerNameRequired)
    else
      var descText := TrimOr(description, DefaultPaymentDescription(m));
      var details := "From: " + Trim(customer) + " (" + MethodName(m) + ") - Desc: " + descText;
      Ok(Submission(UdhariPaid, amount, details, Trim(phone)))
  }

  /** The edit dialog: a new magnitude and new details for an existing entry, whose id, date,
      time and kind stay as they were. */
  function EditSubmit(entry: Entry, amount: int, details: string): (r: Result<Entry, FormError>)
    ensures r.Err? <==> amount <= 0 || Trim(details) == ""
    ensures r == Err(InvalidAmount) <==> amount <= 0
    ensures r.Ok? ==> SignFollowsType(r.value) && Abs(r.value.amount) == amount
                      && r.value.details == Trim(details)
                      && r.value == entry.(amount := r.value.amount, details := r.value.details)
  {
    if amount <= 0 then Err(InvalidAmount)
    else if Trim(details) == "" then Err(DetailsRequired)
    else
      var finalAmount := if StoredNegative(entry.kind) then -Abs(amount) else amount;
      Ok(entry.(amount := finalAmount, details := Trim(details)))
  }

  /** The text a credit sale writes is the `<name> - Desc: <desc>` format. */
  lemma SalesDetailsFormat(saleType: EntryType, amount: int, customer: string, description: string)
    requires IsSaleType(saleType) && IsCreditSale(saleType)
    requires SalesSubmit(saleType, amount, customer, description).Ok?
    ensures SalesSubmit(saleType, amount, customer, description).value.details
            == FormatDesc(Trim(customer), TrimOr(description, DefaultSaleDescription(saleType)))
  {
  }

  lemma TrimOrKeepsNoLineTerminator(value: string, fallback: string)
    requires NoLineTerminator(value) && NoLineTerminator(fallback)
    ensures NoLineTerminator(TrimOr(value, fallback))
  {
    TrimKeepsNoLineTerminator(value);
  }

  /** The ledger mirror reads back from a credit sale exactly the trimmed customer name and the
      description the form chose, so long as the typed texts are single lines and the typed
      description cannot complete a later separator. */
  lemma SalesRoundTrip(saleType: EntryType, amount: int, customer: string, description: string)
    requires IsSaleType(saleType) && IsCreditSale(saleType)
    requires SalesSubmit(saleType, amount, customer, description).Ok?
    requires NoLineTerminator(customer) && NoLineTerminator(description)
    requires !Contains(" " + Trim(description), DescSep)
    ensures MatchDesc(SalesSubmit(saleType, amount, customer, description).value.details)
            == Some((Trim(customer), TrimOr(description, DefaultSaleDescription(saleType))))
  {
    var name := Trim(customer);
    var desc := TrimOr(description, DefaultSaleDescription(saleType));
    TrimKeepsNoLineTerminator(customer);
    DefaultSaleDescriptionsAreSafe();
    TrimOrKeepsNoLineTerminator(description, DefaultSaleDescription(saleType));
    SalesDetailsFormat(saleType, amount, customer, description);
    DescRoundTrip(name, desc);
  }

  /** The text an Udhari payment writes is the `From:` format. */
  lemma UdhariDetailsFormat(amount: int, customer: string, phone: string, m: PayMethod, description: string)
    requires UdhariSubmit(amount, customer, phone, m, description).Ok?
    ensures UdhariSubmit(amount, customer, phone, m, description).value.details
            == FormatFrom(Trim(customer), m, TrimOr(description, DefaultPaymentDescription(m)))
  {
    var name, desc := Trim(customer), TrimOr(description, DefaultPaymentDescription(m));
    MarkerSpelled(m);
    Regroup("From: ", name, " (", MethodName(m), ") - Desc: ", desc);
  }

  /** The marker is the method's name in brackets, followed by the separator. */
  lemma MarkerSpelled(m: PayMethod)
    ensures MarkerOf(m) == " (" + MethodName(m) + ") - Desc: "
  {
    match m
    case ByCash => assert " (" + "Cash" + ") - Desc: " == CashMarker;
    case ByOnline => assert " (" + "Online" + ") - Desc: " == OnlineMarker;
  }

  lemma Regroup(a: string, b: string, c: string, x: string, d: string, e: string)
    ensures a + b + c + x + d + e == a + b + (c + x + d) + e
  {
  }

  /** The ledger mirror reads back from an Udhari payment the trimmed customer name, the method
      and the description the form chose. */
  lemma UdhariRoundTrip(amount: int, customer: string, phone: string, m: PayMethod, description: string)
    requires UdhariSubmit(amount, customer, phone, m, description).Ok?
    requires NoLineTerminator(customer) && NoLineTerminator(description)
    requires !Contains(" " + Trim(description), CashMarker) && !Contains(" " + Trim(description), OnlineMarker)
    ensures MatchFrom(UdhariSubmit(amount, customer, phone, m, description).value.details)
            == Some((Trim(customer), m, TrimOr(description, DefaultPaymentDescription(m))))
  {
    var desc := TrimOr(description, DefaultPaymentDescription(m));
    TrimKeepsNoLineTerminator(customer);
    DefaultDescriptionsAreSafe(m);
    TrimOrKeepsNoLineTerminator(description, DefaultPaymentDescription(m));
    UdhariDetailsFormat(amount, customer, phone, m, description);
    FromRoundTrip(Trim(customer), m, desc);
  }
}
