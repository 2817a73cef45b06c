# Shop ledger core, in Dafny

This project models the bookkeeping core of a single-page shop ledger (`BrandTrackerPro`). The shop keeps
three records:

- a daily log of entries: cash and online sales, credit sales ("UDHAR DIYE"), payments on credit
  ("UDHARI PAID"), expenses, cash returns and credit returns;
- a creditor ledger, one list of lines per customer: "len-den" when credit is given and "jama" when a
  payment comes in;
- a staff register.

The model covers:

- how the forms validate input and fix the sign of an amount;
- how adding an entry mirrors a credit entry into the creditor ledger, by reading the customer back
  out of the entry's detail text with the two regular expressions of the source;
- the day's summary figures and the closing cash, on the cards and in the PDF export;
- the report's three lists;
- the creditor, transaction, contact-import (VCF), staff and denomination-calculator handlers.

The modelling choices:

- Each state update of the component is a function or method from the previous `AppState` to the
  next one.
- The code that works step by step is imperative Dafny, proved equal to a reference function:
  - `handleAddEntry`'s find-and-push;
  - the in-place sort of a ledger;
  - the VCF line loop with its mutable contact object.
- Amounts are whole numbers of the smallest currency unit.
- Dates are day numbers. For well-formed `yyyy-MM-dd` strings, equality and
  `new Date(..).getTime()` order agree with day-number order.
- Ids that the source draws from the clock or from `Math.random()` are parameters.

Modules:

- `Text`: the `String.prototype` operations the core uses: `trim` over the JavaScript whitespace and
  line-terminator set, ASCII case mapping, `startsWith`, `includes`, `indexOf` and `split('\n')`.
- `Seqs`: list helpers, among them `Keep`, the model of `Array.prototype.filter`.
- `Records`: the entities: `Entry`, `CreditorTransaction`, `Creditor`, `StaffMember`, `AppState`.
- `Balance`, `DailyReport`, `DetailCodec`, `EntryForms`, `EntryLog`, `LedgerSort`, `CreditorBook`,
  `Vcf`, `StaffBook` and `Calculator` follow the component's parts.

## Model

| member | source | states |
|---|---|---|
| Balance.BalanceIsDifference | src/components/brand-tracker-pro.tsx:1104-1110 | The reduce equals the sum of len-den amounts minus the sum of jama amounts, and is 0 for an empty ledger. |
| Balance.BalanceAppend | src/components/brand-tracker-pro.tsx:1104-1110 | One more line moves the balance by +amount (len-den) or -amount (jama). |
| Balance.BalanceConcat | src/components/brand-tracker-pro.tsx:1104-1110 | The balance of two ledgers joined is the sum of their balances. |
| Balance.BalancePermutationInvariant | src/components/brand-tracker-pro.tsx:1104-1110 | Any reordering of the lines, such as the by-date sort, leaves the balance unchanged. |
| Balance.BalanceLabel | src/components/brand-tracker-pro.tsx:1357 | The caption is "Dena Hai" exactly when the len-den total exceeds the jama total, and "Lena Hai" otherwise. |
| Balance.BalanceShown | src/components/brand-tracker-pro.tsx:1455 | The figure shown is never negative and is the magnitude of len-den minus jama. |
| Seqs.Keep | src/components/brand-tracker-pro.tsx:1160 | `filter` keeps exactly the elements the test accepts and never grows the list. |
| Seqs.KeepCount | src/components/brand-tracker-pro.tsx:1160 | Each accepted element is kept as often as in the input; a rejected one never is. |
| Seqs.KeepConcat | src/components/brand-tracker-pro.tsx:1160 | Filtering a list joined from two is joining their filterings, so survivors stay in input order. |
| Seqs.KeepPairwise | src/components/brand-tracker-pro.tsx:1207 | Any relation that holds between every earlier and later element of the input holds in the output (sortedness, distinct names). |
| DailyReport.Filter | src/components/brand-tracker-pro.tsx:115-124 | A filter keeps only selected entries of the input and never grows the list. |
| DailyReport.FilterComplement | src/components/brand-tracker-pro.tsx:263 | The entries a filter keeps and those it drops together make up the input. |
| DailyReport.UdhariPaidSplit | src/components/brand-tracker-pro.tsx:121-128 | Udhari payments split into cash and online exactly by whether the details contain "(Online)". The parts add up to all payments, on the cards and in the PDF. |
| DailyReport.CashMovementParts | src/components/brand-tracker-pro.tsx:119-130 | The entry-by-entry cash effect of a day is cash sales + cash Udhari payments + expenses + cash returns. |
| DailyReport.ClosingCashFormula | src/components/brand-tracker-pro.tsx:114-130 | Today's cash is the opening balance plus the cash effect of each entry dated the selected day, and the PDF's total-in-hand is the same figure. |
| DailyReport.PdfMatchesCards | src/components/brand-tracker-pro.tsx:1686-1697 | Given the day's entries, the PDF's total-in-hand and total expenses equal the cards' figures. |
| DailyReport.PdfOnlineLeavesOutUdhariOnline | src/components/brand-tracker-pro.tsx:1689 | The PDF's online-sales figure is the card's online total minus the online Udhari payments. |
| DailyReport.AppendClosingCash | src/components/brand-tracker-pro.tsx:130 | A new entry moves a day's closing cash by its cash effect when it is of that day, and by nothing otherwise. |
| DailyReport.NonCashEntryLeavesClosingCash | src/components/brand-tracker-pro.tsx:130 | Online sales, credit sales, credit returns, online Udhari payments and other days' entries never move the closing cash. |
| DailyReport.ReportListsDisjoint | src/components/brand-tracker-pro.tsx:1782-1784 | Every entry of the seven kinds is in exactly one of the cash-in, online and outflow lists. |
| DailyReport.ReportPartition | src/components/brand-tracker-pro.tsx:1782-1784 | Together the three lists are a rearrangement of the entries: nothing twice, nothing missing. |
| DailyReport.ReportTotalsMatchCards | src/components/brand-tracker-pro.tsx:1782-1783 | The cash-in and online list totals are the cards' total cash in and total online in. |
| DetailCodec.MatchDescNoneIff | src/components/brand-tracker-pro.tsx:190 | `/(.*) - Desc: (.*)/` fails exactly when the text holds no " - Desc: ". |
| DetailCodec.MatchDescFound | src/components/brand-tracker-pro.tsx:190 | On a match, the groups hold no line terminator, the description holds no separator, and group1 + sep + group2 occurs in the text. |
| DetailCodec.DescRoundTrip | src/components/brand-tracker-pro.tsx:190 | Reading `<name> - Desc: <desc>`, the text written at line 620, back gives exactly (name, desc) when neither has a line terminator and the description cannot complete a later separator. |
| DetailCodec.FromRoundTrip | src/components/brand-tracker-pro.tsx:216-220 | Reading `From: <name> (<method>) - Desc: <desc>`, the text written at line 787, back gives exactly (name, method, desc) under the same conditions, for either method. |
| DetailCodec.MatchFromNeedsMarker | src/components/brand-tracker-pro.tsx:216-217 | A text with neither " (Cash) - Desc: " nor " (Online) - Desc: " never matches, so nothing is mirrored. |
| DetailCodec.DefaultDescriptionsAreSafe | src/components/brand-tracker-pro.tsx:786 | The default "Payment Received (method)" holds neither marker, so the payment round trip applies to it. |
| DetailCodec.DefaultSaleDescriptionsAreSafe | src/components/brand-tracker-pro.tsx:620 | "Udhari Sale" and "Credit Return" hold no separator, so the sale round trip applies to them. |
| EntryForms.SalesSubmit | src/components/brand-tracker-pro.tsx:604-625 | Rejected exactly when the amount is not positive (InvalidAmount) or a credit type has an empty trimmed customer. Otherwise the kind is kept, returns are negative and the rest positive, the magnitude is the typed amount, and a non-credit sale's details are its type name. |
| EntryForms.ExpenseSubmit | src/components/brand-tracker-pro.tsx:716-727 | Rejected exactly when the amount is not positive or the trimmed description is empty. Otherwise it yields an Expense of minus the amount with the trimmed, non-empty description. |
| EntryForms.UdhariSubmit | src/components/brand-tracker-pro.tsx:775-788 | Rejected exactly when the amount is not positive or the trimmed customer is empty. Otherwise it yields a positive UDHARI PAID of that amount with the trimmed phone. |
| EntryForms.EditSubmit | src/components/brand-tracker-pro.tsx:435-448 | Rejected exactly when the amount is not positive or the trimmed details are empty. Otherwise only amount and details change, the sign follows the kind and the magnitude is the typed amount. |
| EntryForms.SalesRoundTrip | src/components/brand-tracker-pro.tsx:190-192 | The ledger reads back from a credit sale (its details written at lines 619-620) exactly the trimmed customer and the chosen description. |
| EntryForms.UdhariRoundTrip | src/components/brand-tracker-pro.tsx:216-220 | The ledger reads back from an Udhari payment (its details written at lines 786-787) exactly the trimmed customer, the method and the chosen description. |
| EntryLog.MirrorOf | src/components/brand-tracker-pro.tsx:189-229 | A ledger line is derived exactly for credit sales, credit returns, and Udhari payments whose details match the `From:` pattern. It carries the entry's id and date and the amount's magnitude, and it is len-den exactly for UDHAR DIYE. A matched credit sale takes the two groups as name and description; with no " - Desc: " the whole details are the name and the description is "Udhari Sale" or "Credit Return". A payment takes the name and, when the description group is empty, "Payment Received (method)", with the typed phone; a sale has phone "". |
| EntryLog.AddEntry | src/components/brand-tracker-pro.tsx:177-247 | The find loop and push produce exactly the reference state `AddEntryState`. |
| EntryLog.FindCreditor | src/components/brand-tracker-pro.tsx:194 | The case-blind search by name returns the first creditor whose lower-cased name matches, or -1 when none does, as `FindByName` specifies. |
| EntryLog.SubmitEntry | src/components/brand-tracker-pro.tsx:604-788 | For each of the three forms (Sales at 604-625, Expense at 716-727, Udhari at 775-788), a rejected form leaves the state unchanged and an accepted one adds its entry. |
| EntryLog.AddEntryAppendsOne | src/components/brand-tracker-pro.tsx:179-187 | Exactly one entry is appended at the end, dated the selected day. Staff, opening balance and selected day are untouched, and an entry that mirrors nothing leaves the creditors unchanged. |
| EntryLog.AddEntryMirrorsOnce | src/components/brand-tracker-pro.tsx:196-242 | With a fresh entry id, the ledger holds exactly one line with that id after a mirrored entry, and none otherwise. |
| EntryLog.MirrorEffect | src/components/brand-tracker-pro.tsx:194-242 | For the credit-sale branch and the Udhari-payment branch alike, the line goes to the first creditor whose name matches up to case, which keeps its id, name and phone; else one new creditor with the given id, the mirrored name and phone and just that line goes at the end. Names that were distinct stay distinct, that creditor's balance moves by ±amount, the other creditors are unchanged. |
| EntryLog.AddEntryKeepsNamesDistinct | src/components/brand-tracker-pro.tsx:194-213 | Adding an entry never creates a second creditor with the same name up to case. |
| EntryLog.AddEntryBalanceEffect | src/components/brand-tracker-pro.tsx:196-241 | The named customer's balance moves up by the amount for a credit sale and down by it for a credit return or payment. |
| EntryLog.SaleMirrorsFormFields | src/components/brand-tracker-pro.tsx:190-202 | A credit sale from the Sales form (lines 619-620) is mirrored under the trimmed customer, with the chosen description. |
| EntryLog.PaymentMirrorsFormFields | src/components/brand-tracker-pro.tsx:216-229 | An Udhari payment from the form (lines 786-788) is always mirrored, as a jama, under the trimmed customer, with the chosen description and the typed phone. |
| EntryLog.AddEntryClosingCash | src/components/brand-tracker-pro.tsx:179-187 | Adding an entry moves the selected day's closing cash (computed at line 130) by exactly the entry's cash effect. |
| EntryLog.ReplaceById | src/components/brand-tracker-pro.tsx:254 | Position by position, an entry with the updated id is replaced and every other entry is kept. |
| EntryLog.UpdateKeepsOthers | src/components/brand-tracker-pro.tsx:251-255 | Every entry with another id survives an update, in order. |
| EntryLog.UpdatePlacesEntry | src/components/brand-tracker-pro.tsx:254 | When some entry had the id, the updated entry is in the log. |
| EntryLog.UpdateEntryState | src/components/brand-tracker-pro.tsx:251-255 | Length and all other entries are kept, and creditors, staff, opening balance and selected day are untouched (no cascade). |
| EntryLog.DeleteRemovesOnlyId | src/components/brand-tracker-pro.tsx:260-264 | An entry survives exactly when its id differs, survivors plus removed entries are the old log, and the creditors are unchanged (no cascade). |
| EntryLog.ClearRemovesOnlyToday | src/components/brand-tracker-pro.tsx:269-273 | The selected day's entries are removed and every other day's are kept in order. The day's cash falls back to the opening balance, and creditors are unchanged. |
| LedgerSort.SortProperties | src/components/brand-tracker-pro.tsx:1170 | The sort yields lines newest first, holding the same lines as often as before. |
| LedgerSort.SortStable | src/components/brand-tracker-pro.tsx:1170 | Lines of the same day keep their order (`Array.prototype.sort` is stable). |
| LedgerSort.SortOfSorted | src/components/brand-tracker-pro.tsx:1189 | A ledger already newest first is left exactly as it is. |
| LedgerSort.SortByDate | src/components/brand-tracker-pro.tsx:1170 | The in-place insertion sort leaves the array equal to the reference stable sort of its old contents. |
| CreditorBook.AddCreditorEffect | src/components/brand-tracker-pro.tsx:1126-1144 | An empty trimmed name, or a name already present up to case, changes nothing. Otherwise a creditor with the trimmed name and phone and an empty ledger goes in front. Either way the name is present, names that were distinct stay distinct and the log is untouched. |
| CreditorBook.AddCreditorIdempotent | src/components/brand-tracker-pro.tsx:1133-1137 | Adding the same name twice is adding it once. |
| CreditorBook.UpdateDetailsKeepsLedgers | src/components/brand-tracker-pro.tsx:1149-1153 | Editing details keeps every creditor's id, ledger and balance. |
| CreditorBook.UpdateDetailsMayDuplicateNames | src/components/brand-tracker-pro.tsx:1152 | Editing does not check names: it can give two creditors the same name up to case. |
| CreditorBook.KeepOtherCreditors | src/components/brand-tracker-pro.tsx:1160 | A creditor survives exactly when its id differs, each survivor as often as before; the order is that of `Seqs.Keep`. |
| CreditorBook.RemoveCreditorEffect | src/components/brand-tracker-pro.tsx:1157-1161 | Exactly the creditors with that id go. Entries and staff are untouched, and distinct names stay distinct. |
| CreditorBook.EditLedger | src/components/brand-tracker-pro.tsx:1165-1198 | The loop over creditors that sorts the edited ledger in place produces exactly `EditCreditors`. |
| CreditorBook.AddTransaction | src/components/brand-tracker-pro.tsx:1165-1179 | The state is `EditCreditors` with the new line added. |
| CreditorBook.UpdateTransaction | src/components/brand-tracker-pro.tsx:1184-1198 | The state is `EditCreditors` with the line of that id replaced. |
| CreditorBook.ReplaceTx | src/components/brand-tracker-pro.tsx:1188 | Position by position, a line with the updated id is replaced and every other line is kept. |
| CreditorBook.EditLedgerEffect | src/components/brand-tracker-pro.tsx:1167-1190 | For adding a line and for replacing one, the creditor's ledger becomes newest first and a permutation of the old lines plus the new line, or of the old lines with the replacement. Each day's order is kept and the balance is that of the edited lines. Id, name and phone are kept and other creditors unchanged. |
| CreditorBook.AddTransactionBalance | src/components/brand-tracker-pro.tsx:1169-1170 | A direct new line moves the balance by its signed amount, and the ledger is the old lines plus the new one. |
| CreditorBook.KeepOtherLines | src/components/brand-tracker-pro.tsx:1207 | A line survives exactly when its id differs, each survivor as often as before; the order is that of `Seqs.Keep`. |
| CreditorBook.KeepOtherLinesSorted | src/components/brand-tracker-pro.tsx:1207 | Deleting lines keeps a newest-first ledger newest first. |
| CreditorBook.DeleteTransactionEffect | src/components/brand-tracker-pro.tsx:1203-1216 | Only that creditor loses lines, exactly those with that id, sortedness is kept and the log is untouched. |
| Vcf.Classify | src/components/brand-tracker-pro.tsx:1234-1246 | A name read from an FN: line is trimmed. |
| Vcf.CardsAreNamed | src/components/brand-tracker-pro.tsx:1236-1238 | Every card the corrected parser emits has a non-empty, trimmed name. |
| Vcf.ReadVcf | src/components/brand-tracker-pro.tsx:1228-1247 | The line loop, with the emitted contact copied, yields exactly the reference reader's cards. |
| Vcf.ReadStep | src/components/brand-tracker-pro.tsx:1233-1246 | One line of the corrected loop moves the cards and the contact's fields exactly as the reference step `ReadLine` does, and the contact is the same object or a new one. |
| Vcf.FeedLine | src/components/brand-tracker-pro.tsx:1233-1246 | One line of the loop as written keeps the program's contact objects linked to the heap model and moves that model by `AliasStep`; only a BEGIN:VCARD line makes a new object. |
| Vcf.WriteName | src/components/brand-tracker-pro.tsx:1240-1241 | Setting the name writes only the current object, so the heap model changes in that object's name and nowhere else. |
| Vcf.WritePhone | src/components/brand-tracker-pro.tsx:1242-1245 | Setting the phone writes only the current object, so the heap model changes in that object's phone and nowhere else. |
| Vcf.ReadVcfAsWritten | src/components/brand-tracker-pro.tsx:1228-1247 | The line loop as written, on heap objects, yields exactly what the value model of the heap (`AliasLines`, `Emitted`) says. |
| Vcf.LateNameOverwritesCard | src/components/brand-tracker-pro.tsx:1237-1240 | A stray "FN:" after END:VCARD renames the emitted card to "" as written, while the corrected parser keeps "Asha". |
| Vcf.NewCards | src/components/brand-tracker-pro.tsx:1250-1252 | A contact is kept exactly when its name is not a creditor's name up to case. |
| Vcf.NewCardsCount | src/components/brand-tracker-pro.tsx:1250-1252 | Each contact with a new name is kept as often as it occurs in the file, and no other contact is. |
| Vcf.MergeEffect | src/components/brand-tracker-pro.tsx:1249-1265 | When every contact exists the state is unchanged. Otherwise exactly one new creditor per kept contact goes in front, in file order: the k-th has the k-th id, the k-th kept contact's name and phone and an empty ledger. Every contact with a new name is among them and the old creditors follow in order. |
| Vcf.FrontCreditors | src/components/brand-tracker-pro.tsx:1253-1265 | The k-th creditor put in front is the k-th new contact with the k-th id and an empty ledger, every new contact is among them, and the old creditors follow unchanged. |
| Vcf.ImportedCreditorsAreNamed | src/components/brand-tracker-pro.tsx:1237-1258 | With the corrected parser every imported creditor has a non-empty name. |
| Vcf.MergeKeepsFileDuplicates | src/components/brand-tracker-pro.tsx:1249-1252 | Names are checked only against the creditors before the import, so a name twice in the file is imported twice. |
| StaffBook.SaveStaffEffect | src/components/brand-tracker-pro.tsx:842-860 | An empty trimmed name, an unparsable salary or a salary that is not positive changes nothing. Adding appends one member with no absences or payments. Editing changes only the name and salary of that id. |
| StaffBook.SavePaymentEffect | src/components/brand-tracker-pro.tsx:865-886 | A valid payment is appended, dated today, to that member only; any invalid input changes nothing. |
| StaffBook.ToggleDate | src/components/brand-tracker-pro.tsx:898-901 | A marked day is removed (every occurrence); an unmarked day is appended. |
| StaffBook.ToggleAbsenceEffect | src/components/brand-tracker-pro.tsx:892-906 | Whether that day is an absence flips, every other day and member is unchanged, and only the absences change. |
| StaffBook.ToggleTwice | src/components/brand-tracker-pro.tsx:898-901 | Absences stay free of repeats. Toggling twice gives back the same days, and exactly the same list when the day was unmarked. |
| StaffBook.KeepOtherStaff | src/components/brand-tracker-pro.tsx:912 | A member survives exactly when its id differs, each survivor as often as before; the order is that of `Seqs.Keep`. |
| StaffBook.RemoveStaffEffect | src/components/brand-tracker-pro.tsx:909-913 | Exactly the members with that id go; entries and creditors are untouched. |
| Calculator.TotalFormula | src/components/brand-tracker-pro.tsx:1643-1648 | The total is 500·n500 + 200·n200 + … + 1·n1, with a missing count as 0, and 0 when nothing is entered. |
| Calculator.SetCountEffect | src/components/brand-tracker-pro.tsx:1650-1652 | Setting a denomination's count (0 when it does not parse) moves the total by the change times the denomination. A non-denomination key never shows. |
| Calculator.TotalNonNegative | src/components/brand-tracker-pro.tsx:1646-1648 | With no negative count the total is not negative. |

## Left out

- Storage and files: loading and saving in localStorage, backup download and restore.
- External calls: rendering through jsPDF, autoTable and XLSX; toasts, dialogs and the suggestion
  dropdowns. These are I/O and foreign libraries. Only the PDF's closing-cash arithmetic is modelled.
- Clock and randomness: `Date.now()`, `Math.random()`, `new Date()` and the display `time` string
  are parameters supplied by the caller.
- Floating point: JavaScript number semantics, `parseFloat`, `toFixed` and `Math.abs` on floats.
  Amounts are integers.
- EntryForms.SalesSubmit, EntryForms.ExpenseSubmit, EntryForms.UdhariSubmit, EntryForms.EditSubmit: the
  amount is an `int`. Each form rejects `isNaN(amount)` together with `amount <= 0` (lines 606-607, 718-719,
  777-778 and 436-437), so an amount that does not parse is represented by a non-positive one. The staff
  handlers take `Option<int>`, with `None` for an unparsable number.
- The StaffCard salary arithmetic: division by the days in a month is floating point and uses
  date-fns month arithmetic.
- React StrictMode runs each state updater twice. With the in-place `push` of `handleAddEntry`
  that would mirror twice; the model applies each updater once.
- EntryLog.AddEntry: the source pushes onto the previous state's creditor objects, a shallow copy.
  The model computes a new value, so the sharing between old and new state is not modelled.
- The password prompt, the login page and the route guard: fixed credentials, not reproduced.
  The SMS flow is a network call and is not part of this model.
- Deleting an entry does not cascade to its mirrored ledger line, and no deletion log is kept. The
  model follows the code here; the `deletionLog` field of `AppState` is never initialised or used.
- `(s.absences || [])` and `(s.payments || [])` guard against missing lists. In the model these
  lists always exist.
- Text is plain characters:
  - `toLowerCase` and `toUpperCase` map ASCII letters only;
  - there is no Unicode case folding.
- Dates are `int` day numbers rather than date strings.
- Vcf.Classify: the contract states only that an FN: name is trimmed. The order of the tests and
  the TEL fallback to the whole line when there is no ':' are in its body, which both parsers share.
- CreditorBook.AddTransaction: the new line's id comes in with the line rather than from
  `Date.now()` inside the updater.
- The selected creditor the detail view shows after each ledger change (`setSelectedCreditor`) is
  UI state and is not modelled.

## Findings

| source | as written | input that shows it | evidently intended | confidence | as-written member | corrected member |
|---|---|---|---|---|---|---|
| src/components/brand-tracker-pro.tsx:1236-1240 | `contacts.push(currentContact)` pushes the mutable contact itself, which is replaced only at the next BEGIN:VCARD. A later FN: or TEL line before another BEGIN rewrites a contact already emitted. | the lines `BEGIN:VCARD`, `FN:Asha`, `END:VCARD`, `FN:` import one contact named "" instead of "Asha" | each card is emitted with the name and phone it had at its END:VCARD, so every imported contact has a non-empty name | not executed; follows from the code as read | Vcf.ReadVcfAsWritten, Vcf.LateNameOverwritesCard | Vcf.ReadVcf, Vcf.CardsAreNamed |
