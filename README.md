# Invoicer core, modelled in Dafny

Invoicer is a small invoicing application for Ghanaian sole traders. Users create invoices whose totals carry VAT, the bundled NHIL and GETFund levy (5%) and the COVID-19 levy (1%). They mark invoices as paid, which also records a payment, and they verify payments. They keep a client list and read a dashboard, a reports page and CSV exports. Guests may create at most seven invoices and anonymous users may export at most seven times. Both limits are counters kept in the browser's local storage.

This project models the logic behind those features:

- the invoice editor's total derivation, line-item editing and its save protocol (`create_invoice.dfy`);
- the two usage-quota counters (`guest_manager.dfy`, `export_manager.dfy`) over a local-storage object (`local_storage.dfy`);
- the invoice, payment and client services over a per-user document store (`doc_store.dfy`, `invoice_service.dfy`, `payment_service.dfy`, `client_service.dfy`);
- the list pages' handlers, filters and aggregations (`invoices_page.dfy`, `payments_page.dfy`, `dashboard.dfy`, `reports.dfy`, `clients_page.dfy`, `client_details.dfy`, `view_invoice.dfy`);
- the CSV serialiser (`export_utils.dfy`);
- the notification buffer (`notification_context.dfy`).

`domain.dfy` holds the records, `aggregate.dfy` the `reduce`/`filter` vocabulary (sums, filters, counts) and its lemmas, and `text.dfy` lower-casing, substring search, join and split.

Modelling choices:

- Money is an exact `real`. Quantities are `int`, because the source never checks their sign.
- A document store is the class `DocStore.Collection<T>` holding `map<user, map<id, T>>`. Every write takes a `fail` flag that stands for any network or permission failure. An update of a missing document fails, as Firestore's `updateDoc` does. A delete succeeds whether or not the document exists.
- Fresh document ids, `Date.now()` and the local clock are parameters. The current user is an `Option<string>`: `None` stands for a missing or empty uid, the cases `!userProfile?.uid` stops on.
- Date parsing (`new Date(s).getMonth()`) and locale rendering are function parameters.
- Page handlers are methods on small view classes that hold the page's list state. The notification or alert a handler raises is returned as a `Notice` or outcome value.
- The editor accepts negative quantities and prices; nothing checks their sign (`CreateInvoice.NegativeQuantityAccepted`).
- `handleSave` checks the guest quota before it validates the form (`CreateInvoice.LockoutPrecedesValidation`).
- `ViewInvoice` recomputes VAT at a fixed 15% while showing the stored total. The model reproduces this as written (`ViewInvoice.Breakdown`). It also proves where the two disagree, and gives a reference breakdown that recovers the editor's rate (`ViewInvoice.ConsistentBreakdown`).

## Model

| member | source | states |
|---|---|---|
| CreateInvoice.TaxRate | pages/CreateInvoice.tsx:159 | the rate used is never 0 |
| CreateInvoice.TaxRateFallback | pages/CreateInvoice.tsx:159 | an absent or zero preference gives 15; any other preference is used as is |
| CreateInvoice.Currency | pages/CreateInvoice.tsx:164 | the currency is never empty (falls back to GHS) |
| CreateInvoice.SubtotalAdditive | pages/CreateInvoice.tsx:158 | the subtotal of no items is 0 and the subtotal of a concatenation is the sum of the subtotals |
| CreateInvoice.SubtotalNonNegative | pages/CreateInvoice.tsx:158 | with non-negative quantities and prices the subtotal is non-negative |
| CreateInvoice.NegativeQuantityAccepted | pages/CreateInvoice.tsx:502 | a quantity of -1 at price 10 gives a total of -10: no sign check exists |
| CreateInvoice.TotalsComposition | pages/CreateInvoice.tsx:158-163 | VAT is subtotal × rate/100 when enabled, else 0; levies 5% and COVID 1% likewise; total is their sum and equals subtotal × (1 + tax-impact percent / 100); all flags off gives total = subtotal |
| CreateInvoice.GhanaRatesExample | pages/CreateInvoice.tsx:158-163 | a subtotal of 1000 at 15% gives 1000, 1150, 1050, 1010 and 1210 for no flag, VAT, levies, COVID and all three |
| CreateInvoice.UpdateItem | pages/CreateInvoice.tsx:154-156 | the list keeps its length; exactly the items with the given id get the edit, all others are unchanged |
| CreateInvoice.AddItemKeepsSubtotal | pages/CreateInvoice.tsx:150-152 | adding an item appends one element and leaves the subtotal unchanged (quantity 1, price 0) |
| CreateInvoice.UpdateItemSubtotal | pages/CreateInvoice.tsx:154-156 | with unique ids, editing item k changes the subtotal by exactly the change in that item's line total |
| CreateInvoice.DeleteItemSpec | pages/CreateInvoice.tsx:517 | the remaining items are exactly the old ones with another id; their subtotal plus the removed items' subtotal is the old subtotal |
| CreateInvoice.InvoiceRecord | pages/CreateInvoice.tsx:193-222 | the saved record's due date falls back to the invoice date, client id falls back to "new", invoicesCount is 0, total is the derived total, status and items are the form's |
| CreateInvoice.GateProceedsIff | pages/CreateInvoice.tsx:178-189 | the save goes ahead iff signed in, not a locked-out guest, client name non-empty and every item described |
| CreateInvoice.LockoutPrecedesValidation | pages/CreateInvoice.tsx:181-186 | a guest at the limit gets the lockout whatever the form holds |
| CreateInvoice.IncompleteFormBlocks | pages/CreateInvoice.tsx:186-189 | a missing client name or item description stops the save with the missing-info alert |
| CreateInvoice.SeventhInvoiceLocksGuestOut | pages/CreateInvoice.tsx:181-227 | a guest at count 6 may save, and after the increment the next save is locked out |
| CreateInvoice.HandleSave | pages/CreateInvoice.tsx:177-236 | a stopped save changes nothing; a failed write changes nothing and reports failure; a successful one stores the stamped record under the fresh id and increments the guest counter exactly once, and only for guests |
| GuestManager.RemainingInvoices | utils/guestManager.ts:19-21 | remaining is at most 7 and is 7 − count unless it is 0 |
| GuestManager.IncrementGuestInvoiceCount | utils/guestManager.ts:9-12 | the stored counter becomes the old count + 1 |
| GuestManager.ResetGuestInvoiceCount | utils/guestManager.ts:28-30 | the counter's key is removed |
| GuestManager.IncrementAddsOne | utils/guestManager.ts:4-12 | increment adds exactly one to the count and leaves every other key alone |
| GuestManager.CanCreateInvoiceSpec | utils/guestManager.ts:14-17 | a non-guest may always create; a guest may iff count < 7 |
| GuestManager.HasReachedIsNegation | utils/guestManager.ts:23-26 | never reached for non-guests; for guests it is the negation of canCreateInvoice |
| GuestManager.RemainingZeroIffLocked | utils/guestManager.ts:14-21 | remaining is 0 iff a guest can no longer create |
| GuestManager.IncrementMonotone | utils/guestManager.ts:9-21 | an increment never raises the remaining count, and it locks a guest out only when it reaches 7 |
| GuestManager.CountAfterIncrements | utils/guestManager.ts:4-30 | k increments after a reset give count k |
| GuestManager.SevenIncrementsExhaust | utils/guestManager.ts:2-30 | after reset the count is 0; six increments still allow creation, seven lock the guest out with 0 remaining |
| ExportManager.RemainingExports | services/exportManager.ts:19-21 | remaining is at most 7 and is 7 − count unless it is 0 |
| ExportManager.IncrementExportCount | services/exportManager.ts:9-12 | the stored counter becomes the old count + 1 |
| ExportManager.ResetExportCount | services/exportManager.ts:23-25 | the counter's key is removed |
| ExportManager.CanExportSpec | services/exportManager.ts:14-21 | a logged-in user may always export; an anonymous one iff count < 7; remaining is 0 iff export is refused |
| ExportManager.HasReachedIsNegation | services/exportManager.ts:27-30 | hasReachedLimit is the negation of canExport |
| ExportManager.IncrementAndReset | services/exportManager.ts:9-25 | increment adds one; reset returns the count to 0 |
| ExportManager.CountersIndependent | services/exportManager.ts:1 | the two keys differ, so changing either counter leaves the other unchanged |
| LocalStorage.Storage.GetItem | utils/guestManager.ts:5 | a value is returned iff the key is stored, and it is the stored value |
| LocalStorage.Storage.SetItem | utils/guestManager.ts:11 | the key maps to the new value, all else unchanged |
| LocalStorage.Storage.RemoveItem | utils/guestManager.ts:29 | only that key is removed |
| DocStore.Collection.Add | services/invoiceService.ts:40 | success iff no failure; on success the fresh id maps to the data in the user's namespace, otherwise nothing changes |
| DocStore.Collection.Update | services/invoiceService.ts:46-49 | success iff no failure and the document exists; on success only that document is replaced by the merge |
| DocStore.Collection.Delete | services/invoiceService.ts:62 | success iff no failure; on success only that id is removed |
| DocStore.ListOrdered | services/invoiceService.ts:19-21 | returns exactly the documents that carry the sort key, each once, with its stored data, in non-increasing key order |
| InvoiceService.GetInvoices | services/invoiceService.ts:17-22 | the user's invoices ordered by createdAt descending; all of them when all are stamped |
| InvoiceService.GetInvoice | services/invoiceService.ts:24-31 | None iff the id is absent; otherwise the stored document with that id |
| InvoiceService.CreateInvoice | services/invoiceService.ts:33-42 | on success returns and stores the input plus both stamps, set to the call's clock reading, under the fresh id; on failure nothing changes |
| InvoiceService.StampedOverrides | services/invoiceService.ts:35-39 | the stamps override any same-named input fields and nothing else differs |
| InvoiceService.UpdateInvoiceStatus | services/invoiceService.ts:44-50 | only that invoice's status and updatedAt change; a missing invoice or failure changes nothing |
| InvoiceService.ApplyPatch | services/invoiceService.ts:54-57 | patched fields take the patch value, unpatched ones keep theirs, and updatedAt is always now |
| InvoiceService.UpdateInvoice | services/invoiceService.ts:52-58 | only that invoice changes, to the merged patch |
| InvoiceService.PatchKeepsUnpatched | services/invoiceService.ts:54-57 | a patch without status keeps the status; an empty patch only moves updatedAt |
| InvoiceService.PatchIdempotent | services/invoiceService.ts:54-57 | applying the same patch twice equals applying it once |
| InvoiceService.StatusPatchIsStatusUpdate | services/invoiceService.ts:44-57 | a patch with only a status is the same as updateInvoiceStatus, whatever updatedAt it carries |
| InvoiceService.DeleteInvoice | services/invoiceService.ts:60-63 | removes exactly that id; every other invoice keeps its data |
| PaymentService.GetPayments | services/paymentService.ts:25-30 | all the user's payments, each once, with stored data, date descending |
| PaymentService.GetPaymentsByClient | services/paymentService.ts:32-37 | exactly the payments whose clientName equals the argument, date descending |
| PaymentService.RecordPayment | services/paymentService.ts:39-46 | stores the data with createdAt = now but returns the id with the input data only |
| PaymentService.StoredVersusReturned | services/paymentService.ts:41-45 | the stored record differs from the returned one exactly in createdAt |
| PaymentService.UpdatePaymentStatus | services/paymentService.ts:48-54 | only that payment's status and updatedAt change |
| PaymentService.DeletePayment | services/paymentService.ts:56-59 | removes exactly that payment |
| ClientService.GetClients | services/clientService.ts:15-20 | the user's clients ordered by createdAt descending |
| ClientService.AddClient | services/clientService.ts:22-33 | stores and returns the input with invoicesCount 0, status Active and both stamps, under the fresh id |
| ClientService.NewClientDefaults | services/clientService.ts:24-30 | the defaults override whatever the input holds, and the contact fields are kept |
| ClientService.ApplyPatch | services/clientService.ts:37-40 | updatedAt is always now; status is the patch's if given, else the old one |
| ClientService.UpdateClient | services/clientService.ts:35-41 | only that client changes, to the merged patch |
| ClientService.PatchKeepsUnpatched | services/clientService.ts:37-40 | unpatched fields keep their values and the merge is idempotent |
| ClientService.DeleteClient | services/clientService.ts:43-46 | removes exactly that client |
| InvoicesPage.StatsPartitionTotal | pages/Invoices.tsx:101-118 | outstanding, draft and paid values together are the total of all invoices, and draftCount counts the drafts |
| InvoicesPage.FilteredInvoicesSpec | pages/Invoices.tsx:120-133 | an invoice is shown iff it is listed, passes the status tab and matches the search; the result is an order-preserving subsequence; tab All with an empty search shows everything |
| InvoicesPage.SearchIgnoresCase | pages/Invoices.tsx:127-130 | lower-casing the search text does not change the result |
| InvoicesPage.MarkPaidLocal | pages/Invoices.tsx:76-78 | same length and ids; exactly the matching invoice becomes Paid |
| InvoicesPage.PaymentForMarkPaid | pages/Invoices.tsx:67-74 | the payment carries the invoice number, total, client name, Cash/Other, Verified and today |
| InvoicesPage.InvoicesView.HandleDelete | pages/Invoices.tsx:47-57 | without a user or confirmation nothing happens; otherwise on success the invoice leaves the store and the list, and a notice reports the outcome |
| InvoicesPage.InvoicesView.HandleMarkAsPaid | pages/Invoices.tsx:59-86 | the status is written first; if it fails no payment is recorded and the list is unchanged; if the payment write then fails the status stays written; full success marks the invoice paid in the list and notifies |
| InvoicesPage.MarkPaidMovesToPaid | pages/Invoices.tsx:76-118 | marking an outstanding invoice paid moves exactly its total from outstanding to paid |
| PaymentsPage.FilteredPaymentsSpec | pages/Payments.tsx:67-70 | All returns the list unchanged; any other filter keeps exactly the payments whose lower-cased method contains the lower-cased filter, in order |
| PaymentsPage.StatsPartition | pages/Payments.tsx:85-96 | received plus pending value is the sum of all amounts; pending plus verified count is the list length |
| PaymentsPage.MethodColorSpec | pages/Payments.tsx:99-105 | the colour ignores case, and a method naming MTN anywhere, in either case, is yellow |
| PaymentsPage.MethodColorPrecedence | pages/Payments.tsx:100-103 | the tests run in order: a method starting with Telecel and naming no M is red, even when it also names bank |
| PaymentsPage.TelecelBankIsRed | pages/Payments.tsx:101-103 | "Telecel Bank" is red, not blue |
| PaymentsPage.BankIsBlue | pages/Payments.tsx:100-103 | "Bank" is blue |
| PaymentsPage.CashIsGray | pages/Payments.tsx:100-104 | "Cash", which names none of MTN, Telecel, Vodafone or bank, is gray |
| PaymentsPage.MarkVerifiedLocal | pages/Payments.tsx:55-57 | same length; exactly the matching payment becomes Verified |
| PaymentsPage.VerifyMovesAmount | pages/Payments.tsx:85-96 | verifying a pending payment moves exactly its amount from pending to received |
| PaymentsPage.PaymentsView.HandleDelete | pages/Payments.tsx:38-48 | on success the payment leaves store and list with a success notice; on failure nothing changes but the error notice |
| PaymentsPage.PaymentsView.HandleMarkAsVerified | pages/Payments.tsx:50-65 | on success the store and the list mark it Verified; on failure both are unchanged |
| Dashboard.StatsAgreeWithInvoiceList | pages/Dashboard.tsx:49-64 | revenue is the paid total and pending value is the outstanding total of the invoices page |
| Dashboard.ChartData | pages/Dashboard.tsx:66-85 | twelve buckets named Jan to Dec; bucket m holds the total of paid invoices with a readable date in month m |
| Dashboard.MonthsTotalSpec | pages/Dashboard.tsx:75-83 | the first k buckets sum to the paid invoices charted in months before k |
| Dashboard.ChartCoversRevenue | pages/Dashboard.tsx:49-85 | when every paid invoice has a readable date, the twelve buckets sum to total revenue |
| Dashboard.RecentInvoices | pages/Dashboard.tsx:87 | the first min(5, n) invoices |
| Dashboard.RecentAreNewest | pages/Dashboard.tsx:87 | over a createdAt-descending listing, no invoice left out is newer than one shown |
| Reports.WindowConsecutive | pages/Reports.tsx:34-37 | the window ends at the current month and each step moves one calendar month, wrapping into the previous year |
| Reports.MonthlyData | pages/Reports.tsx:29-54 | six points, oldest first; point k sums payments and invoices dated in window month 5 − k |
| Reports.StatusDataSpec | pages/Reports.tsx:57-61 | only Paid, Pending and Overdue slices, at most three, each holding its status's count and none empty; each of the three statuses has a slice iff some invoice has it |
| Reports.SuccessRateSpec | pages/Reports.tsx:111 | paid count / (n or 1) × 100, between 0 and 100, and 0 for no invoices |
| Reports.RevenueEntries | pages/Reports.tsx:64-68 | one entry per client with the sum of that client's payments |
| Reports.InsertSorted | pages/Reports.tsx:69 | inserting into a descending list keeps it descending |
| Reports.InsertPermutes | pages/Reports.tsx:69 | insertion adds exactly the one element |
| Reports.SortByRevenueSorted | pages/Reports.tsx:69 | the sort yields a non-increasing revenue order |
| Reports.SortByRevenuePermutes | pages/Reports.tsx:69 | the sort is a permutation |
| Reports.TopClientsRanked | pages/Reports.tsx:64-69 | at most five entries, sorted descending, none below an omitted entry |
| Reports.TopClientsPartition | pages/Reports.tsx:64-69 | the top entries and the omitted ones together are exactly the clients' entries |
| Reports.AverageInvoiceSpec | pages/Reports.tsx:27 | average × n is the invoiced total, and the average is 0 for no invoices |
| Reports.ComputeReport | pages/Reports.tsx:21-80 | no report iff invoices or payments are missing; otherwise earned, invoiced, outstanding = invoiced − earned, average, monthly, status and top-client data |
| ClientsPage.FormFor | pages/Clients.tsx:61-69 | the edit form copies name, email and number; the network defaults to MTN MOMO when empty and the location to empty when missing |
| ClientsPage.AddedClientFromForm | pages/Clients.tsx:44-46 | a client added from the form has the form's fields, invoicesCount 0 and status Active |
| ClientsPage.EditUnchangedSave | pages/Clients.tsx:37-69 | saving an edit form left untouched changes only updatedAt and the defaulted fields |
| ClientsPage.FilteredClientsSpec | pages/Clients.tsx:87-91 | a client is shown iff listed and matching the query; an empty query shows all; order is kept |
| ClientsPage.ClientBalanceSpec | pages/Clients.tsx:201-206 | outstanding is the total of the client's unpaid invoices; with non-negative totals 0 ≤ paid ≤ billed |
| ClientsPage.ClientsView.constructor | pages/Clients.tsx:21-29 | the modal is closed, the form empty and nothing is being edited |
| ClientsPage.ClientsView.OpenAddModal | pages/Clients.tsx:55-59 | opens an empty form with nothing being edited |
| ClientsPage.ClientsView.OpenEditModal | pages/Clients.tsx:61-71 | opens the client's form with that client being edited |
| ClientsPage.ClientsView.HandleSaveClient | pages/Clients.tsx:33-53 | edits update, otherwise add; only a successful write closes and resets the form |
| ClientsPage.HandleDelete | pages/Clients.tsx:73-83 | only a confirmed delete of a signed-in user touches the store; the notice reports the outcome |
| ClientDetails.FindClient | pages/ClientDetails.tsx:15 | None iff no client has the id; otherwise a listed client with that id |
| ClientDetails.InvoiceCount | pages/ClientDetails.tsx:70 | the stored count when it is present and non-zero, else the number of the client's invoices |
| ClientDetails.ClientPage | pages/ClientDetails.tsx:15-24 | not found iff no client has the route id; otherwise the first client with that id, exactly its invoices in their original order, its balance, and the invoice count with its fallback to the number found |
| ViewInvoice.NoInvoiceZero | pages/ViewInvoice.tsx:102-105 | with no invoice every amount is 0 |
| ViewInvoice.AgreesAtDefaultRate | pages/ViewInvoice.tsx:102-105 | for an invoice saved at 15% the view's breakdown is the editor's and adds up to the stored total |
| ViewInvoice.DisagreesAtOtherRates | pages/ViewInvoice.tsx:103 | for an invoice saved at another rate with VAT on and a non-zero subtotal, the breakdown shown does not add up to the stored total |
| ViewInvoice.DisagreementExample | pages/ViewInvoice.tsx:103 | one item of 100 saved at 12.5% stores 112.5 while the view shows VAT 15 |
| ViewInvoice.ConsistentBreakdownSpec | pages/ViewInvoice.tsx:102-105 | the reference breakdown recovers the editor's VAT from the stored total, adds up to it, and equals the view's at 15% |
| ViewInvoice.FormatDate | pages/ViewInvoice.tsx:24-28 | a present non-zero stamp is shown as its locale rendering; a missing or zero one as "-" |
| ViewInvoice.SavedInvoiceShowsStamps | pages/ViewInvoice.tsx:24-28 | a record saved through createInvoice shows the call's clock reading as both created and updated time |
| ExportUtils.Lookup | utils/exportUtils.ts:11 | the value under the first matching key, undefined when none matches |
| ExportUtils.UndoubleDouble | utils/exportUtils.ts:14 | doubling embedded quotes is undone by reading pairs back |
| ExportUtils.StringCellRoundTrip | utils/exportUtils.ts:13-14 | a string cell is wrapped in quotes and its inside reads back as the original string |
| ExportUtils.Cells | utils/exportUtils.ts:10-27 | one cell per header, each the cell of that header's value |
| ExportUtils.LineNoBreak | utils/exportUtils.ts:10-27 | a row without line breaks in its values gives a single-line record |
| ExportUtils.CsvLines | utils/exportUtils.ts:7-28 | the text splits into n + 1 lines: the joined headers, then each row's record in order |
| ExportUtils.EmptyExportsNothing | utils/exportUtils.ts:2-5 | no data or an empty list produces no text |
| Notifications.PushedShape | context/NotificationContext.tsx:38 | the new entry is first, the older ones follow in order, at most 10 kept |
| Notifications.ShowAllNewestFirst | context/NotificationContext.tsx:38 | after any sequence of notifications the history is the 10 newest, newest first |
| Notifications.NotificationCenter.constructor | context/NotificationContext.tsx:28-30 | no toasts, empty history, unread 0 |
| Notifications.NotificationCenter.ShowNotification | context/NotificationContext.tsx:32-39 | kind defaults to info; the toast is appended, the history pushed and unread raised by one |
| Notifications.NotificationCenter.ClearUnread | context/NotificationContext.tsx:47-49 | unread becomes 0 and nothing else changes |
| Notifications.NotificationCenter.Dismiss | context/NotificationContext.tsx:42-44 | removes the toasts with that id and nothing else |
| Notifications.DismissSpec | context/NotificationContext.tsx:43 | a toast remains iff it was there and has another id |

## Left out

- JSX rendering, styling, charts, `components/InvoicePreview.tsx`, `Layout.tsx` and `components/ui/*`: presentation only.
- PDF generation, WhatsApp and mailto links: foreign library and browser calls.
- `toLocaleString`, `toFixed`, `toLocaleDateString` and floating-point rounding: money is exact `real`, and printed numbers, dates and JSON are opaque text (`JsValue.Num`, `DateObj`, `Obj`).
- Firestore internals: id generation, query execution, read failures and permission errors. Ids are parameters and every write takes an opaque `fail` flag.
- Authentication and profile plumbing: the signed-in user, guest flag and profile preferences are parameters.
- React Query hooks: pages receive their lists as parameters. The hooks default the lists to `[]`, so the hooks never reach the missing-list branch of `Reports.ComputeReport`.
- `AlertContext` and the notification calls of pages: alerts and notices are returned as values (`CreateInvoice.SaveOutcome`, `Notifications.Notice`).
- The three-second `setTimeout` of a toast: dismissal is the explicit `Notifications.NotificationCenter.Dismiss`, and timing is not modelled.
- The `Math.random` toast id: the id is a parameter.
- Non-ASCII case folding: `Text.Lower` folds A–Z only.
- Local-storage values that are not integers: the store maps keys to `nat`, the value `parseInt` would read. The counters are functions of that store rather than a separate `count` field.
- The Blob and download tail of `exportToCSV` (lines 30-40) and the row building in each page's `handleExport`.
- `updateInvoice` is modelled, but no page calls it.
- Reports.TopClientsRanked: does not state that ties keep the clients' original order, although the sort is stable.
- Reports.MonthlyData: `new Date()` is read once per call, as the month and year parameters, where the source reads the clock again on every pass of its loop.
- Text.Lower: does not model `toLowerCase` beyond ASCII.
- InvoiceService.CreateInvoice: stamps createdAt and updatedAt with one clock reading, where `createInvoice` calls `Date.now()` once per stamp; the model therefore has the two equal, which the source does not guarantee across a millisecond boundary.
- ClientService.AddClient: the same single reading for the two stamps that `addClient` takes with two `Date.now()` calls.
- ClientService.NewClientDefaults: states createdAt = updatedAt = now, which rests on that single reading.
- InvoicesPage.InvoicesView.HandleMarkAsPaid: one reading `now` serves the status write's updatedAt, the payment's date and its createdAt, which the source reads three times.
- ViewInvoice.SavedInvoiceShowsStamps: shows the same time for created and updated because of the single reading in `InvoiceService.Stamped`.
- CreateInvoice.HandleSave: passes its single reading on to `InvoiceService.CreateInvoice`, with the consequence above.
