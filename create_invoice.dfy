/**
 * pages/CreateInvoice.tsx: the invoice editor. The totals are recomputed from the
 * line items and three levy toggles on every render; saving goes through a fixed
 * sequence of checks before the store is written and the guest quota is charged.
 */
module CreateInvoice {
  import opened Wrappers
  import opened Domain
  import opened Aggregate
  import opened LocalStorage
  import opened DocStore
  import GuestManager
  import InvoiceService

  const DEFAULT_TAX_RATE: real := 15.0
  /** NHIL 2.5% and GETFund 2.5%, switched on and off together. */
  const LEVIES_RATE: real := 0.05
  const COVID_RATE: real := 0.01
  const DEFAULT_CURRENCY: string := "GHS"

  datatype TaxFlags = TaxFlags(vat: bool, levies: bool, covid: bool)

  datatype Totals = Totals(subtotal: real, vatAmount: real, leviesAmount: real, covidAmount: real, total: real)

  /** quantity × price of one line. */
  function LineTotal(item: LineItem): real {
    item.quantity as real * item.price
  }

  /** `items.reduce((acc, item) => acc + item.quantity * item.price, 0)`. */
  function Subtotal(items: seq<LineItem>): real {
    Sum(items, LineTotal)
  }

  /** `userProfile?.preferences?.defaultTaxRate || 15`: an absent or zero rate falls back to 15. */
  function TaxRate(defaultTaxRate: Option<real>): (r: real)
    ensures r != 0.0
  {
    if defaultTaxRate.Some? && defaultTaxRate.value != 0.0 then defaultTaxRate.value else DEFAULT_TAX_RATE
  }

  /** `userProfile?.preferences?.defaultCurrency || 'GHS'`. */
  function Currency(defaultCurrency: Option<string>): (r: string)
    ensures r != ""
  {
    if defaultCurrency.Some? && defaultCurrency.value != "" then defaultCurrency.value else DEFAULT_CURRENCY
  }

  /** The derived amounts shown in the editor and saved as the invoice total. */
  function ComputeTotals(items: seq<LineItem>, taxRate: real, flags: TaxFlags): Totals {
    var subtotal := Subtotal(items);
    var vatAmount := if flags.vat then subtotal * (taxRate / 100.0) else 0.0;
    var leviesAmount := if flags.levies then subtotal * LEVIES_RATE else 0.0;
    var covidAmount := if flags.covid then subtotal * COVID_RATE else 0.0;
    Totals(subtotal, vatAmount, leviesAmount, covidAmount, subtotal + vatAmount + leviesAmount + covidAmount)
  }

  /** The "Tax Impact" percentage shown in the tax dialog. */
  function TaxImpactPercent(taxRate: real, flags: TaxFlags): real {
    (if flags.vat then taxRate else 0.0) + (if flags.levies then 5.0 else 0.0) + (if flags.covid then 1.0 else 0.0)
  }

  /** The profile's rate is used unless it is missing or zero, when 15 applies. */
  lemma TaxRateFallback(defaultTaxRate: Option<real>)
    ensures defaultTaxRate == None || defaultTaxRate == Some(0.0) ==> TaxRate(defaultTaxRate) == 15.0
    ensures defaultTaxRate.Some? && defaultTaxRate.value != 0.0 ==> TaxRate(defaultTaxRate) == defaultTaxRate.value
  {
  }

  /** The subtotal of a concatenation is the sum of the subtotals; no items make 0. */
  lemma SubtotalAdditive(a: seq<LineItem>, b: seq<LineItem>)
    ensures Subtotal([]) == 0.0
    ensures Subtotal(a + b) == Subtotal(a) + Subtotal(b)
  {
    SumAppend(a, b, LineTotal);
  }

  /** With non-negative quantities and prices the subtotal is non-negative. */
  lemma SubtotalNonNegative(items: seq<LineItem>)
    requires forall i :: 0 <= i < |items| ==> items[i].quantity >= 0 && items[i].price >= 0.0
    ensures Subtotal(items) >= 0.0
  {
    forall x | x in items ensures LineTotal(x) >= 0.0 {
      var i :| 0 <= i < |items| && items[i] == x;
    }
    SumNonNegative(items, LineTotal);
  }

  /** Nothing checks signs: one line of quantity -1 at price 10 gives a subtotal and total of -10. */
  lemma NegativeQuantityAccepted()
    ensures ComputeTotals([LineItem("1", "refund", -1, 10.0)], DEFAULT_TAX_RATE, TaxFlags(false, false, false)).total == -10.0
  {
    assert [LineItem("1", "refund", -1, 10.0)][..0] == [];
  }

  /**
   * Each amount is its rate applied to the subtotal or zero when switched off, and the
   * grand total is the subtotal grown by the tax-impact percentage.
   */
  lemma TotalsComposition(items: seq<LineItem>, taxRate: real, flags: TaxFlags)
    ensures var t := ComputeTotals(items, taxRate, flags);
      && t.subtotal == Subtotal(items)
      && t.total == t.subtotal + t.vatAmount + t.leviesAmount + t.covidAmount
      && t.total == t.subtotal * (1.0 + TaxImpactPercent(taxRate, flags) / 100.0)
      && t.vatAmount == (if flags.vat then t.subtotal * (taxRate / 100.0) else 0.0)
      && t.leviesAmount == (if flags.levies then t.subtotal * 0.05 else 0.0)
      && t.covidAmount == (if flags.covid then t.subtotal * 0.01 else 0.0)
      && (flags == TaxFlags(false, false, false) ==> t.total == t.subtotal)
  {
    var s := Subtotal(items);
    var v := if flags.vat then taxRate else 0.0;
    var l := if flags.levies then 5.0 else 0.0;
    var c := if flags.covid then 1.0 else 0.0;
    assert (if flags.vat then s * (taxRate / 100.0) else 0.0) == s * (v / 100.0);
    assert (if flags.levies then s * LEVIES_RATE else 0.0) == s * (l / 100.0);
    assert (if flags.covid then s * COVID_RATE else 0.0) == s * (c / 100.0);
    assert s + s * (v / 100.0) + s * (l / 100.0) + s * (c / 100.0) == s * (1.0 + (v + l + c) / 100.0);
  }

  /** A 1000 subtotal at the 15% default: 1000, 1150, 1050, 1010 and 1210 with everything on. */
  lemma GhanaRatesExample()
    ensures var items := [LineItem("1", "consulting", 1, 1000.0)];
      && ComputeTotals(items, DEFAULT_TAX_RATE, TaxFlags(false, false, false)).total == 1000.0
      && ComputeTotals(items, DEFAULT_TAX_RATE, TaxFlags(true, false, false)).total == 1150.0
      && ComputeTotals(items, DEFAULT_TAX_RATE, TaxFlags(false, true, false)).total == 1050.0
      && ComputeTotals(items, DEFAULT_TAX_RATE, TaxFlags(false, false, true)).total == 1010.0
      && ComputeTotals(items, DEFAULT_TAX_RATE, TaxFlags(true, true, true)).total == 1210.0
  {
    var items := [LineItem("1", "consulting", 1, 1000.0)];
    assert items[..0] == [];
    assert Subtotal(items) == 1000.0;
  }

  // ---- the line-item list ----

  /** The line `addItem` appends: no description, quantity 1, price 0. */
  function NewItem(id: string): LineItem {
    LineItem(id, "", 1, 0.0)
  }

  /** addItem: `[...items, { id, description: '', quantity: 1, price: 0 }]`. */
  function AddItem(items: seq<LineItem>, id: string): seq<LineItem> {
    items + [NewItem(id)]
  }

  /** The three fields the editor's inputs change through updateItem. */
  datatype ItemEdit = SetDescription(description: string) | SetQuantity(quantity: int) | SetPrice(price: real)

  /** `{ ...item, [field]: value }`. */
  function EditItem(item: LineItem, edit: ItemEdit): LineItem {
    match edit
    case SetDescription(d) => item.(description := d)
    case SetQuantity(q) => item.(quantity := q)
    case SetPrice(p) => item.(price := p)
  }

  /** updateItem: `items.map(item => item.id === id ? { ...item, [field]: value } : item)`. */
  function UpdateItem(items: seq<LineItem>, id: string, edit: ItemEdit): (r: seq<LineItem>)
    ensures |r| == |items|
    ensures forall i :: 0 <= i < |items| ==> r[i] == if items[i].id == id then EditItem(items[i], edit) else items[i]
  {
    if items == [] then []
    else [if items[0].id == id then EditItem(items[0], edit) else items[0]] + UpdateItem(items[1..], id, edit)
  }

  /** The item delete button: `items.filter(i => i.id !== id)`. */
  function DeleteItem(items: seq<LineItem>, id: string): seq<LineItem> {
    Filter(items, (i: LineItem) => i.id != id)
  }

  /** A new line is worth nothing until edited, so adding one keeps the subtotal. */
  lemma AddItemKeepsSubtotal(items: seq<LineItem>, id: string)
    ensures |AddItem(items, id)| == |items| + 1
    ensures Subtotal(AddItem(items, id)) == Subtotal(items)
  {
    SumAppend(items, [NewItem(id)], LineTotal);
    assert [NewItem(id)][..0] == [];
  }

  /** Editing the one line with a given id changes the subtotal by that line's change alone. */
  lemma UpdateItemSubtotal(items: seq<LineItem>, k: nat, edit: ItemEdit)
    requires k < |items|
    requires forall i :: 0 <= i < |items| && i != k ==> items[i].id != items[k].id
    ensures Subtotal(UpdateItem(items, items[k].id, edit)) == Subtotal(items) - LineTotal(items[k]) + LineTotal(EditItem(items[k], edit))
  {
    assert UpdateItem(items, items[k].id, edit) == items[k := EditItem(items[k], edit)];
    SumUpdate(items, k, EditItem(items[k], edit), LineTotal);
  }

  /** Deleting keeps exactly the lines with other ids, and lowers the subtotal by what the deleted lines were worth. */
  lemma DeleteItemSpec(items: seq<LineItem>, id: string)
    ensures forall x :: x in DeleteItem(items, id) <==> x in items && x.id != id
    ensures Subtotal(DeleteItem(items, id)) + Subtotal(Filter(items, (i: LineItem) => i.id == id)) == Subtotal(items)
  {
    forall x ensures x in DeleteItem(items, id) <==> x in items && x.id != id {
      FilterMembers(items, (i: LineItem) => i.id != id, x);
    }
    SumPartition(items, LineTotal, (i: LineItem) => i.id != id, (i: LineItem) => i.id == id);
  }

  // ---- saving ----

  datatype ClientDetails = ClientDetails(name: string, email: string, phone: string, location: string)

  datatype BusinessDetails = BusinessDetails(
    name: string, address: string, email: string, momoNumber: string, momoNetwork: string, logoUrl: string, tin: string)

  /** The editor's state that handleSave reads. */
  datatype InvoiceForm = InvoiceForm(
    invoiceNumber: string,
    invoiceDate: string,
    dueDate: string,
    items: seq<LineItem>,
    flags: TaxFlags,
    selectedClientId: string,
    client: ClientDetails,
    business: BusinessDetails)

  datatype SaveOutcome =
    | NotSignedIn       // no profile uid: nothing happens
    | LockedOut         // the guest lockout dialog
    | MissingInfo       // the 'Missing Info' alert
    | Saved(invoice: Invoice)
    | SaveFailed        // the 'Failed to save invoice.' alert

  /** Client name present and every line described. */
  predicate FormComplete(form: InvoiceForm) {
    form.client.name != "" && forall i :: 0 <= i < |form.items| ==> form.items[i].description != ""
  }

  datatype Gate = Stop(outcome: SaveOutcome) | Proceed

  /** The early returns of handleSave, in the order the source tests them. */
  function SaveGate(signedIn: bool, isGuest: bool, quota: Items, form: InvoiceForm): Gate {
    if !signedIn then Stop(NotSignedIn)
    else if isGuest && !GuestManager.CanCreateInvoice(quota, isGuest) then Stop(LockedOut)
    else if !FormComplete(form) then Stop(MissingInfo)
    else Proceed
  }

  /** The record handleSave passes to createInvoice. */
  function InvoiceRecord(form: InvoiceForm, taxRate: real, currency: string, status: InvoiceStatus): (r: InvoiceData)
    ensures r.dueDate == if form.dueDate == "" then form.invoiceDate else form.dueDate
    ensures r.client.id == if form.selectedClientId == "" then "new" else form.selectedClientId
    ensures r.client.data.name == form.client.name && r.client.data.invoicesCount == Some(0)
    ensures r.total == ComputeTotals(form.items, taxRate, form.flags).total
    ensures r.status == status && r.items == form.items
  {
    InvoiceData(
      form.invoiceNumber,
      Doc(if form.selectedClientId == "" then "new" else form.selectedClientId,
          ClientData(form.client.name, form.client.email, form.client.phone, form.business.momoNetwork,
                     Some(0), ClientStatus.Active, Some(form.client.location), None, None)),
      form.invoiceDate,
      if form.dueDate == "" then form.invoiceDate else form.dueDate,
      form.items,
      status,
      currency,
      form.flags.vat,
      form.flags.levies,
      form.flags.covid,
      ComputeTotals(form.items, taxRate, form.flags).total,
      Some(BusinessProfile(form.business.name, form.business.email, form.business.address, None,
                           Some(form.business.momoNumber), Some(form.business.momoNetwork), form.business.tin)),
      None,
      None)
  }

  /** The save goes ahead exactly when signed in, not locked out and the form is complete. */
  lemma GateProceedsIff(signedIn: bool, isGuest: bool, quota: Items, form: InvoiceForm)
    ensures SaveGate(signedIn, isGuest, quota, form) == Proceed
            <==> signedIn && (!isGuest || GuestManager.GuestInvoiceCount(quota) < 7) && FormComplete(form)
  {
  }

  /** An exhausted guest is locked out whatever the form holds: the quota is checked before validation. */
  lemma LockoutPrecedesValidation(isGuest: bool, quota: Items, form: InvoiceForm)
    requires isGuest && GuestManager.GuestInvoiceCount(quota) >= 7
    ensures SaveGate(true, isGuest, quota, form) == Stop(LockedOut)
  {
  }

  /** A missing client name or item description stops the save once the quota allows it. */
  lemma IncompleteFormBlocks(isGuest: bool, quota: Items, form: InvoiceForm)
    requires !isGuest || GuestManager.GuestInvoiceCount(quota) < 7
    requires form.client.name == "" || exists i :: 0 <= i < |form.items| && form.items[i].description == ""
    ensures SaveGate(true, isGuest, quota, form) == Stop(MissingInfo)
  {
  }

  /** A guest at six saves a seventh invoice; the next attempt is locked out. */
  lemma SeventhInvoiceLocksGuestOut(quota: Items, form: InvoiceForm, next: InvoiceForm)
    requires GuestManager.GuestInvoiceCount(quota) == 6 && FormComplete(form)
    ensures SaveGate(true, true, quota, form) == Proceed
    ensures SaveGate(true, true, GuestManager.Incremented(quota), next) == Stop(LockedOut)
  {
    GuestManager.IncrementAddsOne(quota);
  }

  /**
   * handleSave: the lockout check, then validation, then the write, and only after
   * the write succeeds, the guest counter. `status` is None when the caller passes
   * none, which means Pending.
   */
  method HandleSave(
    userId: Option<string>, isGuest: bool, form: InvoiceForm,
    defaultTaxRate: Option<real>, defaultCurrency: Option<string>, status: Option<InvoiceStatus>,
    quota: Storage, invoices: Collection<InvoiceData>, newId: string, now: int, fail: bool)
    returns (outcome: SaveOutcome)
    requires userId.Some? ==> newId !in invoices.Docs(userId.value)
    modifies quota, invoices
    ensures SaveGate(userId.Some?, isGuest, old(quota.items), form).Stop? ==>
              outcome == SaveGate(userId.Some?, isGuest, old(quota.items), form).outcome
              && quota.items == old(quota.items) && invoices.docs == old(invoices.docs)
    ensures SaveGate(userId.Some?, isGuest, old(quota.items), form) == Proceed && fail ==>
              outcome == SaveFailed && quota.items == old(quota.items) && invoices.docs == old(invoices.docs)
    ensures SaveGate(userId.Some?, isGuest, old(quota.items), form) == Proceed && !fail ==>
              var record := InvoiceService.Stamped(
                InvoiceRecord(form, TaxRate(defaultTaxRate), Currency(defaultCurrency), status.GetOr(InvoiceStatus.Pending)), now);
              && outcome == Saved(Doc(newId, record))
              && invoices.docs == old(invoices.docs)[userId.value := old(invoices.Docs(userId.value))[newId := record]]
              && quota.items == if isGuest then GuestManager.Incremented(old(quota.items)) else old(quota.items)
  {
    if userId.None? {
      return NotSignedIn;
    }
    if isGuest && !GuestManager.CanCreateInvoice(quota.items, isGuest) {
      return LockedOut;
    }
    if form.client.name == "" || exists i :: 0 <= i < |form.items| && form.items[i].description == "" {
      return MissingInfo;
    }
    var record := InvoiceRecord(form, TaxRate(defaultTaxRate), Currency(defaultCurrency), status.GetOr(InvoiceStatus.Pending));
    var created := InvoiceService.CreateInvoice(invoices, userId.value, record, newId, now, fail);
    if created.None? {
      return SaveFailed;
    }
    if isGuest {
      GuestManager.IncrementGuestInvoiceCount(quota);
    }
    outcome := Saved(created.value);
  }
}
