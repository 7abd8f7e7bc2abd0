/**
 * pages/ViewInvoice.tsx: the read-only invoice with its amount breakdown. The
 * breakdown is recomputed from the stored items at fixed rates; the grand total is
 * the stored one.
 */
module ViewInvoice {
  import opened Wrappers
  import opened Domain
  import opened Aggregate
  import CreateInvoice
  import InvoiceService

  /** The rate this page applies to VAT, whatever rate the invoice was saved with. */
  const VIEW_VAT_RATE: real := 0.15

  /**
   * The figures handed to the preview, as the page computes them: subtotal and levies
   * from the items (all zero with no invoice) and the stored grand total.
   */
  function Breakdown(invoice: Option<Invoice>): CreateInvoice.Totals {
    var subtotal := if invoice.Some? then CreateInvoice.Subtotal(invoice.value.data.items) else 0.0;
    var vatAmount := if invoice.Some? && invoice.value.data.vatEnabled then subtotal * VIEW_VAT_RATE else 0.0;
    var leviesAmount := if invoice.Some? && invoice.value.data.leviesEnabled then subtotal * CreateInvoice.LEVIES_RATE else 0.0;
    var covidAmount := if invoice.Some? && invoice.value.data.covidLevyEnabled then subtotal * CreateInvoice.COVID_RATE else 0.0;
    CreateInvoice.Totals(subtotal, vatAmount, leviesAmount, covidAmount, if invoice.Some? then invoice.value.data.total else 0.0)
  }

  /** The flags an invoice was saved with. */
  function SavedFlags(data: InvoiceData): CreateInvoice.TaxFlags {
    CreateInvoice.TaxFlags(data.vatEnabled, data.leviesEnabled, data.covidLevyEnabled)
  }

  /** The stored total is what the editor computed from these items and flags at `taxRate`. */
  predicate SavedAtRate(data: InvoiceData, taxRate: real) {
    data.total == CreateInvoice.ComputeTotals(data.items, taxRate, SavedFlags(data)).total
  }

  /** With no invoice every figure is zero. */
  lemma NoInvoiceZero()
    ensures Breakdown(None) == CreateInvoice.Totals(0.0, 0.0, 0.0, 0.0, 0.0)
  {
  }

  /** An invoice saved at the default 15% shows the editor's figures, and its lines add up to the total shown. */
  lemma AgreesAtDefaultRate(invoice: Invoice)
    requires SavedAtRate(invoice.data, CreateInvoice.DEFAULT_TAX_RATE)
    ensures Breakdown(Some(invoice)) == CreateInvoice.ComputeTotals(invoice.data.items, CreateInvoice.DEFAULT_TAX_RATE, SavedFlags(invoice.data))
    ensures var b := Breakdown(Some(invoice)); b.total == b.subtotal + b.vatAmount + b.leviesAmount + b.covidAmount
  {
  }

  /**
   * Saved at any other rate with VAT on and a non-zero subtotal, the VAT line differs
   * from the editor's and the lines no longer add up to the total shown.
   */
  lemma DisagreesAtOtherRates(invoice: Invoice, taxRate: real)
    requires SavedAtRate(invoice.data, taxRate) && taxRate != CreateInvoice.DEFAULT_TAX_RATE
    requires invoice.data.vatEnabled && CreateInvoice.Subtotal(invoice.data.items) != 0.0
    ensures var b := Breakdown(Some(invoice));
      && b.vatAmount != CreateInvoice.ComputeTotals(invoice.data.items, taxRate, SavedFlags(invoice.data)).vatAmount
      && b.total != b.subtotal + b.vatAmount + b.leviesAmount + b.covidAmount
  {
    var s := CreateInvoice.Subtotal(invoice.data.items);
    assert s * VIEW_VAT_RATE - s * (taxRate / 100.0) == s * (VIEW_VAT_RATE - taxRate / 100.0);
  }

  /** A concrete case: one line of 100 saved at 12.5% with VAT only stores 112.5, while the page lists 100 and VAT 15. */
  lemma DisagreementExample()
    ensures var inv := Doc("inv1", InvoiceData("INV-001", Doc("new", ClientData("Ama", "", "", "", Some(0), ClientStatus.Active, None, None, None)),
                                               "2024-01-01", "2024-01-01", [LineItem("1", "work", 1, 100.0)], InvoiceStatus.Pending, "GHS",
                                               true, false, false, 112.5, None, None, None));
      && SavedAtRate(inv.data, 12.5)
      && Breakdown(Some(inv)).vatAmount == 15.0
      && Breakdown(Some(inv)).subtotal + Breakdown(Some(inv)).vatAmount == 115.0
      && Breakdown(Some(inv)).total == 112.5
  {
    assert [LineItem("1", "work", 1, 100.0)][..0] == [];
  }

  /**
   * A breakdown whose VAT line is what remains of the stored total once the subtotal
   * and the levies are taken off, so the lines always add up to the total shown.
   */
  function ConsistentBreakdown(invoice: Option<Invoice>): CreateInvoice.Totals {
    var b := Breakdown(invoice);
    b.(vatAmount := if invoice.Some? && invoice.value.data.vatEnabled then b.total - b.subtotal - b.leviesAmount - b.covidAmount else 0.0)
  }

  /**
   * The consistent breakdown recovers the VAT the editor charged at whatever rate the
   * invoice was saved with, and agrees with the page's own figures at the default rate.
   */
  lemma ConsistentBreakdownSpec(invoice: Invoice, taxRate: real)
    requires SavedAtRate(invoice.data, taxRate)
    ensures ConsistentBreakdown(Some(invoice)).vatAmount
            == CreateInvoice.ComputeTotals(invoice.data.items, taxRate, SavedFlags(invoice.data)).vatAmount
    ensures var b := ConsistentBreakdown(Some(invoice)); b.total == b.subtotal + b.vatAmount + b.leviesAmount + b.covidAmount
    ensures taxRate == CreateInvoice.DEFAULT_TAX_RATE ==> ConsistentBreakdown(Some(invoice)) == Breakdown(Some(invoice))
  {
  }

  /** formatDate: '-' for a missing or zero stamp, otherwise the locale rendering `render` stands for. */
  function FormatDate(value: Option<int>, render: int -> string): (r: string)
    ensures value.Some? && value.value != 0 ==> r == render(value.value)
    ensures value.None? || value.value == 0 ==> r == "-"
  {
    if value.None? || value.value == 0 then "-" else render(value.value)
  }

  /** An invoice saved through the editor shows its creation and update times, both the save time. */
  lemma SavedInvoiceShowsStamps(record: InvoiceData, now: int, render: int -> string)
    requires now != 0
    ensures FormatDate(InvoiceService.Stamped(record, now).createdAt, render) == render(now)
    ensures FormatDate(InvoiceService.Stamped(record, now).updatedAt, render) == render(now)
  {
  }
}
