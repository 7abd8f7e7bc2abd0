/**
 * pages/Invoices.tsx: the invoice list with its statistics cards, the All/Paid/Pending
 * tabs, the search box, delete, and the "mark as paid" quick action.
 */
module InvoicesPage {
  import opened Wrappers
  import opened Domain
  import opened Aggregate
  import opened Text
  import opened DocStore
  import opened Notifications
  import InvoiceService
  import PaymentService

  datatype ListFilter = All | PaidOnly | Unpaid


  datatype Stats = Stats(totalOutstanding: real, draftCount: nat, draftValue: real, recentPaid: real)

  /** The four cards: outstanding (neither paid nor draft), drafts by count and value, and paid. */
  function ComputeStats(invoices: seq<Invoice>): Stats {
    Stats(Sum(Filter(invoices, IsOutstanding), InvoiceTotal),
          Count(invoices, IsDraft),
          Sum(Filter(invoices, IsDraft), InvoiceTotal),
          Sum(Filter(invoices, IsPaid), InvoiceTotal))
  }

  /** The three value cards split the invoices: together they add up to every invoice's total. */
  lemma StatsPartitionTotal(invoices: seq<Invoice>)
    ensures var s := ComputeStats(invoices);
      s.totalOutstanding + s.draftValue + s.recentPaid == Sum(invoices, InvoiceTotal)
  {
    var notOut := (inv: Invoice) => !IsOutstanding(inv);
    SumPartition(invoices, InvoiceTotal, IsOutstanding, notOut);
    var notDraft := (inv: Invoice) => !IsDraft(inv);
    SumPartition(Filter(invoices, notOut), InvoiceTotal, IsDraft, notDraft);
    FilterFilter(invoices, notOut, IsDraft, IsDraft);
    FilterFilter(invoices, notOut, notDraft, IsPaid);
  }

  /** The tab test: All keeps everything, Paid keeps paid invoices, Pending keeps every other status. */
  predicate MatchesFilter(inv: Invoice, filter: ListFilter) {
    match filter
    case All => true
    case PaidOnly => inv.data.status == InvoiceStatus.Paid
    case Unpaid => inv.data.status != InvoiceStatus.Paid
  }

  /** The search test: empty matches all, otherwise client name or invoice number contains it, ignoring case. */
  predicate MatchesSearch(inv: Invoice, search: string) {
    search == "" || Includes(Lower(inv.data.client.data.name), Lower(search))
      || Includes(Lower(inv.data.invoiceNumber), Lower(search))
  }

  function Visible(filter: ListFilter, search: string): Invoice -> bool {
    (inv: Invoice) => MatchesFilter(inv, filter) && MatchesSearch(inv, search)
  }

  /** filteredInvoices: the rows the table shows. */
  function FilteredInvoices(invoices: seq<Invoice>, filter: ListFilter, search: string): seq<Invoice> {
    Filter(invoices, Visible(filter, search))
  }

  /**
   * The table shows exactly the invoices passing both tests, in list order; with the
   * All tab and an empty search it shows the whole list.
   */
  lemma FilteredInvoicesSpec(invoices: seq<Invoice>, filter: ListFilter, search: string)
    ensures forall inv :: inv in FilteredInvoices(invoices, filter, search)
                          <==> inv in invoices && MatchesFilter(inv, filter) && MatchesSearch(inv, search)
    ensures IsSubsequence(FilteredInvoices(invoices, filter, search), invoices)
    ensures filter == All && search == "" ==> FilteredInvoices(invoices, filter, search) == invoices
  {
    forall inv ensures inv in FilteredInvoices(invoices, filter, search)
                       <==> inv in invoices && MatchesFilter(inv, filter) && MatchesSearch(inv, search) {
      FilterMembers(invoices, Visible(filter, search), inv);
    }
    FilterIsSubsequence(invoices, Visible(filter, search));
    if filter == All && search == "" {
      FilterAll(invoices, Visible(filter, search));
    }
  }

  /** The search ignores ASCII case: a query and its lower-case form show the same rows. */
  lemma SearchIgnoresCase(invoices: seq<Invoice>, filter: ListFilter, search: string)
    ensures FilteredInvoices(invoices, filter, Lower(search)) == FilteredInvoices(invoices, filter, search)
  {
    LowerIdempotent(search);
    FilterSame(invoices, Visible(filter, Lower(search)), Visible(filter, search));
  }

  /** `{ ...inv, status: PAID }` on the row with that id. */
  function MarkPaidLocal(invoices: seq<Invoice>, id: string): (r: seq<Invoice>)
    ensures |r| == |invoices|
    ensures forall i :: 0 <= i < |r| ==> r[i].id == invoices[i].id
    ensures forall i :: 0 <= i < |r| ==> r[i] == if invoices[i].id == id then Doc(id, invoices[i].data.(status := InvoiceStatus.Paid)) else invoices[i]
  {
    if invoices == [] then []
    else [if invoices[0].id == id then Doc(id, invoices[0].data.(status := InvoiceStatus.Paid)) else invoices[0]]
         + MarkPaidLocal(invoices[1..], id)
  }

  /** The payment the quick action records: the invoice's number and total, cash, already verified. */
  function PaymentForMarkPaid(invoice: Invoice, now: int): (p: PaymentData)
    ensures p.invoiceId == invoice.data.invoiceNumber && p.amount == invoice.data.total
    ensures p.clientName == invoice.data.client.data.name && p.status == PaymentStatus.Verified
    ensures p.date == now && p.paymentMethod == "Cash/Other"
  {
    PaymentData(invoice.data.invoiceNumber, invoice.data.total, now, "Cash/Other", None,
                invoice.data.client.data.name, PaymentStatus.Verified, None, None)
  }

  function DeletedNotice(ok: bool): Notice {
    if ok then Notify("Invoice deleted successfully", Success) else Notify("Failed to delete invoice", Error)
  }

  class InvoicesView {
    /** The fetched list held in page state. */
    var invoices: seq<Invoice>

    constructor (fetched: seq<Invoice>)
      ensures invoices == fetched
    {
      invoices := fetched;
    }

    /**
     * handleDelete: nothing without a user or a confirmation; otherwise the document is
     * deleted and, only when that succeeds, the row leaves the list.
     */
    method HandleDelete(userId: Option<string>, confirmed: bool, id: string, store: Collection<InvoiceData>, fail: bool)
      returns (notice: Notice)
      modifies this, store
      ensures userId.None? || !confirmed ==>
                notice == Quiet && invoices == old(invoices) && store.docs == old(store.docs)
      ensures userId.Some? && confirmed ==>
                && notice == DeletedNotice(!fail)
                && store.docs == (if fail then old(store.docs) else old(store.docs)[userId.value := old(store.Docs(userId.value)) - {id}])
                && invoices == (if fail then old(invoices) else Filter(old(invoices), (inv: Invoice) => inv.id != id))
    {
      if userId.None? || !confirmed {
        return Quiet;
      }
      var ok := InvoiceService.DeleteInvoice(store, userId.value, id, fail);
      if ok {
        invoices := Filter(invoices, (inv: Invoice) => inv.id != id);
      }
      notice := DeletedNotice(ok);
    }

    /**
     * handleMarkAsPaid: first the status write, then the payment record, then the row.
     * A failed status write changes nothing; a failed payment write leaves the stored
     * invoice paid while the list still shows the old status.
     */
    method HandleMarkAsPaid(
      userId: Option<string>, invoice: Invoice,
      invoiceStore: Collection<InvoiceData>, paymentStore: Collection<PaymentData>,
      paymentId: string, now: int, statusFail: bool, paymentFail: bool)
      returns (notice: Notice)
      requires userId.Some? ==> paymentId !in paymentStore.Docs(userId.value)
      modifies this, invoiceStore, paymentStore
      ensures userId.None? ==>
                notice == Quiet && invoices == old(invoices)
                && invoiceStore.docs == old(invoiceStore.docs) && paymentStore.docs == old(paymentStore.docs)
      ensures userId.Some? ==>
                var uid := userId.value;
                var statusOk := !statusFail && invoice.id in old(invoiceStore.Docs(uid));
                var paymentOk := statusOk && !paymentFail;
                && invoiceStore.docs == (if statusOk then old(invoiceStore.docs)[uid := old(invoiceStore.Docs(uid))[invoice.id :=
                                           InvoiceService.WithStatus(old(invoiceStore.Docs(uid))[invoice.id], InvoiceStatus.Paid, now)]]
                                         else old(invoiceStore.docs))
                && paymentStore.docs == (if paymentOk then old(paymentStore.docs)[uid := old(paymentStore.Docs(uid))[paymentId :=
                                           PaymentService.WithCreatedAt(PaymentForMarkPaid(invoice, now), now)]]
                                         else old(paymentStore.docs))
                && invoices == (if paymentOk then MarkPaidLocal(old(invoices), invoice.id) else old(invoices))
                && notice == (if paymentOk then Notify("Invoice #" + invoice.data.invoiceNumber + " marked as paid", Success)
                              else Notify("Failed to mark invoice as paid", Error))
    {
      if userId.None? {
        return Quiet;
      }
      var uid := userId.value;
      var statusOk := InvoiceService.UpdateInvoiceStatus(invoiceStore, uid, invoice.id, InvoiceStatus.Paid, now, statusFail);
      if !statusOk {
        return Notify("Failed to mark invoice as paid", Error);
      }
      var recorded := PaymentService.RecordPayment(paymentStore, uid, PaymentForMarkPaid(invoice, now), paymentId, now, paymentFail);
      if recorded.None? {
        return Notify("Failed to mark invoice as paid", Error);
      }
      invoices := MarkPaidLocal(invoices, invoice.id);
      notice := Notify("Invoice #" + invoice.data.invoiceNumber + " marked as paid", Success);
    }
  }

  /** After a successful quick action the row is paid and moves out of the outstanding total. */
  lemma MarkPaidMovesToPaid(invoices: seq<Invoice>, k: nat)
    requires k < |invoices| && IsOutstanding(invoices[k])
    requires forall i :: 0 <= i < |invoices| && i != k ==> invoices[i].id != invoices[k].id
    ensures IsPaid(MarkPaidLocal(invoices, invoices[k].id)[k])
    ensures ComputeStats(MarkPaidLocal(invoices, invoices[k].id)).totalOutstanding
            == ComputeStats(invoices).totalOutstanding - invoices[k].data.total
    ensures ComputeStats(MarkPaidLocal(invoices, invoices[k].id)).recentPaid
            == ComputeStats(invoices).recentPaid + invoices[k].data.total
  {
    var after := MarkPaidLocal(invoices, invoices[k].id);
    var paidRow := Doc(invoices[k].id, invoices[k].data.(status := InvoiceStatus.Paid));
    assert after == invoices[k := paidRow];
    FilterSumUpdate(invoices, k, paidRow, IsOutstanding, InvoiceTotal);
    FilterSumUpdate(invoices, k, paidRow, IsPaid, InvoiceTotal);
  }
}
