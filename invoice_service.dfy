/**
 * services/invoiceService.ts: the invoice collection of each user.
 * Writes stamp `createdAt`/`updatedAt` with the Date.now() reading `now`; object
 * spreads are field-by-field overrides, later fields winning.
 */
module InvoiceService {
  import opened Wrappers
  import opened Domain
  import opened DocStore

  /** `Partial<Invoice>`: a present field (Some) is written, an absent one is left alone. */
  datatype InvoicePatch = InvoicePatch(
    invoiceNumber: Option<string>,
    client: Option<Client>,
    date: Option<string>,
    dueDate: Option<string>,
    items: Option<seq<LineItem>>,
    status: Option<InvoiceStatus>,
    currency: Option<string>,
    vatEnabled: Option<bool>,
    leviesEnabled: Option<bool>,
    covidLevyEnabled: Option<bool>,
    total: Option<real>,
    businessInfo: Option<BusinessProfile>,
    createdAt: Option<int>,
    updatedAt: Option<int>)

  /** The patch that writes nothing. */
  const NoChanges := InvoicePatch(None, None, None, None, None, None, None, None, None, None, None, None, None, None)

  /** `{ ...invoiceData, createdAt: now, updatedAt: now }`: the stamps override the input's own. */
  function Stamped(data: InvoiceData, now: int): InvoiceData {
    data.(createdAt := Some(now), updatedAt := Some(now))
  }

  /** The merge `updateDoc(ref, { status, updatedAt: now })` performs. */
  function WithStatus(data: InvoiceData, status: InvoiceStatus, now: int): InvoiceData {
    data.(status := status, updatedAt := Some(now))
  }

  /** The merge `updateDoc(ref, { ...patch, updatedAt: now })` performs. */
  function ApplyPatch(data: InvoiceData, patch: InvoicePatch, now: int): (r: InvoiceData)
    ensures r.invoiceNumber == patch.invoiceNumber.GetOr(data.invoiceNumber)
    ensures r.client == patch.client.GetOr(data.client)
    ensures r.date == patch.date.GetOr(data.date) && r.dueDate == patch.dueDate.GetOr(data.dueDate)
    ensures r.items == patch.items.GetOr(data.items) && r.total == patch.total.GetOr(data.total)
    ensures r.status == patch.status.GetOr(data.status)
    ensures r.currency == patch.currency.GetOr(data.currency)
    ensures r.vatEnabled == patch.vatEnabled.GetOr(data.vatEnabled)
    ensures r.leviesEnabled == patch.leviesEnabled.GetOr(data.leviesEnabled)
    ensures r.covidLevyEnabled == patch.covidLevyEnabled.GetOr(data.covidLevyEnabled)
    ensures r.businessInfo == if patch.businessInfo.Some? then patch.businessInfo else data.businessInfo
    ensures r.createdAt == if patch.createdAt.Some? then patch.createdAt else data.createdAt
    ensures r.updatedAt == Some(now)
  {
    InvoiceData(
      patch.invoiceNumber.GetOr(data.invoiceNumber),
      patch.client.GetOr(data.client),
      patch.date.GetOr(data.date),
      patch.dueDate.GetOr(data.dueDate),
      patch.items.GetOr(data.items),
      patch.status.GetOr(data.status),
      patch.currency.GetOr(data.currency),
      patch.vatEnabled.GetOr(data.vatEnabled),
      patch.leviesEnabled.GetOr(data.leviesEnabled),
      patch.covidLevyEnabled.GetOr(data.covidLevyEnabled),
      patch.total.GetOr(data.total),
      if patch.businessInfo.Some? then patch.businessInfo else data.businessInfo,
      if patch.createdAt.Some? then patch.createdAt else data.createdAt,
      Some(now))
  }

  /** The field `getInvoices` orders by. */
  function CreatedAt(data: InvoiceData): Option<int> {
    data.createdAt
  }

  /** Every stored invoice carries its creation stamp. */
  ghost predicate AllStamped(m: map<string, InvoiceData>) {
    forall id :: id in m ==> m[id].createdAt.Some?
  }

  /** getInvoices: the user's invoices, newest `createdAt` first. */
  method GetInvoices(store: Collection<InvoiceData>, userId: string) returns (r: seq<Invoice>)
    ensures OrderedListing(store.Docs(userId), CreatedAt, r)
    ensures AllStamped(store.Docs(userId)) ==> Ids(r) == store.Docs(userId).Keys
  {
    r := ListOrdered(store.Docs(userId), CreatedAt);
  }

  /** getInvoice: `{ id, ...data }` when the document exists, `null` otherwise. */
  function GetInvoice(store: Collection<InvoiceData>, userId: string, invoiceId: string): (r: Option<Invoice>)
    reads store
    ensures r.None? <==> invoiceId !in store.Docs(userId)
    ensures r.Some? ==> r.value.id == invoiceId && r.value.data == store.Docs(userId)[invoiceId]
  {
    if invoiceId in store.Docs(userId) then Some(Doc(invoiceId, store.Docs(userId)[invoiceId])) else None
  }

  /** createInvoice: stores the stamped data under a fresh id and returns it with that id. */
  method CreateInvoice(store: Collection<InvoiceData>, userId: string, data: InvoiceData, newId: string, now: int, fail: bool)
    returns (r: Option<Invoice>)
    requires newId !in store.Docs(userId)
    modifies store
    ensures r.Some? == !fail
    ensures r.Some? ==> r.value == Doc(newId, Stamped(data, now))
    ensures store.docs == if r.Some? then old(store.docs)[userId := old(store.Docs(userId))[newId := Stamped(data, now)]]
                          else old(store.docs)
    ensures old(AllStamped(store.Docs(userId))) ==> AllStamped(store.Docs(userId))
  {
    var ok := store.Add(userId, newId, Stamped(data, now), fail);
    r := if ok then Some(Doc(newId, Stamped(data, now))) else None;
  }

  /** updateInvoiceStatus: writes `status` and `updatedAt` of one existing document. */
  method UpdateInvoiceStatus(store: Collection<InvoiceData>, userId: string, invoiceId: string, status: InvoiceStatus, now: int, fail: bool)
    returns (ok: bool)
    modifies store
    ensures ok == (!fail && invoiceId in old(store.Docs(userId)))
    ensures store.docs == if ok then old(store.docs)[userId := old(store.Docs(userId))[invoiceId := WithStatus(old(store.Docs(userId))[invoiceId], status, now)]]
                          else old(store.docs)
    ensures old(AllStamped(store.Docs(userId))) ==> AllStamped(store.Docs(userId))
  {
    ok := store.Update(userId, invoiceId, d => WithStatus(d, status, now), fail);
  }

  /** updateInvoice: merges the patch into one existing document, refreshing `updatedAt`. */
  method UpdateInvoice(store: Collection<InvoiceData>, userId: string, invoiceId: string, patch: InvoicePatch, now: int, fail: bool)
    returns (ok: bool)
    modifies store
    ensures ok == (!fail && invoiceId in old(store.Docs(userId)))
    ensures store.docs == if ok then old(store.docs)[userId := old(store.Docs(userId))[invoiceId := ApplyPatch(old(store.Docs(userId))[invoiceId], patch, now)]]
                          else old(store.docs)
    ensures old(AllStamped(store.Docs(userId))) ==> AllStamped(store.Docs(userId))
  {
    ok := store.Update(userId, invoiceId, d => ApplyPatch(d, patch, now), fail);
  }

  /** deleteInvoice: removes that one document. */
  method DeleteInvoice(store: Collection<InvoiceData>, userId: string, invoiceId: string, fail: bool) returns (ok: bool)
    modifies store
    ensures ok == !fail
    ensures store.docs == if ok then old(store.docs)[userId := old(store.Docs(userId)) - {invoiceId}] else old(store.docs)
    ensures ok ==> invoiceId !in store.Docs(userId)
    ensures ok ==> forall id :: id != invoiceId && id in old(store.Docs(userId)) ==> id in store.Docs(userId) && store.Docs(userId)[id] == old(store.Docs(userId))[id]
  {
    ok := store.Delete(userId, invoiceId, fail);
  }

  /** The stamps of a new invoice override whatever the input carried; every other field is the input's. */
  lemma StampedOverrides(data: InvoiceData, now: int)
    ensures Stamped(data, now).createdAt == Some(now) && Stamped(data, now).updatedAt == Some(now)
    ensures Stamped(data, now).(createdAt := data.createdAt, updatedAt := data.updatedAt) == data
  {
  }

  /** A patch that leaves a field out keeps its old value; the status in particular survives an edit that does not name it. */
  lemma PatchKeepsUnpatched(data: InvoiceData, patch: InvoicePatch, now: int)
    requires patch.status.None?
    ensures ApplyPatch(data, patch, now).status == data.status
    ensures patch == NoChanges ==> ApplyPatch(data, patch, now) == data.(updatedAt := Some(now))
  {
  }

  /** Applying the same patch twice is applying it once. */
  lemma PatchIdempotent(data: InvoiceData, patch: InvoicePatch, now: int)
    ensures ApplyPatch(ApplyPatch(data, patch, now), patch, now) == ApplyPatch(data, patch, now)
  {
  }

  /** A status-only patch is exactly the status update, and the patch's own `updatedAt` never wins. */
  lemma StatusPatchIsStatusUpdate(data: InvoiceData, s: InvoiceStatus, stale: int, now: int)
    ensures ApplyPatch(data, NoChanges.(status := Some(s), updatedAt := Some(stale)), now) == WithStatus(data, s, now)
  {
  }
}
