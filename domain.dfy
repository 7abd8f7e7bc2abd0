/**
 * The records the application stores and passes around (types.ts and the
 * Payment interface of the payment service). A record read back from the
 * document store is `{ id: doc.id, ...doc.data() }`, modelled as `Doc(id, data)`.
 * Monetary amounts are exact reals; timestamps are epoch milliseconds.
 */
module Domain {
  import opened Wrappers

  /** A stored document together with the identifier the store assigned it. */
  datatype Doc<T> = Doc(id: string, data: T)

  datatype InvoiceStatus = Paid | Pending | Overdue | Draft | Sent

  /** One invoice line; quantity and price carry no sign constraint, as in the source. */
  datatype LineItem = LineItem(id: string, description: string, quantity: int, price: real)

  datatype ClientStatus = Active | Pending

  /**
   * A client. `momoNumber` and `momoNetwork` are plain strings whose empty value is
   * what the pages treat as missing; `invoicesCount` and `location` may be absent.
   */
  datatype ClientData = ClientData(
    name: string,
    email: string,
    momoNumber: string,
    momoNetwork: string,
    invoicesCount: Option<int>,
    status: ClientStatus,
    location: Option<string>,
    createdAt: Option<int>,
    updatedAt: Option<int>)

  type Client = Doc<ClientData>

  datatype BusinessProfile = BusinessProfile(
    name: string,
    email: string,
    address: string,
    logoUrl: Option<string>,
    momoNumber: Option<string>,
    momoNetwork: Option<string>,
    tin: string)

  /** An invoice; `client` and `businessInfo` are snapshots taken when it was saved. */
  datatype InvoiceData = InvoiceData(
    invoiceNumber: string,
    client: Client,
    date: string,
    dueDate: string,
    items: seq<LineItem>,
    status: InvoiceStatus,
    currency: string,
    vatEnabled: bool,
    leviesEnabled: bool,
    covidLevyEnabled: bool,
    total: real,
    businessInfo: Option<BusinessProfile>,
    createdAt: Option<int>,
    updatedAt: Option<int>)

  type Invoice = Doc<InvoiceData>

  datatype PaymentStatus = Verified | Pending

  /** A payment receipt; `invoiceId` holds the invoice NUMBER, not its document id. */
  datatype PaymentData = PaymentData(
    invoiceId: string,
    amount: real,
    date: int,
    paymentMethod: string,  // the `method` field
    reference: Option<string>,
    clientName: string,
    status: PaymentStatus,
    createdAt: Option<int>,
    updatedAt: Option<int>)

  type Payment = Doc<PaymentData>

  /** `inv.total || 0`: the total is always present in this model, so this is the total itself. */
  function InvoiceTotal(inv: Invoice): real {
    inv.data.total
  }

  predicate IsPaid(inv: Invoice) { inv.data.status == InvoiceStatus.Paid }
  predicate IsDraft(inv: Invoice) { inv.data.status == InvoiceStatus.Draft }
  /** Owed and billed: neither paid nor a draft. */
  predicate IsOutstanding(inv: Invoice) { !IsPaid(inv) && !IsDraft(inv) }

  /** `p.amount`. */
  function PaymentAmount(p: Payment): real {
    p.data.amount
  }
}
