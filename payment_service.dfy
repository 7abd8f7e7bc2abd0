/** services/paymentService.ts: the payment collection of each user. */
module PaymentService {
  import opened Wrappers
  import opened Domain
  import opened DocStore

  /** The field `getPayments` orders by; every payment has a date. */
  function PaymentDate(data: PaymentData): Option<int> {
    Some(data.date)
  }

  /** `where('clientName', '==', name)` combined with ordering by date. */
  function ClientPaymentDate(name: string): PaymentData -> Option<int> {
    (data: PaymentData) => if data.clientName == name then Some(data.date) else None
  }

  /** The document `recordPayment` writes: the input plus its creation stamp. */
  function WithCreatedAt(data: PaymentData, now: int): PaymentData {
    data.(createdAt := Some(now))
  }

  /** The merge `updatePaymentStatus` performs. */
  function WithStatus(data: PaymentData, status: PaymentStatus, now: int): PaymentData {
    data.(status := status, updatedAt := Some(now))
  }

  /** getPayments: all of the user's payments, latest date first. */
  method GetPayments(store: Collection<PaymentData>, userId: string) returns (r: seq<Payment>)
    ensures Ids(r) == store.Docs(userId).Keys
    ensures forall i :: 0 <= i < |r| ==> store.Docs(userId)[r[i].id] == r[i].data
    ensures forall i, j :: 0 <= i < j < |r| ==> r[i].id != r[j].id && r[i].data.date >= r[j].data.date
  {
    r := ListOrdered(store.Docs(userId), PaymentDate);
  }

  /** getPaymentsByClient: exactly the payments made out to `clientName`, latest date first. */
  method GetPaymentsByClient(store: Collection<PaymentData>, userId: string, clientName: string) returns (r: seq<Payment>)
    ensures forall i :: 0 <= i < |r| ==> r[i].id in store.Docs(userId) && store.Docs(userId)[r[i].id] == r[i].data
    ensures forall i :: 0 <= i < |r| ==> r[i].data.clientName == clientName
    ensures forall id :: id in store.Docs(userId) && store.Docs(userId)[id].clientName == clientName ==> id in Ids(r)
    ensures forall i, j :: 0 <= i < j < |r| ==> r[i].id != r[j].id && r[i].data.date >= r[j].data.date
  {
    r := ListOrdered(store.Docs(userId), ClientPaymentDate(clientName));
  }

  /**
   * recordPayment: stores the input plus `createdAt`, but hands back only the id
   * and the input, without the stamp.
   */
  method RecordPayment(store: Collection<PaymentData>, userId: string, data: PaymentData, newId: string, now: int, fail: bool)
    returns (r: Option<Payment>)
    requires newId !in store.Docs(userId)
    modifies store
    ensures r.Some? == !fail
    ensures r.Some? ==> r.value == Doc(newId, data)
    ensures store.docs == if r.Some? then old(store.docs)[userId := old(store.Docs(userId))[newId := WithCreatedAt(data, now)]]
                          else old(store.docs)
  {
    var ok := store.Add(userId, newId, WithCreatedAt(data, now), fail);
    r := if ok then Some(Doc(newId, data)) else None;
  }

  /** updatePaymentStatus: writes `status` and `updatedAt` of one existing payment. */
  method UpdatePaymentStatus(store: Collection<PaymentData>, userId: string, paymentId: string, status: PaymentStatus, now: int, fail: bool)
    returns (ok: bool)
    modifies store
    ensures ok == (!fail && paymentId in old(store.Docs(userId)))
    ensures store.docs == if ok then old(store.docs)[userId := old(store.Docs(userId))[paymentId := WithStatus(old(store.Docs(userId))[paymentId], status, now)]]
                          else old(store.docs)
  {
    ok := store.Update(userId, paymentId, d => WithStatus(d, status, now), fail);
  }

  /** deletePayment: removes that one payment. */
  method DeletePayment(store: Collection<PaymentData>, userId: string, paymentId: string, fail: bool) returns (ok: bool)
    modifies store
    ensures ok == !fail
    ensures store.docs == if ok then old(store.docs)[userId := old(store.Docs(userId)) - {paymentId}] else old(store.docs)
  {
    ok := store.Delete(userId, paymentId, fail);
  }

  /** The stored payment differs from the returned one only in its creation stamp. */
  lemma StoredVersusReturned(data: PaymentData, now: int)
    ensures WithCreatedAt(data, now).createdAt == Some(now)
    ensures WithCreatedAt(data, now).(createdAt := data.createdAt) == data
    ensures data.createdAt != Some(now) ==> WithCreatedAt(data, now) != data
  {
  }
}
