/**
 * pages/Payments.tsx: the payment list with its method filter, the received and
 * pending cards, the method colour badges, verification and delete.
 */
module PaymentsPage {
  import opened Wrappers
  import opened Domain
  import opened Aggregate
  import opened Text
  import opened DocStore
  import opened Notifications
  import PaymentService

  /** The method filter: `methodFilter === 'All'` or the method contains it, ignoring case. */
  function FilteredPayments(payments: seq<Payment>, methodFilter: string): seq<Payment> {
    if methodFilter == "All" then payments
    else Filter(payments, (p: Payment) => Includes(Lower(p.data.paymentMethod), Lower(methodFilter)))
  }

  /** Exactly the payments whose method mentions the filter, in list order; "All" keeps everything. */
  lemma FilteredPaymentsSpec(payments: seq<Payment>, methodFilter: string)
    ensures methodFilter == "All" ==> FilteredPayments(payments, methodFilter) == payments
    ensures methodFilter != "All" ==>
              forall p :: (p in FilteredPayments(payments, methodFilter)
                          <==> p in payments && Includes(Lower(p.data.paymentMethod), Lower(methodFilter)))
    ensures IsSubsequence(FilteredPayments(payments, methodFilter), payments)
  {
    var keep := (p: Payment) => Includes(Lower(p.data.paymentMethod), Lower(methodFilter));
    if methodFilter == "All" {
      FilterAll(payments, (p: Payment) => true);
      FilterIsSubsequence(payments, (p: Payment) => true);
    } else {
      forall p ensures p in Filter(payments, keep) <==> p in payments && keep(p) {
        FilterMembers(payments, keep, p);
      }
      FilterIsSubsequence(payments, keep);
    }
  }

  predicate IsVerified(p: Payment) { p.data.status == PaymentStatus.Verified }
  predicate IsPending(p: Payment) { p.data.status == PaymentStatus.Pending }

  datatype Stats = Stats(totalReceived: real, pendingCount: nat, pendingValue: real)

  /** The cards: verified amounts received, and the count and value still pending. */
  function ComputeStats(payments: seq<Payment>): Stats {
    Stats(Sum(Filter(payments, IsVerified), PaymentAmount),
          Count(payments, IsPending),
          Sum(Filter(payments, IsPending), PaymentAmount))
  }

  /** Every payment is either received or pending: the two values add up to all amounts, the pending count and the verified ones to the list length. */
  lemma StatsPartition(payments: seq<Payment>)
    ensures ComputeStats(payments).totalReceived + ComputeStats(payments).pendingValue == Sum(payments, PaymentAmount)
    ensures ComputeStats(payments).pendingCount + Count(payments, IsVerified) == |payments|
  {
    SumPartition(payments, PaymentAmount, IsVerified, IsPending);
    CountPartition(payments, IsPending, IsVerified);
  }

  datatype BadgeColor = Yellow | Red | Blue | Gray

  /** getMethodColor: MTN first, then Telecel or Vodafone, then bank, otherwise gray. */
  function MethodColor(paymentMethod: string): BadgeColor {
    var m := Lower(paymentMethod);
    if Includes(m, "mtn") then Yellow
    else if Includes(m, "telecel") || Includes(m, "vodafone") then Red
    else if Includes(m, "bank") then Blue
    else Gray
  }

  /**
   * The badge ignores case, and a method naming MTN anywhere, in any case, is yellow
   * whatever else it names.
   */
  lemma MethodColorSpec(paymentMethod: string, before: string, after: string)
    ensures MethodColor(Lower(paymentMethod)) == MethodColor(paymentMethod)
    ensures MethodColor("MTN" + after) == Yellow
    ensures MethodColor(before + "MTN" + after) == Yellow
    ensures MethodColor(before + "mtn" + after) == Yellow
    ensures (exists i: nat :: OccursAt(Lower(paymentMethod), "mtn", i)) ==> MethodColor(paymentMethod) == Yellow
  {
    LowerIdempotent(paymentMethod);
    IncludesIffOccurs(Lower(paymentMethod), "mtn");
    MtnAnywhere(before, "MTN", after);
    MtnAnywhere(before, "mtn", after);
    MtnAnywhere("", "MTN", after);
    assert "" + "MTN" + after == "MTN" + after;
  }

  /** `mtn` written in either case between any two strings occurs in the lower-cased whole. */
  lemma MtnAnywhere(before: string, mtn: string, after: string)
    requires mtn == "MTN" || mtn == "mtn"
    ensures MethodColor(before + mtn + after) == Yellow
  {
    var s := before + mtn + after;
    var k := |before|;
    assert Lower(s)[k..k + 3] == "mtn" by {
      assert s[k] == mtn[0] && s[k + 1] == mtn[1] && s[k + 2] == mtn[2];
    }
    assert OccursAt(Lower(s), "mtn", k);
    IncludesIffOccurs(Lower(s), "mtn");
  }

  /** A string lacking one of `sub`'s characters does not include `sub`. */
  lemma {:induction false} MissingCharExcludes(s: string, sub: string, c: char)
    requires c in sub && c !in s
    ensures !Includes(s, sub)
    decreases |s|
  {
    var j :| 0 <= j < |sub| && sub[j] == c;
    if |sub| <= |s| {
      assert s[..|sub|][j] != c;
    }
    if s != [] {
      MissingCharExcludes(s[1..], sub, c);
    }
  }

  /**
   * The tests run in order: a method that starts with Telecel and names no M is red,
   * whatever follows, bank included.
   */
  lemma {:induction false} MethodColorPrecedence(rest: string)
    requires 'm' !in rest && 'M' !in rest
    ensures MethodColor("Telecel" + rest) == Red
  {
    var s := "Telecel" + rest;
    var m := Lower(s);
    assert 'm' !in m by {
      forall i | 0 <= i < |m| ensures m[i] != 'm' {
        if i >= 7 {
          assert s[i] == rest[i - 7];
        }
      }
    }
    MissingCharExcludes(m, "mtn", 'm');
    assert m[..7] == "telecel";
  }

  /** "Telecel Bank" is red, where "MTN Bank" is yellow by `MethodColorSpec`. */
  lemma TelecelBankIsRed()
    ensures MethodColor("Telecel Bank") == Red
  {
    MethodColorPrecedence(" Bank");
    assert "Telecel" + " Bank" == "Telecel Bank";
  }

  /** Without MTN, Telecel or Vodafone, a bank is blue. */
  lemma BankIsBlue()
    ensures MethodColor("Bank") == Blue
  {
    var b := Lower("Bank");
    assert b == "bank";
    MissingCharExcludes(b, "mtn", 'm');
    MissingCharExcludes(b, "telecel", 't');
    MissingCharExcludes(b, "vodafone", 'v');
  }

  /** A method naming none of the four is gray. */
  lemma CashIsGray()
    ensures MethodColor("Cash") == Gray
  {
    var c := Lower("Cash");
    assert c == "cash";
    MissingCharExcludes(c, "mtn", 'm');
    MissingCharExcludes(c, "telecel", 't');
    MissingCharExcludes(c, "vodafone", 'v');
    MissingCharExcludes(c, "bank", 'b');
  }

  /** `{ ...p, status: 'Verified' }` on the row with that id. */
  function MarkVerifiedLocal(payments: seq<Payment>, id: string): (r: seq<Payment>)
    ensures |r| == |payments|
    ensures forall i :: 0 <= i < |r| ==> r[i] == if payments[i].id == id then Doc(id, payments[i].data.(status := PaymentStatus.Verified)) else payments[i]
  {
    if payments == [] then []
    else [if payments[0].id == id then Doc(id, payments[0].data.(status := PaymentStatus.Verified)) else payments[0]]
         + MarkVerifiedLocal(payments[1..], id)
  }

  /** Verifying a pending payment moves its amount from the pending card to the received card. */
  lemma VerifyMovesAmount(payments: seq<Payment>, k: nat)
    requires k < |payments| && IsPending(payments[k])
    requires forall i :: 0 <= i < |payments| && i != k ==> payments[i].id != payments[k].id
    ensures ComputeStats(MarkVerifiedLocal(payments, payments[k].id)).totalReceived
            == ComputeStats(payments).totalReceived + payments[k].data.amount
    ensures ComputeStats(MarkVerifiedLocal(payments, payments[k].id)).pendingValue
            == ComputeStats(payments).pendingValue - payments[k].data.amount
  {
    var row := Doc(payments[k].id, payments[k].data.(status := PaymentStatus.Verified));
    assert MarkVerifiedLocal(payments, payments[k].id) == payments[k := row];
    FilterSumUpdate(payments, k, row, IsVerified, PaymentAmount);
    FilterSumUpdate(payments, k, row, IsPending, PaymentAmount);
  }

  class PaymentsView {
    var payments: seq<Payment>

    constructor (fetched: seq<Payment>)
      ensures payments == fetched
    {
      payments := fetched;
    }

    /** handleDelete: nothing without a user or a confirmation; the row leaves the list only when the delete succeeds. */
    method HandleDelete(userId: Option<string>, confirmed: bool, id: string, store: Collection<PaymentData>, fail: bool)
      returns (notice: Notice)
      modifies this, store
      ensures userId.None? || !confirmed ==>
                notice == Quiet && payments == old(payments) && store.docs == old(store.docs)
      ensures userId.Some? && confirmed ==>
                && store.docs == (if fail then old(store.docs) else old(store.docs)[userId.value := old(store.Docs(userId.value)) - {id}])
                && payments == (if fail then old(payments) else Filter(old(payments), (p: Payment) => p.id != id))
                && notice == (if fail then Notify("Failed to delete payment record", Error) else Notify("Payment record deleted", Success))
    {
      if userId.None? || !confirmed {
        return Quiet;
      }
      var ok := PaymentService.DeletePayment(store, userId.value, id, fail);
      if ok {
        payments := Filter(payments, (p: Payment) => p.id != id);
        notice := Notify("Payment record deleted", Success);
      } else {
        notice := Notify("Failed to delete payment record", Error);
      }
    }

    /** handleMarkAsVerified: the stored status is written first; the row changes only when that succeeds. */
    method HandleMarkAsVerified(userId: Option<string>, paymentId: string, store: Collection<PaymentData>, now: int, fail: bool)
      returns (notice: Notice)
      modifies this, store
      ensures userId.None? ==> notice == Quiet && payments == old(payments) && store.docs == old(store.docs)
      ensures userId.Some? ==>
                var ok := !fail && paymentId in old(store.Docs(userId.value));
                && store.docs == (if ok then old(store.docs)[userId.value := old(store.Docs(userId.value))[paymentId :=
                                    PaymentService.WithStatus(old(store.Docs(userId.value))[paymentId], PaymentStatus.Verified, now)]]
                                  else old(store.docs))
                && payments == (if ok then MarkVerifiedLocal(old(payments), paymentId) else old(payments))
                && notice == (if ok then Notify("Payment verified successfully", Success) else Notify("Failed to verify payment", Error))
    {
      if userId.None? {
        return Quiet;
      }
      var ok := PaymentService.UpdatePaymentStatus(store, userId.value, paymentId, PaymentStatus.Verified, now, fail);
      if ok {
        payments := MarkVerifiedLocal(payments, paymentId);
        notice := Notify("Payment verified successfully", Success);
      } else {
        notice := Notify("Failed to verify payment", Error);
      }
    }
  }
}
