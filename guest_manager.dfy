/**
 * The guest quota (utils/guestManager.ts): a guest may create at most
 * MAX_GUEST_INVOICES invoices, counted in local storage under a fixed key.
 * The queries are functions of the storage contents; the two writers are
 * methods on the storage object.
 */
module GuestManager {
  import opened LocalStorage

  const GUEST_INVOICE_COUNT_KEY: string := "kvoice_guest_invoice_count"
  const MAX_GUEST_INVOICES: nat := 7

  /** getGuestInvoiceCount: the stored count, or 0 when nothing is stored. */
  function GuestInvoiceCount(items: Items): nat {
    if GUEST_INVOICE_COUNT_KEY in items then items[GUEST_INVOICE_COUNT_KEY] else 0
  }

  /** canCreateInvoice: registered users are unlimited; a guest is below the ceiling. */
  function CanCreateInvoice(items: Items, isGuest: bool): bool {
    if !isGuest then true else GuestInvoiceCount(items) < MAX_GUEST_INVOICES
  }

  /** getRemainingInvoices: `Math.max(0, MAX - count)`. */
  function RemainingInvoices(items: Items): (r: nat)
    ensures r <= MAX_GUEST_INVOICES
    ensures r == 0 || r + GuestInvoiceCount(items) == MAX_GUEST_INVOICES
  {
    if MAX_GUEST_INVOICES - GuestInvoiceCount(items) > 0 then MAX_GUEST_INVOICES - GuestInvoiceCount(items) else 0
  }

  /** hasReachedInvoiceLimit: registered users never reach it; a guest at or above the ceiling has. */
  function HasReachedInvoiceLimit(items: Items, isGuest: bool): bool {
    if !isGuest then false else GuestInvoiceCount(items) >= MAX_GUEST_INVOICES
  }

  /** The storage contents after incrementGuestInvoiceCount: read, add one, write back. */
  function Incremented(items: Items): Items {
    items[GUEST_INVOICE_COUNT_KEY := GuestInvoiceCount(items) + 1]
  }

  /** The storage contents after resetGuestInvoiceCount: the key is removed. */
  function Reset(items: Items): Items {
    items - {GUEST_INVOICE_COUNT_KEY}
  }

  /** The storage contents after `k` increments. */
  function IncrementedTimes(items: Items, k: nat): Items {
    if k == 0 then items else Incremented(IncrementedTimes(items, k - 1))
  }

  /** incrementGuestInvoiceCount. */
  method IncrementGuestInvoiceCount(store: Storage)
    modifies store
    ensures store.items == Incremented(old(store.items))
  {
    var stored := store.GetItem(GUEST_INVOICE_COUNT_KEY);
    var current := stored.GetOr(0);
    store.SetItem(GUEST_INVOICE_COUNT_KEY, current + 1);
  }

  /** resetGuestInvoiceCount. */
  method ResetGuestInvoiceCount(store: Storage)
    modifies store
    ensures store.items == Reset(old(store.items))
  {
    store.RemoveItem(GUEST_INVOICE_COUNT_KEY);
  }

  /** An increment adds exactly one to the count and touches no other key. */
  lemma IncrementAddsOne(items: Items)
    ensures GuestInvoiceCount(Incremented(items)) == GuestInvoiceCount(items) + 1
    ensures forall k :: k != GUEST_INVOICE_COUNT_KEY ==> (k in items <==> k in Incremented(items))
    ensures forall k :: k != GUEST_INVOICE_COUNT_KEY && k in items ==> Incremented(items)[k] == items[k]
  {
  }

  /** A registered user can always create; a guest can exactly while below seven. */
  lemma CanCreateInvoiceSpec(items: Items)
    ensures CanCreateInvoice(items, false)
    ensures CanCreateInvoice(items, true) <==> GuestInvoiceCount(items) < 7
  {
  }

  /** The limit flag is false for registered users and the negation of the gate for guests. */
  lemma HasReachedIsNegation(items: Items, isGuest: bool)
    ensures !HasReachedInvoiceLimit(items, false)
    ensures isGuest ==> HasReachedInvoiceLimit(items, isGuest) == !CanCreateInvoice(items, isGuest)
  {
  }

  /** No invoices remain exactly when a guest is locked out. */
  lemma RemainingZeroIffLocked(items: Items)
    ensures RemainingInvoices(items) == 0 <==> !CanCreateInvoice(items, true)
  {
  }

  /** An increment never raises the remaining allowance, and locks a guest out exactly at the seventh. */
  lemma IncrementMonotone(items: Items)
    ensures RemainingInvoices(Incremented(items)) <= RemainingInvoices(items)
    ensures (CanCreateInvoice(items, true) && !CanCreateInvoice(Incremented(items), true))
            <==> GuestInvoiceCount(items) == MAX_GUEST_INVOICES - 1
  {
    IncrementAddsOne(items);
  }

  /** After a reset, `k` increments leave the count at exactly `k`. */
  lemma {:induction false} CountAfterIncrements(items: Items, k: nat)
    ensures GuestInvoiceCount(IncrementedTimes(Reset(items), k)) == k
  {
    if k > 0 {
      CountAfterIncrements(items, k - 1);
      IncrementAddsOne(IncrementedTimes(Reset(items), k - 1));
    }
  }

  /** Seven creations after a reset exhaust the guest quota. */
  lemma SevenIncrementsExhaust(items: Items)
    ensures GuestInvoiceCount(Reset(items)) == 0
    ensures !CanCreateInvoice(IncrementedTimes(Reset(items), 7), true)
    ensures RemainingInvoices(IncrementedTimes(Reset(items), 7)) == 0
    ensures CanCreateInvoice(IncrementedTimes(Reset(items), 6), true)
  {
    CountAfterIncrements(items, 7);
    CountAfterIncrements(items, 6);
  }
}
