/**
 * The free-export quota (services/exportManager.ts): a visitor who is not logged
 * in may export at most MAX_FREE_EXPORTS times. Same counter pattern as the guest
 * invoice quota, under its own key.
 */
module ExportManager {
  import opened LocalStorage
  import GuestManager

  const EXPORT_COUNT_KEY: string := "kvoice_guest_export_count"
  const MAX_FREE_EXPORTS: nat := 7

  /** getExportCount: the stored count, or 0 when nothing is stored. */
  function ExportCount(items: Items): nat {
    if EXPORT_COUNT_KEY in items then items[EXPORT_COUNT_KEY] else 0
  }

  /** canExport: logged-in users are unlimited; others are below the ceiling. */
  function CanExport(items: Items, isLoggedIn: bool): bool {
    if isLoggedIn then true else ExportCount(items) < MAX_FREE_EXPORTS
  }

  /** getRemainingExports: `Math.max(0, MAX - count)`. */
  function RemainingExports(items: Items): (r: nat)
    ensures r <= MAX_FREE_EXPORTS
    ensures r == 0 || r + ExportCount(items) == MAX_FREE_EXPORTS
  {
    if MAX_FREE_EXPORTS - ExportCount(items) > 0 then MAX_FREE_EXPORTS - ExportCount(items) else 0
  }

  /** hasReachedLimit. */
  function HasReachedLimit(items: Items, isLoggedIn: bool): bool {
    if isLoggedIn then false else ExportCount(items) >= MAX_FREE_EXPORTS
  }

  /** The storage contents after incrementExportCount. */
  function Incremented(items: Items): Items {
    items[EXPORT_COUNT_KEY := ExportCount(items) + 1]
  }

  /** The storage contents after resetExportCount. */
  function Reset(items: Items): Items {
    items - {EXPORT_COUNT_KEY}
  }

  /** incrementExportCount. */
  method IncrementExportCount(store: Storage)
    modifies store
    ensures store.items == Incremented(old(store.items))
  {
    var stored := store.GetItem(EXPORT_COUNT_KEY);
    var current := stored.GetOr(0);
    store.SetItem(EXPORT_COUNT_KEY, current + 1);
  }

  /** resetExportCount. */
  method ResetExportCount(store: Storage)
    modifies store
    ensures store.items == Reset(old(store.items))
  {
    store.RemoveItem(EXPORT_COUNT_KEY);
  }

  /** Logged-in users can always export; others exactly while below seven. */
  lemma CanExportSpec(items: Items)
    ensures CanExport(items, true)
    ensures CanExport(items, false) <==> ExportCount(items) < 7
    ensures RemainingExports(items) == 0 <==> !CanExport(items, false)
  {
  }

  /** hasReachedLimit is the negation of canExport for both kinds of user. */
  lemma HasReachedIsNegation(items: Items, isLoggedIn: bool)
    ensures HasReachedLimit(items, isLoggedIn) == !CanExport(items, isLoggedIn)
  {
  }

  /** Increment adds one; reset brings the count back to zero. */
  lemma IncrementAndReset(items: Items)
    ensures ExportCount(Incremented(items)) == ExportCount(items) + 1
    ensures ExportCount(Reset(items)) == 0
  {
  }

  /** The two quotas live under different keys, so neither counter's writes move the other. */
  lemma CountersIndependent(items: Items)
    ensures EXPORT_COUNT_KEY != GuestManager.GUEST_INVOICE_COUNT_KEY
    ensures GuestManager.GuestInvoiceCount(Incremented(items)) == GuestManager.GuestInvoiceCount(items)
    ensures GuestManager.GuestInvoiceCount(Reset(items)) == GuestManager.GuestInvoiceCount(items)
    ensures ExportCount(GuestManager.Incremented(items)) == ExportCount(items)
    ensures ExportCount(GuestManager.Reset(items)) == ExportCount(items)
  {
  }
}
