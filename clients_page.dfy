/**
 * pages/Clients.tsx: the client cards with their billing figures, the search box, the
 * add/edit modal and delete.
 */
module ClientsPage {
  import opened Wrappers
  import opened Domain
  import opened Aggregate
  import opened Text
  import opened DocStore
  import opened Notifications
  import ClientService

  const DEFAULT_NETWORK: string := "MTN MOMO"

  /** The modal's fields. */
  datatype ClientForm = ClientForm(name: string, email: string, momoNumber: string, momoNetwork: string, location: string)

  /** The form after opening "add" and after every successful save. */
  const EmptyForm: ClientForm := ClientForm("", "", "", DEFAULT_NETWORK, "")

  /** openEditModal: the client's fields, with the network defaulting to MTN MOMO and a missing location to empty. */
  function FormFor(client: Client): (f: ClientForm)
    ensures f.name == client.data.name && f.email == client.data.email && f.momoNumber == client.data.momoNumber
    ensures f.momoNetwork == (if client.data.momoNetwork == "" then DEFAULT_NETWORK else client.data.momoNetwork)
    ensures f.momoNetwork != ""
    ensures f.location == client.data.location.GetOr("")
  {
    ClientForm(client.data.name, client.data.email, client.data.momoNumber,
               if client.data.momoNetwork == "" then DEFAULT_NETWORK else client.data.momoNetwork,
               client.data.location.GetOr(""))
  }

  /**
   * The record handed to addClient. The form carries no count, status or stamps; the
   * service sets those, so the placeholders here never reach the store.
   */
  function FormAsClient(form: ClientForm): ClientData {
    ClientData(form.name, form.email, form.momoNumber, form.momoNetwork, None, ClientStatus.Active, Some(form.location), None, None)
  }

  /** The partial record handed to updateClient: the five form fields and nothing else. */
  function FormAsPatch(form: ClientForm): ClientService.ClientPatch {
    ClientService.ClientPatch(Some(form.name), Some(form.email), Some(form.momoNumber), Some(form.momoNetwork),
                              None, None, Some(form.location), None, None)
  }

  /** What a stored client becomes when added from a form: the form's fields and the service's defaults. */
  lemma AddedClientFromForm(form: ClientForm, now: int)
    ensures var c := ClientService.NewClient(FormAsClient(form), now);
      FormFor(Doc("", c)) == form.(momoNetwork := if form.momoNetwork == "" then DEFAULT_NETWORK else form.momoNetwork)
      && c.invoicesCount == Some(0) && c.status == ClientStatus.Active && c.createdAt == Some(now)
  {
  }

  /**
   * Opening a client for editing and saving without a change writes its own fields
   * back, except that an empty network becomes MTN MOMO and a missing location empty.
   */
  lemma EditUnchangedSave(client: Client, now: int)
    ensures ClientService.ApplyPatch(client.data, FormAsPatch(FormFor(client)), now)
            == client.data.(momoNetwork := FormFor(client).momoNetwork, location := Some(client.data.location.GetOr("")),
                            updatedAt := Some(now))
  {
  }

  /** The search test: name or email contains the query ignoring case, or a non-empty MoMo number contains it as typed. */
  predicate MatchesQuery(client: Client, query: string) {
    || Includes(Lower(client.data.name), Lower(query))
    || Includes(Lower(client.data.email), Lower(query))
    || (client.data.momoNumber != "" && Includes(client.data.momoNumber, query))
  }

  /** filteredClients. */
  function FilteredClients(clients: seq<Client>, query: string): seq<Client> {
    Filter(clients, (c: Client) => MatchesQuery(c, query))
  }

  /** The cards shown are exactly the matching clients in list order, and an empty query shows them all. */
  lemma FilteredClientsSpec(clients: seq<Client>, query: string)
    ensures forall c :: c in FilteredClients(clients, query) <==> c in clients && MatchesQuery(c, query)
    ensures query == "" ==> FilteredClients(clients, query) == clients
    ensures IsSubsequence(FilteredClients(clients, query), clients)
  {
    forall c ensures c in FilteredClients(clients, query) <==> c in clients && MatchesQuery(c, query) {
      FilterMembers(clients, (c: Client) => MatchesQuery(c, query), c);
    }
    if query == "" {
      forall c | c in clients ensures MatchesQuery(c, query) {
        IncludesEmpty(Lower(c.data.name));
      }
      FilterAll(clients, (c: Client) => MatchesQuery(c, query));
    }
    FilterIsSubsequence(clients, (c: Client) => MatchesQuery(c, query));
  }

  /** The invoices that name a client: `inv.client?.id === id`. */
  function ForClient(clientId: string): Invoice -> bool {
    (inv: Invoice) => inv.data.client.id == clientId
  }

  datatype Balance = Balance(billed: real, paid: real, outstanding: real)

  /** A client's billing figures: all its invoices, the paid ones, and the difference. */
  function ClientBalance(invoices: seq<Invoice>, clientId: string): Balance {
    var mine := Filter(invoices, ForClient(clientId));
    var billed := Sum(mine, InvoiceTotal);
    var paid := Sum(Filter(mine, IsPaid), InvoiceTotal);
    Balance(billed, paid, billed - paid)
  }

  /**
   * Outstanding is what the client's unpaid invoices add up to, drafts included; with
   * non-negative totals nothing paid exceeds what was billed.
   */
  lemma ClientBalanceSpec(invoices: seq<Invoice>, clientId: string)
    ensures ClientBalance(invoices, clientId).outstanding
            == Sum(Filter(invoices, (inv: Invoice) => inv.data.client.id == clientId && !IsPaid(inv)), InvoiceTotal)
    ensures (forall inv :: inv in invoices ==> inv.data.total >= 0.0) ==>
              0.0 <= ClientBalance(invoices, clientId).paid <= ClientBalance(invoices, clientId).billed
  {
    var mine := Filter(invoices, ForClient(clientId));
    var notPaid := (inv: Invoice) => !IsPaid(inv);
    SumPartition(mine, InvoiceTotal, IsPaid, notPaid);
    FilterFilter(invoices, ForClient(clientId), notPaid, (inv: Invoice) => inv.data.client.id == clientId && !IsPaid(inv));
    if forall inv :: inv in invoices ==> inv.data.total >= 0.0 {
      forall inv | inv in mine ensures InvoiceTotal(inv) >= 0.0 {
        FilterMembers(invoices, ForClient(clientId), inv);
      }
      forall inv | inv in Filter(mine, IsPaid) ensures InvoiceTotal(inv) >= 0.0 {
        FilterMembers(mine, IsPaid, inv);
      }
      SumNonNegative(Filter(mine, IsPaid), InvoiceTotal);
      SumFilterBounded(mine, InvoiceTotal, IsPaid);
    }
  }

  datatype SaveResult = NotSignedIn | Updated | Added | Failed

  class ClientsView {
    var showModal: bool
    var form: ClientForm
    /** The client being edited, or None when the modal adds a new one. */
    var editing: Option<Client>

    constructor ()
      ensures !showModal && form == EmptyForm && editing == None
    {
      showModal := false;
      form := EmptyForm;
      editing := None;
    }

    /** openAddModal: a blank form for a new client. */
    method OpenAddModal()
      modifies this
      ensures showModal && form == EmptyForm && editing == None
    {
      editing := None;
      form := EmptyForm;
      showModal := true;
    }

    /** openEditModal: the client's fields, remembering which client is being edited. */
    method OpenEditModal(client: Client)
      modifies this
      ensures showModal && form == FormFor(client) && editing == Some(client)
    {
      editing := Some(client);
      form := FormFor(client);
      showModal := true;
    }

    /**
     * handleSaveClient: with a client being edited, the five fields are written to its
     * document; otherwise a new client is added. Only a successful write closes and
     * clears the modal; a failure leaves it as it was.
     */
    method HandleSaveClient(userId: Option<string>, store: Collection<ClientData>, newId: string, now: int, fail: bool)
      returns (result: SaveResult)
      requires userId.Some? && editing.None? ==> newId !in store.Docs(userId.value)
      modifies this, store
      ensures userId.None? ==>
                result == NotSignedIn && store.docs == old(store.docs)
                && showModal == old(showModal) && form == old(form) && editing == old(editing)
      ensures userId.Some? && old(editing).Some? ==>
                var uid, id := userId.value, old(editing).value.id;
                var ok := !fail && id in old(store.Docs(uid));
                && result == (if ok then Updated else Failed)
                && store.docs == (if ok then old(store.docs)[uid := old(store.Docs(uid))[id :=
                                    ClientService.ApplyPatch(old(store.Docs(uid))[id], FormAsPatch(old(form)), now)]]
                                  else old(store.docs))
      ensures userId.Some? && old(editing).None? ==>
                var uid := userId.value;
                && result == (if fail then Failed else Added)
                && store.docs == (if fail then old(store.docs)
                                  else old(store.docs)[uid := old(store.Docs(uid))[newId := ClientService.NewClient(FormAsClient(old(form)), now)]])
      ensures result == Updated || result == Added ==> !showModal && form == EmptyForm && editing == None
      ensures result == Failed || result == NotSignedIn ==> showModal == old(showModal) && form == old(form) && editing == old(editing)
    {
      if userId.None? {
        return NotSignedIn;
      }
      if editing.Some? {
        var ok := ClientService.UpdateClient(store, userId.value, editing.value.id, FormAsPatch(form), now, fail);
        if !ok {
          return Failed;
        }
        result := Updated;
      } else {
        var added := ClientService.AddClient(store, userId.value, FormAsClient(form), newId, now, fail);
        if added.None? {
          return Failed;
        }
        result := Added;
      }
      showModal := false;
      form := EmptyForm;
      editing := None;
    }
  }

  /**
   * handleDelete: nothing without a confirmation; otherwise the document is deleted
   * (a missing user makes the write fail) and a toast reports the outcome.
   */
  method HandleDelete(userId: Option<string>, confirmed: bool, id: string, store: Collection<ClientData>, fail: bool)
    returns (notice: Notice)
    modifies store
    ensures !confirmed ==> notice == Quiet && store.docs == old(store.docs)
    ensures confirmed ==>
              var ok := userId.Some? && !fail;
              && notice == (if ok then Notify("Client deleted successfully", Success) else Notify("Failed to delete client", Error))
              && store.docs == (if ok then old(store.docs)[userId.value := old(store.Docs(userId.value)) - {id}] else old(store.docs))
  {
    if !confirmed {
      return Quiet;
    }
    if userId.None? {
      return Notify("Failed to delete client", Error);
    }
    var ok := ClientService.DeleteClient(store, userId.value, id, fail);
    notice := if ok then Notify("Client deleted successfully", Success) else Notify("Failed to delete client", Error);
  }
}
