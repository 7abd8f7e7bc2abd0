/** pages/ClientDetails.tsx: one client's profile, billing figures and invoice list. */
module ClientDetails {
  import opened Wrappers
  import opened Domain
  import opened Aggregate
  import ClientsPage

  /** `clients.find(c => c.id === id)`: the first client with that id. */
  function FindClient(clients: seq<Client>, id: string): (r: Option<Client>)
    ensures r.None? <==> forall i :: 0 <= i < |clients| ==> clients[i].id != id
    ensures r.Some? ==> exists i :: 0 <= i < |clients| && clients[i] == r.value && r.value.id == id
                          && forall j :: 0 <= j < i ==> clients[j].id != id
  {
    if clients == [] then None
    else if clients[0].id == id then Some(clients[0])
    else
      var rest := FindClient(clients[1..], id);
      assert rest.Some? ==> exists i :: 0 <= i < |clients| && clients[i] == rest.value && forall j :: 0 <= j < i ==> clients[j].id != id by {
        if rest.Some? {
          var i :| 0 <= i < |clients[1..]| && clients[1..][i] == rest.value && forall j :: 0 <= j < i ==> clients[1..][j].id != id;
          assert clients[i + 1] == rest.value;
        }
      }
      rest
  }

  datatype Page =
    | NotFound
    | Found(client: Client, invoices: seq<Invoice>, balance: ClientsPage.Balance, invoiceCount: int)

  /** The invoices card: the stored count unless it is missing or zero, then the number of invoices found. */
  function InvoiceCount(client: Client, clientInvoices: seq<Invoice>): (r: int)
    ensures client.data.invoicesCount.Some? && client.data.invoicesCount.value != 0 ==> r == client.data.invoicesCount.value
    ensures client.data.invoicesCount.None? || client.data.invoicesCount.value == 0 ==> r == |clientInvoices|
  {
    if client.data.invoicesCount.Some? && client.data.invoicesCount.value != 0 then client.data.invoicesCount.value
    else |clientInvoices|
  }

  /**
   * The page for route id `id` (None when the route carries none): "Client not found"
   * unless some client has that id; otherwise the first such client with the invoices
   * naming it and the figures the client list shows for it.
   */
  function ClientPage(clients: seq<Client>, invoices: seq<Invoice>, id: Option<string>): (r: Page)
    ensures r.NotFound? <==> id.None? || forall i :: 0 <= i < |clients| ==> clients[i].id != id.value
    ensures r.Found? ==> r.client.id == id.value && r.client in clients
    ensures r.Found? ==> r.balance == ClientsPage.ClientBalance(invoices, id.value)
    ensures r.Found? ==> Some(r.client) == FindClient(clients, id.value)
    ensures r.Found? ==> forall inv :: inv in r.invoices <==> inv in invoices && inv.data.client.id == id.value
    ensures r.Found? ==> IsSubsequence(r.invoices, invoices)
    ensures r.Found? ==> r.invoiceCount == InvoiceCount(r.client, r.invoices)
  {
    if id.None? then NotFound
    else
      var found := FindClient(clients, id.value);
      if found.None? then NotFound
      else
        var mine := Filter(invoices, ClientsPage.ForClient(id.value));
        assert forall inv :: inv in mine <==> inv in invoices && inv.data.client.id == id.value by {
          forall inv ensures inv in mine <==> inv in invoices && inv.data.client.id == id.value {
            FilterMembers(invoices, ClientsPage.ForClient(id.value), inv);
          }
        }
        FilterIsSubsequence(invoices, ClientsPage.ForClient(id.value));
        Found(found.value, mine, ClientsPage.ClientBalance(invoices, id.value), InvoiceCount(found.value, mine))
  }
}
