/** services/clientService.ts: the client collection of each user. */
module ClientService {
  import opened Wrappers
  import opened Domain
  import opened DocStore

  /** `Partial<Client>`: a present field (Some) is written, an absent one is left alone. */
  datatype ClientPatch = ClientPatch(
    name: Option<string>,
    email: Option<string>,
    momoNumber: Option<string>,
    momoNetwork: Option<string>,
    invoicesCount: Option<int>,
    status: Option<ClientStatus>,
    location: Option<string>,
    createdAt: Option<int>,
    updatedAt: Option<int>)

  /**
   * `{ ...clientData, invoicesCount: 0, createdAt: now, updatedAt: now, status: 'Active' }`:
   * the four trailing fields override whatever the input carried.
   */
  function NewClient(data: ClientData, now: int): ClientData {
    data.(invoicesCount := Some(0), createdAt := Some(now), updatedAt := Some(now), status := Active)
  }

  /** The merge `updateDoc(ref, { ...data, updatedAt: now })` performs. */
  function ApplyPatch(data: ClientData, patch: ClientPatch, now: int): (r: ClientData)
    ensures r.name == patch.name.GetOr(data.name) && r.email == patch.email.GetOr(data.email)
    ensures r.momoNumber == patch.momoNumber.GetOr(data.momoNumber)
    ensures r.momoNetwork == patch.momoNetwork.GetOr(data.momoNetwork)
    ensures r.invoicesCount == if patch.invoicesCount.Some? then patch.invoicesCount else data.invoicesCount
    ensures r.status == patch.status.GetOr(data.status)
    ensures r.location == if patch.location.Some? then patch.location else data.location
    ensures r.createdAt == if patch.createdAt.Some? then patch.createdAt else data.createdAt
    ensures r.updatedAt == Some(now)
  {
    ClientData(
      patch.name.GetOr(data.name),
      patch.email.GetOr(data.email),
      patch.momoNumber.GetOr(data.momoNumber),
      patch.momoNetwork.GetOr(data.momoNetwork),
      if patch.invoicesCount.Some? then patch.invoicesCount else data.invoicesCount,
      patch.status.GetOr(data.status),
      if patch.location.Some? then patch.location else data.location,
      if patch.createdAt.Some? then patch.createdAt else data.createdAt,
      Some(now))
  }

  /** The field `getClients` orders by. */
  function CreatedAt(data: ClientData): Option<int> {
    data.createdAt
  }

  /** getClients: the user's clients, newest `createdAt` first. */
  method GetClients(store: Collection<ClientData>, userId: string) returns (r: seq<Client>)
    ensures OrderedListing(store.Docs(userId), CreatedAt, r)
  {
    r := ListOrdered(store.Docs(userId), CreatedAt);
  }

  /** addClient: stores the client with its forced defaults under a fresh id. */
  method AddClient(store: Collection<ClientData>, userId: string, data: ClientData, newId: string, now: int, fail: bool)
    returns (r: Option<Client>)
    requires newId !in store.Docs(userId)
    modifies store
    ensures r.Some? == !fail
    ensures r.Some? ==> r.value == Doc(newId, NewClient(data, now))
    ensures store.docs == if r.Some? then old(store.docs)[userId := old(store.Docs(userId))[newId := NewClient(data, now)]]
                          else old(store.docs)
  {
    var ok := store.Add(userId, newId, NewClient(data, now), fail);
    r := if ok then Some(Doc(newId, NewClient(data, now))) else None;
  }

  /** updateClient: merges the patch into one existing client, refreshing `updatedAt`. */
  method UpdateClient(store: Collection<ClientData>, userId: string, clientId: string, patch: ClientPatch, now: int, fail: bool)
    returns (ok: bool)
    modifies store
    ensures ok == (!fail && clientId in old(store.Docs(userId)))
    ensures store.docs == if ok then old(store.docs)[userId := old(store.Docs(userId))[clientId := ApplyPatch(old(store.Docs(userId))[clientId], patch, now)]]
                          else old(store.docs)
  {
    ok := store.Update(userId, clientId, d => ApplyPatch(d, patch, now), fail);
  }

  /** deleteClient: removes that one client. */
  method DeleteClient(store: Collection<ClientData>, userId: string, clientId: string, fail: bool) returns (ok: bool)
    modifies store
    ensures ok == !fail
    ensures store.docs == if ok then old(store.docs)[userId := old(store.Docs(userId)) - {clientId}] else old(store.docs)
  {
    ok := store.Delete(userId, clientId, fail);
  }

  /** Whatever the input says, a new client starts Active with no invoices and both stamps at `now`. */
  lemma NewClientDefaults(data: ClientData, now: int)
    ensures NewClient(data, now).invoicesCount == Some(0) && NewClient(data, now).status == Active
    ensures NewClient(data, now).createdAt == Some(now) && NewClient(data, now).updatedAt == Some(now)
    ensures NewClient(data, now).name == data.name && NewClient(data, now).email == data.email
    ensures NewClient(data, now).momoNumber == data.momoNumber && NewClient(data, now).location == data.location
  {
  }

  /** A patch naming only some fields leaves the rest as they were; re-applying it changes nothing. */
  lemma PatchKeepsUnpatched(data: ClientData, patch: ClientPatch, now: int)
    ensures patch.name.None? ==> ApplyPatch(data, patch, now).name == data.name
    ensures patch.email.None? ==> ApplyPatch(data, patch, now).email == data.email
    ensures patch.momoNumber.None? ==> ApplyPatch(data, patch, now).momoNumber == data.momoNumber
    ensures patch.momoNetwork.None? ==> ApplyPatch(data, patch, now).momoNetwork == data.momoNetwork
    ensures patch.invoicesCount.None? ==> ApplyPatch(data, patch, now).invoicesCount == data.invoicesCount
    ensures patch.status.None? ==> ApplyPatch(data, patch, now).status == data.status
    ensures patch.location.None? ==> ApplyPatch(data, patch, now).location == data.location
    ensures patch.createdAt.None? ==> ApplyPatch(data, patch, now).createdAt == data.createdAt
    ensures patch == ClientPatch(None, None, None, None, None, None, None, None, None) ==> ApplyPatch(data, patch, now) == data.(updatedAt := Some(now))
    ensures ApplyPatch(ApplyPatch(data, patch, now), patch, now) == ApplyPatch(data, patch, now)
  {
  }
}
