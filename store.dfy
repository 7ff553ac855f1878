/**
 * The in-memory store (lib/store.ts): module-level `clients`, `invoices` and
 * `currentUser`, reassigned by its operations, and pure queries over them.
 */
module StoreModel {
  import opened Wrappers
  import opened Types
  import opened Seqs

  const AdminUsername: string := "Trueadmin"
  const AdminPassword: string := "bhayana44"

  /**
   * A partial client record of updates: `None` is a key
   * that is absent and leaves the field alone. `phone` may be present with the
   * value undefined (`Some(None)`), which clears it.
   */
  datatype ClientPatch = ClientPatch(
    id: Option<string>,
    name: Option<string>,
    email: Option<string>,
    company: Option<string>,
    address: Option<string>,
    phone: Option<Option<string>>,
    createdAt: Option<Timestamp>)

  const NoClientChanges: ClientPatch := ClientPatch(None, None, None, None, None, None, None)

  /** Spreading the updates over a client: each key present in the patch replaces that field, and each absent key keeps it. */
  function MergeClient(c: Client, u: ClientPatch): (r: Client)
    ensures u == NoClientChanges ==> r == c
    ensures u.id.None? ==> r.id == c.id
    ensures u.createdAt.None? ==> r.createdAt == c.createdAt
    ensures u.phone == Some(None) ==> r.phone.None?
    ensures u.id.Some? ==> r.id == u.id.value
    ensures u.id.None? ==> r.id == c.id
    ensures u.name.Some? ==> r.name == u.name.value
    ensures u.name.None? ==> r.name == c.name
    ensures u.email.Some? ==> r.email == u.email.value
    ensures u.email.None? ==> r.email == c.email
    ensures u.company.Some? ==> r.company == u.company.value
    ensures u.company.None? ==> r.company == c.company
    ensures u.address.Some? ==> r.address == u.address.value
    ensures u.address.None? ==> r.address == c.address
    ensures u.phone.Some? ==> r.phone == u.phone.value
    ensures u.phone.None? ==> r.phone == c.phone
    ensures u.createdAt.Some? ==> r.createdAt == u.createdAt.value
    ensures u.createdAt.None? ==> r.createdAt == c.createdAt
  {
    Client(
      u.id.GetOr(c.id), u.name.GetOr(c.name), u.email.GetOr(c.email),
      u.company.GetOr(c.company), u.address.GetOr(c.address),
      u.phone.GetOr(c.phone), u.createdAt.GetOr(c.createdAt))
  }

  /** A `Partial<Invoice>`, key by key, as `ClientPatch` is for clients. */
  datatype InvoicePatch = InvoicePatch(
    id: Option<string>,
    invoiceNumber: Option<string>,
    clientId: Option<string>,
    client: Option<Option<Client>>,
    lineItems: Option<seq<LineItem>>,
    subtotal: Option<real>,
    taxRate: Option<real>,
    taxAmount: Option<real>,
    discountRate: Option<real>,
    discountAmount: Option<real>,
    total: Option<real>,
    status: Option<InvoiceStatus>,
    issueDate: Option<Timestamp>,
    dueDate: Option<Timestamp>,
    notes: Option<Option<string>>,
    createdAt: Option<Timestamp>,
    updatedAt: Option<Timestamp>)

  const NoInvoiceChanges: InvoicePatch :=
    InvoicePatch(None, None, None, None, None, None, None, None, None, None, None, None, None, None, None, None, None)

  /** Spreading the updates over an invoice, key by key as for clients. */
  function MergeInvoice(i: Invoice, u: InvoicePatch): (r: Invoice)
    ensures u == NoInvoiceChanges ==> r == i
    ensures u.id.None? ==> r.id == i.id
    ensures u.createdAt.None? ==> r.createdAt == i.createdAt
    ensures u.client.None? ==> r.client == i.client
    ensures u.id.Some? ==> r.id == u.id.value
    ensures u.id.None? ==> r.id == i.id
    ensures u.invoiceNumber.Some? ==> r.invoiceNumber == u.invoiceNumber.value
    ensures u.invoiceNumber.None? ==> r.invoiceNumber == i.invoiceNumber
    ensures u.clientId.Some? ==> r.clientId == u.clientId.value
    ensures u.clientId.None? ==> r.clientId == i.clientId
    ensures u.client.Some? ==> r.client == u.client.value
    ensures u.client.None? ==> r.client == i.client
    ensures u.lineItems.Some? ==> r.lineItems == u.lineItems.value
    ensures u.lineItems.None? ==> r.lineItems == i.lineItems
    ensures u.subtotal.Some? ==> r.subtotal == u.subtotal.value
    ensures u.subtotal.None? ==> r.subtotal == i.subtotal
    ensures u.taxRate.Some? ==> r.taxRate == u.taxRate.value
    ensures u.taxRate.None? ==> r.taxRate == i.taxRate
    ensures u.taxAmount.Some? ==> r.taxAmount == u.taxAmount.value
    ensures u.taxAmount.None? ==> r.taxAmount == i.taxAmount
    ensures u.discountRate.Some? ==> r.discountRate == u.discountRate.value
    ensures u.discountRate.None? ==> r.discountRate == i.discountRate
    ensures u.discountAmount.Some? ==> r.discountAmount == u.discountAmount.value
    ensures u.discountAmount.None? ==> r.discountAmount == i.discountAmount
    ensures u.total.Some? ==> r.total == u.total.value
    ensures u.total.None? ==> r.total == i.total
    ensures u.status.Some? ==> r.status == u.status.value
    ensures u.status.None? ==> r.status == i.status
    ensures u.issueDate.Some? ==> r.issueDate == u.issueDate.value
    ensures u.issueDate.None? ==> r.issueDate == i.issueDate
    ensures u.dueDate.Some? ==> r.dueDate == u.dueDate.value
    ensures u.dueDate.None? ==> r.dueDate == i.dueDate
    ensures u.notes.Some? ==> r.notes == u.notes.value
    ensures u.notes.None? ==> r.notes == i.notes
    ensures u.createdAt.Some? ==> r.createdAt == u.createdAt.value
    ensures u.createdAt.None? ==> r.createdAt == i.createdAt
    ensures u.updatedAt.Some? ==> r.updatedAt == u.updatedAt.value
    ensures u.updatedAt.None? ==> r.updatedAt == i.updatedAt
  {
    Invoice(
      u.id.GetOr(i.id), u.invoiceNumber.GetOr(i.invoiceNumber), u.clientId.GetOr(i.clientId),
      u.client.GetOr(i.client), u.lineItems.GetOr(i.lineItems), u.subtotal.GetOr(i.subtotal),
      u.taxRate.GetOr(i.taxRate), u.taxAmount.GetOr(i.taxAmount),
      u.discountRate.GetOr(i.discountRate), u.discountAmount.GetOr(i.discountAmount),
      u.total.GetOr(i.total), u.status.GetOr(i.status), u.issueDate.GetOr(i.issueDate),
      u.dueDate.GetOr(i.dueDate), u.notes.GetOr(i.notes), u.createdAt.GetOr(i.createdAt),
      u.updatedAt.GetOr(i.updatedAt))
  }

  /** The client list with the updates merged into every client with that id. */
  function UpdatedClients(cs: seq<Client>, id: string, u: ClientPatch): (r: seq<Client>)
    ensures |r| == |cs|
    ensures forall k :: 0 <= k < |cs| && cs[k].id == id ==> r[k] == MergeClient(cs[k], u)
    ensures forall k :: 0 <= k < |cs| && cs[k].id != id ==> r[k] == cs[k]
  {
    seq(|cs|, k requires 0 <= k < |cs| => if cs[k].id == id then MergeClient(cs[k], u) else cs[k])
  }

  /** The invoice list with the updates merged into, and the time stamped on, every invoice with that id. */
  function UpdatedInvoices(invs: seq<Invoice>, id: string, u: InvoicePatch, now: Timestamp): (r: seq<Invoice>)
    ensures |r| == |invs|
    ensures forall k :: 0 <= k < |invs| && invs[k].id == id ==> r[k] == MergeInvoice(invs[k], u).(updatedAt := now)
    ensures forall k :: 0 <= k < |invs| && invs[k].id != id ==> r[k] == invs[k]
  {
    seq(|invs|, k requires 0 <= k < |invs| =>
      if invs[k].id == id then MergeInvoice(invs[k], u).(updatedAt := now) else invs[k])
  }

  /** The clients without that id. */
  function ClientsWithout(cs: seq<Client>, id: string): seq<Client> {
    Filter(cs, (c: Client) => c.id != id)
  }

  /** The invoices without that id. */
  function InvoicesWithout(invs: seq<Invoice>, id: string): seq<Invoice> {
    Filter(invs, (i: Invoice) => i.id != id)
  }

  /** The first client with that id, if any. */
  function FindClient(cs: seq<Client>, id: string): (r: Option<Client>)
    ensures r.None? <==> forall k :: 0 <= k < |cs| ==> cs[k].id != id
    ensures r.Some? ==> r.value in cs && r.value.id == id
    ensures r.Some? ==> exists k :: 0 <= k < |cs| && cs[k] == r.value && forall j :: 0 <= j < k ==> cs[j].id != id
  {
    var p := (c: Client) => c.id == id;
    var r := Find(cs, p);
    assert r.Some? ==> IndexWhere(cs, p).Some? && cs[IndexWhere(cs, p).value] == r.value;
    r
  }

  /** The first invoice with that id, if any. */
  function FindInvoice(invs: seq<Invoice>, id: string): (r: Option<Invoice>)
    ensures r.None? <==> forall k :: 0 <= k < |invs| ==> invs[k].id != id
    ensures r.Some? ==> r.value in invs && r.value.id == id
    ensures r.Some? ==> exists k :: 0 <= k < |invs| && invs[k] == r.value && forall j :: 0 <= j < k ==> invs[j].id != id
  {
    var p := (i: Invoice) => i.id == id;
    var r := Find(invs, p);
    assert r.Some? ==> IndexWhere(invs, p).Some? && invs[IndexWhere(invs, p).value] == r.value;
    r
  }

  /** The invoice with its client attached: the first client whose id is the invoice's `clientId`. */
  function WithClient(inv: Invoice, cs: seq<Client>): Invoice {
    inv.(client := FindClient(cs, inv.clientId))
  }

  /** `getInvoices`: every stored invoice, in order, joined to its client. */
  function Join(invs: seq<Invoice>, cs: seq<Client>): (r: seq<Invoice>)
    ensures |r| == |invs|
    ensures forall k :: 0 <= k < |invs| ==> r[k].(client := invs[k].client) == invs[k]
    ensures forall k :: 0 <= k < |invs| ==> r[k].client == FindClient(cs, invs[k].clientId)
  {
    seq(|invs|, k requires 0 <= k < |invs| => WithClient(invs[k], cs))
  }

  /** `getInvoice`: the first invoice with that id, joined to its client. */
  function LookupInvoice(invs: seq<Invoice>, cs: seq<Client>, id: string): (r: Option<Invoice>)
    ensures r.None? <==> forall k :: 0 <= k < |invs| ==> invs[k].id != id
    ensures r.Some? ==> r.value.id == id && r.value.client == FindClient(cs, r.value.clientId)
    ensures r.Some? ==> r.value.(client := FindInvoice(invs, id).value.client) == FindInvoice(invs, id).value
  {
    match FindInvoice(invs, id)
    case None => None
    case Some(inv) => Some(WithClient(inv, cs))
  }

  /** The dashboard summary returned by `getStats`. */
  datatype Stats = Stats(
    totalInvoices: nat,
    paidInvoices: nat,
    totalRevenue: real,
    outstandingAmount: real,
    draftCount: nat,
    sentCount: nat)

  predicate IsPaid(i: Invoice) { i.status == Paid }
  predicate IsUnpaid(i: Invoice) { i.status != Paid }
  predicate IsDraft(i: Invoice) { i.status == Draft }
  predicate IsSent(i: Invoice) { i.status == Sent }
  function InvoiceTotal(i: Invoice): real { i.total }

  /** Draft and sent invoices together are exactly the unpaid ones. */
  lemma {:induction false} UnpaidSplitsIntoDraftAndSent(invs: seq<Invoice>)
    ensures |Filter(invs, IsUnpaid)| == |Filter(invs, IsDraft)| + |Filter(invs, IsSent)|
  {
    if invs != [] {
      UnpaidSplitsIntoDraftAndSent(invs[..|invs| - 1]);
    }
  }

  /**
   * `getStats`: counts by status, revenue from paid invoices, outstanding from
   * all the others. It reads only the invoices, never the clients.
   */
  function ComputeStats(invs: seq<Invoice>): (st: Stats)
    ensures st.totalInvoices == |invs|
    ensures st.paidInvoices <= st.totalInvoices
    ensures st.paidInvoices + st.draftCount + st.sentCount == st.totalInvoices
    ensures st.totalRevenue + st.outstandingAmount == Sum(invs, InvoiceTotal)
    ensures st.paidInvoices == Count(invs, IsPaid)
    ensures st.draftCount == Count(invs, IsDraft)
    ensures st.sentCount == Count(invs, IsSent)
    ensures st.totalRevenue == Sum(invs, Masked(IsPaid, InvoiceTotal))
    ensures st.outstandingAmount == Sum(invs, Masked(IsUnpaid, InvoiceTotal))
  {
    FilterLengthIsCount(invs, IsPaid);
    FilterLengthIsCount(invs, IsDraft);
    FilterLengthIsCount(invs, IsSent);
    SumFilterMasked(invs, IsPaid, InvoiceTotal);
    SumFilterMasked(invs, IsUnpaid, InvoiceTotal);
    FilterComplementLength(invs, IsPaid, IsUnpaid);
    UnpaidSplitsIntoDraftAndSent(invs);
    SumFilterSplit(invs, IsPaid, IsUnpaid, InvoiceTotal);
    var paid := Filter(invs, IsPaid);
    Stats(
      |invs|,
      |paid|,
      Sum(paid, InvoiceTotal),
      Sum(Filter(invs, IsUnpaid), InvoiceTotal),
      |Filter(invs, IsDraft)|,
      |Filter(invs, IsSent)|)
  }

  /** The only user the store ever holds in memory is the authenticated administrator. */
  predicate AdminOrNobody(u: Option<User>) {
    u == None || u == Some(User(AdminUsername, true))
  }

  class Store {
    var clients: seq<Client>
    var invoices: seq<Invoice>
    var currentUser: Option<User>

    ghost predicate Valid()
      reads this
    {
      AdminOrNobody(currentUser)
    }

    /** The store as the module is loaded: the mock collections are empty and nobody is logged in. */
    constructor ()
      ensures Valid()
      ensures clients == [] && invoices == [] && currentUser == None
    {
      clients := [];
      invoices := [];
      currentUser := None;
    }

    method Login(username: string, password: string) returns (ok: bool)
      requires Valid()
      modifies this`currentUser
      ensures Valid()
      ensures ok <==> username == AdminUsername && password == AdminPassword
      ensures ok ==> currentUser == Some(User(username, true))
      ensures !ok ==> currentUser == old(currentUser)
    {
      if username == AdminUsername && password == AdminPassword {
        currentUser := Some(User(username, true));
        return true;
      }
      return false;
    }

    method Logout()
      modifies this`currentUser
      ensures Valid()
      ensures currentUser == None
    {
      currentUser := None;
    }

    /** `getUser`, in-memory part: whoever is logged in, and that is only ever the administrator. */
    function GetUser(): (u: Option<User>)
      reads this
      requires Valid()
      ensures u.Some? ==> u.value.username == AdminUsername && u.value.isAuthenticated
    {
      currentUser
    }

    function GetClients(): seq<Client>
      reads this
    {
      clients
    }

    function GetClient(id: string): Option<Client>
      reads this
    {
      FindClient(clients, id)
    }

    method AddClient(c: Client)
      modifies this`clients
      ensures old(Valid()) ==> Valid()
      ensures clients == old(clients) + [c]
      ensures |clients| == |old(clients)| + 1 && clients[|old(clients)|] == c
      ensures clients[..|old(clients)|] == old(clients)
      ensures invoices == old(invoices) && currentUser == old(currentUser)
    {
      clients := clients + [c];
    }

    method UpdateClient(id: string, updates: ClientPatch)
      modifies this`clients
      ensures old(Valid()) ==> Valid()
      ensures clients == UpdatedClients(old(clients), id, updates)
      ensures invoices == old(invoices) && currentUser == old(currentUser)
    {
      clients := UpdatedClients(clients, id, updates);
    }

    /** Invoices that refer to the client stay as they are; they simply join to no client afterwards. */
    method DeleteClient(id: string)
      modifies this`clients
      ensures old(Valid()) ==> Valid()
      ensures clients == ClientsWithout(old(clients), id)
      ensures invoices == old(invoices) && currentUser == old(currentUser)
    {
      clients := ClientsWithout(clients, id);
    }

    function GetInvoices(): seq<Invoice>
      reads this
    {
      Join(invoices, clients)
    }

    function GetInvoice(id: string): Option<Invoice>
      reads this
    {
      LookupInvoice(invoices, clients, id)
    }

    method AddInvoice(inv: Invoice)
      modifies this`invoices
      ensures old(Valid()) ==> Valid()
      ensures invoices == old(invoices) + [inv]
      ensures |invoices| == |old(invoices)| + 1 && invoices[|old(invoices)|] == inv
      ensures invoices[..|old(invoices)|] == old(invoices)
      ensures clients == old(clients) && currentUser == old(currentUser)
    {
      invoices := invoices + [inv];
    }

    /** `now` is the current time; it overrides any `updatedAt` in the updates. */
    method UpdateInvoice(id: string, updates: InvoicePatch, now: Timestamp)
      modifies this`invoices
      ensures old(Valid()) ==> Valid()
      ensures invoices == UpdatedInvoices(old(invoices), id, updates, now)
      ensures clients == old(clients) && currentUser == old(currentUser)
    {
      invoices := UpdatedInvoices(invoices, id, updates, now);
    }

    method DeleteInvoice(id: string)
      modifies this`invoices
      ensures old(Valid()) ==> Valid()
      ensures invoices == InvoicesWithout(old(invoices), id)
      ensures clients == old(clients) && currentUser == old(currentUser)
    {
      invoices := InvoicesWithout(invoices, id);
    }

    function GetStats(): Stats
      reads this
    {
      ComputeStats(invoices)
    }
  }

  /** Deleting removes exactly the clients with that id. */
  lemma DeleteClientRemovesExactly(cs: seq<Client>, id: string)
    ensures forall c :: c in ClientsWithout(cs, id) ==> c in cs && c.id != id
    ensures forall c :: c in cs && c.id != id ==> c in ClientsWithout(cs, id)
    ensures |ClientsWithout(cs, id)| + |Filter(cs, (c: Client) => c.id == id)| == |cs|
  {
    FilterComplementLength(cs, (c: Client) => c.id != id, (c: Client) => c.id == id);
  }

  /** Deleting keeps the survivors in their relative order: it works piecewise. */
  lemma DeleteClientKeepsOrder(a: seq<Client>, b: seq<Client>, id: string)
    ensures ClientsWithout(a + b, id) == ClientsWithout(a, id) + ClientsWithout(b, id)
  {
    FilterConcat(a, b, (c: Client) => c.id != id);
  }

  /** Deleting removes exactly the invoices with that id. */
  lemma DeleteInvoiceRemovesExactly(invs: seq<Invoice>, id: string)
    ensures forall i :: i in InvoicesWithout(invs, id) ==> i in invs && i.id != id
    ensures forall i :: i in invs && i.id != id ==> i in InvoicesWithout(invs, id)
    ensures |InvoicesWithout(invs, id)| + |Filter(invs, (i: Invoice) => i.id == id)| == |invs|
  {
    FilterComplementLength(invs, (i: Invoice) => i.id != id, (i: Invoice) => i.id == id);
  }

  lemma DeleteInvoiceKeepsOrder(a: seq<Invoice>, b: seq<Invoice>, id: string)
    ensures InvoicesWithout(a + b, id) == InvoicesWithout(a, id) + InvoicesWithout(b, id)
  {
    FilterConcat(a, b, (i: Invoice) => i.id != id);
  }

  /** Applying the same client update twice is the same as applying it once (when it does not rename the record away). */
  lemma UpdateClientIdempotent(cs: seq<Client>, id: string, u: ClientPatch)
    requires u.id.None? || u.id == Some(id)
    ensures UpdatedClients(UpdatedClients(cs, id, u), id, u) == UpdatedClients(cs, id, u)
  {
  }

  /** An update aimed at an id nobody has changes nothing. */
  lemma UpdateAbsentClientIsNoOp(cs: seq<Client>, id: string, u: ClientPatch)
    requires forall k :: 0 <= k < |cs| ==> cs[k].id != id
    ensures UpdatedClients(cs, id, u) == cs
  {
  }

  /** Every updated invoice carries the update time, whatever `updatedAt` the updates held. */
  lemma UpdateInvoiceStampsTime(invs: seq<Invoice>, id: string, u: InvoicePatch, now: Timestamp)
    ensures forall k :: 0 <= k < |invs| && invs[k].id == id ==> UpdatedInvoices(invs, id, u, now)[k].updatedAt == now
  {
  }

  /** The stats only look at invoices: two stores with the same invoices report the same stats. */
  lemma StatsIgnoreClients(s1: Store, s2: Store)
    requires s1.invoices == s2.invoices
    ensures s1.GetStats() == s2.GetStats()
  {
  }

  lemma FilterThree(a: Invoice, b: Invoice, c: Invoice, p: Invoice -> bool)
    ensures Filter([a, b, c], p) ==
      (if p(a) then [a] else []) + (if p(b) then [b] else []) + (if p(c) then [c] else [])
  {
    assert [a, b, c] == [a, b] + [c] && [a, b] == [a] + [b];
    FilterConcat([a, b], [c], p);
    FilterConcat([a], [b], p);
    FilterSingleton(a, p);
    FilterSingleton(b, p);
    FilterSingleton(c, p);
  }

  /**
   * One paid, one sent and one draft invoice: revenue is the paid total,
   * outstanding is the other two totals together, one of each status, three
   * in all (with totals 100, 50 and 25: revenue 100, outstanding 75).
   */
  lemma StatsOfPaidSentDraft(a: Invoice, b: Invoice, c: Invoice)
    requires a.status == Paid && b.status == Sent && c.status == Draft
    ensures ComputeStats([a, b, c]) == Stats(3, 1, a.total, b.total + c.total, 1, 1)
  {
    var paid, unpaid, draft, sent := Filter([a, b, c], IsPaid), Filter([a, b, c], IsUnpaid),
      Filter([a, b, c], IsDraft), Filter([a, b, c], IsSent);
    assert paid == [a] by {
      FilterThree(a, b, c, IsPaid);
      assert [a] + [] + [] == [a];
    }
    assert unpaid == [b, c] by {
      FilterThree(a, b, c, IsUnpaid);
      assert [] + [b] + [c] == [b, c];
    }
    assert |draft| == 1 by {
      FilterThree(a, b, c, IsDraft);
    }
    assert |sent| == 1 by {
      FilterThree(a, b, c, IsSent);
    }
    SumSingleton(a, InvoiceTotal);
    SumSingleton(b, InvoiceTotal);
    SumSingleton(c, InvoiceTotal);
    assert [b, c] == [b] + [c];
    SumConcat([b], [c], InvoiceTotal);
  }
}
