/** The invoice list (app/dashboard/invoices/page.tsx): status filter, card title, delete guard. */
module InvoicesPageModel {
  import opened Wrappers
  import opened Types
  import opened Text
  import opened Seqs
  import opened StoreModel

  /** The filter buttons: "all" or one status. */
  datatype StatusFilter = All | Only(status: InvoiceStatus)

  /** The test a status filter applies to each invoice. */
  function HasStatus(s: InvoiceStatus): Invoice -> bool {
    (i: Invoice) => i.status == s
  }

  /**
   * The invoices the list shows: all of them, or those with the chosen status.
   * A status filter keeps each matching invoice exactly once: the result is as
   * long as the number of matching invoices.
   */
  function FilterByStatus(invs: seq<Invoice>, f: StatusFilter): (r: seq<Invoice>)
    ensures f.All? ==> r == invs
    ensures f.Only? ==> forall k :: 0 <= k < |r| ==> r[k] in invs && r[k].status == f.status
    ensures f.Only? ==> forall k :: 0 <= k < |invs| && invs[k].status == f.status ==> invs[k] in r
    ensures f.Only? ==> |r| == Count(invs, HasStatus(f.status))
  {
    match f
    case All => invs
    case Only(s) =>
      FilterLengthIsCount(invs, HasStatus(s));
      Filter(invs, HasStatus(s))
  }

  /** The filter keeps the list's order: it works piecewise over any split of the list. */
  lemma FilterByStatusKeepsOrder(a: seq<Invoice>, b: seq<Invoice>, f: StatusFilter)
    ensures FilterByStatus(a + b, f) == FilterByStatus(a, f) + FilterByStatus(b, f)
  {
    if f.Only? {
      FilterConcat(a, b, HasStatus(f.status));
    }
  }

  /** The value of a filter button: "all" or the status name. */
  function FilterValue(f: StatusFilter): string {
    match f
    case All => "all"
    case Only(s) => StatusName(s)
  }

  /**
   * The card title. The "all" case is written out separately, yet it is the
   * same rule as the others: the filter value with its first letter
   * upper-cased, followed by " Invoices".
   */
  function CardTitle(f: StatusFilter): (r: string)
    ensures r == Capitalize(FilterValue(f)) + " Invoices"
  {
    assert Capitalize("all") == ['A'] + "ll";
    match f
    case All => "All Invoices"
    case Only(s) => Capitalize(StatusName(s)) + " Invoices"
  }

  lemma CapitalizedStatusNames()
    ensures Capitalize(StatusName(Draft)) == "Draft"
    ensures Capitalize(StatusName(Sent)) == "Sent"
    ensures Capitalize(StatusName(Paid)) == "Paid"
  {
    assert Capitalize("draft") == ['D'] + "raft";
    assert Capitalize("sent") == ['S'] + "ent";
    assert Capitalize("paid") == ['P'] + "aid";
  }

  lemma CardTitles()
    ensures CardTitle(All) == "All Invoices"
    ensures CardTitle(Only(Draft)) == "Draft Invoices"
    ensures CardTitle(Only(Sent)) == "Sent Invoices"
    ensures CardTitle(Only(Paid)) == "Paid Invoices"
  {
    CapitalizedStatusNames();
  }

  class InvoicesPage {
    var invoices: seq<Invoice>
    var filter: StatusFilter
    var deleteId: Option<string>

    constructor ()
      ensures invoices == [] && filter == All && deleteId == None
    {
      invoices := [];
      filter := All;
      deleteId := None;
    }

    /** `loadInvoices` */
    method LoadInvoices(store: StoreModel.Store)
      modifies this`invoices
      ensures invoices == Join(store.invoices, store.clients)
    {
      invoices := store.GetInvoices();
    }

    function FilteredInvoices(): seq<Invoice>
      reads this
    {
      FilterByStatus(invoices, filter)
    }

    /** `handleDelete`: does nothing unless a delete is pending; otherwise deletes, reloads and clears it. */
    method HandleDelete(store: StoreModel.Store)
      modifies this`invoices, this`deleteId, store`invoices
      ensures !IsTruthy(old(deleteId)) ==>
        invoices == old(invoices) && deleteId == old(deleteId) && store.invoices == old(store.invoices)
      ensures IsTruthy(old(deleteId)) ==>
        && store.invoices == InvoicesWithout(old(store.invoices), old(deleteId).value)
        && invoices == Join(store.invoices, store.clients)
        && deleteId == None
      ensures store.clients == old(store.clients)
    {
      if IsTruthy(deleteId) {
        store.DeleteInvoice(deleteId.value);
        LoadInvoices(store);
        deleteId := None;
      }
    }
  }
}
