/**
 * The invoice editor (components/invoices/invoice-form.tsx): its form state,
 * line-item editing, validation and the invoice record it saves.
 */
module InvoiceFormModel {
  import opened Wrappers
  import opened Types
  import opened Text
  import opened Seqs
  import opened Calculations
  import opened StoreModel

  /** The editable fields; the dates are the `yyyy-mm-dd` strings of the date inputs. */
  datatype FormData = FormData(
    clientId: string,
    invoiceNumber: string,
    issueDate: string,
    dueDate: string,
    status: InvoiceStatus,
    taxRate: real,
    discountRate: real,
    notes: string)

  /** `FormErrors`: one optional message per checked field. */
  datatype FormErrors = FormErrors(
    clientId: Option<string>,
    lineItems: Option<string>,
    issueDate: Option<string>,
    dueDate: Option<string>)

  const NoErrors: FormErrors := FormErrors(None, None, None, None)

  const ClientIdMessage: string := "Please select a client"
  const LineItemsMessage: string := "All line items must have a description"
  const IssueDateMessage: string := "Issue date is required"
  const DueDateMessage: string := "Due date is required"

  const DefaultTaxRate: real := 8.5
  /** Thirty days in milliseconds: the default due date lies this far after today. */
  const DueDateOffset: int := 30 * 24 * 60 * 60 * 1000

  /** The number of error keys set. */
  function ErrorCount(e: FormErrors): nat {
    (if e.clientId.Some? then 1 else 0) + (if e.lineItems.Some? then 1 else 0)
    + (if e.issueDate.Some? then 1 else 0) + (if e.dueDate.Some? then 1 else 0)
  }

  /** Some item's description is empty once trimmed. */
  predicate SomeBlankDescription(items: seq<LineItem>) {
    exists k :: 0 <= k < |items| && IsBlank(items[k].description)
  }

  lemma SomeBlankDescriptionIff(items: seq<LineItem>)
    ensures SomeBlankDescription(items) <==> exists k :: 0 <= k < |items| && AllSpace(items[k].description)
  {
    forall k | 0 <= k < |items| {
      BlankIffAllSpace(items[k].description);
    }
  }

  /**
   * What `validate` records: all four rules are evaluated, each sets its own
   * key, at most one message for the line items however many fail, and
   * success means no key is set.
   */
  function CheckInvoiceForm(form: FormData, items: seq<LineItem>): (e: FormErrors)
    ensures e.clientId.Some? <==> form.clientId == ""
    ensures e.lineItems.Some? <==> exists k :: 0 <= k < |items| && AllSpace(items[k].description)
    ensures e.issueDate.Some? <==> form.issueDate == ""
    ensures e.dueDate.Some? <==> form.dueDate == ""
    ensures e.clientId.Some? ==> e.clientId.value == ClientIdMessage
    ensures e.lineItems.Some? ==> e.lineItems.value == LineItemsMessage
    ensures e.issueDate.Some? ==> e.issueDate.value == IssueDateMessage
    ensures e.dueDate.Some? ==> e.dueDate.value == DueDateMessage
    ensures ErrorCount(e) == 0 <==> e == NoErrors
  {
    SomeBlankDescriptionIff(items);
    FormErrors(
      if form.clientId == "" then Some(ClientIdMessage) else None,
      if SomeBlankDescription(items) then Some(LineItemsMessage) else None,
      if form.issueDate == "" then Some(IssueDateMessage) else None,
      if form.dueDate == "" then Some(DueDateMessage) else None)
  }

  /** No client, one undescribed item and no due date: exactly those three errors, and not the issue date. */
  lemma ThreeErrorsExample()
    ensures var e := CheckInvoiceForm(
        FormData("", "INV-2024-100", "2024-01-01", "", Draft, 8.5, 0.0, ""),
        [LineItem("li-1", "", 1, 0.0)]);
      e.clientId.Some? && e.lineItems.Some? && e.dueDate.Some? && e.issueDate.None? && ErrorCount(e) == 3
  {
    var items := [LineItem("li-1", "", 1, 0.0)];
    assert AllSpace(items[0].description);
  }

  /** The blank item `addLineItem` appends. */
  function NewLineItem(id: string): LineItem {
    LineItem(id, "", 1, 0.0)
  }

  /** An edit of one named field of a line item. */
  datatype LineItemEdit =
    | SetId(id: string)
    | SetDescription(description: string)
    | SetQuantity(quantity: int)
    | SetUnitPrice(unitPrice: real)

  function ApplyEdit(item: LineItem, e: LineItemEdit): LineItem {
    match e
    case SetId(v) => item.(id := v)
    case SetDescription(v) => item.(description := v)
    case SetQuantity(v) => item.(quantity := v)
    case SetUnitPrice(v) => item.(unitPrice := v)
  }

  /** The list with the edit applied to every item with that id. */
  function EditedLineItems(items: seq<LineItem>, id: string, e: LineItemEdit): (r: seq<LineItem>)
    ensures |r| == |items|
    ensures forall k :: 0 <= k < |items| && items[k].id != id ==> r[k] == items[k]
    ensures forall k :: 0 <= k < |items| && items[k].id == id ==> r[k] == ApplyEdit(items[k], e)
  {
    seq(|items|, k requires 0 <= k < |items| => if items[k].id == id then ApplyEdit(items[k], e) else items[k])
  }

  /** An edit of one field leaves the other three fields of every item as they were. */
  lemma EditTouchesOnlyItsField(items: seq<LineItem>, id: string, e: LineItemEdit, k: nat)
    requires k < |items|
    ensures var r := EditedLineItems(items, id, e)[k];
      && (!e.SetId? ==> r.id == items[k].id)
      && (!e.SetDescription? ==> r.description == items[k].description)
      && (!e.SetQuantity? ==> r.quantity == items[k].quantity)
      && (!e.SetUnitPrice? ==> r.unitPrice == items[k].unitPrice)
  {
  }

  /** The list without the items with that id. */
  function LineItemsWithout(items: seq<LineItem>, id: string): seq<LineItem> {
    Filter(items, (li: LineItem) => li.id != id)
  }

  /** Removing keeps the remaining items in their order: it works piecewise over any split of the list. */
  lemma RemoveKeepsOrder(a: seq<LineItem>, b: seq<LineItem>, id: string)
    ensures LineItemsWithout(a + b, id) == LineItemsWithout(a, id) + LineItemsWithout(b, id)
  {
    FilterConcat(a, b, (li: LineItem) => li.id != id);
  }

  predicate DistinctIds(items: seq<LineItem>) {
    forall i, j :: 0 <= i < j < |items| ==> items[i].id != items[j].id
  }

  /** With distinct ids, removing by id drops at most one item. */
  lemma {:induction false} RemoveDropsAtMostOne(items: seq<LineItem>, id: string)
    ensures DistinctIds(items) ==> |LineItemsWithout(items, id)| >= |items| - 1
  {
    if items != [] && DistinctIds(items) {
      var init := items[..|items| - 1];
      var last := items[|items| - 1];
      assert DistinctIds(init);
      if last.id == id {
        assert forall k :: 0 <= k < |init| ==> init[k].id != id by {
          forall k | 0 <= k < |init| ensures init[k].id != id {
            assert items[k] == init[k];
          }
        }
        FilterAllPass(init, (li: LineItem) => li.id != id);
      } else {
        RemoveDropsAtMostOne(init, id);
      }
    }
  }

  /** The initial form state: each field from the invoice being edited, or its default when that field is missing or falsy. */
  function InitialFormData(invoice: Option<Invoice>, generatedNumber: string, now: Timestamp,
                           dateInput: Timestamp -> string): (f: FormData)
    ensures invoice.None? ==>
      && f.clientId == "" && f.invoiceNumber == generatedNumber && f.status == Draft
      && f.taxRate == DefaultTaxRate && f.discountRate == 0.0 && f.notes == ""
      && f.issueDate == dateInput(now) && f.dueDate == dateInput(now + DueDateOffset)
    ensures invoice.Some? ==>
      && f.clientId == invoice.value.clientId && f.status == invoice.value.status
      && f.discountRate == invoice.value.discountRate
      && f.issueDate == dateInput(invoice.value.issueDate) && f.dueDate == dateInput(invoice.value.dueDate)
      && (invoice.value.invoiceNumber != "" ==> f.invoiceNumber == invoice.value.invoiceNumber)
      && (invoice.value.invoiceNumber == "" ==> f.invoiceNumber == generatedNumber)
      && (invoice.value.taxRate != 0.0 ==> f.taxRate == invoice.value.taxRate)
      && (invoice.value.taxRate == 0.0 ==> f.taxRate == DefaultTaxRate)
      && (f.notes == if invoice.value.notes.Some? then invoice.value.notes.value else "")
  {
    match invoice
    case None =>
      FormData("", generatedNumber, dateInput(now), dateInput(now + DueDateOffset), Draft,
               DefaultTaxRate, 0.0, "")
    case Some(inv) =>
      FormData(
        inv.clientId,
        if inv.invoiceNumber != "" then inv.invoiceNumber else generatedNumber,
        dateInput(inv.issueDate),
        dateInput(inv.dueDate),
        inv.status,
        if inv.taxRate != 0.0 then inv.taxRate else DefaultTaxRate,
        inv.discountRate,
        inv.notes.GetOr(""))
  }

  /** The invoice's own items when there is an invoice (even an empty list), otherwise one blank item. */
  function InitialLineItems(invoice: Option<Invoice>, firstItemId: string): (r: seq<LineItem>)
    ensures invoice.Some? ==> r == invoice.value.lineItems
    ensures invoice.None? ==>
      |r| == 1 && r[0].id == firstItemId && r[0].description == "" && r[0].quantity == 1 && r[0].unitPrice == 0.0
  {
    if invoice.Some? then invoice.value.lineItems else [NewLineItem(firstItemId)]
  }

  /** A new invoice starts with no client, one blank item, 8.5% tax, no discount, as a draft due in thirty days. */
  lemma NewFormDefaults(generatedNumber: string, firstItemId: string, now: Timestamp, dateInput: Timestamp -> string)
    ensures var f := InitialFormData(None, generatedNumber, now, dateInput);
      && f.status == Draft && f.taxRate == 8.5 && f.discountRate == 0.0
      && f.clientId == "" && f.notes == "" && f.invoiceNumber == generatedNumber
      && f.dueDate == dateInput(now + 2592000000)
    ensures InitialLineItems(None, firstItemId) == [LineItem(firstItemId, "", 1, 0.0)]
  {
  }

  /** A stored 0% tax rate counts as missing: such an invoice reopens at 8.5%. */
  lemma ZeroTaxRateReopensAsDefault(inv: Invoice, generatedNumber: string, now: Timestamp, dateInput: Timestamp -> string)
    ensures inv.taxRate == 0.0 ==> InitialFormData(Some(inv), generatedNumber, now, dateInput).taxRate == 8.5
    ensures inv.taxRate != 0.0 ==> InitialFormData(Some(inv), generatedNumber, now, dateInput).taxRate == inv.taxRate
  {
  }

  /** The derived amounts of an invoice agree with its items and rates. */
  predicate TotalsConsistent(inv: Invoice) {
    && inv.subtotal == Subtotal(inv.lineItems)
    && inv.taxAmount == Tax(inv.subtotal, inv.taxRate)
    && inv.discountAmount == Discount(inv.subtotal, inv.discountRate)
    && inv.total == Total(inv.subtotal, inv.taxAmount, inv.discountAmount)
  }

  /**
   * `invoiceData` in `handleSubmit`. `newId` stands for `generateId("inv")`,
   * `now` for `new Date()`, `parseDate` for `new Date(yyyy-mm-dd)`.
   */
  function AssembleInvoice(existing: Option<Invoice>, form: FormData, items: seq<LineItem>, newId: string,
                           parseDate: string -> Timestamp, now: Timestamp): (inv: Invoice)
    ensures existing.Some? && existing.value.id != "" ==> inv.id == existing.value.id
    ensures existing.Some? && existing.value.id == "" ==> inv.id == newId
    ensures existing.None? ==> inv.id == newId && inv.createdAt == now
    ensures existing.Some? ==> inv.createdAt == existing.value.createdAt
    ensures TotalsConsistent(inv)
    ensures inv.lineItems == items && inv.taxRate == form.taxRate && inv.discountRate == form.discountRate
    ensures inv.total * 100.0 == Subtotal(items) * (100.0 + form.taxRate - form.discountRate)
    ensures inv.client.None? && inv.updatedAt == now
    ensures inv.invoiceNumber == form.invoiceNumber && inv.clientId == form.clientId && inv.status == form.status
    ensures inv.notes == Some(form.notes)
    ensures inv.issueDate == parseDate(form.issueDate) && inv.dueDate == parseDate(form.dueDate)
  {
    var subtotal := Subtotal(items);
    var tax := Tax(subtotal, form.taxRate);
    var discount := Discount(subtotal, form.discountRate);
    TotalFactored(subtotal, form.taxRate, form.discountRate);
    Invoice(
      if existing.Some? && existing.value.id != "" then existing.value.id else newId,
      form.invoiceNumber,
      form.clientId,
      None,
      items,
      subtotal,
      form.taxRate,
      tax,
      form.discountRate,
      discount,
      Total(subtotal, tax, discount),
      form.status,
      parseDate(form.issueDate),
      parseDate(form.dueDate),
      Some(form.notes),
      if existing.Some? then existing.value.createdAt else now,
      now)
  }

  /** `invoiceData` as the updates of `updateInvoice`: every key is present except `client`. */
  function DataPatch(d: Invoice): InvoicePatch {
    InvoicePatch(
      Some(d.id), Some(d.invoiceNumber), Some(d.clientId), None, Some(d.lineItems),
      Some(d.subtotal), Some(d.taxRate), Some(d.taxAmount), Some(d.discountRate),
      Some(d.discountAmount), Some(d.total), Some(d.status), Some(d.issueDate),
      Some(d.dueDate), Some(d.notes), Some(d.createdAt), Some(d.updatedAt))
  }

  /** Merging the full record replaces every stored field except the joined client. */
  lemma MergeDataPatch(stored: Invoice, d: Invoice)
    ensures MergeInvoice(stored, DataPatch(d)) == d.(client := stored.client)
    ensures TotalsConsistent(d) ==> TotalsConsistent(MergeInvoice(stored, DataPatch(d)))
  {
  }

  /**
   * Opening a stored invoice in the editor and saving it without changes
   * leaves the stored record as it was, apart from the new update time. The
   * editor receives the invoice as `LookupInvoice` returns it, joined to its
   * client; the join is dropped again on save because the saved record
   * carries no client. This holds when the dates survive the date input and
   * no default of the initial form state replaces a stored field.
   */
  lemma ReopenAndSaveUnchanged(stored: Invoice, cs: seq<Client>, generatedNumber: string, newId: string,
                               now: Timestamp, dateInput: Timestamp -> string, parseDate: string -> Timestamp)
    requires stored.id != "" && stored.invoiceNumber != "" && stored.taxRate != 0.0 && stored.notes.Some?
    requires stored.client.None? && TotalsConsistent(stored)
    requires parseDate(dateInput(stored.issueDate)) == stored.issueDate
    requires parseDate(dateInput(stored.dueDate)) == stored.dueDate
    ensures var shown := WithClient(stored, cs);
      var saved := AssembleInvoice(Some(shown), InitialFormData(Some(shown), generatedNumber, now, dateInput),
                                   InitialLineItems(Some(shown), newId), newId, parseDate, now);
      MergeInvoice(stored, DataPatch(saved)) == stored.(updatedAt := now)
  {
  }

  class InvoiceForm {
    const invoice: Option<Invoice>
    const isEditing: bool
    var formData: FormData
    var lineItems: seq<LineItem>
    var errors: FormErrors

    /** The initial state; `generatedNumber`, `firstItemId` and `now` stand for the generators and the clock. */
    constructor (invoice: Option<Invoice>, isEditing: bool, generatedNumber: string, firstItemId: string,
                 now: Timestamp, dateInput: Timestamp -> string)
      ensures this.invoice == invoice && this.isEditing == isEditing
      ensures formData == InitialFormData(invoice, generatedNumber, now, dateInput)
      ensures lineItems == InitialLineItems(invoice, firstItemId)
      ensures errors == NoErrors
    {
      this.invoice := invoice;
      this.isEditing := isEditing;
      formData := InitialFormData(invoice, generatedNumber, now, dateInput);
      lineItems := InitialLineItems(invoice, firstItemId);
      errors := NoErrors;
    }

    /** The amounts shown while editing, recomputed from the current items and rates. */
    function CurrentTotal(): real
      reads this
    {
      TotalFor(Subtotal(lineItems), formData.taxRate, formData.discountRate)
    }

    method AddLineItem(newId: string)
      modifies this`lineItems
      ensures lineItems == old(lineItems) + [NewLineItem(newId)]
    {
      lineItems := lineItems + [NewLineItem(newId)];
    }

    /** Refused while only one item is left, so a list that has an item keeps one (ids being distinct). */
    method RemoveLineItem(id: string)
      modifies this`lineItems
      ensures |old(lineItems)| <= 1 ==> lineItems == old(lineItems)
      ensures |old(lineItems)| > 1 ==> lineItems == LineItemsWithout(old(lineItems), id)
      ensures old(lineItems) != [] && DistinctIds(old(lineItems)) ==> lineItems != []
    {
      if |lineItems| > 1 {
        RemoveDropsAtMostOne(lineItems, id);
        lineItems := LineItemsWithout(lineItems, id);
      }
    }

    method UpdateLineItem(id: string, e: LineItemEdit)
      modifies this`lineItems
      ensures lineItems == EditedLineItems(old(lineItems), id, e)
    {
      lineItems := EditedLineItems(lineItems, id, e);
    }

    /** `validate`: collect every error into a fresh record, store it, succeed when it is empty. */
    method Validate() returns (ok: bool)
      modifies this`errors
      ensures errors == CheckInvoiceForm(formData, lineItems)
      ensures ok <==> errors == NoErrors
    {
      var newErrors := NoErrors;
      if formData.clientId == "" {
        newErrors := newErrors.(clientId := Some(ClientIdMessage));
      }
      if SomeBlankDescription(lineItems) {
        newErrors := newErrors.(lineItems := Some(LineItemsMessage));
      }
      if formData.issueDate == "" {
        newErrors := newErrors.(issueDate := Some(IssueDateMessage));
      }
      if formData.dueDate == "" {
        newErrors := newErrors.(dueDate := Some(DueDateMessage));
      }
      errors := newErrors;
      ok := ErrorCount(newErrors) == 0;
    }

    /**
     * `handleSubmit`: validate, then either merge the assembled record into the
     * invoice being edited or append it as a new one.
     */
    method Submit(store: StoreModel.Store, newId: string, parseDate: string -> Timestamp, now: Timestamp)
      returns (saved: bool)
      modifies this`errors, store`invoices
      ensures errors == CheckInvoiceForm(formData, lineItems)
      ensures saved <==> errors == NoErrors
      ensures !saved ==> store.invoices == old(store.invoices)
      ensures saved && isEditing && invoice.Some? ==>
        store.invoices == UpdatedInvoices(old(store.invoices), invoice.value.id,
          DataPatch(AssembleInvoice(invoice, formData, lineItems, newId, parseDate, now)), now)
      ensures saved && !(isEditing && invoice.Some?) ==>
        store.invoices == old(store.invoices) + [AssembleInvoice(invoice, formData, lineItems, newId, parseDate, now)]
      ensures store.clients == old(store.clients) && store.currentUser == old(store.currentUser)
    {
      var ok := Validate();
      if !ok {
        return false;
      }
      var data := AssembleInvoice(invoice, formData, lineItems, newId, parseDate, now);
      if isEditing && invoice.Some? {
        store.UpdateInvoice(invoice.value.id, DataPatch(data), now);
      } else {
        store.AddInvoice(data);
      }
      saved := true;
    }
  }
}
