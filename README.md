# InvoiceFlow invoice engine, modelled in Dafny

InvoiceFlow is a browser application for a single administrator. The administrator keeps a list of
clients and writes invoices for them. An invoice is made of line items, a tax rate and a discount
rate. The application also shows a dashboard with totals by status. This project models the logic
under those screens. The layout and styling are not modelled.

- **Money** (`Calculations`). It holds the subtotal fold and the tax, discount and total formulas,
  computed on exact reals.
- **The in-memory store** (`StoreModel`). The class `Store` has three fields: `clients`, `invoices`
  and `currentUser`. It provides the hard-coded login and logout and the append, merge-update and
  filter-delete operations for both lists. Reading invoices joins each one to its client. The module
  also computes the dashboard statistics. An update is a patch datatype that has one optional slot
  per key, which is how the model writes TypeScript's `Partial<T>` spread. An optional field such as
  `phone` gets a slot of type `Option<Option<T>>`, because spreading `undefined` overwrites the
  stored value.
- **The invoice editor** (`InvoiceFormModel`). It holds the initial form values and their `||`
  defaults, the line-item list edits and the four-rule validator. It also builds the record that
  `handleSubmit` saves, and the class `InvoiceForm` holds the editor's state.
- **The clients page** (`ClientsPageModel`):
  - the required-field checks, which use trim;
  - the e-mail regular expression, written as a string predicate and proved equivalent to a
    field-by-field description;
  - the mapping from an empty phone to a missing phone;
  - the record passed to the store when the client is saved, and the delete guard.
- **The invoice list** (`InvoicesPageModel`): the status filter, the card title and the delete guard.
- **The dashboard** (`DashboardModel`): the placeholder statistics, the five most recent invoices
  and the rounded paid percentage.
- **The sidebar** (`SidebarModel`): the rule that decides which navigation item is highlighted.
- **The form field** (`FormFieldModel`). It derives the input id from the label and decides what
  the field shows for an error or a helper text.

Shared modules:
- `Wrappers` has `Option`.
- `Text` has ASCII whitespace, trim, lower-casing, `startsWith` and JavaScript truthiness of an
  optional string.
- `Seqs` has `Filter`, `Sum`, `IndexWhere` and `Find`. They mirror the array `filter`, `reduce`
  and `find` calls. It also has `Count` (how many elements satisfy a test) and `Masked` (a term
  that is 0 where a test fails), which define the dashboard statistics without `Filter`.
- `Types` has the records of `lib/types.ts`.

Clocks, random ids and invoice numbers become parameters: `now`, `newId`, `generatedNumber`. Date
strings cross into the model through function parameters, `dateInput` for
`formatDateInput(date)` and `parseDate` for `new Date(string)`.

### Where the application's own descriptions and the code differ

- **Invoice status.** The landing page describes tracking invoices "from draft to sent to paid"
  (app/page.tsx:29), and the invoice detail page offers "Mark as Sent" only on a draft and "Mark as
  Paid" only on a sent invoice (app/dashboard/invoices/[id]/page.tsx:77-90). The modelled code has
  no such rule. The status is a free field of the invoice form, and `updateInvoice` merges whatever
  value it is given. The model follows the code, so any status can follow any other.
- **Client deletion.** Deleting a client leaves the invoices that refer to it untouched. They
  simply join to no client afterwards (`Store.DeleteClient` keeps `invoices` unchanged).

## Model

| member | source | states |
|---|---|---|
| Calculations.Subtotal | lib/utils/calculations.ts:4-6 | the subtotal of no items is 0; items with non-negative quantities and prices give a non-negative subtotal |
| Calculations.LineAmountsNonNegative | lib/utils/calculations.ts:4-6 | the sum of quantity × unitPrice over items with non-negative quantities and prices is non-negative |
| Calculations.Total | lib/utils/calculations.ts:16-18 | total + discount = subtotal + tax; the total is negative iff the discount exceeds subtotal + tax |
| Calculations.Tax | lib/utils/calculations.ts:8-10 | tax × 100 = subtotal × rate; a 0% rate gives 0; non-negative for a non-negative subtotal and rate |
| Calculations.Discount | lib/utils/calculations.ts:12-14 | discount × 100 = subtotal × rate; between 0 and the subtotal when the rate is in 0..100 |
| Calculations.SubtotalEmpty | lib/utils/calculations.ts:4-6 | the subtotal of no items is 0 |
| Calculations.SubtotalAppend | lib/utils/calculations.ts:4-6 | appending an item adds exactly quantity × unitPrice |
| Calculations.SubtotalConcat | lib/utils/calculations.ts:4-6 | the subtotal is additive over concatenation |
| Calculations.SubtotalOrderIndependent | lib/utils/calculations.ts:4-6 | two item lists with the same multiset of items have the same subtotal |
| Calculations.TotalFactored | lib/utils/calculations.ts:8-18 | total × 100 = subtotal × (100 + taxRate − discountRate) |
| Calculations.TotalNonNegative | lib/utils/calculations.ts:8-18 | subtotal ≥ 0, taxRate ≥ 0 and discountRate in 0..100 give total ≥ 0 |
| Calculations.TotalNegativeWhenDiscountExceeds | lib/utils/calculations.ts:16-18 | nothing clamps: subtotal > 0 with discountRate > 100 + taxRate gives a negative total |
| Calculations.WorkedExample | lib/utils/calculations.ts:8-18 | 200 at 8.5% tax and 10% discount gives tax 17, discount 20, total 197 |
| StoreModel.Store.constructor | lib/store.ts:9-11 | the store starts with no clients, no invoices and nobody logged in (the mock lists are empty) |
| StoreModel.Store.Login | lib/store.ts:15-24 | succeeds iff the pair is exactly ("Trueadmin", "bhayana44"); success stores that user as authenticated, failure leaves the current user unchanged |
| StoreModel.Store.Logout | lib/store.ts:26-31 | afterwards nobody is logged in |
| StoreModel.Store.GetUser | lib/store.ts:33-34 | the user held in memory, if any, is the authenticated administrator |
| StoreModel.FindClient | lib/store.ts:48 | absent iff no client has the id; otherwise the first client with that id |
| StoreModel.Store.AddClient | lib/store.ts:50-52 | the client list grows by one, the new client is last and every earlier client keeps its place; invoices and user unchanged; the store invariant (nobody or the administrator logged in) is kept |
| StoreModel.MergeClient | lib/store.ts:55 | for each of the seven keys, a key present in the patch replaces the field and an absent key keeps it; so an empty patch changes nothing, and a patch setting phone to undefined clears it |
| StoreModel.UpdatedClients | lib/store.ts:54-56 | same length and order; clients with the id get the patch merged, every other client is unchanged |
| StoreModel.Store.UpdateClient | lib/store.ts:54-56 | the client list becomes the merged list; invoices and user unchanged; the store invariant (nobody or the administrator logged in) is kept |
| StoreModel.UpdateClientIdempotent | lib/store.ts:54-56 | applying the same update twice equals applying it once, unless the patch renames the id |
| StoreModel.UpdateAbsentClientIsNoOp | lib/store.ts:54-56 | an update for an id nobody has changes nothing |
| StoreModel.Store.DeleteClient | lib/store.ts:58-60 | the client list loses the clients with that id; invoices and user unchanged; the store invariant (nobody or the administrator logged in) is kept |
| StoreModel.DeleteClientRemovesExactly | lib/store.ts:58-60 | the survivors are exactly the clients without that id, and the removed count makes up the difference |
| StoreModel.DeleteClientKeepsOrder | lib/store.ts:58-60 | deleting works piecewise over any split, so the survivors keep their relative order |
| StoreModel.Join | lib/store.ts:63-68 | one entry per stored invoice, in order; each equals the stored invoice except that its client is the first client with a matching id, or none |
| StoreModel.FindInvoice | lib/store.ts:70-71 | absent iff no invoice has the id; otherwise the first invoice with that id |
| StoreModel.LookupInvoice | lib/store.ts:70-79 | absent iff no invoice has the id; otherwise the first such invoice, joined to its client |
| StoreModel.Store.AddInvoice | lib/store.ts:81-83 | the invoice list grows by one, the new invoice is last and every earlier invoice keeps its place; clients and user unchanged; the store invariant (nobody or the administrator logged in) is kept |
| StoreModel.MergeInvoice | lib/store.ts:86 | for each of the seventeen keys, a key present in the patch replaces the field and an absent key keeps it (including the joined client); so an empty patch changes nothing |
| StoreModel.UpdatedInvoices | lib/store.ts:85-87 | same length and order; invoices with the id get the patch merged and `updatedAt` set to now, every other invoice is unchanged |
| StoreModel.Store.UpdateInvoice | lib/store.ts:85-87 | the invoice list becomes the merged list; clients and user unchanged; the store invariant (nobody or the administrator logged in) is kept |
| StoreModel.UpdateInvoiceStampsTime | lib/store.ts:86 | every updated invoice carries the update time, whatever `updatedAt` the patch held |
| StoreModel.Store.DeleteInvoice | lib/store.ts:89-91 | the invoice list loses the invoices with that id; clients and user unchanged; the store invariant (nobody or the administrator logged in) is kept |
| StoreModel.DeleteInvoiceRemovesExactly | lib/store.ts:89-91 | the survivors are exactly the invoices without that id, and the removed count makes up the difference |
| StoreModel.DeleteInvoiceKeepsOrder | lib/store.ts:89-91 | the survivors keep their relative order |
| StoreModel.UnpaidSplitsIntoDraftAndSent | lib/store.ts:96-105 | the non-paid invoices are exactly the draft ones plus the sent ones, by count |
| StoreModel.ComputeStats | lib/store.ts:94-107 | total = number of invoices; paid, draft and sent are the counts of invoices with that status; revenue is the sum of the paid totals and outstanding the sum of the non-paid totals (each as a sum over all invoices with the others counted as 0); paid ≤ total; paid + draft + sent = total; revenue + outstanding = sum of all totals |
| StoreModel.StatsIgnoreClients | lib/store.ts:94-107 | two stores with the same invoices report the same stats, whatever their clients |
| StoreModel.StatsOfPaidSentDraft | lib/store.ts:94-107 | a paid, a sent and a draft invoice give three in all, one paid, revenue = the paid total, outstanding = the other two totals, one draft and one sent |
| InvoiceFormModel.InvoiceForm.constructor | components/invoices/invoice-form.tsx:47-60 | the form starts from the defaulted form data, the initial items and no errors |
| InvoiceFormModel.InitialFormData | components/invoices/invoice-form.tsx:47-56 | with no invoice: no client, the generated number, now and 30 days ahead through the date input, draft, 8.5%, 0%, empty notes; with one: each field from the invoice (dates through the date input), except that an empty number falls back to the generated one, a 0% tax rate to 8.5 and missing notes to "" |
| InvoiceFormModel.InitialLineItems | components/invoices/invoice-form.tsx:58-60 | an invoice's own items, even an empty list; with no invoice one blank item (quantity 1, price 0) |
| InvoiceFormModel.NewFormDefaults | components/invoices/invoice-form.tsx:47-60 | a new invoice starts with no client, status draft, tax 8.5, discount 0, empty notes, the generated number, a due date 30 days ahead and one blank item |
| InvoiceFormModel.ZeroTaxRateReopensAsDefault | components/invoices/invoice-form.tsx:53 | a stored 0% tax rate reopens as 8.5; any other rate is kept |
| InvoiceFormModel.InvoiceForm.AddLineItem | components/invoices/invoice-form.tsx:71-73 | one item with description "", quantity 1 and price 0 is appended; earlier items unchanged |
| InvoiceFormModel.InvoiceForm.RemoveLineItem | components/invoices/invoice-form.tsx:75-79 | a no-op with one item or none; otherwise the items with that id go; a non-empty list with distinct ids stays non-empty |
| InvoiceFormModel.RemoveDropsAtMostOne | components/invoices/invoice-form.tsx:75-79 | with distinct ids, removing by id drops at most one item |
| InvoiceFormModel.RemoveKeepsOrder | components/invoices/invoice-form.tsx:77 | removal works piecewise over any split, so the remaining items keep their order |
| InvoiceFormModel.EditedLineItems | components/invoices/invoice-form.tsx:81-83 | same length and order; items with the id get the edit, every other item is unchanged |
| InvoiceFormModel.EditTouchesOnlyItsField | components/invoices/invoice-form.tsx:81-83 | an edit changes only its own field of an item; the other three stay as they were |
| InvoiceFormModel.InvoiceForm.UpdateLineItem | components/invoices/invoice-form.tsx:81-83 | the item list becomes the edited list |
| InvoiceFormModel.SomeBlankDescriptionIff | components/invoices/invoice-form.tsx:92 | some description trims to "" iff some description is all whitespace |
| InvoiceFormModel.CheckInvoiceForm | components/invoices/invoice-form.tsx:85-106 | each of the four errors is set iff its rule fails (empty client id; some description blank after trim, reported once; empty issue date; empty due date), with the exact messages; no error counted iff no key is set |
| InvoiceFormModel.ThreeErrorsExample | components/invoices/invoice-form.tsx:85-105 | no client, one undescribed item and no due date give exactly those three errors |
| InvoiceFormModel.InvoiceForm.Validate | components/invoices/invoice-form.tsx:85-106 | the stored errors are exactly `CheckInvoiceForm`'s result, and success means no error was recorded |
| InvoiceFormModel.AssembleInvoice | components/invoices/invoice-form.tsx:115-132 | an edited invoice keeps its id and `createdAt`, except that an empty id is replaced by the fresh one; a new one gets the fresh id and the current time; client id, number, status, notes (always present), items and rates come from the form; both dates are the parsed form dates; updatedAt is now; subtotal, tax, discount and total are consistent with them; total × 100 = subtotal × (100 + tax − discount) |
| InvoiceFormModel.MergeDataPatch | components/invoices/invoice-form.tsx:134-135 | merging the assembled record into the stored one replaces every field except the joined client, so consistent totals stay consistent |
| InvoiceFormModel.ReopenAndSaveUnchanged | components/invoices/invoice-form.tsx:47-135 | opening a stored invoice in the editor as the edit page does (joined to its client by the store) and saving it unchanged gives back the stored record, restamped, when its dates survive the date input and no default of the initial form state applies |
| InvoiceFormModel.InvoiceForm.Submit | components/invoices/invoice-form.tsx:108-138 | a failed validation leaves the store alone; otherwise an edit merges the assembled record into the invoice, and anything else appends it; clients and user unchanged |
| ClientsPageModel.MatchesEmailPattern | app/dashboard/clients/page.tsx:80 | a matching address has at least five characters, an '@' and a '.' |
| ClientsPageModel.CheckClientForm | app/dashboard/clients/page.tsx:72-92 | the e-mail message, when set, is one of the two; no error at all iff name, company, address and e-mail are non-blank and the e-mail matches the pattern |
| ClientsPageModel.PatternImpliesWellFormed | app/dashboard/clients/page.tsx:80 | an address matching the pattern has no whitespace, one '@' after a non-empty local part, and a '.' inside the domain |
| ClientsPageModel.WellFormedImpliesPattern | app/dashboard/clients/page.tsx:80 | such an address matches the pattern |
| ClientsPageModel.EmailPatternCharacterized | app/dashboard/clients/page.tsx:80 | the pattern holds iff the address is well formed in that sense |
| ClientsPageModel.CheckClientFormRules | app/dashboard/clients/page.tsx:72-92 | name, company and address errors iff the field is all whitespace; the e-mail gets "Email is required" iff blank, otherwise "Invalid email address" iff it is not well formed; exact messages; no error iff all four pass |
| ClientsPageModel.ClientsPage.Validate | app/dashboard/clients/page.tsx:72-92 | the stored errors are exactly `CheckClientForm`'s result, and success means no error was recorded |
| ClientsPageModel.NewClientRecord | app/dashboard/clients/page.tsx:104-109 | a new client gets the fresh id and the current time as `createdAt`, the form's name, e-mail, company and address, and no phone iff the form's phone is empty (otherwise the form's phone) |
| ClientsPageModel.PhoneValue | app/dashboard/clients/page.tsx:102 | an empty phone becomes absent; any other phone is kept |
| ClientsPageModel.EditKeepsIdentity | app/dashboard/clients/page.tsx:99-103 | an edit keeps the client's id and `createdAt` and takes the other fields from the form |
| ClientsPageModel.ReopenAndSaveUnchanged | app/dashboard/clients/page.tsx:59-103 | opening a client for editing and saving it unchanged leaves it as it was (when its phone is not "") |
| ClientsPageModel.ClientsPage.constructor | app/dashboard/clients/page.tsx:37-42 | closed modal, no client being edited, no pending delete, empty form, no errors |
| ClientsPageModel.ClientsPage.OpenAddModal | app/dashboard/clients/page.tsx:52-57 | opens the modal on an empty form with no client being edited and no errors |
| ClientsPageModel.ClientsPage.OpenEditModal | app/dashboard/clients/page.tsx:59-70 | opens the modal on the client's fields, a missing phone shown as "" |
| ClientsPageModel.ClientsPage.Submit | app/dashboard/clients/page.tsx:94-115 | a failed validation leaves the store and the modal alone; otherwise an edit merges the form into the client and anything else appends a new record; then the modal closes; invoices unchanged |
| ClientsPageModel.ClientsPage.HandleDelete | app/dashboard/clients/page.tsx:117-123 | with no pending id nothing changes; otherwise the client is deleted and the pending id cleared; invoices unchanged |
| InvoicesPageModel.FilterByStatus | app/dashboard/invoices/page.tsx:37 | "all" returns the list unchanged; a status keeps only invoices with that status, keeps all of them, and keeps each exactly once (the length is the number of matching invoices) |
| InvoicesPageModel.FilterByStatusKeepsOrder | app/dashboard/invoices/page.tsx:37 | the filter works piecewise, so it keeps the original relative order |
| InvoicesPageModel.CardTitle | app/dashboard/invoices/page.tsx:81 | the title is the filter's value ("all" or the status name) capitalized, followed by " Invoices" |
| InvoicesPageModel.CardTitles | app/dashboard/invoices/page.tsx:81 | "All Invoices", "Draft Invoices", "Sent Invoices", "Paid Invoices" |
| InvoicesPageModel.InvoicesPage.constructor | app/dashboard/invoices/page.tsx:25-27 | no invoices loaded, filter "all", no pending delete |
| InvoicesPageModel.InvoicesPage.LoadInvoices | app/dashboard/invoices/page.tsx:33-35 | the page holds the store's joined invoice list |
| InvoicesPageModel.InvoicesPage.HandleDelete | app/dashboard/invoices/page.tsx:39-45 | with no pending id nothing changes; otherwise the invoice is deleted, the list reloaded and the pending id cleared; clients unchanged |
| DashboardModel.InitialStatsMatchEmptyStore | app/dashboard/page.tsx:16-23 | the six placeholder stats are what an empty store reports |
| DashboardModel.RecentInvoices | app/dashboard/page.tsx:28 | the first min(5, n) invoices, a prefix of the list |
| DashboardModel.PaidPercent | app/dashboard/page.tsx:56 | 0 when there are no invoices; otherwise within 0..100 and the paid share × 100 rounded half up |
| DashboardModel.PaidPercentRounds | app/dashboard/page.tsx:56 | the integer quotient used is in 0..100 and within one half of 100 × paid / total |
| DashboardModel.PaidPercentOfStoreInRange | app/dashboard/page.tsx:56 | fed with the store's own counts, the percentage is defined and within 0..100 |
| SidebarModel.IsActive | components/layout/sidebar.tsx:60 | an exact match is active; an active item's href is a prefix of the path |
| SidebarModel.ExactMatchIsActive | components/layout/sidebar.tsx:60 | an item is active when the path equals its href |
| SidebarModel.DashboardOnlyOnExactMatch | components/layout/sidebar.tsx:60 | the dashboard item is active iff the path is exactly "/dashboard" |
| SidebarModel.PrefixWithoutBoundary | components/layout/sidebar.tsx:60 | the prefix test needs no '/' boundary: "/dashboard/clientsX" activates Clients |
| SidebarModel.NewInvoicePageHighlightsInvoices | components/layout/sidebar.tsx:10-60 | on "/dashboard/invoices/new" Invoices is active and Dashboard is not |
| SidebarModel.AtMostOneActive | components/layout/sidebar.tsx:10-60 | for the four configured items, no path activates two of them |
| FormFieldModel.Slug | components/ui/form-field.tsx:13 | the label slug has no whitespace and is no longer than the label |
| FormFieldModel.CollapseSpaceRuns | components/ui/form-field.tsx:13 | the result has no whitespace and is no longer than the input |
| FormFieldModel.CollapseKeepsPlainText | components/ui/form-field.tsx:13 | text without whitespace passes through unchanged |
| FormFieldModel.CollapseRunToOneDash | components/ui/form-field.tsx:13 | a whole whitespace run, however long, becomes exactly one "-" |
| FormFieldModel.CollapseKeepsPlainPrefix | components/ui/form-field.tsx:13 | a prefix without whitespace is copied through as it is |
| FormFieldModel.SlugOfTwoWords | components/ui/form-field.tsx:13 | two words with one blank between them give the lower-cased words joined by "-" |
| FormFieldModel.InputId | components/ui/form-field.tsx:13 | a non-empty id is used verbatim; otherwise the label slug, which has no whitespace |
| FormFieldModel.Render | components/ui/form-field.tsx:13-32 | the label points at the input id; aria-invalid iff an error; aria-describedby and the error paragraph id are inputId + "-error" exactly when there is an error; the helper shows iff it is non-empty and there is no error, and then shows the helper text itself, so the two never show together |
| Text.BlankIffAllSpace | app/dashboard/clients/page.tsx:75 | `!s.trim()` holds iff every character is whitespace |

## Left out

- The copy kept in browser session storage is left out. `login` and `logout` write it, and
  `getUser` reads it back when memory holds no user (lib/store.ts:18-20, 28-30, 35-41). The
  currency preference in local storage is left out too. Both are browser I/O.
- FormFieldModel.Render: does not model the caller's props spread (components/ui/form-field.tsx:25),
  which comes after aria-invalid and aria-describedby and so could override them. The contract
  holds for callers that pass neither attribute, and no caller in the application does.
- StoreModel.Store.GetUser: models only the in-memory branch. The restore from session storage could bring
  back any stored user, so the "only the administrator" invariant holds for memory alone.
- The locale formatters `formatCurrency`, `formatDate` and `formatDateInput` are left out. They
  call `Intl` and `Date`, which the model cannot see. Where a date string is needed it is a
  function parameter.
- Money is exact `real`, not IEEE-754 doubles, so rounding drift is not modelled. `toFixed(0)` is
  modelled as rounding half up on exact values.
- The text inputs parse numbers with `parseInt(...) || 0` and `parseFloat(...) || 0`. That
  coercion is not modelled: an edit carries the number directly.
- `generateId`, `generateInvoiceNumber` and `new Date()` are left out; they depend on randomness
  and the clock. Their results are parameters.
- Whitespace and case are ASCII only. JavaScript's `\s`, `trim` and `toLowerCase` cover all of
  Unicode.
- DashboardModel.PaidPercent: requires paid ≤ total. The stats always satisfy it. With a zero
  total and a positive paid count JavaScript would print "Infinity", which the model does not
  cover.
- InvoiceFormModel.InvoiceForm.RemoveLineItem: guarantees a non-empty list only for distinct
  item ids. With duplicate ids the source itself can empty the list.
- The dedicated "mark as sent" and "mark as paid" actions live on the invoice detail page.
  app/dashboard/invoices/[id]/page.tsx is not part of this model.
- No check that the due date follows the issue date is modelled, because the source has none.
- Rendering, CSS classes and routing (`router.push`) are left out.
- The confirm dialogs' open state is left out. It is derived from the pending `deleteId`, which
  is modelled (app/dashboard/invoices/page.tsx:220, app/dashboard/clients/page.tsx:272).
- The invoice form's `isSubmitting` flag (components/invoices/invoice-form.tsx:44) is left out,
  and so is the display currency the pages read from the currency context.
- The sidebar's logout button only calls `Store.Logout` and navigates, so it has no model of its
  own.
- The clients page's local copy of the client list is left out; `Store.GetClients` is what it
  would hold.
- `CurrentTotal`, `GetClients`, `GetClient`, `GetInvoices`, `GetInvoice`, `GetStats` and
  `FilteredInvoices` are thin class accessors. Their meaning is stated on the module-level
  functions they call: `TotalFor`, `FindClient`, `Join`, `LookupInvoice`, `ComputeStats` and
  `FilterByStatus`.
