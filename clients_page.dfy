/**
 * The clients page (app/dashboard/clients/page.tsx): the client form, its
 * validator with the e-mail pattern, and the record it saves.
 */
module ClientsPageModel {
  import opened Wrappers
  import opened Types
  import opened Text
  import opened StoreModel

  datatype ClientFormData = ClientFormData(name: string, email: string, company: string, address: string, phone: string)

  const EmptyFormData: ClientFormData := ClientFormData("", "", "", "", "")

  /** `Partial<ClientFormData>` of messages; the phone is never checked, so it has no slot. */
  datatype ClientErrors = ClientErrors(name: Option<string>, email: Option<string>, company: Option<string>, address: Option<string>)

  const NoClientErrors: ClientErrors := ClientErrors(None, None, None, None)

  const NameRequired: string := "Name is required"
  const EmailRequired: string := "Email is required"
  const InvalidEmail: string := "Invalid email address"
  const CompanyRequired: string := "Company name is required"
  const AddressRequired: string := "Address is required"

  /** `s[lo..hi]` is a non-empty run with no whitespace and no '@'. */
  predicate PlainRun(s: string, lo: nat, hi: nat) {
    lo < hi <= |s| && forall k :: lo <= k < hi ==> !IsSpace(s[k]) && s[k] != '@'
  }

  /** The e-mail pattern: some '@' and some later '.' cut the whole string into three plain runs. */
  predicate MatchesEmailPattern(s: string)
    ensures MatchesEmailPattern(s) ==> 5 <= |s| && '@' in s && '.' in s
  {
    exists i, j :: 0 <= i < j < |s| && s[i] == '@' && s[j] == '.'
      && PlainRun(s, 0, i) && PlainRun(s, i + 1, j) && PlainRun(s, j + 1, |s|)
  }

  /**
   * The same condition stated field by field: no whitespace, exactly one '@'
   * (at `k`), a non-empty local part, and a domain `s[k+1..]` holding a '.'
   * that is neither its first nor its last character.
   */
  predicate WellFormedEmail(s: string) {
    && NoSpace(s)
    && exists k :: 0 < k < |s| && s[k] == '@'
         && (forall m :: 0 <= m < |s| && m != k ==> s[m] != '@')
         && exists j :: k + 1 < j < |s| - 1 && s[j] == '.'
  }

  lemma PatternImpliesWellFormed(s: string)
    requires MatchesEmailPattern(s)
    ensures WellFormedEmail(s)
  {
    var i, j :| 0 <= i < j < |s| && s[i] == '@' && s[j] == '.'
      && PlainRun(s, 0, i) && PlainRun(s, i + 1, j) && PlainRun(s, j + 1, |s|);
    assert forall m :: 0 <= m < |s| ==> !IsSpace(s[m]) && (m != i ==> s[m] != '@');
  }

  lemma WellFormedImpliesPattern(s: string)
    requires WellFormedEmail(s)
    ensures MatchesEmailPattern(s)
  {
    var k, j :| 0 < k < |s| && s[k] == '@'
      && (forall m :: 0 <= m < |s| && m != k ==> s[m] != '@')
      && k + 1 < j < |s| - 1 && s[j] == '.';
    assert PlainRun(s, 0, k) && PlainRun(s, k + 1, j) && PlainRun(s, j + 1, |s|);
  }

  /** The pattern holds exactly when the field-by-field description does. */
  lemma EmailPatternCharacterized(s: string)
    ensures MatchesEmailPattern(s) <==> WellFormedEmail(s)
  {
    if MatchesEmailPattern(s) {
      PatternImpliesWellFormed(s);
    }
    if WellFormedEmail(s) {
      WellFormedImpliesPattern(s);
    }
  }

  /** What `validate` records; the e-mail pattern is applied to the untrimmed value. */
  function CheckClientForm(form: ClientFormData): (e: ClientErrors)
    ensures e.email.Some? ==> e.email.value == EmailRequired || e.email.value == InvalidEmail
    ensures e == NoClientErrors <==>
      !IsBlank(form.name) && !IsBlank(form.company) && !IsBlank(form.address)
      && !IsBlank(form.email) && MatchesEmailPattern(form.email)
  {
    ClientErrors(
      if IsBlank(form.name) then Some(NameRequired) else None,
      if IsBlank(form.email) then Some(EmailRequired)
      else if !MatchesEmailPattern(form.email) then Some(InvalidEmail)
      else None,
      if IsBlank(form.company) then Some(CompanyRequired) else None,
      if IsBlank(form.address) then Some(AddressRequired) else None)
  }

  /**
   * The validator's rules: a required field fails exactly when it is all
   * whitespace, the e-mail gets "required" or else "invalid" (never both), the
   * phone is never checked, and success means no message at all.
   */
  lemma CheckClientFormRules(form: ClientFormData)
    ensures var e := CheckClientForm(form);
      && (e.name.Some? <==> AllSpace(form.name))
      && (e.company.Some? <==> AllSpace(form.company))
      && (e.address.Some? <==> AllSpace(form.address))
      && (e.email == if AllSpace(form.email) then Some(EmailRequired)
                     else if !WellFormedEmail(form.email) then Some(InvalidEmail)
                     else None)
      && (e.name.Some? ==> e.name.value == NameRequired)
      && (e.company.Some? ==> e.company.value == CompanyRequired)
      && (e.address.Some? ==> e.address.value == AddressRequired)
      && (e == NoClientErrors <==>
            !AllSpace(form.name) && !AllSpace(form.company) && !AllSpace(form.address)
            && WellFormedEmail(form.email))
  {
    BlankIffAllSpace(form.name);
    BlankIffAllSpace(form.email);
    BlankIffAllSpace(form.company);
    BlankIffAllSpace(form.address);
    EmailPatternCharacterized(form.email);
  }

  /** The phone as saved: an empty phone is stored as absent. */
  function PhoneValue(phone: string): (r: Option<string>)
    ensures r.None? <==> phone == ""
    ensures r.Some? ==> r.value == phone
  {
    if phone == "" then None else Some(phone)
  }

  /** The record `addClient` receives for a new client: a fresh id and creation time, and the form's fields. */
  function NewClientRecord(form: ClientFormData, newId: string, now: Timestamp): (r: Client)
    ensures r.id == newId && r.createdAt == now
    ensures r.name == form.name && r.email == form.email && r.company == form.company && r.address == form.address
    ensures r.phone.None? <==> form.phone == ""
    ensures r.phone.Some? ==> r.phone.value == form.phone
  {
    Client(newId, form.name, form.email, form.company, form.address, PhoneValue(form.phone), now)
  }

  /** The updates `updateClient` receives on an edit: every form field, but no id and no creation time. */
  function EditPatch(form: ClientFormData): ClientPatch {
    ClientPatch(None, Some(form.name), Some(form.email), Some(form.company), Some(form.address),
                Some(PhoneValue(form.phone)), None)
  }

  /** `openEditModal`: the form filled from a client, a missing phone shown as "". */
  function FormOf(c: Client): ClientFormData {
    ClientFormData(c.name, c.email, c.company, c.address, c.phone.GetOr(""))
  }

  /** An edit keeps the client's id and creation time and takes everything else from the form. */
  lemma EditKeepsIdentity(c: Client, form: ClientFormData)
    ensures var r := MergeClient(c, EditPatch(form));
      && r.id == c.id && r.createdAt == c.createdAt
      && FormOf(r) == form.(phone := PhoneValue(form.phone).GetOr(""))
  {
  }

  /** Opening a client for editing and saving without changes leaves it as it was. */
  lemma ReopenAndSaveUnchanged(c: Client)
    requires c.phone != Some("")
    ensures MergeClient(c, EditPatch(FormOf(c))) == c
  {
  }

  class ClientsPage {
    var isModalOpen: bool
    var editingClient: Option<Client>
    var deleteId: Option<string>
    var formData: ClientFormData
    var errors: ClientErrors

    constructor ()
      ensures !isModalOpen && editingClient == None && deleteId == None
      ensures formData == EmptyFormData && errors == NoClientErrors
    {
      isModalOpen := false;
      editingClient := None;
      deleteId := None;
      formData := EmptyFormData;
      errors := NoClientErrors;
    }

    method OpenAddModal()
      modifies this`editingClient, this`formData, this`errors, this`isModalOpen
      ensures editingClient == None && formData == EmptyFormData && errors == NoClientErrors && isModalOpen
    {
      editingClient := None;
      formData := EmptyFormData;
      errors := NoClientErrors;
      isModalOpen := true;
    }

    method OpenEditModal(c: Client)
      modifies this`editingClient, this`formData, this`errors, this`isModalOpen
      ensures editingClient == Some(c) && formData == FormOf(c) && errors == NoClientErrors && isModalOpen
    {
      editingClient := Some(c);
      formData := FormOf(c);
      errors := NoClientErrors;
      isModalOpen := true;
    }

    /** `validate`: every rule runs, the e-mail gets at most one message, success means none was recorded. */
    method Validate() returns (ok: bool)
      modifies this`errors
      ensures errors == CheckClientForm(formData)
      ensures ok <==> errors == NoClientErrors
    {
      var newErrors := NoClientErrors;
      var name, email, company, address := formData.name, formData.email, formData.company, formData.address;
      if IsBlank(name) {
        newErrors := newErrors.(name := Some(NameRequired));
      }
      if IsBlank(email) {
        newErrors := newErrors.(email := Some(EmailRequired));
      } else if !MatchesEmailPattern(email) {
        newErrors := newErrors.(email := Some(InvalidEmail));
      }
      if IsBlank(company) {
        newErrors := newErrors.(company := Some(CompanyRequired));
      }
      if IsBlank(address) {
        newErrors := newErrors.(address := Some(AddressRequired));
      }
      errors := newErrors;
      ok := newErrors == NoClientErrors;
    }

    /** `handleSubmit`; `newId` and `now` stand for `generateId("cl")` and `new Date()`. */
    method Submit(store: StoreModel.Store, newId: string, now: Timestamp) returns (saved: bool)
      modifies this`errors, this`isModalOpen, store`clients
      ensures errors == CheckClientForm(formData)
      ensures saved <==> errors == NoClientErrors
      ensures !saved ==> store.clients == old(store.clients) && isModalOpen == old(isModalOpen)
      ensures saved ==> !isModalOpen
      ensures saved && editingClient.Some? ==>
        store.clients == UpdatedClients(old(store.clients), editingClient.value.id, EditPatch(formData))
      ensures saved && editingClient.None? ==>
        store.clients == old(store.clients) + [NewClientRecord(formData, newId, now)]
      ensures store.invoices == old(store.invoices) && store.currentUser == old(store.currentUser)
    {
      var ok := Validate();
      if !ok {
        return false;
      }
      if editingClient.Some? {
        store.UpdateClient(editingClient.value.id, EditPatch(formData));
      } else {
        store.AddClient(NewClientRecord(formData, newId, now));
      }
      isModalOpen := false;
      saved := true;
    }

    /** `handleDelete`: does nothing unless a delete is pending. */
    method HandleDelete(store: StoreModel.Store)
      modifies this`deleteId, store`clients
      ensures !IsTruthy(old(deleteId)) ==> store.clients == old(store.clients) && deleteId == old(deleteId)
      ensures IsTruthy(old(deleteId)) ==>
        store.clients == ClientsWithout(old(store.clients), old(deleteId).value) && deleteId == None
      ensures store.invoices == old(store.invoices)
    {
      if IsTruthy(deleteId) {
        store.DeleteClient(deleteId.value);
        deleteId := None;
      }
    }
  }
}
