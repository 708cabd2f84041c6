/** The contact list beside the chat: fetched for the search query, with per-contact
    start-chat, edit and delete actions, and an error message that, once set, hides the
    list until the query changes. */
module ContactList {
  import opened Wrappers
  import opened Text
  import opened Lists
  import opened Records
  import Avatar

  const FetchFailed: string := "Failed to fetch contacts. Please try again."
  const StartChatFailed: string := "Failed to start chat. Please try again."
  const DeleteFailed: string := "Failed to delete contact. Please try again."

  /** The test of the delete updater: a contact with another id. */
  function OtherContact(contactId: Id): Contact -> bool {
    (c: Contact) => c.id != contactId
  }

  /** The `handleDeleteContact` updater: every contact with that id goes, the rest stay
      in order. */
  function DeleteContact(prev: seq<Contact>, contactId: Id): (r: seq<Contact>)
    ensures forall c :: c in r <==> c in prev && c.id != contactId
    ensures IsSubsequence(r, prev)
    ensures forall c :: Count(r, c) == if c.id != contactId then Count(prev, c) else 0
  {
    forall c ensures Count(Filter(prev, OtherContact(contactId)), c) == if OtherContact(contactId)(c) then Count(prev, c) else 0 {
      FilterCount(prev, OtherContact(contactId), c);
    }
    forall c ensures c in Filter(prev, OtherContact(contactId)) <==> c in prev && OtherContact(contactId)(c) {
      FilterMembership(prev, OtherContact(contactId), c);
    }
    FilterIsSubsequence(prev, OtherContact(contactId));
    Filter(prev, OtherContact(contactId))
  }

  /** Deleting a contact that is not listed changes nothing. */
  lemma DeleteAbsent(prev: seq<Contact>, contactId: Id)
    requires forall i :: 0 <= i < |prev| ==> prev[i].id != contactId
    ensures DeleteContact(prev, contactId) == prev
  {
    FilterKeepsAll(prev, OtherContact(contactId));
  }

  /** `value || ""`: a missing or empty field edits as the empty string. */
  function OrEmpty(value: Option<string>): (r: string)
    ensures Truthy(value) ==> r == value.value
    ensures !Truthy(value) ==> r == ""
  {
    match value
    case Some(s) => s
    case None => ""
  }

  /** The edit form's fields. */
  datatype EditFields = EditFields(firstName: string, lastName: string, phone: string, email: string)

  const EmptyFields: EditFields := EditFields("", "", "", "")

  /** `setEditingContact`'s form: the contact's fields, each defaulting to `""`. */
  function FieldsOf(contact: Contact): (r: EditFields)
    ensures r.firstName == OrEmpty(contact.firstName) && r.lastName == OrEmpty(contact.lastName)
    ensures r.phone == OrEmpty(contact.phone) && r.email == OrEmpty(contact.email)
  {
    EditFields(OrEmpty(contact.firstName), OrEmpty(contact.lastName), OrEmpty(contact.phone), OrEmpty(contact.email))
  }

  /** A contact's avatar: its user's image, cache-busted with the render time. */
  function ContactAvatar(contact: Contact, now: nat): (r: string)
    ensures contact.user.None? ==> r == Avatar.NoProfile
    ensures contact.user.Some? ==> r == Avatar.WithCacheBust(contact.user.value.image, now)
  {
    Avatar.WithCacheBust(if contact.user.Some? then contact.user.value.image else None, now)
  }

  /** What the component shows. */
  datatype Screen = Loading | ErrorShown(message: string) | Listed(contacts: seq<Contact>)

  /** The request of a contact update: the contact id and the form. */
  datatype UpdateRequest = UpdateRequest(contactId: Id, fields: EditFields)

  class View {
    /** The `searchQuery` prop. */
    var searchQuery: string
    var localContacts: seq<Contact>
    var loading: bool
    var error: Option<string>
    var editing: Option<Contact>
    var editForm: EditFields
    /** The chat ids passed to `onSelectChat`, oldest first. */
    var selectedChats: seq<Id>
    /** The update requests sent, oldest first. */
    var updates: seq<UpdateRequest>

    /** The first render: loading, with the `contacts` prop as the local list. */
    constructor (searchQuery: string, contacts: seq<Contact>)
      ensures this.searchQuery == searchQuery && localContacts == contacts
      ensures loading && error == None && editing == None && editForm == EmptyFields
      ensures selectedChats == [] && updates == []
    {
      this.searchQuery := searchQuery;
      localContacts := contacts;
      loading := true;
      error := None;
      editing := None;
      editForm := EmptyFields;
      selectedChats := [];
      updates := [];
    }

    /** Loading wins over the error, and the error over the list. */
    function Shown(): (r: Screen)
      reads this
      ensures loading <==> r == Loading
      ensures !loading && Truthy(error) <==> r.ErrorShown?
      ensures r.ErrorShown? ==> r.message == error.value
      ensures !loading && !Truthy(error) <==> r.Listed?
      ensures r.Listed? ==> r.contacts == localContacts
    {
      if loading then Loading
      else if Truthy(error) then ErrorShown(error.value)
      else Listed(localContacts)
    }

    /** `fetchContacts` with the response: an ok response replaces the local list, any
        failure sets the fetch error; loading ends either way. */
    method FetchContacts(response: Fetched<seq<Contact>>)
      modifies this
      ensures response.Ok? ==> localContacts == response.body && error == old(error)
      ensures !response.Ok? ==> localContacts == old(localContacts) && error == Some(FetchFailed)
      ensures !loading
      ensures searchQuery == old(searchQuery) && editing == old(editing) && editForm == old(editForm)
      ensures selectedChats == old(selectedChats) && updates == old(updates)
    {
      if response.Ok? {
        localContacts := response.body;
      } else {
        error := Some(FetchFailed);
      }
      loading := false;
    }

    /** The `searchQuery` effect: loading again, the error cleared, then the fetch. */
    method QueryChanged(query: string, response: Fetched<seq<Contact>>)
      modifies this
      ensures searchQuery == query
      ensures response.Ok? ==> localContacts == response.body && error == None
      ensures !response.Ok? ==> localContacts == old(localContacts) && error == Some(FetchFailed)
      ensures !loading
      ensures editing == old(editing) && editForm == old(editForm)
      ensures selectedChats == old(selectedChats) && updates == old(updates)
    {
      searchQuery := query;
      loading := true;
      error := None;
      FetchContacts(response);
    }

    /** `handleContactClick` with the chat route's answer: the chat id goes up, or the
        start-chat error is set. */
    method ContactClick(response: Fetched<Id>)
      modifies this
      ensures response.Ok? ==> selectedChats == old(selectedChats) + [response.body] && error == old(error)
      ensures !response.Ok? ==> selectedChats == old(selectedChats) && error == Some(StartChatFailed)
      ensures searchQuery == old(searchQuery) && localContacts == old(localContacts) && loading == old(loading)
      ensures editing == old(editing) && editForm == old(editForm) && updates == old(updates)
    {
      if response.Ok? {
        selectedChats := selectedChats + [response.body];
      } else {
        error := Some(StartChatFailed);
      }
    }

    /** `handleDeleteContact` with the DELETE answer: the contact leaves the local list
        only after an ok response; a failure keeps the list and sets the delete error,
        which then replaces the list on screen. */
    method Delete(contactId: Id, response: Fetched<()>)
      modifies this
      ensures response.Ok? ==> localContacts == DeleteContact(old(localContacts), contactId) && error == old(error)
      ensures !response.Ok? ==> localContacts == old(localContacts) && error == Some(DeleteFailed)
      ensures !response.Ok? && !loading ==> Shown() == ErrorShown(DeleteFailed)
      ensures searchQuery == old(searchQuery) && loading == old(loading)
      ensures editing == old(editing) && editForm == old(editForm)
      ensures selectedChats == old(selectedChats) && updates == old(updates)
    {
      if response.Ok? {
        localContacts := DeleteContact(localContacts, contactId);
      } else {
        error := Some(DeleteFailed);
      }
    }

    /** The Edit button: the form opens under this contact with its fields. */
    method StartEditing(contact: Contact)
      modifies this
      ensures editing == Some(contact) && editForm == FieldsOf(contact)
      ensures searchQuery == old(searchQuery) && localContacts == old(localContacts)
      ensures loading == old(loading) && error == old(error)
      ensures selectedChats == old(selectedChats) && updates == old(updates)
    {
      editing := Some(contact);
      editForm := FieldsOf(contact);
    }

    /** Typing into the edit form. */
    method Edit(fields: EditFields)
      modifies this
      ensures editForm == fields
      ensures searchQuery == old(searchQuery) && localContacts == old(localContacts)
      ensures loading == old(loading) && error == old(error) && editing == old(editing)
      ensures selectedChats == old(selectedChats) && updates == old(updates)
    {
      editForm := fields;
    }

    /** `handleUpdateContact`: the form is sent; an ok answer closes the form and
        fetches the list again (with `refetch` as that fetch's answer); a failure is only
        logged. */
    method Update(contactId: Id, response: Fetched<()>, refetch: Fetched<seq<Contact>>)
      modifies this
      ensures updates == old(updates) + [UpdateRequest(contactId, old(editForm))]
      ensures response.Ok? ==> editing == None && !loading
      ensures response.Ok? && refetch.Ok? ==> localContacts == refetch.body && error == old(error)
      ensures response.Ok? && !refetch.Ok? ==> localContacts == old(localContacts) && error == Some(FetchFailed)
      ensures !response.Ok? ==>
        && editing == old(editing) && localContacts == old(localContacts)
        && loading == old(loading) && error == old(error)
      ensures searchQuery == old(searchQuery) && editForm == old(editForm) && selectedChats == old(selectedChats)
    {
      updates := updates + [UpdateRequest(contactId, editForm)];
      if response.Ok? {
        editing := None;
        FetchContacts(refetch);
      }
    }
  }
}
