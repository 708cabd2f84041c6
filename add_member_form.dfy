/** The admin's form for adding a contact to a group: the drop-down offers the contacts
    who are not members yet, and an added member is handed up with the contact's user. */
module AddMemberForm {
  import opened Wrappers
  import opened Lists
  import opened Records

  const SelectPrompt: string := "Select a contact to add"
  const NothingToAdd: string := "No contacts to add"

  /** The test of the filter: the contact's user is not in `ids`. */
  function Unlisted(ids: seq<Id>): Contact -> bool {
    (c: Contact) => c.userId !in ids
  }

  /** The contacts whose user is not among the members' user ids. */
  function Available(all: seq<Contact>, existing: seq<GroupMember>): (r: seq<Contact>)
    ensures forall c :: c in r <==> c in all && c.userId !in MemberIds(existing)
    ensures IsSubsequence(r, all)
    ensures forall c :: Count(r, c) == if c.userId !in MemberIds(existing) then Count(all, c) else 0
  {
    var keep := Unlisted(MemberIds(existing));
    forall c ensures Count(Filter(all, keep), c) == if keep(c) then Count(all, c) else 0 {
      FilterCount(all, keep, c);
    }
    forall c ensures c in Filter(all, keep) <==> c in all && keep(c) {
      FilterMembership(all, keep, c);
    }
    FilterIsSubsequence(all, keep);
    Filter(all, keep)
  }

  lemma MemberIdsAppend(existing: seq<GroupMember>, m: GroupMember, id: Id)
    ensures id in MemberIds(existing + [m]) <==> id in MemberIds(existing) || id == m.userId
  {
    var before, after := MemberIds(existing), MemberIds(existing + [m]);
    if id in after {
      var i :| 0 <= i < |after| && after[i] == id;
      if i < |existing| {
        assert before[i] == id;
      }
    }
    if id in before {
      var i :| 0 <= i < |before| && before[i] == id;
      assert after[i] == id;
    }
    if id == m.userId {
      assert after[|existing|] == id;
    }
  }

  /** When a member joins, the re-run filter drops exactly the contacts of that user and
      keeps the others in order. */
  lemma {:induction false} AvailableAfterAdd(all: seq<Contact>, existing: seq<GroupMember>, m: GroupMember)
    ensures Available(all, existing + [m]) == Filter(Available(all, existing), Unlisted([m.userId]))
  {
    if all != [] {
      var x, tail := all[0], all[1..];
      var keep, keep', drop := Unlisted(MemberIds(existing)), Unlisted(MemberIds(existing + [m])), Unlisted([m.userId]);
      AvailableAfterAdd(tail, existing, m);
      MemberIdsAppend(existing, m, x.userId);
      var head := if keep(x) then [x] else [];
      FilterAppend(head, Filter(tail, keep), drop);
      assert Filter(head, drop) == if keep'(x) then [x] else [] by {
        if keep(x) {
          assert [x][1..] == [];
        }
      }
    }
  }

  /** `contacts.find((c) => c.userId === userId)?.user`: the user of the first contact of
      that user, `None` when there is none or it carries no user. */
  function Details(contacts: seq<Contact>, userId: Id): (r: Option<User>)
    ensures forall i :: 0 <= i < |contacts| && contacts[i].userId == userId ==>
              (forall j :: 0 <= j < i ==> contacts[j].userId != userId) ==> r == contacts[i].user
    ensures (forall i :: 0 <= i < |contacts| ==> contacts[i].userId != userId) ==> r == None
  {
    match FindIndex(contacts, (c: Contact) => c.userId == userId)
    case None => None
    case Some(i) => contacts[i].user
  }

  class Form {
    /** The `existingMembers` prop. */
    var existingMembers: seq<GroupMember>
    /** The contacts offered. */
    var contacts: seq<Contact>
    /** The chosen user id; `""` is the placeholder option. */
    var selectedContact: Id
    /** The user ids posted to the group's members route, oldest first. */
    var requests: seq<Id>
    /** The members passed to `onMemberAdded`, oldest first. */
    var added: seq<GroupMember>

    constructor (existingMembers: seq<GroupMember>)
      ensures this.existingMembers == existingMembers && contacts == [] && selectedContact == ""
      ensures requests == [] && added == []
    {
      this.existingMembers := existingMembers;
      contacts := [];
      selectedContact := "";
      requests := [];
      added := [];
    }

    /** `fetchContacts` with the response: the list offered is the filtered contact list.
        The status is not checked, but filtering an error object or a failed request
        throws before the state is set. */
    method Load(response: Fetched<seq<Contact>>)
      modifies this
      ensures response.Ok? ==> contacts == Available(response.body, existingMembers)
      ensures !response.Ok? ==> contacts == old(contacts)
      ensures existingMembers == old(existingMembers) && selectedContact == old(selectedContact)
      ensures requests == old(requests) && added == old(added)
    {
      if response.Ok? {
        contacts := Available(response.body, existingMembers);
      }
    }

    /** The drop-down's `onChange`. */
    method Select(userId: Id)
      modifies this
      ensures selectedContact == userId
      ensures existingMembers == old(existingMembers) && contacts == old(contacts)
      ensures requests == old(requests) && added == old(added)
    {
      selectedContact := userId;
    }

    /** `handleSubmit` with the response: nothing without a selection; otherwise the user
        id is posted, and only an ok response hands the new member up, with the user of
        its contact, and resets the drop-down. */
    method Submit(response: Fetched<GroupMember>)
      modifies this
      ensures existingMembers == old(existingMembers) && contacts == old(contacts)
      ensures old(AddDisabled()) ==> unchanged(this)
      ensures old(selectedContact) != "" ==> requests == old(requests) + [old(selectedContact)]
      ensures old(selectedContact) != "" && response.Ok? ==>
        && added == old(added) + [response.body.(user := Details(contacts, response.body.userId))]
        && selectedContact == ""
      ensures old(selectedContact) != "" && !response.Ok? ==>
        added == old(added) && selectedContact == old(selectedContact)
    {
      if selectedContact == "" {
        return;
      }
      requests := requests + [selectedContact];
      if response.Ok? {
        var member := response.body;
        added := added + [member.(user := Details(contacts, member.userId))];
        selectedContact := "";
      }
    }

    /** The drop-down is disabled exactly when nothing is offered. */
    predicate SelectDisabled()
      reads this
    {
      |contacts| == 0
    }

    /** The Add button is disabled exactly without a selection. */
    predicate AddDisabled()
      reads this
    {
      selectedContact == ""
    }

    /** The placeholder option's text. */
    function Prompt(): (r: string)
      reads this
      ensures r == NothingToAdd <==> SelectDisabled()
    {
      if |contacts| > 0 then SelectPrompt else NothingToAdd
    }
  }
}
