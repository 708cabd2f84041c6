/** The form that creates a group: a name, a checkbox per contact whose ticks collect
    user ids, and a submit that validates before posting. */
module CreateGroupForm {
  import opened Wrappers
  import opened Text
  import opened Lists
  import opened Records

  const Required: string := "Group name and at least one member are required."
  const CreateFailed: string := "Failed to create group"

  /** The `handleMemberToggle` updater: a selected id is removed (every occurrence), an
      unselected one is appended. */
  function Toggle(prev: seq<Id>, id: Id): (r: seq<Id>)
    ensures id in r <==> id !in prev
    ensures forall x :: x != id ==> (x in r <==> x in prev)
    ensures id !in prev ==> r == prev + [id]
    ensures id in prev ==> IsSubsequence(r, prev)
    ensures id in prev ==> forall x :: Count(r, x) == if x == id then 0 else Count(prev, x)
  {
    if id in prev then
      var kept := Filter(prev, x => x != id);
      FilterMembership(prev, x => x != id, id);
      forall x ensures Count(kept, x) == if x == id then 0 else Count(prev, x) {
        FilterCount(prev, x => x != id, x);
      }
      forall x | x != id ensures x in kept <==> x in prev {
        FilterMembership(prev, x => x != id, x);
      }
      FilterIsSubsequence(prev, x => x != id);
      kept
    else prev + [id]
  }

  /** A checkbox is ticked when the contact's user id is selected (not the contact id). */
  predicate Checked(selected: seq<Id>, contact: Contact) {
    contact.userId in selected
  }

  /** A selection without repeats stays without repeats. */
  lemma ToggleKeepsNoDuplicates(prev: seq<Id>, id: Id)
    requires NoDuplicates(prev)
    ensures NoDuplicates(Toggle(prev, id))
  {
    if id in prev {
      FilterNoDuplicates(prev, x => x != id);
    }
  }

  /** Toggling twice restores the selected set; an id that was not selected even leaves
      the very same list. */
  lemma ToggleTwice(prev: seq<Id>, id: Id)
    ensures forall x :: x in Toggle(Toggle(prev, id), id) <==> x in prev
    ensures id !in prev ==> Toggle(Toggle(prev, id), id) == prev
  {
    if id !in prev {
      FilterAppend(prev, [id], x => x != id);
      FilterKeepsAll(prev, x => x != id);
      assert Filter([id], x => x != id) == [];
    }
  }

  /** The order may change: deselecting and reselecting moves the id to the end. */
  lemma ToggleTwiceMayReorder()
    ensures Toggle(Toggle(["a", "b"], "a"), "a") == ["b", "a"]
  {
    var once := Toggle(["a", "b"], "a");
    assert "a" in ["a", "b"];
    assert "b" != "a";
    assert Filter(["a", "b"], x => x != "a") == ["b"] by {
      assert ["a", "b"][1..] == ["b"];
      assert ["b"][1..] == [];
    }
  }

  /** The submit check: an error exactly when the trimmed name is empty or nobody is
      selected. */
  function Validate(groupName: string, selected: seq<Id>): (r: Option<string>)
    ensures r.Some? <==> IsBlank(groupName) || selected == []
    ensures r.Some? ==> r.value == Required
  {
    TrimEmptyIff(groupName);
    if Trim(groupName) == "" || |selected| == 0 then Some(Required) else None
  }

  /** The body of `POST /api/groups`. */
  datatype CreateRequest = CreateRequest(name: string, members: seq<Id>)

  class Form {
    var groupName: string
    var selectedMembers: seq<Id>
    var error: string
    /** The requests sent, oldest first. */
    var requests: seq<CreateRequest>
    /** The groups passed to `onGroupCreated`, oldest first. */
    var created: seq<Group>

    constructor ()
      ensures groupName == "" && selectedMembers == [] && error == ""
      ensures requests == [] && created == []
    {
      groupName := "";
      selectedMembers := [];
      error := "";
      requests := [];
      created := [];
    }

    method SetGroupName(name: string)
      modifies this
      ensures groupName == name
      ensures selectedMembers == old(selectedMembers) && error == old(error)
      ensures requests == old(requests) && created == old(created)
    {
      groupName := name;
    }

    /** A checkbox's `onChange`. */
    method ToggleMember(userId: Id)
      modifies this
      ensures selectedMembers == Toggle(old(selectedMembers), userId)
      ensures groupName == old(groupName) && error == old(error)
      ensures requests == old(requests) && created == old(created)
    {
      selectedMembers := Toggle(selectedMembers, userId);
    }

    /** `handleSubmit` with the server's answer: refused without a request when the
        check fails; otherwise the request is sent, and only an ok response hands the
        group up and resets the form. A non-ok response or a thrown error leaves the
        message as the error. */
    method Submit(response: Fetched<Group>)
      modifies this
      ensures Validate(old(groupName), old(selectedMembers)).Some? ==>
        && error == Required && requests == old(requests) && created == old(created)
        && groupName == old(groupName) && selectedMembers == old(selectedMembers)
      ensures Validate(old(groupName), old(selectedMembers)).None? ==>
        requests == old(requests) + [CreateRequest(old(groupName), old(selectedMembers))]
      ensures Validate(old(groupName), old(selectedMembers)).None? && response.Ok? ==>
        && created == old(created) + [response.body]
        && groupName == "" && selectedMembers == [] && error == ""
      ensures Validate(old(groupName), old(selectedMembers)).None? && !response.Ok? ==>
        && created == old(created)
        && groupName == old(groupName) && selectedMembers == old(selectedMembers)
        && error == (if response.NotOk? then CreateFailed else response.message)
    {
      var invalid := Validate(groupName, selectedMembers);
      if invalid.Some? {
        error := invalid.value;
        return;
      }
      error := "";
      requests := requests + [CreateRequest(groupName, selectedMembers)];
      match response
      case Ok(group) =>
        created := created + [group];
        groupName := "";
        selectedMembers := [];
      case NotOk(_) =>
        error := CreateFailed;
      case Thrown(message) =>
        error := message;
    }
  }
}
