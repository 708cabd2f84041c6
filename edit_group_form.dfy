/** The group editor: name and image, the member list it keeps locally, and the merge
    that hands the updated group up with that member list. */
module EditGroupForm {
  import opened Wrappers
  import opened Text
  import opened Lists
  import opened Records
  import Avatar
  import GroupMemberList

  const Saving: string := "Saving..."
  const SaveChanges: string := "Save Changes"

  /** The `handleMemberAdded` updater: the new member goes last. */
  function AddMember(prev: seq<GroupMember>, m: GroupMember): (r: seq<GroupMember>)
    ensures |r| == |prev| + 1 && r[..|prev|] == prev && r[|prev|] == m
  {
    prev + [m]
  }

  /** The test of `handleMemberRemoved`: a member of another user. */
  function OtherUser(userId: Id): GroupMember -> bool {
    (m: GroupMember) => m.userId != userId
  }

  /** The `handleMemberRemoved` updater: every member of that user goes, the rest stay
      in order. */
  function RemoveMember(prev: seq<GroupMember>, userId: Id): (r: seq<GroupMember>)
    ensures forall m :: m in r <==> m in prev && m.userId != userId
    ensures IsSubsequence(r, prev)
    ensures forall m :: Count(r, m) == if m.userId != userId then Count(prev, m) else 0
  {
    forall m ensures Count(Filter(prev, OtherUser(userId)), m) == if OtherUser(userId)(m) then Count(prev, m) else 0 {
      FilterCount(prev, OtherUser(userId), m);
    }
    forall m ensures m in Filter(prev, OtherUser(userId)) <==> m in prev && OtherUser(userId)(m) {
      FilterMembership(prev, OtherUser(userId), m);
    }
    FilterIsSubsequence(prev, OtherUser(userId));
    Filter(prev, OtherUser(userId))
  }

  /** Removing a user twice is removing it once. */
  lemma RemoveIdempotent(prev: seq<GroupMember>, userId: Id)
    ensures RemoveMember(RemoveMember(prev, userId), userId) == RemoveMember(prev, userId)
  {
    FilterKeepsAll(RemoveMember(prev, userId), OtherUser(userId));
  }

  /** Adding a member and then removing its user leaves the other members as they were. */
  lemma AddThenRemove(prev: seq<GroupMember>, m: GroupMember)
    ensures RemoveMember(AddMember(prev, m), m.userId) == RemoveMember(prev, m.userId)
  {
    FilterAppend(prev, [m], OtherUser(m.userId));
    assert Filter([m], OtherUser(m.userId)) == [];
    assert RemoveMember(prev, m.userId) + [] == RemoveMember(prev, m.userId);
  }

  /** `{ ...updatedGroup, members }`: the server's group with the local member list. */
  function Merge(updated: Group, members: seq<GroupMember>): (r: Group)
    ensures r.members == members
    ensures r.id == updated.id && r.name == updated.name && r.image == updated.image
    ensures r.adminId == updated.adminId && r.messages == updated.messages
  {
    updated.(members := members)
  }

  /** The add-member form is offered exactly to the group's admin. */
  predicate ShowAddForm(sessionUserId: Option<Id>, group: Group) {
    sessionUserId == Some(group.adminId)
  }

  /** The add-member form and the member list's Remove buttons are offered to the same
      viewer: the admin. */
  lemma AddAndRemoveOfferedToSameViewer(viewerId: Id, group: Group)
    ensures ShowAddForm(Some(viewerId), group) <==>
      exists userId :: GroupMemberList.ShowRemoveButton(group.adminId, viewerId, userId)
  {
    if viewerId == group.adminId {
      var other := group.adminId + "x";
      assert |other| != |group.adminId|;
      assert GroupMemberList.ShowRemoveButton(group.adminId, viewerId, other);
    }
  }

  /** The admin's entries survive any removal the member list can trigger. */
  lemma AdminStaysListed(members: seq<GroupMember>, adminId: Id, userId: Id, response: Fetched<()>)
    ensures var after := match GroupMemberList.HandleRemove(adminId, userId, response)
                         case Removed(u) => RemoveMember(members, u)
                         case _ => members;
            forall m :: m in members && m.userId == adminId ==> m in after
  {
  }

  /** The body of the `PUT /api/groups/update` request. */
  datatype UpdateRequest = UpdateRequest(id: Id, name: string, image: Option<string>)

  class Form {
    /** The `group` prop. */
    var group: Group
    var name: string
    var image: Option<string>
    var preview: Option<string>
    var loading: bool
    var members: seq<GroupMember>
    /** The update requests sent, oldest first. */
    var requests: seq<UpdateRequest>
    /** The groups passed to `onGroupUpdated`, oldest first. */
    var updates: seq<Group>

    constructor (group: Group)
      ensures this.group == group && name == group.name
      ensures image == group.image && preview == group.image
      ensures !loading && members == [] && requests == [] && updates == []
    {
      this.group := group;
      name := group.name;
      image := group.image;
      preview := group.image;
      loading := false;
      members := [];
      requests := [];
      updates := [];
    }

    /** `fetchGroupDetails`: an ok response supplies the member list. */
    method LoadDetails(response: Fetched<Group>)
      modifies this
      ensures response.Ok? ==> members == response.body.members
      ensures !response.Ok? ==> members == old(members)
      ensures group == old(group) && name == old(name) && image == old(image) && preview == old(preview)
      ensures loading == old(loading) && requests == old(requests) && updates == old(updates)
    {
      if response.Ok? {
        members := response.body.members;
      }
    }

    method SetName(newName: string)
      modifies this
      ensures name == newName
      ensures group == old(group) && image == old(image) && preview == old(preview)
      ensures loading == old(loading) && members == old(members)
      ensures requests == old(requests) && updates == old(updates)
    {
      name := newName;
    }

    /** `handleImageUpload` for a chosen file: the preview shows the local object url at
        once; the image becomes the `url` of the upload's answer, which an error body
        lacks. A failed upload request leaves the image. */
    method ChooseImage(objectUrl: string, upload: Fetched<string>)
      modifies this
      ensures preview == Some(objectUrl)
      ensures upload.Ok? ==> image == Some(upload.body)
      ensures upload.NotOk? ==> image == None
      ensures upload.Thrown? ==> image == old(image)
      ensures group == old(group) && name == old(name) && loading == old(loading)
      ensures members == old(members) && requests == old(requests) && updates == old(updates)
    {
      preview := Some(objectUrl);
      match upload
      case Ok(url) => image := Some(url);
      case NotOk(_) => image := None;
      case Thrown(_) =>
    }

    /** `handleSubmit`: sends the id, name and image; an ok response hands up the merged
        group. `loading` ends false unless the request throws, which leaves it true. */
    method Submit(response: Fetched<Group>)
      modifies this
      ensures requests == old(requests) + [UpdateRequest(group.id, name, image)]
      ensures response.Ok? ==> updates == old(updates) + [Merge(response.body, members)]
      ensures !response.Ok? ==> updates == old(updates)
      ensures loading == response.Thrown?
      ensures group == old(group) && name == old(name) && image == old(image)
      ensures preview == old(preview) && members == old(members)
    {
      loading := true;
      requests := requests + [UpdateRequest(group.id, name, image)];
      if response.Thrown? {
        return;
      }
      if response.Ok? {
        updates := updates + [Merge(response.body, members)];
      }
      loading := false;
    }

    /** `handleMemberAdded`, called by the add-member form. */
    method OnMemberAdded(m: GroupMember)
      modifies this
      ensures members == AddMember(old(members), m)
      ensures group == old(group) && name == old(name) && image == old(image) && preview == old(preview)
      ensures loading == old(loading) && requests == old(requests) && updates == old(updates)
    {
      members := AddMember(members, m);
    }

    /** `handleMemberRemoved`, called by the member list. */
    method OnMemberRemoved(userId: Id)
      modifies this
      ensures members == RemoveMember(old(members), userId)
      ensures group == old(group) && name == old(name) && image == old(image) && preview == old(preview)
      ensures loading == old(loading) && requests == old(requests) && updates == old(updates)
    {
      members := RemoveMember(members, userId);
    }

    /** The preview image shown. */
    function PreviewSrc(): (r: string)
      reads this
      ensures preview.None? || IsBlank(preview.value) ==> r == Avatar.NoProfile
      ensures preview.Some? && !IsBlank(preview.value) ==> r == preview.value
    {
      Avatar.OrDefault(preview)
    }

    /** The submit button's text; the button is disabled while loading. */
    function SaveLabel(): (r: string)
      reads this
      ensures r == Saving <==> loading
    {
      if loading then Saving else SaveChanges
    }
  }
}
