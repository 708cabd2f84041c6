/** The member list of the group editor: a row per member with an admin badge, a
    Remove button for the admin, and the removal request. */
module GroupMemberList {
  import opened Wrappers
  import opened Text
  import opened Records
  import Avatar

  const AdminNotRemovable: string := "Admin cannot be removed."
  const RemoveFailed: string := "Failed to remove member"

  /** How `handleRemoveMember` ends: refused locally (no request), the member removed
      (`onMemberRemoved` called), or an alert with the failure. */
  datatype Removal = Refused | Removed(userId: Id) | Failed(alert: string)

  /** The request is sent exactly when the target is not the admin. */
  predicate SendsRequest(adminId: Id, userId: Id) {
    adminId != userId
  }

  /** `handleRemoveMember` with the response of the DELETE request. */
  function HandleRemove(adminId: Id, userId: Id, response: Fetched<()>): (r: Removal)
    ensures r == Refused <==> !SendsRequest(adminId, userId)
    ensures r.Removed? <==> SendsRequest(adminId, userId) && response.Ok?
    ensures r.Removed? ==> r.userId == userId && userId != adminId
    ensures r.Failed? ==> r.alert == (if response.NotOk? then RemoveFailed else response.message)
  {
    if adminId == userId then Refused
    else match response
      case Ok(_) => Removed(userId)
      case NotOk(_) => Failed(RemoveFailed)
      case Thrown(message) => Failed(message)
  }

  /** The Remove button: the viewer is the admin and the row is not the admin's. */
  predicate ShowRemoveButton(adminId: Id, viewerId: Id, rowUserId: Id) {
    adminId == viewerId && rowUserId != adminId
  }

  /** The `(Admin)` badge. */
  predicate ShowAdminBadge(adminId: Id, rowUserId: Id) {
    rowUserId == adminId
  }

  /** What a member's row shows. */
  datatype Row = Row(userId: Id, name: string, avatar: string, admin: bool, removable: bool)

  /** The rows, one per member in order. Every member needs its `user`: destructuring a
      missing one throws, which is `None` here. */
  function Rows(members: seq<GroupMember>, adminId: Id, viewerId: Id): (r: Option<seq<Row>>)
    ensures r.Some? <==> forall i :: 0 <= i < |members| ==> members[i].user.Some?
    ensures r.Some? ==> |r.value| == |members|
    ensures r.Some? ==> forall i :: 0 <= i < |members| ==>
      var u := members[i].user.value;
      r.value[i] == Row(u.id, u.name, Avatar.OrDefault(u.image),
                        ShowAdminBadge(adminId, u.id), ShowRemoveButton(adminId, viewerId, u.id))
    decreases |members|
  {
    if members == [] then Some([])
    else if members[0].user.None? then None
    else
      var u := members[0].user.value;
      var row := Row(u.id, u.name, Avatar.OrDefault(u.image),
                     ShowAdminBadge(adminId, u.id), ShowRemoveButton(adminId, viewerId, u.id));
      match Rows(members[1..], adminId, viewerId)
      case None => None
      case Some(rest) => Some([row] + rest)
  }

  const HeadingStart: string := "Members ("

  /** The heading `Members (n)`: the digits between the parentheses read as the number
      of members in the list. */
  function Heading(members: seq<GroupMember>): (r: string)
    ensures |r| >= |HeadingStart| + 2 && r[..|HeadingStart|] == HeadingStart && r[|r| - 1] == ')'
    ensures DigitsValue(r[|HeadingStart|..|r| - 1]) == |members|
  {
    var digits := Decimal(|members|);
    var r := HeadingStart + digits + ")";
    assert r[|HeadingStart|..|r| - 1] == digits;
    r
  }

  /** Only the admin sees Remove buttons, and never on the admin's own row. */
  lemma RemoveButtonsOnlyForAdmin(members: seq<GroupMember>, adminId: Id, viewerId: Id)
    requires Rows(members, adminId, viewerId).Some?
    ensures forall row :: row in Rows(members, adminId, viewerId).value && row.removable ==>
              viewerId == adminId && row.userId != adminId
  {
    var rows := Rows(members, adminId, viewerId).value;
    forall row | row in rows && row.removable ensures viewerId == adminId && row.userId != adminId {
      var i :| 0 <= i < |rows| && rows[i] == row;
      assert members[i].user.Some?;
    }
  }
}
