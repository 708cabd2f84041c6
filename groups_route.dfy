/** `/api/groups`: `POST` creates a group administered by the caller, with the caller as
    its first member; `GET` lists the caller's groups, each with its newest message. */
module GroupsRoute {
  import opened Wrappers
  import opened Lists
  import opened Records
  import opened Store

  const CreateFailed: string := "Failed to create group"
  const FetchFailed: string := "Failed to fetch groups"

  /** The member rows the create call asks for: the caller first, then the request's
      `members` in order, nothing removed. */
  function MemberRows(caller: Id, members: seq<Id>): (rows: seq<GroupMember>)
    ensures MemberIds(rows) == [caller] + members
    ensures forall i :: 0 <= i < |rows| ==> rows[i].user.None?
  {
    seq(1 + |members|, i requires 0 <= i < 1 + |members| => GroupMember(([caller] + members)[i], None))
  }

  /** The member rows with their users, as `include: { members: { include: { user } } }`
      returns them. */
  function WithUsers(db: Db, rows: seq<GroupMember>): (r: seq<GroupMember>)
    ensures MemberIds(r) == MemberIds(rows)
    ensures forall i :: 0 <= i < |r| ==> r[i].user == UserById(db, rows[i].userId)
  {
    seq(|rows|, i requires 0 <= i < |rows| => GroupMember(rows[i].userId, UserById(db, rows[i].userId)))
  }

  /** Whether the database accepts the member rows: no user twice in one group (the
      unique key on group and user) and every user existing (the foreign key). */
  predicate Insertable(db: Db, ids: seq<Id>) {
    NoDuplicates(ids) && forall i :: 0 <= i < |ids| ==> UserById(db, ids[i]).Some?
  }

  /** The `POST` handler, with the id the database gives the group and whether a database
      call throws for a reason of its own. */
  function PostGroup(db: Db, sessionUserId: Option<Id>, name: string, members: seq<Id>, newGroupId: Id, fault: bool): (out: (Reply<Group>, Db))
    ensures !SignedIn(sessionUserId) ==> out == (Failure(401, Unauthorized), db)
    ensures SignedIn(sessionUserId) ==>
      var ids := [sessionUserId.value] + members;
      && (fault || !Insertable(db, ids) ==> out == (Failure(500, CreateFailed), db))
      && (!fault && Insertable(db, ids) ==>
            && out.0.Json? && out.0.status == 201
            && out.0.body.id == newGroupId && out.0.body.name == name
            && out.0.body.adminId == sessionUserId.value
            && MemberIds(out.0.body.members) == ids
            && (forall i :: 0 <= i < |ids| ==> out.0.body.members[i].user == UserById(db, ids[i]))
            && out.1 == db.(groups := db.groups + [Group(newGroupId, name, None, sessionUserId.value, MemberRows(sessionUserId.value, members), [])]))
  {
    if !SignedIn(sessionUserId) then (Failure(401, Unauthorized), db)
    else
      var caller := sessionUserId.value;
      var rows := MemberRows(caller, members);
      if fault || !Insertable(db, [caller] + members) then (Failure(500, CreateFailed), db)
      else
        var stored := Group(newGroupId, name, None, caller, rows, []);
        (Json(201, stored.(members := WithUsers(db, rows))), db.(groups := db.groups + [stored]))
  }

  /** A caller who also lists themself in `members` is a second row for the same user, so
      the create fails. */
  lemma CallerListedTwiceFails(db: Db, sessionUserId: Option<Id>, name: string, members: seq<Id>, newGroupId: Id)
    requires SignedIn(sessionUserId) && sessionUserId.value in members
    ensures PostGroup(db, sessionUserId, name, members, newGroupId, false) == (Failure(500, CreateFailed), db)
  {
    var ids := [sessionUserId.value] + members;
    var k :| 0 <= k < |members| && members[k] == sessionUserId.value;
    assert ids[0] == ids[k + 1];
    assert !NoDuplicates(ids);
  }

  /** Distinct existing members other than the caller are all added, the caller counted
      once. */
  lemma DistinctMembersCreate(db: Db, sessionUserId: Option<Id>, name: string, members: seq<Id>, newGroupId: Id)
    requires SignedIn(sessionUserId) && sessionUserId.value !in members && NoDuplicates(members)
    requires UserById(db, sessionUserId.value).Some?
    requires forall i :: 0 <= i < |members| ==> UserById(db, members[i]).Some?
    ensures var out := PostGroup(db, sessionUserId, name, members, newGroupId, false);
      && out.0.status == 201
      && Count(MemberIds(out.0.body.members), sessionUserId.value) == 1
  {
    var caller := sessionUserId.value;
    var ids := [caller] + members;
    forall i, j | 0 <= i < j < |ids| ensures ids[i] != ids[j] {
      if i == 0 {
        assert ids[j] == members[j - 1];
      } else {
        assert ids[i] == members[i - 1] && ids[j] == members[j - 1];
      }
    }
    forall i | 0 <= i < |ids| ensures UserById(db, ids[i]).Some? {
      if i > 0 {
        assert ids[i] == members[i - 1];
      }
    }
    assert ids[1..] == members;
    CountZeroIffAbsent(members, caller);
  }

  /** The `GET` filter: the caller is among the group's members. */
  function HasMember(userId: Id): Group -> bool {
    (g: Group) => userId in MemberIds(g.members)
  }

  /** The messages of one group, in store order. */
  function InGroup(groupId: Id): GroupMessage -> bool {
    (m: GroupMessage) => m.groupId == groupId
  }

  /** `orderBy: { createdAt: "desc" }, take: 1`: nothing for no messages, else one
      message no other is newer than (the earliest stored of equal times). */
  function Newest(ms: seq<GroupMessage>): (r: seq<GroupMessage>)
    ensures |r| <= 1
    ensures r == [] <==> ms == []
    ensures r != [] ==> r[0] in ms && forall m :: m in ms ==> CreatedAt(m.stamp) <= CreatedAt(r[0].stamp)
  {
    if ms == [] then []
    else
      var rest := Newest(ms[1..]);
      assert forall m :: m in ms ==> m == ms[0] || m in ms[1..];
      if rest == [] || CreatedAt(rest[0].stamp) <= CreatedAt(ms[0].stamp) then [ms[0]] else rest
  }

  /** One listed group: its members with their users and its newest message. */
  function Listed(db: Db, g: Group): (r: Group)
    ensures r.id == g.id && r.name == g.name && r.image == g.image && r.adminId == g.adminId
    ensures MemberIds(r.members) == MemberIds(g.members)
    ensures forall i :: 0 <= i < |r.members| ==> r.members[i].user == UserById(db, g.members[i].userId)
    ensures r.messages == Newest(Filter(db.groupMessages, InGroup(g.id)))
  {
    g.(members := WithUsers(db, g.members), messages := Newest(Filter(db.groupMessages, InGroup(g.id))))
  }

  function ListAll(db: Db, gs: seq<Group>): (r: seq<Group>)
    ensures |r| == |gs|
    ensures forall i :: 0 <= i < |gs| ==> r[i] == Listed(db, gs[i])
  {
    seq(|gs|, i requires 0 <= i < |gs| => Listed(db, gs[i]))
  }

  /** The `GET` handler. */
  function GetGroups(db: Db, sessionUserId: Option<Id>, fault: bool): (r: Reply<seq<Group>>)
    ensures !SignedIn(sessionUserId) ==> r == Failure(401, Unauthorized)
    ensures SignedIn(sessionUserId) && fault ==> r == Failure(500, FetchFailed)
    ensures SignedIn(sessionUserId) && !fault ==>
      r.Json? && r.status == 200 && r.body == ListAll(db, Filter(db.groups, HasMember(sessionUserId.value)))
  {
    if !SignedIn(sessionUserId) then Failure(401, Unauthorized)
    else if fault then Failure(500, FetchFailed)
    else Json(200, ListAll(db, Filter(db.groups, HasMember(sessionUserId.value))))
  }

  /** Every stored group with the caller among its members is listed, and every listed
      group is one of those; each carries at most its newest message. */
  lemma GetGroupsListsMemberships(db: Db, sessionUserId: Option<Id>)
    requires SignedIn(sessionUserId)
    ensures var body := GetGroups(db, sessionUserId, false).body;
      && (forall g :: g in db.groups && sessionUserId.value in MemberIds(g.members) ==> Listed(db, g) in body)
      && (forall b :: b in body ==>
            && sessionUserId.value in MemberIds(b.members)
            && |b.messages| <= 1
            && (exists g :: g in db.groups && b == Listed(db, g)))
  {
    var caller := sessionUserId.value;
    var kept := Filter(db.groups, HasMember(caller));
    var body := ListAll(db, kept);
    forall g | g in db.groups && caller in MemberIds(g.members) ensures Listed(db, g) in body {
      FilterMembership(db.groups, HasMember(caller), g);
      var i :| 0 <= i < |kept| && kept[i] == g;
      assert body[i] == Listed(db, g);
    }
    forall b | b in body
      ensures caller in MemberIds(b.members) && |b.messages| <= 1 && exists g :: g in db.groups && b == Listed(db, g)
    {
      var i :| 0 <= i < |body| && body[i] == b;
      FilterMembership(db.groups, HasMember(caller), kept[i]);
      assert HasMember(caller)(kept[i]);
    }
  }

  /** A group created by the caller is listed for the caller afterwards, with no
      message yet. */
  lemma CreatedGroupIsListed(db: Db, sessionUserId: Option<Id>, name: string, members: seq<Id>, newGroupId: Id)
    requires SignedIn(sessionUserId)
    requires PostGroup(db, sessionUserId, name, members, newGroupId, false).0.status == 201
    requires forall m :: m in db.groupMessages ==> m.groupId != newGroupId
    ensures var after := PostGroup(db, sessionUserId, name, members, newGroupId, false).1;
      var stored := Group(newGroupId, name, None, sessionUserId.value, MemberRows(sessionUserId.value, members), []);
      && Listed(after, stored) in GetGroups(after, sessionUserId, false).body
      && Listed(after, stored).messages == []
  {
    var caller := sessionUserId.value;
    var after := PostGroup(db, sessionUserId, name, members, newGroupId, false).1;
    var stored := Group(newGroupId, name, None, caller, MemberRows(caller, members), []);
    assert stored in after.groups;
    assert MemberIds(stored.members)[0] == caller;
    GetGroupsListsMemberships(after, sessionUserId);
    var none := Filter(after.groupMessages, InGroup(newGroupId));
    if none != [] {
      FilterMembership(after.groupMessages, InGroup(newGroupId), none[0]);
      assert false;
    }
  }
}
