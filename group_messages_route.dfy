/** `/api/group-messages`: `POST` stores a group message from the caller; `GET` searches
    one group's messages, oldest first. */
module GroupMessagesRoute {
  import opened Wrappers
  import opened Text
  import opened Lists
  import opened Records
  import opened Ordering
  import opened Store

  const CreateFailed: string := "Failed to create group message"
  const FetchFailed: string := "Failed to fetch group messages"

  /** The foreign keys of a new group message: its group and its sender exist. A create
      that violates one throws, and so does the `sender` include without a user. */
  predicate Insertable(db: Db, groupId: Id, senderId: Id) {
    GroupById(db, groupId).Some? && UserById(db, senderId).Some?
  }

  /** The `POST` handler: the sender is the caller and `isFile` is stored as sent,
      absent included. A database call may also throw for a reason of its own. */
  function PostGroupMessage(db: Db, sessionUserId: Option<Id>, groupId: Id, content: string, isFile: Option<bool>,
                            newId: Id, now: int, fault: bool): (out: (Reply<GroupMessage>, Db))
    ensures !SignedIn(sessionUserId) ==> out == (Failure(401, Unauthorized), db)
    ensures SignedIn(sessionUserId) && (fault || !Insertable(db, groupId, sessionUserId.value)) ==>
      out == (Failure(500, CreateFailed), db)
    ensures SignedIn(sessionUserId) && !fault && Insertable(db, groupId, sessionUserId.value) ==>
      && out.0.Json? && out.0.status == 201
      && out.0.body.groupId == groupId && out.0.body.content == content
      && out.0.body.senderId == sessionUserId
      && out.0.body.isFile == isFile
      && out.0.body.stamp == Some(Stamp(newId, now))
      && out.1 == db.(groupMessages := db.groupMessages + [out.0.body])
  {
    if !SignedIn(sessionUserId) then (Failure(401, Unauthorized), db)
    else if fault || !Insertable(db, groupId, sessionUserId.value) then (Failure(500, CreateFailed), db)
    else
      var m := GroupMessage(groupId, content, sessionUserId, isFile, Some(Stamp(newId, now)));
      (Json(201, m), db.(groupMessages := db.groupMessages + [m]))
  }

  /** The `where` of the search: the group, and the content containing the query as
      typed. */
  function Matches(groupId: Id, query: string): GroupMessage -> bool {
    (m: GroupMessage) => m.groupId == groupId && Contains(m.content, query)
  }

  function Time(m: GroupMessage): int {
    CreatedAt(m.stamp)
  }

  /** The `GET` handler for a request that names its group. */
  function GetGroupMessages(db: Db, sessionUserId: Option<Id>, groupId: Id, query: Option<string>, fault: bool): (r: Reply<seq<GroupMessage>>)
    ensures !SignedIn(sessionUserId) ==> r == Failure(401, Unauthorized)
    ensures SignedIn(sessionUserId) && fault ==> r == Failure(500, FetchFailed)
    ensures SignedIn(sessionUserId) && !fault ==>
      && r.Json? && r.status == 200
      && SortedBy(r.body, Time)
      && multiset(r.body) == multiset(Filter(db.groupMessages, Matches(groupId, Param(query))))
  {
    if !SignedIn(sessionUserId) then Failure(401, Unauthorized)
    else if fault then Failure(500, FetchFailed)
    else Json(200, SortBy(Filter(db.groupMessages, Matches(groupId, Param(query))), Time))
  }

  /** A stored message is found exactly when it is in the group and its content contains
      the query, capitals and all. */
  lemma GetGroupMessagesFinds(db: Db, sessionUserId: Option<Id>, groupId: Id, query: Option<string>, m: GroupMessage)
    requires SignedIn(sessionUserId)
    ensures m in GetGroupMessages(db, sessionUserId, groupId, query, false).body <==>
      m in db.groupMessages && m.groupId == groupId && Contains(m.content, Param(query))
  {
    var body := GetGroupMessages(db, sessionUserId, groupId, query, false).body;
    var kept := Filter(db.groupMessages, Matches(groupId, Param(query)));
    FilterMembership(db.groupMessages, Matches(groupId, Param(query)), m);
    assert m in body <==> m in multiset(body);
    assert m in kept <==> m in multiset(kept);
  }

  /** A posted group message is found by a search of its group for its own content. */
  lemma PostedGroupMessageIsFetched(db: Db, sessionUserId: Option<Id>, groupId: Id, content: string, isFile: Option<bool>,
                                    newId: Id, now: int)
    requires SignedIn(sessionUserId) && Insertable(db, groupId, sessionUserId.value)
    ensures var out := PostGroupMessage(db, sessionUserId, groupId, content, isFile, newId, now, false);
      out.0.body in GetGroupMessages(out.1, sessionUserId, groupId, Some(content), false).body
  {
    var out := PostGroupMessage(db, sessionUserId, groupId, content, isFile, newId, now, false);
    ContainsAt(content, content, 0);
    assert content[0..|content|] == content;
    assert out.0.body in out.1.groupMessages;
    GetGroupMessagesFinds(out.1, sessionUserId, groupId, Some(content), out.0.body);
  }
}
