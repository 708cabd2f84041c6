/** `/api/messages`: `GET` searches one private chat's messages, oldest first; `POST`
    stores a message from the caller. */
module MessagesRoute {
  import opened Wrappers
  import opened Text
  import opened Lists
  import opened Records
  import opened Ordering
  import opened Store

  const FetchFailed: string := "Failed to fetch messages"
  const CreateFailed: string := "Failed to create message"

  /** The `where` of the search: the chat, and the content containing the lowercased
      query. */
  function Matches(chatId: Id, query: string): ChatMessage -> bool {
    (m: ChatMessage) => m.chatId == chatId && Contains(m.content, ToLower(query))
  }

  /** The `orderBy` key. */
  function Time(m: ChatMessage): int {
    CreatedAt(m.stamp)
  }

  /** The `GET` handler, with its two search parameters as the URL carries them. */
  function GetMessages(db: Db, sessionUserId: Option<Id>, chatId: Option<string>, query: Option<string>, fault: bool): (r: Reply<seq<ChatMessage>>)
    ensures !SignedIn(sessionUserId) ==> r == Failure(401, Unauthorized)
    ensures SignedIn(sessionUserId) && fault ==> r == Failure(500, FetchFailed)
    ensures SignedIn(sessionUserId) && !fault ==>
      && r.Json? && r.status == 200
      && SortedBy(r.body, Time)
      && multiset(r.body) == multiset(Filter(db.messages, Matches(Param(chatId), Param(query))))
  {
    if !SignedIn(sessionUserId) then Failure(401, Unauthorized)
    else if fault then Failure(500, FetchFailed)
    else Json(200, SortBy(Filter(db.messages, Matches(Param(chatId), Param(query))), Time))
  }

  /** A stored message is found exactly when it is in the requested chat (the empty id
      when none is given) and its content contains the lowercased query. */
  lemma GetMessagesFinds(db: Db, sessionUserId: Option<Id>, chatId: Option<string>, query: Option<string>, m: ChatMessage)
    requires SignedIn(sessionUserId)
    ensures m in GetMessages(db, sessionUserId, chatId, query, false).body <==>
      m in db.messages && m.chatId == Param(chatId) && Contains(m.content, ToLower(Param(query)))
  {
    var body := GetMessages(db, sessionUserId, chatId, query, false).body;
    var kept := Filter(db.messages, Matches(Param(chatId), Param(query)));
    FilterMembership(db.messages, Matches(Param(chatId), Param(query)), m);
    assert m in body <==> m in multiset(body);
    assert m in kept <==> m in multiset(kept);
  }

  /** The search lowercases the query but not the content, so a query with a capital
      letter misses the very message it spells. */
  lemma CapitalQueryMissesItsMessage(db: Db, sessionUserId: Option<Id>)
    requires SignedIn(sessionUserId)
    requires ChatMessage("c", "Hi", "u", false, None) in db.messages
    ensures ChatMessage("c", "Hi", "u", false, None) !in GetMessages(db, sessionUserId, Some("c"), Some("Hi"), false).body
  {
    assert ToLower("Hi") == "hi";
    assert "Hi"[0] == 'H' && "hi"[0] == 'h';
    assert !("hi" <= "Hi");
    assert "Hi"[1..] == "i" && "i"[1..] == "";
    assert !Contains("Hi", "hi");
    GetMessagesFinds(db, sessionUserId, Some("c"), Some("Hi"), ChatMessage("c", "Hi", "u", false, None));
  }

  /** The foreign keys of a new message: its chat and its sender exist. A create that
      violates one throws, and so does the `sender` include without a user. */
  predicate Insertable(db: Db, chatId: Id, senderId: Id) {
    ChatById(db, chatId).Some? && UserById(db, senderId).Some?
  }

  /** The `POST` handler, with the request body's fields (its `senderId` among them), the
      id and time the database gives the row, and whether a database call throws for a
      reason of its own. */
  function PostMessage(db: Db, sessionUserId: Option<Id>, chatId: Id, content: string, isFile: Option<bool>,
                       claimedSenderId: Option<Id>, newId: Id, now: int, fault: bool): (out: (Reply<ChatMessage>, Db))
    ensures !SignedIn(sessionUserId) ==> out == (Failure(401, Unauthorized), db)
    ensures SignedIn(sessionUserId) && (fault || !Insertable(db, chatId, sessionUserId.value)) ==>
      out == (Failure(500, CreateFailed), db)
    ensures SignedIn(sessionUserId) && !fault && Insertable(db, chatId, sessionUserId.value) ==>
      && out.0.Json? && out.0.status == 201
      && out.0.body.chatId == chatId && out.0.body.content == content
      && out.0.body.senderId == sessionUserId.value
      && (out.0.body.isFile <==> isFile == Some(true))
      && out.0.body.stamp == Some(Stamp(newId, now))
      && out.1 == db.(messages := db.messages + [out.0.body])
  {
    if !SignedIn(sessionUserId) then (Failure(401, Unauthorized), db)
    else if fault || !Insertable(db, chatId, sessionUserId.value) then (Failure(500, CreateFailed), db)
    else
      var m := ChatMessage(chatId, content, sessionUserId.value, isFile.Some? && isFile.value, Some(Stamp(newId, now)));
      (Json(201, m), db.(messages := db.messages + [m]))
  }

  /** A stored message is found by a search of its chat with no query. */
  lemma PostedMessageIsFetched(db: Db, sessionUserId: Option<Id>, chatId: Id, content: string, isFile: Option<bool>,
                               claimedSenderId: Option<Id>, newId: Id, now: int)
    requires SignedIn(sessionUserId) && Insertable(db, chatId, sessionUserId.value)
    ensures var out := PostMessage(db, sessionUserId, chatId, content, isFile, claimedSenderId, newId, now, false);
      out.0.body in GetMessages(out.1, sessionUserId, Some(chatId), None, false).body
  {
    var out := PostMessage(db, sessionUserId, chatId, content, isFile, claimedSenderId, newId, now, false);
    ContainsEmpty(content);
    assert ToLower("") == "";
    assert out.0.body in out.1.messages;
    GetMessagesFinds(out.1, sessionUserId, Some(chatId), None, out.0.body);
  }
}
