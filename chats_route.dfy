/** `POST /api/chats`: the private chat between the caller and a contact's user, reused
    when one with exactly those two users exists, created otherwise. */
module ChatsRoute {
  import opened Wrappers
  import opened Lists
  import opened Records
  import opened Store

  const ContactNotFound: string := "Contact not found"
  const OtherUserNotFound: string := "Other user not found"
  const ChatFailed: string := "Failed to create/fetch chat"

  /** `findUnique({ where: { id: contactId } })` on contacts. */
  function ContactById(db: Db, contactId: Id): (r: Option<Contact>)
    ensures r.Some? ==> r.value in db.contacts && r.value.id == contactId
    ensures r.None? ==> forall c :: c in db.contacts ==> c.id != contactId
  {
    Find(db.contacts, (c: Contact) => c.id == contactId)
  }

  /** The `findFirst` filter: a non-group chat with both users among its users. */
  predicate Between(chat: Chat, a: Id, b: Id) {
    !chat.isGroup && a in chat.users && b in chat.users
  }

  /** How the database treats a `connect` list that names the same user twice, which
      happens when a contact's user is the caller: the user is stored once (`Merged`), or
      the create fails because fewer records were found than named (`Refused`). The
      handler's code does not decide between the two, so both are modelled. */
  datatype DuplicateConnect = Merged | Refused

  /** The create step's `connect: [{ id: caller }, { id: other }]` fails: the caller's
      user is missing, or the two ids are equal and a repeat is refused. */
  predicate ConnectFails(db: Db, caller: Id, other: Id, rule: DuplicateConnect) {
    UserById(db, caller).None? || (caller == other && rule == Refused)
  }

  /** The first chat that passes the filter. */
  function ExistingChat(db: Db, a: Id, b: Id): (r: Option<Chat>)
    ensures r.Some? ==> r.value in db.chats && Between(r.value, a, b)
    ensures r.None? ==> forall c :: c in db.chats ==> !Between(c, a, b)
  {
    Find(db.chats, (c: Chat) => Between(c, a, b))
  }

  /** The handler, with the id the database gives a new chat and whether a database call
      throws for a reason of its own. The reply's body is the chat id; the contact's owner
      is not compared with the caller. Creating a chat connects both users, which throws as
      `ConnectFails` says. */
  function PostChat(db: Db, sessionUserId: Option<Id>, contactId: Id, newChatId: Id, rule: DuplicateConnect, fault: bool): (out: (Reply<Id>, Db))
    ensures !SignedIn(sessionUserId) ==> out == (Failure(401, Unauthorized), db)
    ensures SignedIn(sessionUserId) && fault ==> out == (Failure(500, ChatFailed), db)
    ensures SignedIn(sessionUserId) && !fault && ContactById(db, contactId).None? ==>
              out == (Failure(404, ContactNotFound), db)
    ensures SignedIn(sessionUserId) && !fault && ContactById(db, contactId).Some? &&
            UserById(db, ContactById(db, contactId).value.userId).None? ==>
              out == (Failure(404, OtherUserNotFound), db)
    ensures out.0.status == 200 ==>
              && out.1 == db && out.0.Json?
              && (exists c :: c in db.chats && c.id == out.0.body &&
                    Between(c, sessionUserId.value, ContactById(db, contactId).value.userId) && |c.users| == 2)
    ensures out.0.status == 201 ==>
              && !ConnectFails(db, sessionUserId.value, ContactById(db, contactId).value.userId, rule)
              && out.0 == Json(201, newChatId)
              && out.1 == db.(chats := db.chats + [Chat(newChatId, false, {sessionUserId.value, ContactById(db, contactId).value.userId})])
    ensures out.0.status == 500 ==> out == (Failure(500, ChatFailed), db)
    ensures out.0.status in {200, 201, 401, 404, 500}
  {
    if !SignedIn(sessionUserId) then (Failure(401, Unauthorized), db)
    else if fault then (Failure(500, ChatFailed), db)
    else
      var caller := sessionUserId.value;
      match ContactById(db, contactId)
      case None => (Failure(404, ContactNotFound), db)
      case Some(contact) =>
        if UserById(db, contact.userId).None? then (Failure(404, OtherUserNotFound), db)
        else
          var existing := ExistingChat(db, caller, contact.userId);
          if existing.Some? && |existing.value.users| == 2 then (Json(200, existing.value.id), db)
          else if ConnectFails(db, caller, contact.userId, rule) then (Failure(500, ChatFailed), db)
          else
            var chat := Chat(newChatId, false, {caller, contact.userId});
            (Json(201, newChatId), db.(chats := db.chats + [chat]))
  }

  /** With the contact and its user found, the chat is reused exactly when the first
      matching chat has two users. */
  lemma ReuseIffFirstMatchHasTwoUsers(db: Db, sessionUserId: Option<Id>, contactId: Id, newChatId: Id, rule: DuplicateConnect)
    requires SignedIn(sessionUserId)
    requires ContactById(db, contactId).Some?
    requires UserById(db, ContactById(db, contactId).value.userId).Some?
    ensures var existing := ExistingChat(db, sessionUserId.value, ContactById(db, contactId).value.userId);
      PostChat(db, sessionUserId, contactId, newChatId, rule, false).0.status == 200 <==>
        existing.Some? && |existing.value.users| == 2
    ensures PostChat(db, sessionUserId, contactId, newChatId, rule, false).0.status != 200 ==>
      PostChat(db, sessionUserId, contactId, newChatId, rule, false).0.status ==
        if ConnectFails(db, sessionUserId.value, ContactById(db, contactId).value.userId, rule) then 500 else 201
  {
  }

  /** A second click on the same contact reuses the chat the first one created, when the
      contact's user is not the caller. */
  lemma SecondRequestReuses(db: Db, sessionUserId: Option<Id>, contactId: Id, newChatId: Id, laterId: Id, rule: DuplicateConnect)
    requires SignedIn(sessionUserId)
    requires ContactById(db, contactId).Some?
    requires UserById(db, sessionUserId.value).Some?
    requires UserById(db, ContactById(db, contactId).value.userId).Some?
    requires ContactById(db, contactId).value.userId != sessionUserId.value
    requires ExistingChat(db, sessionUserId.value, ContactById(db, contactId).value.userId).None?
    ensures var first := PostChat(db, sessionUserId, contactId, newChatId, rule, false);
      && first.0 == Json(201, newChatId)
      && PostChat(first.1, sessionUserId, contactId, laterId, rule, false) == (Json(200, newChatId), first.1)
  {
    var caller, other := sessionUserId.value, ContactById(db, contactId).value.userId;
    var after := PostChat(db, sessionUserId, contactId, newChatId, rule, false).1;
    var chat := Chat(newChatId, false, {caller, other});
    assert after.chats == db.chats + [chat];
    assert after.contacts == db.contacts && after.users == db.users;
    var found := ExistingChat(after, caller, other);
    assert chat in after.chats && Between(chat, caller, other);
    assert found.value == chat;
    assert |{caller, other}| == 2;
  }

  /** A contact of oneself, for a caller without any two-user private chat, is never
      reused: the create step's `connect` names the caller twice, so either the chat is
      stored with the caller alone and the next click creates another (`Merged`), or
      every click fails with the store unchanged (`Refused`). */
  lemma SelfChatNeverReused(db: Db, sessionUserId: Option<Id>, contactId: Id, newChatId: Id, rule: DuplicateConnect)
    requires SignedIn(sessionUserId)
    requires ContactById(db, contactId).Some?
    requires ContactById(db, contactId).value.userId == sessionUserId.value
    requires UserById(db, sessionUserId.value).Some?
    requires forall c :: c in db.chats && Between(c, sessionUserId.value, sessionUserId.value) ==> |c.users| != 2
    ensures PostChat(db, sessionUserId, contactId, newChatId, rule, false).0.status != 200
    ensures var out := PostChat(db, sessionUserId, contactId, newChatId, rule, false);
      rule == Merged ==>
        && out.0 == Json(201, newChatId)
        && out.1.chats == db.chats + [Chat(newChatId, false, {sessionUserId.value})]
    ensures rule == Refused ==>
      PostChat(db, sessionUserId, contactId, newChatId, rule, false) == (Failure(500, ChatFailed), db)
  {
    assert {sessionUserId.value, sessionUserId.value} == {sessionUserId.value};
  }

  /** With a contact of oneself both filters ask for the caller, so any two-user private
      chat of the caller matches: here the caller `me` opens a contact of `me` and gets
      the chat with `bob`. */
  lemma SelfContactOpensAnotherUsersChat(rule: DuplicateConnect)
    ensures var me := User("me", "me@x", "me", "h", None);
      var bob := User("bob", "bob@x", "bob", "h", None);
      var self := Contact("k", "me", "me", None, None, None, None, None);
      var db := Db([me, bob], [self], [Chat("c1", false, {"me", "bob"})], [], [], []);
      PostChat(db, Some("me"), "k", "new", rule, false) == (Json(200, "c1"), db)
  {
    var me := User("me", "me@x", "me", "h", None);
    var bob := User("bob", "bob@x", "bob", "h", None);
    var self := Contact("k", "me", "me", None, None, None, None, None);
    var db := Db([me, bob], [self], [Chat("c1", false, {"me", "bob"})], [], [], []);
    assert ContactById(db, "k") == Some(self);
    assert UserById(db, "me") == Some(me);
    assert ExistingChat(db, "me", "me") == Some(Chat("c1", false, {"me", "bob"}));
    assert |{"me", "bob"}| == 2;
  }

  /** The chat the handler means to reuse: a private chat whose users are exactly the
      two. */
  function ExactChat(db: Db, a: Id, b: Id): (r: Option<Chat>)
    ensures r.Some? ==> r.value in db.chats && !r.value.isGroup && r.value.users == {a, b}
    ensures r.None? ==> forall c :: c in db.chats ==> c.isGroup || c.users != {a, b}
  {
    Find(db.chats, (c: Chat) => !c.isGroup && c.users == {a, b})
  }

  /** The handler with the reuse test on the exact user set. */
  function PostChatExact(db: Db, sessionUserId: Option<Id>, contactId: Id, newChatId: Id, rule: DuplicateConnect, fault: bool): (out: (Reply<Id>, Db))
    ensures !SignedIn(sessionUserId) ==> out == (Failure(401, Unauthorized), db)
    ensures SignedIn(sessionUserId) && fault ==> out == (Failure(500, ChatFailed), db)
    ensures SignedIn(sessionUserId) && !fault && ContactById(db, contactId).None? ==>
              out == (Failure(404, ContactNotFound), db)
    ensures SignedIn(sessionUserId) && !fault && ContactById(db, contactId).Some? &&
            UserById(db, ContactById(db, contactId).value.userId).None? ==>
              out == (Failure(404, OtherUserNotFound), db)
    ensures out.0.status == 200 ==>
              && out.1 == db && out.0.Json?
              && (exists c :: c in db.chats && c.id == out.0.body && !c.isGroup &&
                    c.users == {sessionUserId.value, ContactById(db, contactId).value.userId})
    ensures out.0.status == 201 ==>
              && !ConnectFails(db, sessionUserId.value, ContactById(db, contactId).value.userId, rule)
              && out.0 == Json(201, newChatId)
              && out.1 == db.(chats := db.chats + [Chat(newChatId, false, {sessionUserId.value, ContactById(db, contactId).value.userId})])
    ensures out.0.status == 500 ==> out == (Failure(500, ChatFailed), db)
    ensures out.0.status in {200, 201, 401, 404, 500}
  {
    if !SignedIn(sessionUserId) then (Failure(401, Unauthorized), db)
    else if fault then (Failure(500, ChatFailed), db)
    else
      var caller := sessionUserId.value;
      match ContactById(db, contactId)
      case None => (Failure(404, ContactNotFound), db)
      case Some(contact) =>
        if UserById(db, contact.userId).None? then (Failure(404, OtherUserNotFound), db)
        else
          match ExactChat(db, caller, contact.userId)
          case Some(chat) => (Json(200, chat.id), db)
          case None =>
            if ConnectFails(db, caller, contact.userId, rule) then (Failure(500, ChatFailed), db)
            else
              var chat := Chat(newChatId, false, {caller, contact.userId});
              (Json(201, newChatId), db.(chats := db.chats + [chat]))
  }

  /** With the exact test every contact, one's own included, opens the same chat on the
      second click as on the first. */
  lemma ExactSecondRequestReuses(db: Db, sessionUserId: Option<Id>, contactId: Id, newChatId: Id, laterId: Id, rule: DuplicateConnect)
    requires SignedIn(sessionUserId)
    requires ContactById(db, contactId).Some?
    requires UserById(db, sessionUserId.value).Some?
    requires UserById(db, ContactById(db, contactId).value.userId).Some?
    requires ExactChat(db, sessionUserId.value, ContactById(db, contactId).value.userId).None?
    ensures var first := PostChatExact(db, sessionUserId, contactId, newChatId, rule, false);
      !ConnectFails(db, sessionUserId.value, ContactById(db, contactId).value.userId, rule) ==>
        && first.0 == Json(201, newChatId)
        && PostChatExact(first.1, sessionUserId, contactId, laterId, rule, false) == (Json(200, newChatId), first.1)
    ensures ConnectFails(db, sessionUserId.value, ContactById(db, contactId).value.userId, rule) ==>
      PostChatExact(db, sessionUserId, contactId, newChatId, rule, false) == (Failure(500, ChatFailed), db)
  {
    var caller, other := sessionUserId.value, ContactById(db, contactId).value.userId;
    if ConnectFails(db, caller, other, rule) {
      return;
    }
    var after := PostChatExact(db, sessionUserId, contactId, newChatId, rule, false).1;
    var chat := Chat(newChatId, false, {caller, other});
    assert after.chats == db.chats + [chat];
    assert after.contacts == db.contacts && after.users == db.users;
    var found := ExactChat(after, caller, other);
    assert chat in after.chats;
    assert found.value == chat;
  }
}
