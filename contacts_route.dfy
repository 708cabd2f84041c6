/** `/api/contacts`: `GET` searches the caller's own contacts; `POST` adds a contact for
    a registered email. */
module ContactsRoute {
  import opened Wrappers
  import opened Text
  import opened Lists
  import opened Records
  import opened Store

  const FetchFailed: string := "Failed to fetch contacts"
  const NoSuchUser: string := "User with this email does not exist"
  const CreateFailed: string := "Failed to create contact"

  /** `{ contains: q }` on a nullable column: a missing value never matches. */
  predicate FieldContains(field: Option<string>, q: string) {
    field.Some? && Contains(field.value, q)
  }

  /** The `where` of the search: added by the caller, and first name, last name or email
      containing the lowercased query. */
  function Matches(caller: Id, query: string): Contact -> bool {
    (c: Contact) => c.addedById == caller &&
      (FieldContains(c.firstName, ToLower(query)) || FieldContains(c.lastName, ToLower(query)) ||
       FieldContains(c.email, ToLower(query)))
  }

  /** A linked user with only `id`, `image` and `name` selected; the other fields are
      left empty. */
  function Selected(u: User): (r: User)
    ensures r.id == u.id && r.image == u.image && r.name == u.name
    ensures r.email == "" && r.password == ""
  {
    User(u.id, "", u.name, "", u.image)
  }

  function WithUser(db: Db, c: Contact): (r: Contact)
    ensures r == c.(user := if UserById(db, c.userId).Some? then Some(Selected(UserById(db, c.userId).value)) else None)
  {
    match UserById(db, c.userId)
    case None => c.(user := None)
    case Some(u) => c.(user := Some(Selected(u)))
  }

  function WithUsers(db: Db, cs: seq<Contact>): (r: seq<Contact>)
    ensures |r| == |cs|
    ensures forall i :: 0 <= i < |cs| ==> r[i] == WithUser(db, cs[i])
  {
    seq(|cs|, i requires 0 <= i < |cs| => WithUser(db, cs[i]))
  }

  /** The `GET` handler. Every listed contact was added by the caller, and no listed
      user carries a password. */
  function GetContacts(db: Db, sessionUserId: Option<Id>, query: Option<string>, fault: bool): (r: Reply<seq<Contact>>)
    ensures !SignedIn(sessionUserId) ==> r == Failure(401, Unauthorized)
    ensures SignedIn(sessionUserId) && fault ==> r == Failure(500, FetchFailed)
    ensures SignedIn(sessionUserId) && !fault ==>
      && r.Json? && r.status == 200
      && r.body == WithUsers(db, Filter(db.contacts, Matches(sessionUserId.value, Param(query))))
      && (forall c :: c in r.body ==> c.addedById == sessionUserId.value)
      && (forall c :: c in r.body && c.user.Some? ==> c.user.value.password == "")
  {
    if !SignedIn(sessionUserId) then Failure(401, Unauthorized)
    else if fault then Failure(500, FetchFailed)
    else
      var kept := Filter(db.contacts, Matches(sessionUserId.value, Param(query)));
      assert forall i :: 0 <= i < |kept| ==> Matches(sessionUserId.value, Param(query))(kept[i]);
      Json(200, WithUsers(db, kept))
  }

  /** A stored contact is listed (with its user) exactly when the caller added it and
      one of its three searched fields contains the lowercased query. */
  lemma GetContactsFinds(db: Db, sessionUserId: Option<Id>, query: Option<string>, c: Contact)
    requires SignedIn(sessionUserId) && c in db.contacts
    ensures WithUser(db, c) in GetContacts(db, sessionUserId, query, false).body <==>
      && c.addedById == sessionUserId.value
      && (FieldContains(c.firstName, ToLower(Param(query))) || FieldContains(c.lastName, ToLower(Param(query))) ||
          FieldContains(c.email, ToLower(Param(query))))
  {
    var keep := Matches(sessionUserId.value, Param(query));
    var kept := Filter(db.contacts, keep);
    var body := GetContacts(db, sessionUserId, query, false).body;
    FilterMembership(db.contacts, keep, c);
    if c in kept {
      var i :| 0 <= i < |kept| && kept[i] == c;
      assert body[i] == WithUser(db, c);
    }
    if WithUser(db, c) in body {
      var i :| 0 <= i < |body| && body[i] == WithUser(db, c);
      assert keep(kept[i]);
      assert kept[i].(user := c.user) == c;
    }
  }

  /** The `POST` handler, with the body's four fields, the id the database gives the
      contact and whether a database call throws. A missing email is an invalid unique
      lookup, which throws; so does a create whose `addedById` names no user (the
      foreign key). */
  function PostContact(db: Db, sessionUserId: Option<Id>, firstName: Option<string>, lastName: Option<string>,
                       phone: Option<string>, email: Option<string>, newId: Id, fault: bool): (out: (Reply<Contact>, Db))
    ensures !SignedIn(sessionUserId) ==> out == (Failure(401, Unauthorized), db)
    ensures SignedIn(sessionUserId) && (fault || email.None?) ==> out == (Failure(500, CreateFailed), db)
    ensures SignedIn(sessionUserId) && !fault && email.Some? && UserByEmail(db, email.value).None? ==>
      out == (Failure(404, NoSuchUser), db)
    ensures SignedIn(sessionUserId) && !fault && email.Some? && UserByEmail(db, email.value).Some? &&
            UserById(db, sessionUserId.value).None? ==>
      out == (Failure(500, CreateFailed), db)
    ensures SignedIn(sessionUserId) && !fault && email.Some? && UserByEmail(db, email.value).Some? &&
            UserById(db, sessionUserId.value).Some? ==>
      var c := Contact(newId, UserByEmail(db, email.value).value.id, sessionUserId.value, firstName, lastName, phone, email, None);
      out == (Json(201, c), db.(contacts := db.contacts + [c]))
  {
    if !SignedIn(sessionUserId) then (Failure(401, Unauthorized), db)
    else if fault || email.None? then (Failure(500, CreateFailed), db)
    else match UserByEmail(db, email.value)
      case None => (Failure(404, NoSuchUser), db)
      case Some(u) =>
        if UserById(db, sessionUserId.value).None? then (Failure(500, CreateFailed), db)
        else
          var c := Contact(newId, u.id, sessionUserId.value, firstName, lastName, phone, email, None);
          (Json(201, c), db.(contacts := db.contacts + [c]))
  }

  /** A contact just added is listed by a search with no query, pointing at the user
      who has that email. */
  lemma AddedContactIsListed(db: Db, sessionUserId: Option<Id>, firstName: Option<string>, lastName: Option<string>,
                             phone: Option<string>, email: Option<string>, newId: Id)
    requires SignedIn(sessionUserId)
    requires PostContact(db, sessionUserId, firstName, lastName, phone, email, newId, false).0.status == 201
    ensures var out := PostContact(db, sessionUserId, firstName, lastName, phone, email, newId, false);
      && out.0.body.userId == UserByEmail(db, email.value).value.id
      && WithUser(out.1, out.0.body) in GetContacts(out.1, sessionUserId, None, false).body
  {
    var out := PostContact(db, sessionUserId, firstName, lastName, phone, email, newId, false);
    ContainsEmpty(email.value);
    assert ToLower("") == "";
    assert out.0.body in out.1.contacts;
    GetContactsFinds(out.1, sessionUserId, None, out.0.body);
  }
}
