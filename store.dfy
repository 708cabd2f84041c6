/** The database behind the request handlers, as sequences of rows in insertion order,
    with the lookups the handlers make and the shape of their JSON replies. */
module Store {
  import opened Wrappers
  import opened Text
  import opened Lists
  import opened Records

  datatype Db = Db(
    users: seq<User>,
    contacts: seq<Contact>,
    chats: seq<Chat>,
    groups: seq<Group>,
    messages: seq<ChatMessage>,
    groupMessages: seq<GroupMessage>)

  /** A handler's answer: a JSON body with a status, or `{ error }` with a status. */
  datatype Reply<T> = Json(status: int, body: T) | Failure(status: int, error: string)

  const Unauthorized: string := "Unauthorized"

  /** `session?.user?.id`: every handler answers 401 without it. */
  predicate SignedIn(sessionUserId: Option<Id>) {
    Truthy(sessionUserId)
  }

  /** `findUnique({ where: { id } })` on users. */
  function UserById(db: Db, id: Id): (r: Option<User>)
    ensures r.Some? ==> r.value in db.users && r.value.id == id
    ensures r.None? ==> forall u :: u in db.users ==> u.id != id
  {
    Find(db.users, (u: User) => u.id == id)
  }

  /** `findUnique({ where: { email } })` on users. */
  function UserByEmail(db: Db, email: string): (r: Option<User>)
    ensures r.Some? ==> r.value in db.users && r.value.email == email
    ensures r.None? ==> forall u :: u in db.users ==> u.email != email
  {
    Find(db.users, (u: User) => u.email == email)
  }

  /** The chat a row's `chatId` refers to. */
  function ChatById(db: Db, id: Id): (r: Option<Chat>)
    ensures r.Some? ==> r.value in db.chats && r.value.id == id
    ensures r.None? ==> forall c :: c in db.chats ==> c.id != id
  {
    Find(db.chats, (c: Chat) => c.id == id)
  }

  /** The group a row's `groupId` refers to. */
  function GroupById(db: Db, id: Id): (r: Option<Group>)
    ensures r.Some? ==> r.value in db.groups && r.value.id == id
    ensures r.None? ==> forall g :: g in db.groups ==> g.id != id
  {
    Find(db.groups, (g: Group) => g.id == id)
  }

  /** `searchParams.get(name) || ""`: an absent or empty parameter reads as "". */
  function Param(p: Option<string>): (r: string)
    ensures Truthy(p) ==> r == p.value
    ensures !Truthy(p) ==> r == ""
  {
    if p.Some? then p.value else ""
  }

  /** The creation time of a stored row; every stored message has a stamp. */
  function CreatedAt(stamp: Option<Stamp>): int {
    if stamp.Some? then stamp.value.createdAt else 0
  }
}
