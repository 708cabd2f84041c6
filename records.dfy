/** The entities of the chat application, as the database stores them and the
    components pass them around. Absent JSON fields are `None`. */
module Records {
  import opened Wrappers

  /** Every identifier is an opaque string (the database generates them). */
  type Id = string

  /** A row of the User table; `password` holds the bcrypt hash. */
  datatype User = User(id: Id, email: string, name: string, password: string, image: Option<string>)

  /** A row of the Contact table: `addedById` owns the entry, `userId` is the user it points to.
      `user` is the linked user when a query includes it. */
  datatype Contact = Contact(
    id: Id, userId: Id, addedById: Id,
    firstName: Option<string>, lastName: Option<string>, phone: Option<string>, email: Option<string>,
    user: Option<User>)

  /** What the database adds when it stores a message. */
  datatype Stamp = Stamp(id: Id, createdAt: int)

  /** A private-chat message. The message input builds it without a stamp; the Message table
      stores it with one. */
  datatype ChatMessage = ChatMessage(chatId: Id, content: string, senderId: Id, isFile: bool, stamp: Option<Stamp>)

  /** A group message. The group input builds it without a sender; the GroupMessage table
      stores the sender, and `isFile` exactly as the request supplied it. */
  datatype GroupMessage = GroupMessage(
    groupId: Id, content: string, senderId: Option<Id>, isFile: Option<bool>, stamp: Option<Stamp>)

  /** A row of the Chat table with the ids of its users (a many-to-many relation, hence a set). */
  datatype Chat = Chat(id: Id, isGroup: bool, users: set<Id>)

  /** A row of the GroupMember table, with its user when a query includes it. */
  datatype GroupMember = GroupMember(userId: Id, user: Option<User>)

  /** A row of the Group table with its members in creation order, and with at most
      the messages a query includes. */
  datatype Group = Group(
    id: Id, name: string, image: Option<string>, adminId: Id,
    members: seq<GroupMember>, messages: seq<GroupMessage>)

  /** How a browser `fetch` ended: a response whose `ok` is true (status 200-299) with its
      JSON body, a response whose `ok` is false, or a thrown error. */
  datatype Fetched<+T> = Ok(body: T) | NotOk(status: int) | Thrown(message: string)

  /** The user ids of a member list: `members.map((m) => m.userId)`. */
  function MemberIds(members: seq<GroupMember>): (ids: seq<Id>)
    ensures |ids| == |members|
    ensures forall i :: 0 <= i < |members| ==> ids[i] == members[i].userId
  {
    seq(|members|, i requires 0 <= i < |members| => members[i].userId)
  }
}
