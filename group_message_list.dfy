/** The message list of a group: fetched when the group changes, extended by every
    `receive-group-message` addressed to the group, and not rendered without a group. */
module GroupMessageList {
  import opened Wrappers
  import opened Lists
  import opened Records
  import ChatMessageItem

  /** The `messages` state. The fetch does not look at the status, so after a non-ok
      response the state holds the error object instead of an array. `Crashed` is the
      component after an updater threw: the error leaves the component, which shows and
      updates nothing from then on. */
  datatype Messages = Items(items: seq<GroupMessage>) | ErrorBody | Crashed

  /** `newMessage.groupId === group?.id`: without a group nothing matches. */
  predicate ForGroup(group: Option<Group>, m: GroupMessage) {
    group.Some? && m.groupId == group.value.id
  }

  /** The `receive-group-message` updater `prev => [...prev, newMessage]`, applied only to
      a message for this group. Spreading the error object, which is not iterable, throws. */
  function Receive(prev: Messages, group: Option<Group>, m: GroupMessage): (r: Messages)
    ensures prev.ErrorBody? && ForGroup(group, m) ==> r == Crashed
    ensures prev.ErrorBody? && !ForGroup(group, m) ==> r == prev
    ensures prev.Crashed? ==> r == Crashed
    ensures prev.Items? ==> r.Items? && |r.items| == |prev.items| + (if ForGroup(group, m) then 1 else 0)
    ensures prev.Items? ==> r.items[..|prev.items|] == prev.items
    ensures prev.Items? && ForGroup(group, m) ==> r.items[|prev.items|] == m
  {
    match prev
    case ErrorBody => if ForGroup(group, m) then Crashed else prev
    case Crashed => Crashed
    case Items(s) => if ForGroup(group, m) then Items(s + [m]) else prev
  }

  /** The list after a stream of deliveries, in delivery order. */
  function ReceiveAll(prev: Messages, group: Option<Group>, incoming: seq<GroupMessage>): Messages
    decreases |incoming|
  {
    if incoming == [] then prev else ReceiveAll(Receive(prev, group, incoming[0]), group, incoming[1..])
  }

  /** After any stream of deliveries a list is the old list followed by exactly the
      delivered messages of this group, in delivery order. */
  lemma {:induction false} ReceiveAllIsFilter(prev: seq<GroupMessage>, group: Option<Group>, incoming: seq<GroupMessage>)
    ensures ReceiveAll(Items(prev), group, incoming) == Items(prev + Filter(incoming, m => ForGroup(group, m)))
    decreases |incoming|
  {
    if incoming != [] {
      var m := incoming[0];
      var next := Receive(Items(prev), group, m);
      ReceiveAllIsFilter(next.items, group, incoming[1..]);
      if ForGroup(group, m) {
        assert prev + [m] + Filter(incoming[1..], x => ForGroup(group, x))
            == prev + ([m] + Filter(incoming[1..], x => ForGroup(group, x)));
      }
    }
  }

  /** No de-duplication: a message delivered twice is listed twice more. */
  lemma DuplicateDeliveryListedTwice(prev: seq<GroupMessage>, group: Option<Group>, m: GroupMessage)
    requires ForGroup(group, m)
    ensures Count(Receive(Receive(Items(prev), group, m), group, m).items, m) == Count(prev, m) + 2
  {
    CountAppend(prev, [m], m);
    CountAppend(prev + [m], [m], m);
    assert [m][1..] == [];
  }

  /** What the component renders. */
  datatype Screen = Nothing | Bubbles(rows: seq<ChatMessageItem.Rendered>) | Crash

  /** Each row is a chat bubble of the message's content; without a group nothing is
      rendered, and an error object in the state cannot be mapped over. */
  function Render(group: Option<Group>, messages: Messages): (r: Screen)
    ensures messages.Crashed? ==> r == Crash
    ensures !messages.Crashed? ==> (group.None? <==> r == Nothing)
    ensures group.Some? && messages.ErrorBody? ==> r == Crash
    ensures group.Some? && messages.Items? ==> r.Bubbles? && |r.rows| == |messages.items|
    ensures group.Some? && messages.Items? ==> forall i :: 0 <= i < |r.rows| ==>
              r.rows[i] == ChatMessageItem.RenderContent(Some(messages.items[i].content))
  {
    if messages.Crashed? then Crash
    else if group.None? then Nothing
    else match messages
      case Crashed => Crash
      case ErrorBody => Crash
      case Items(s) => Bubbles(seq(|s|, i requires 0 <= i < |s| => ChatMessageItem.RenderContent(Some(s[i].content))))
  }

  class View {
    /** The `group` prop. */
    var group: Option<Group>
    var messages: Messages

    constructor (group: Option<Group>)
      ensures this.group == group && messages == Items([])
    {
      this.group := group;
      messages := Items([]);
    }

    /** The `group` effect with the fetch's outcome: only with a group; the parsed body
        replaces the state whatever the status; a failed request changes nothing. A
        crashed component fetches nothing. */
    method Refresh(response: Fetched<seq<GroupMessage>>)
      modifies this
      ensures group == old(group)
      ensures !old(messages).Crashed? && group.Some? && response.Ok? ==> messages == Items(response.body)
      ensures !old(messages).Crashed? && group.Some? && response.NotOk? ==> messages == ErrorBody
      ensures old(messages).Crashed? || group.None? || response.Thrown? ==> messages == old(messages)
    {
      if !messages.Crashed? && group.Some? {
        match response
        case Ok(body) => messages := Items(body);
        case NotOk(_) => messages := ErrorBody;
        case Thrown(_) =>
      }
    }

    /** The `receive-group-message` listener. */
    method OnReceive(m: GroupMessage)
      modifies this
      ensures group == old(group)
      ensures messages == Receive(old(messages), group, m)
    {
      messages := Receive(messages, group, m);
    }
  }
}
