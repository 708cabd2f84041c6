/** The message list of a private chat: fetched from the server when the chat or the
    search query changes, and extended by every `receive-message` addressed to the chat. */
module MessageList {
  import opened Wrappers
  import opened Text
  import opened Lists
  import opened Records

  /** `newMessage.chatId === chatId`: an absent chat id matches nothing. */
  predicate ForChat(chatId: Option<Id>, m: ChatMessage) {
    chatId == Some(m.chatId)
  }

  /** The `receive-message` updater `prev => [...prev, newMessage]`, applied only to a
      message for this chat. */
  function Receive(prev: seq<ChatMessage>, chatId: Option<Id>, m: ChatMessage): (r: seq<ChatMessage>)
    ensures |r| == |prev| + (if ForChat(chatId, m) then 1 else 0)
    ensures r[..|prev|] == prev
    ensures ForChat(chatId, m) ==> r[|prev|] == m
  {
    if ForChat(chatId, m) then prev + [m] else prev
  }

  /** The list after a stream of deliveries, in delivery order. */
  function ReceiveAll(prev: seq<ChatMessage>, chatId: Option<Id>, incoming: seq<ChatMessage>): seq<ChatMessage>
    decreases |incoming|
  {
    if incoming == [] then prev else ReceiveAll(Receive(prev, chatId, incoming[0]), chatId, incoming[1..])
  }

  /** After any stream of deliveries the list is the old list followed by exactly the
      delivered messages of this chat, in delivery order. */
  lemma {:induction false} ReceiveAllIsFilter(prev: seq<ChatMessage>, chatId: Option<Id>, incoming: seq<ChatMessage>)
    ensures ReceiveAll(prev, chatId, incoming) == prev + Filter(incoming, m => ForChat(chatId, m))
    decreases |incoming|
  {
    if incoming != [] {
      var m := incoming[0];
      ReceiveAllIsFilter(Receive(prev, chatId, m), chatId, incoming[1..]);
      if ForChat(chatId, m) {
        assert prev + [m] + Filter(incoming[1..], x => ForChat(chatId, x))
            == prev + ([m] + Filter(incoming[1..], x => ForChat(chatId, x)));
      }
    }
  }

  /** No de-duplication: a message delivered twice is listed twice more. */
  lemma DuplicateDeliveryListedTwice(prev: seq<ChatMessage>, chatId: Option<Id>, m: ChatMessage)
    requires ForChat(chatId, m)
    ensures Count(Receive(Receive(prev, chatId, m), chatId, m), m) == Count(prev, m) + 2
  {
    CountAppend(prev, [m], m);
    CountAppend(prev + [m], [m], m);
    assert [m][1..] == [];
  }

  class View {
    /** The `chatId` prop. */
    var chatId: Option<Id>
    var searchQuery: string
    var messages: seq<ChatMessage>

    constructor (chatId: Option<Id>)
      ensures this.chatId == chatId && searchQuery == "" && messages == []
    {
      this.chatId := chatId;
      searchQuery := "";
      messages := [];
    }

    /** The search box's `onChange`. */
    method SetSearchQuery(q: string)
      modifies this
      ensures searchQuery == q && chatId == old(chatId) && messages == old(messages)
    {
      searchQuery := q;
    }

    /** The request `fetchMessages` sends: none for a falsy chat id, otherwise the chat
        id and the current query. */
    function Request(): (r: Option<(Id, string)>)
      reads this
      ensures r.Some? <==> Truthy(chatId)
      ensures r.Some? ==> r.value == (chatId.value, searchQuery)
    {
      if Truthy(chatId) then Some((chatId.value, searchQuery)) else None
    }

    /** `fetchMessages` with its response: an ok response replaces the whole list; a
        non-ok response or a failed request is logged and changes nothing; nothing is
        requested for a falsy chat id. */
    method Refresh(response: Fetched<seq<ChatMessage>>)
      modifies this
      ensures chatId == old(chatId) && searchQuery == old(searchQuery)
      ensures Request().Some? && response.Ok? ==> messages == response.body
      ensures Request().None? || !response.Ok? ==> messages == old(messages)
    {
      if Request().None? {
        return;
      }
      if response.Ok? {
        messages := response.body;
      }
    }

    /** The `receive-message` listener. */
    method OnReceive(m: ChatMessage)
      modifies this
      ensures chatId == old(chatId) && searchQuery == old(searchQuery)
      ensures messages == Receive(old(messages), chatId, m)
    {
      messages := Receive(messages, chatId, m);
    }
  }
}
