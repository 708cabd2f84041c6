/** The chat page: a connection indicator driven by the socket's events, and the
    `join-chat` emitted whenever a chat is selected. */
module ChatPage {
  import opened Wrappers
  import opened Text
  import opened Records

  /** The socket events the page listens to. */
  datatype SocketEvent = Connected | ConnectError | Disconnected

  /** The indicator after one event: on for `connect`, off for the other two. */
  function Step(isConnected: bool, event: SocketEvent): (r: bool)
    ensures r <==> event == Connected
  {
    match event
    case Connected => true
    case ConnectError => false
    case Disconnected => false
  }

  /** The indicator after a run of events: on exactly when the last event was a
      `connect`; with no events it keeps its value. */
  function Run(isConnected: bool, events: seq<SocketEvent>): (r: bool)
    ensures r == if events == [] then isConnected else events[|events| - 1] == Connected
    decreases |events|
  {
    if events == [] then isConnected
    else
      var r := Run(Step(isConnected, events[0]), events[1..]);
      assert |events| > 1 ==> events[1..][|events[1..]| - 1] == events[|events| - 1];
      r
  }

  /** The `selectedChatId` effect: it runs when the selection changes and emits
      `join-chat` for a truthy id. */
  function JoinOnSelect(previous: Option<Id>, selected: Option<Id>): (r: Option<Id>)
    ensures r.Some? <==> selected != previous && Truthy(selected)
    ensures r.Some? ==> r == selected
  {
    if selected != previous && Truthy(selected) then selected else None
  }

  /** What the page asks of the socket. */
  datatype SocketCall = Connect | Disconnect | JoinChat(chatId: Id)

  /** The signed-in user's name, `"Unnamed"` when it is missing or empty. */
  function DisplayName(name: Option<string>): (r: string)
    ensures Truthy(name) ==> r == name.value
    ensures !Truthy(name) ==> r == "Unnamed"
  {
    if Truthy(name) then name.value else "Unnamed"
  }

  class Page {
    var isConnected: bool
    /** Whether the three listeners are registered. */
    var listening: bool
    var selectedChatId: Option<Id>
    /** Everything asked of the socket, oldest first. */
    var calls: seq<SocketCall>

    constructor ()
      ensures !isConnected && !listening && selectedChatId == None && calls == []
    {
      isConnected := false;
      listening := false;
      selectedChatId := None;
      calls := [];
    }

    /** The `session` effect: without a session nothing happens; with one the socket
        connects and the listeners are registered. */
    method SessionEffect(hasSession: bool)
      modifies this
      ensures !hasSession ==> unchanged(this)
      ensures hasSession ==> calls == old(calls) + [Connect] && listening
      ensures isConnected == old(isConnected) && selectedChatId == old(selectedChatId)
    {
      if !hasSession {
        return;
      }
      calls := calls + [Connect];
      listening := true;
    }

    /** A socket event reaches the page only while it listens. No handler emits, so a
        reconnect does not join the selected room again. */
    method OnEvent(event: SocketEvent)
      modifies this
      ensures isConnected == if old(listening) then Step(old(isConnected), event) else old(isConnected)
      ensures calls == old(calls) && listening == old(listening) && selectedChatId == old(selectedChatId)
    {
      if listening {
        isConnected := Step(isConnected, event);
      }
    }

    /** The effect's cleanup: disconnect, then remove the listeners. A connected socket
        announces its own `disconnect()` to the listener that is still registered, so the
        indicator goes off; a socket that is not connected announces nothing. */
    method Cleanup()
      modifies this
      ensures calls == old(calls) + [Disconnect] && !listening
      ensures old(listening) ==> !isConnected
      ensures !old(listening) ==> isConnected == old(isConnected)
      ensures selectedChatId == old(selectedChatId)
    {
      calls := calls + [Disconnect];
      if listening && isConnected {
        isConnected := Step(isConnected, Disconnected);
      }
      listening := false;
    }

    /** `handleSelectChat` followed by the `selectedChatId` effect. */
    method SelectChat(chatId: Option<Id>)
      modifies this
      ensures selectedChatId == chatId
      ensures JoinOnSelect(old(selectedChatId), chatId).Some? ==> calls == old(calls) + [JoinChat(chatId.value)]
      ensures JoinOnSelect(old(selectedChatId), chatId).None? ==> calls == old(calls)
      ensures isConnected == old(isConnected) && listening == old(listening)
    {
      var join := JoinOnSelect(selectedChatId, chatId);
      selectedChatId := chatId;
      if join.Some? {
        calls := calls + [JoinChat(join.value)];
      }
    }

    /** The message list and input are shown exactly for a truthy selection. */
    predicate ShowsChat()
      reads this
    {
      Truthy(selectedChatId)
    }
  }

  /** Selecting a chat, losing the connection and regaining it leaves one `join-chat` in
      the log: the room is not joined again. The cleanup then turns the indicator off. */
  method ReconnectScenario()
  {
    var page := new Page();
    page.SessionEffect(true);
    page.OnEvent(Connected);
    page.SelectChat(Some("chat-1"));
    page.OnEvent(Disconnected);
    assert !page.isConnected;
    page.OnEvent(Connected);
    assert page.isConnected;
    assert page.calls == [Connect, JoinChat("chat-1")];
    page.Cleanup();
    assert !page.isConnected;
  }
}
