/** The private-chat input: the send guard, the content a file turns into, and a submit
    that emits on the socket first and then posts. The guard and the content are shared
    with the group input. */
module MessageInput {
  import opened Wrappers
  import opened Text
  import opened Records
  import opened FileContent
  import ChatMessageItem
  import MessageItem

  /** The `file` state: `null` at first and after a send, `undefined` when the picker was
      cancelled (`files[0]` of an empty list), or a chosen file. */
  datatype FileState = Null | Undefined | Chosen(name: string)

  /** The fields of the upload route's JSON answer. */
  datatype Uploaded = Uploaded(url: string, fileName: string)

  /** The handler's early return: a send needs a session user id, and either a non-blank
      text or a file. */
  function MaySend(sessionUserId: Option<Id>, content: string, file: FileState): (r: bool)
    ensures r <==> Truthy(sessionUserId) && (!IsBlank(content) || file.Chosen?)
  {
    TrimEmptyIff(content);
    Truthy(sessionUserId) && (Trim(content) != "" || file.Chosen?)
  }

  /** The content and `isFile` of the message, given the upload's answer when a file is
      chosen. Without a file the text goes as typed, untrimmed. With one the text is
      dropped for the file link; the answer's status is not checked, so an error body
      yields the link of `undefined`. A failed upload request sends nothing (`None`). */
  function Compose(typed: string, file: FileState, upload: Fetched<Uploaded>): (r: Option<(string, bool)>)
    ensures !file.Chosen? ==> r == Some((typed, false))
    ensures file.Chosen? && upload.Ok? ==> r == Some((Encode(upload.body.fileName, upload.body.url), true))
    ensures file.Chosen? && upload.NotOk? ==> r == Some((Encode("undefined", "undefined"), true))
    ensures file.Chosen? && upload.Thrown? ==> r == None
  {
    if !file.Chosen? then Some((typed, false))
    else match upload
      case Ok(u) => Some((Encode(u.fileName, u.url), true))
      case NotOk(_) => Some((Encode("undefined", "undefined"), true))
      case Thrown(_) => None
  }

  /** A file message arrives in a chat bubble as the link to the uploaded file, when the
      name is non-empty without `]` or line break and the url non-empty without `)` or
      line break. */
  lemma SentFileShowsAsLink(typed: string, name: string, u: Uploaded)
    requires u.fileName != [] && Carries(u.fileName, {']'})
    requires u.url != [] && Carries(u.url, {')'})
    ensures var sent := Compose(typed, Chosen(name), Ok(u)).value;
      && sent.1
      && ChatMessageItem.RenderContent(Some(sent.0)) == ChatMessageItem.FileLink(u.fileName, u.url)
  {
    ChatMessageItem.ParseEncodeRoundTrip(u.fileName, u.url);
  }

  /** The older row decodes the same message to the same link when the name also has no
      `(`. */
  lemma SentFileShowsAsLinkInOlderRow(typed: string, name: string, u: Uploaded)
    requires Carries(u.fileName, {'(', ']'}) && Carries(u.url, {')'})
    ensures var sent := Compose(typed, Chosen(name), Ok(u)).value;
      MessageItem.Render(sent.1, Some(sent.0)) == MessageItem.Link(u.fileName, u.url)
  {
    MessageItem.DecodeEncodeRoundTrip(u.fileName, u.url);
  }

  /** A failed upload still sends a file message, which shows as a link named
      `undefined` to `undefined`. */
  lemma FailedUploadSendsUndefinedLink(typed: string, name: string, status: int)
    ensures var sent := Compose(typed, Chosen(name), NotOk(status)).value;
      ChatMessageItem.RenderContent(Some(sent.0)) == ChatMessageItem.FileLink("undefined", "undefined")
  {
    ChatMessageItem.ParseEncodeRoundTrip("undefined", "undefined");
  }

  /** What the private input sends, in order. */
  datatype Outgoing = Emitted(message: ChatMessage) | Posted(message: ChatMessage)

  const Sending: string := "Sending..."
  const Send: string := "Send"

  class Input {
    /** The `chatId` prop. */
    var chatId: Id
    var content: string
    var file: FileState
    var loading: bool
    /** The socket emits and message posts, oldest first. */
    var sent: seq<Outgoing>

    constructor (chatId: Id)
      ensures this.chatId == chatId && content == "" && file == Null && !loading && sent == []
    {
      this.chatId := chatId;
      content := "";
      file := Null;
      loading := false;
      sent := [];
    }

    method SetContent(typed: string)
      modifies this
      ensures content == typed
      ensures chatId == old(chatId) && file == old(file) && loading == old(loading) && sent == old(sent)
    {
      content := typed;
    }

    /** The file picker's `onChange`. */
    method SetFile(picked: FileState)
      modifies this
      ensures file == picked
      ensures chatId == old(chatId) && content == old(content) && loading == old(loading) && sent == old(sent)
    {
      file := picked;
    }

    /** `handleSubmit` with the upload's and the post's answers. Refused: nothing
        changes. Otherwise the message (this chat, the composed content, the session
        user as sender) is emitted and then posted; only an ok post clears the text and
        the file; `loading` ends false. */
    method Submit(sessionUserId: Option<Id>, upload: Fetched<Uploaded>, post: Fetched<ChatMessage>)
      modifies this
      ensures !MaySend(sessionUserId, old(content), old(file)) ==> unchanged(this)
      ensures MaySend(sessionUserId, old(content), old(file)) ==> !loading && chatId == old(chatId)
      ensures MaySend(sessionUserId, old(content), old(file)) && Compose(old(content), old(file), upload).None? ==>
        sent == old(sent) && content == old(content) && file == old(file)
      ensures MaySend(sessionUserId, old(content), old(file)) && Compose(old(content), old(file), upload).Some? ==>
        var c := Compose(old(content), old(file), upload).value;
        var m := ChatMessage(chatId, c.0, sessionUserId.value, c.1, None);
        && sent == old(sent) + [Emitted(m), Posted(m)]
        && (post.Ok? ==> content == "" && file == Null)
        && (!post.Ok? ==> content == old(content) && file == old(file))
    {
      if !MaySend(sessionUserId, content, file) {
        return;
      }
      loading := true;
      var composed := Compose(content, file, upload);
      if composed.Some? {
        var m := ChatMessage(chatId, composed.value.0, sessionUserId.value, composed.value.1, None);
        sent := sent + [Emitted(m)];
        sent := sent + [Posted(m)];
        if post.Ok? {
          content := "";
          file := Null;
        }
      }
      loading := false;
    }

    /** The text box is disabled while loading or whenever `file` is not `null`, which
        includes a cancelled picker. */
    predicate TextDisabled()
      reads this
    {
      file != Null || loading
    }

    function ButtonLabel(): (r: string)
      reads this
      ensures r == Sending <==> loading
    {
      if loading then Sending else Send
    }
  }

  /** Cancelling the picker blocks typing although no file is attached, so such an input
      cannot send at all until a file is chosen. */
  lemma CancelledPickerBlocksText(input: Input, sessionUserId: Option<Id>)
    requires input.file == Undefined && IsBlank(input.content)
    ensures input.TextDisabled()
    ensures !MaySend(sessionUserId, input.content, input.file)
  {
  }
}
