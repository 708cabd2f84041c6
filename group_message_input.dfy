/** The group input: the same guard and content as the private input, but the message
    is only posted (no socket emit), carries no sender, and the form is cleared whatever
    the post's status. */
module GroupMessageInput {
  import opened Wrappers
  import opened Records
  import opened MessageInput

  /** The group message the input builds: no `senderId`, `isFile` always present. */
  function GroupRecord(groupId: Id, composed: (string, bool)): (m: GroupMessage)
    ensures m.groupId == groupId && m.content == composed.0 && m.isFile == Some(composed.1)
    ensures m.senderId.None? && m.stamp.None?
  {
    GroupMessage(groupId, composed.0, None, Some(composed.1), None)
  }

  class Input {
    /** The `groupId` prop. */
    var groupId: Id
    var content: string
    var file: FileState
    var loading: bool
    /** The message posts, oldest first. */
    var posted: seq<GroupMessage>

    constructor (groupId: Id)
      ensures this.groupId == groupId && content == "" && file == Null && !loading && posted == []
    {
      this.groupId := groupId;
      content := "";
      file := Null;
      loading := false;
      posted := [];
    }

    method SetContent(typed: string)
      modifies this
      ensures content == typed
      ensures groupId == old(groupId) && file == old(file) && loading == old(loading) && posted == old(posted)
    {
      content := typed;
    }

    method SetFile(picked: FileState)
      modifies this
      ensures file == picked
      ensures groupId == old(groupId) && content == old(content) && loading == old(loading) && posted == old(posted)
    {
      file := picked;
    }

    /** `handleSubmit` with the upload's and the post's answers. Refused: nothing
        changes. Otherwise the message is posted; the text and file are cleared unless
        the post request throws, whatever its status; `loading` ends false. */
    method Submit(sessionUserId: Option<Id>, upload: Fetched<Uploaded>, post: Fetched<GroupMessage>)
      modifies this
      ensures !MaySend(sessionUserId, old(content), old(file)) ==> unchanged(this)
      ensures MaySend(sessionUserId, old(content), old(file)) ==> !loading && groupId == old(groupId)
      ensures MaySend(sessionUserId, old(content), old(file)) && Compose(old(content), old(file), upload).None? ==>
        posted == old(posted) && content == old(content) && file == old(file)
      ensures MaySend(sessionUserId, old(content), old(file)) && Compose(old(content), old(file), upload).Some? ==>
        && posted == old(posted) + [GroupRecord(groupId, Compose(old(content), old(file), upload).value)]
        && (!post.Thrown? ==> content == "" && file == Null)
        && (post.Thrown? ==> content == old(content) && file == old(file))
    {
      if !MaySend(sessionUserId, content, file) {
        return;
      }
      loading := true;
      var composed := Compose(content, file, upload);
      if composed.Some? {
        posted := posted + [GroupRecord(groupId, composed.value)];
        if !post.Thrown? {
          content := "";
          file := Null;
        }
      }
      loading := false;
    }
  }
}
