# A verified model of a Next.js chat application

The application is a web chat. Users sign in with an email and a password, and the first sign-in registers them. They keep a contact list, open private chats with their contacts, and create groups they administer. Messages are stored through REST routes backed by a relational store. A small socket.io server relays new messages to the browsers that have joined the chat's room.

This project models the core of that application in Dafny and proves properties of it:

- **The file-link content format.** Both message inputs send an uploaded file as the text `📁 [fileName](url)`, and two renderers decode it with regular expressions. `FileContent` is the encoder. `ChatMessageItem` and `MessageItem` model the decoders, with the exact JavaScript regex semantics: leftmost match, lazy groups, and `.` excluding line terminators. Round trips are proved under the character restrictions they need, and counterexamples are given for the names that break them.
- **The room relay (`lib/server.js`).** `Relay.Server` is a class holding the room map and the log of emitted deliveries. Joining is set insertion. Sending fans the unchanged payload out to every socket of the named room, exactly once each, in a loop proved against the fan-out predicate.
- **The client components.** Each stateful React component is a class whose fields are its `useState` values and its outgoing calls. Its methods are the event handlers and effects, and they take the server's answer as a `Fetched` value: ok with a body, not ok, or thrown. The list updaters (`[...prev, m]`, `filter`, toggling) are functions, with lemmas about the lists they produce.
- **The API routes.** Each handler is a pure transition over a store `Db`, returning a `Reply` (a status with a body, or with an error message) and the new store. The routes modelled are `chats`, `groups`, `messages`, `group-messages` and `contacts`. Failures the model tracks are conditions of their own, all ending in the 500 reply: a unique key, a foreign key that names no row, or an `include` that finds nothing. A `fault` argument stands for a database call that throws for any other reason. The code does not settle how the database treats a `connect` that names the same user twice. `POST /api/chats` does this for a contact of oneself, so the chat handler takes a `DuplicateConnect` argument: `Merged` stores the user once, and `Refused` makes the create fail.
- **Sign-in (`lib/auth.js`).** `Auth.Authorize` is the login-or-register rule, with bcrypt as two parameters. The `jwt` and `session` callbacks are methods on `Token` and `Session` objects. The session `maxAge` is a constant.

Shared modules:

- `Text`: JavaScript's `trim`, truthiness, `includes`, ASCII `toLowerCase`, UTF-16 `length` and `split(..)[0]`.
- `Lists`: `filter`, `find`, `findIndex`, subsequences and counting.
- `Records`: the entities.
- `Ordering`: a stable insertion sort by creation time, proved sorted and a permutation.
- `Store`: the store and its lookups.

These behaviours of the code are modelled as they are:

- Nothing authenticates a socket or checks who joins a room.
- Chat ids and group ids share one room namespace, with no prefixes.
- The private input emits its own unsaved payload before posting, rather than relaying the stored record.
- Sockets never leave a room explicitly.
- The page does not join the selected room again after a reconnect (`ChatPage.ReconnectScenario`).
- The group components never emit `join-group` or `send-group-message`, so group messages reach other members only through a fetch.

## Model

| member | source | states |
|---|---|---|
| FileContent.Encode | src/components/messages/MessageInput.jsx:39 | The file content is the folder sign, a space, `[`, the name, `](`, the url and `)`, position by position |
| Avatar.WithCacheBust | src/components/messages/ChatMessageItem.jsx:7-11 | A missing or blank url gives `/no-profile.png`; any other url gets `?cb=` and the decimal clock reading |
| Avatar.OrDefault | src/components/groups/GroupMemberList.jsx:35-37 | The same fallback, with the url otherwise unchanged |
| ChatMessageItem.Search | src/components/messages/ChatMessageItem.jsx:14-15 | The match returned is the leftmost, and at that position the one the lazy groups reach first; no result means no match anywhere |
| ChatMessageItem.RenderContent | src/components/messages/ChatMessageItem.jsx:13-32 | The content becomes a link exactly when the pattern matches somewhere in it, with a non-empty name and url read from one match (`RendersLeastMatch` pins it to the first); otherwise the content, missing or not, is shown unchanged |
| ChatMessageItem.RendersLeastMatch | src/components/messages/ChatMessageItem.jsx:14-24 | The link shown comes from the match `content.match` returns: the leftmost match, and there the shortest name and then the shortest url; a later match never shows |
| ChatMessageItem.Show | src/components/messages/ChatMessageItem.jsx:4-62 | The viewer's own messages are right-aligned without avatar, every other message carries its sender's cache-busted avatar; the name falls back to "User"; the text is the rendered content |
| ChatMessageItem.LeastMatchUnique | src/components/messages/ChatMessageItem.jsx:14 | Two least matches are the same, so the regex's answer is determined |
| ChatMessageItem.ParseFindsEncoding | src/components/messages/ChatMessageItem.jsx:13-30 | An encoded link preceded by text without the folder sign renders as that file's link, whatever follows |
| ChatMessageItem.ParseEncodeRoundTrip | src/components/messages/ChatMessageItem.jsx:14-18 | Rendering the encoding of a non-empty name without `]` and a non-empty url without `)` (no line breaks) gives back that name and url |
| ChatMessageItem.EmptyNameStaysPlain | src/components/messages/ChatMessageItem.jsx:14-16 | An empty name is not a link: the text is shown as it is |
| ChatMessageItem.NoMatchIsPlain | src/components/messages/ChatMessageItem.jsx:31 | Content without a match is shown unchanged |
| ChatMessageItem.BracketInNameBreaksRoundTrip | src/components/messages/ChatMessageItem.jsx:14 | The name `a](b` with url `u` renders as name `a` and url `b](u` |
| MessageItem.FirstEnclosed | src/components/messages/MessageItem.jsx:8-12 | The pair found is the leftmost opening character with the nearest closing one after it on the same line; none means no such pair |
| MessageItem.Group | src/components/messages/MessageItem.jsx:8-12 | Group 1 exists exactly when some pair matches, and is then the text inside a matching pair |
| MessageItem.Render | src/components/messages/MessageItem.jsx:6-15 | Content is shown as it is exactly for a non-file message; a file message throws exactly when its content is missing or lacks a `(...)` or a `[...]` pair on one line, and otherwise links the text of the first `[...]` to the text of the first `(...)`, the two `Group` results |
| MessageItem.RendersFirstPairs | src/components/messages/MessageItem.jsx:6-15 | A file message links the text inside the first `[...]` to the text inside the first `(...)`; later pairs never show |
| MessageItem.LeastEnclosedUnique | src/components/messages/MessageItem.jsx:8-12 | That least pair is unique |
| MessageItem.GroupIs | src/components/messages/MessageItem.jsx:8-12 | The captured group is the text strictly inside the least pair |
| MessageItem.DecodeEncodeRoundTrip | src/components/messages/MessageItem.jsx:6-12 | A file message whose name has no `(` or `]` and whose url has no `)` (no line breaks) renders as a link with that name and url |
| MessageItem.PlainWhenNotFile | src/components/messages/MessageItem.jsx:6-15 | A message that is not a file shows its content |
| MessageItem.MissingPairThrows | src/components/messages/MessageItem.jsx:8-12 | A file message without `[` makes the render throw |
| MessageItem.ParenthesisInNameBreaksRoundTrip | src/components/messages/MessageItem.jsx:8 | The name `a(1).png` makes the link point at `1` |
| Relay.Join | lib/server.js:22-25 | Joining adds the socket to that room and changes no other room |
| Relay.Recipients | lib/server.js:19 | The recipients of a batch are its deliveries' sockets, one each, in order |
| Relay.Server.JoinChat | lib/server.js:22-25 | `join-chat` adds the socket to the chat's room and emits nothing |
| Relay.Server.JoinGroup | lib/server.js:28-31 | `join-group` adds the socket to the group's room, in the same namespace |
| Relay.Server.EmitToRoom | lib/server.js:19 | The rooms stay; earlier deliveries stay; the new ones carry the event to every socket of the room exactly once and to no other socket |
| Relay.Server.SendMessage | lib/server.js:17-20 | `receive-message` with the unchanged payload fans out to the room named by `chatId`, whoever sent it |
| Relay.Server.SendGroupMessage | lib/server.js:33-37 | `receive-group-message` fans out to the room named by `groupId` |
| Relay.Server.Disconnect | lib/server.js:39-41 | The handler changes no state |
| Relay.JoinIdempotent | lib/server.js:22-25 | Joining twice equals joining once |
| Relay.FanOutReach | lib/server.js:19 | A fan-out reaches a socket if and only if it is in the room |
| MessageList.Receive | src/components/messages/MessageList.jsx:32-37 | A message of this chat is appended and the earlier list kept; any other message changes nothing |
| MessageList.ReceiveAllIsFilter | src/components/messages/MessageList.jsx:32-44 | After any stream of deliveries the list is the old list followed by exactly this chat's delivered messages, in order |
| MessageList.DuplicateDeliveryListedTwice | src/components/messages/MessageList.jsx:35 | A message delivered twice is listed twice more: nothing removes duplicates |
| MessageList.View.SetSearchQuery | src/components/messages/MessageList.jsx:57 | The query changes and nothing else |
| MessageList.View.Request | src/components/messages/MessageList.jsx:14-20 | A request is made exactly for a truthy chat id, with the current query |
| MessageList.View.Refresh | src/components/messages/MessageList.jsx:14-30 | An ok answer to a request replaces the list; otherwise the list stays |
| MessageList.View.OnReceive | src/components/messages/MessageList.jsx:32-44 | A delivery updates the list by `Receive` |
| GroupMessageList.Receive | src/components/groups/GroupMessageList.jsx:24-29 | A message of this group is appended to a list; on the stored error object it throws, which leaves the component crashed; other messages change nothing |
| GroupMessageList.ReceiveAllIsFilter | src/components/groups/GroupMessageList.jsx:24-34 | After any stream of deliveries the list is the old list followed by exactly this group's messages, in order |
| GroupMessageList.DuplicateDeliveryListedTwice | src/components/groups/GroupMessageList.jsx:27 | A message delivered twice is listed twice more |
| GroupMessageList.Render | src/components/groups/GroupMessageList.jsx:40-52 | A crashed component shows the crash; otherwise nothing renders exactly without a group; an error object cannot be mapped; otherwise one chat bubble per message, in order |
| GroupMessageList.View.Refresh | src/components/groups/GroupMessageList.jsx:13-22 | With a group, the parsed body replaces the state whatever the status, so a not-ok answer stores the error object; a thrown fetch or a crashed component changes nothing |
| GroupMessageList.View.OnReceive | src/components/groups/GroupMessageList.jsx:24-34 | A delivery updates the state by `Receive` |
| CreateGroupForm.Toggle | src/components/groups/CreateGroupForm.jsx:25-31 | The id is selected afterwards if and only if it was not before; other ids keep their state; a new id goes last; removal drops every copy of the id and keeps each other id with its multiplicity, in order |
| CreateGroupForm.ToggleKeepsNoDuplicates | src/components/groups/CreateGroupForm.jsx:25-31 | A selection without repeats stays without repeats |
| CreateGroupForm.ToggleTwice | src/components/groups/CreateGroupForm.jsx:25-31 | Toggling twice restores the selected set, and the very list when the id was not selected |
| CreateGroupForm.ToggleTwiceMayReorder | src/components/groups/CreateGroupForm.jsx:25-31 | Deselecting and reselecting moves the id to the end |
| CreateGroupForm.Validate | src/components/groups/CreateGroupForm.jsx:35-38 | The required-fields error exactly when the trimmed name is empty or nobody is selected |
| CreateGroupForm.Form.SetGroupName | src/components/groups/CreateGroupForm.jsx:68 | Only the name changes |
| CreateGroupForm.Form.ToggleMember | src/components/groups/CreateGroupForm.jsx:79-80 | The selection changes by `Toggle` of the contact's user id |
| CreateGroupForm.Form.Submit | src/components/groups/CreateGroupForm.jsx:33-58 | An invalid form sets the error and sends nothing; a valid one sends the name and selection, and on an ok answer hands up the group and resets, otherwise shows the failure |
| AddMemberForm.Available | src/components/groups/AddMemberForm.jsx:15-20 | Exactly the contacts whose user is not a member, each as often as it is listed, in their order |
| AddMemberForm.AvailableAfterAdd | src/components/groups/AddMemberForm.jsx:9-24 | After a member joins, the re-run filter drops exactly that user's contacts from the previous offer |
| AddMemberForm.Details | src/components/groups/AddMemberForm.jsx:39-41 | The user of the first contact with that user id, or none when no contact has it |
| AddMemberForm.Form.Load | src/components/groups/AddMemberForm.jsx:9-24 | An ok answer offers the filtered contacts; anything else leaves the offer |
| AddMemberForm.Form.Select | src/components/groups/AddMemberForm.jsx:51 | Only the selection changes |
| AddMemberForm.Form.Submit | src/components/groups/AddMemberForm.jsx:26-45 | Nothing without a selection; otherwise one request, and on an ok answer the member with its contact's user is handed up and the selection reset |
| AddMemberForm.Form.Prompt | src/components/groups/AddMemberForm.jsx:56-58 | The placeholder reads "No contacts to add" exactly when the drop-down is disabled |
| GroupMemberList.HandleRemove | src/components/groups/GroupMemberList.jsx:11-33 | The admin is refused without a request; anyone else is removed exactly on an ok answer, otherwise the failure is alerted |
| GroupMemberList.Rows | src/components/groups/GroupMemberList.jsx:41-70 | Rows exist exactly when every member carries its user; one row per member, with the badge on the admin and Remove only for the admin viewer on others |
| GroupMemberList.Heading | src/components/groups/GroupMemberList.jsx:41 | The heading is `Members (`, digits that read as the number of members, and `)` |
| GroupMemberList.RemoveButtonsOnlyForAdmin | src/components/groups/GroupMemberList.jsx:61 | Every Remove button is shown to the admin and on a row that is not the admin's |
| EditGroupForm.AddMember | src/components/groups/EditGroupForm.jsx:65-67 | The new member goes last and the rest stay |
| EditGroupForm.RemoveMember | src/components/groups/EditGroupForm.jsx:69-71 | Every copy of that user's members goes, every copy of the others stays, in order |
| EditGroupForm.RemoveIdempotent | src/components/groups/EditGroupForm.jsx:69-71 | Removing a user twice is removing it once |
| EditGroupForm.AddThenRemove | src/components/groups/EditGroupForm.jsx:65-71 | Adding a member and removing its user leaves the others as they were |
| EditGroupForm.Merge | src/components/groups/EditGroupForm.jsx:58-61 | The handed-up group is the server's with the local member list |
| EditGroupForm.AdminStaysListed | src/components/groups/EditGroupForm.jsx:69-71 | No removal the member list can trigger drops the admin's entries |
| EditGroupForm.AddAndRemoveOfferedToSameViewer | src/components/groups/EditGroupForm.jsx:116 | The add-member form is offered exactly to the viewer who sees Remove buttons in the member list: the admin |
| EditGroupForm.Form.LoadDetails | src/components/groups/EditGroupForm.jsx:18-27 | An ok answer supplies the members; otherwise they stay |
| EditGroupForm.Form.SetName | src/components/groups/EditGroupForm.jsx:83 | Only the name changes |
| EditGroupForm.Form.ChooseImage | src/components/groups/EditGroupForm.jsx:33-46 | The preview shows the local file; an ok upload sets the image url, an answer without one clears it, a thrown upload keeps it |
| EditGroupForm.Form.Submit | src/components/groups/EditGroupForm.jsx:48-63 | The id, name and image are sent; an ok answer hands up the merged group; a thrown request leaves the form saving |
| EditGroupForm.Form.OnMemberAdded | src/components/groups/EditGroupForm.jsx:65-67 | The members change by `AddMember` |
| EditGroupForm.Form.OnMemberRemoved | src/components/groups/EditGroupForm.jsx:69-71 | The members change by `RemoveMember` |
| EditGroupForm.Form.PreviewSrc | src/components/groups/EditGroupForm.jsx:29-31 | The preview url, or the default picture when it is missing or blank |
| EditGroupForm.Form.SaveLabel | src/components/groups/EditGroupForm.jsx:102 | "Saving..." exactly while loading |
| ContactList.DeleteContact | src/components/contacts/ContactList.jsx:74-76 | Every copy of the contacts with that id goes, every copy of the others stays, in order |
| ContactList.DeleteAbsent | src/components/contacts/ContactList.jsx:74-76 | Deleting an unlisted id changes nothing |
| ContactList.OrEmpty | src/components/contacts/ContactList.jsx:92-95 | A missing or empty field edits as the empty string |
| ContactList.FieldsOf | src/components/contacts/ContactList.jsx:89-97 | The edit form holds the contact's four fields, each defaulting to empty |
| ContactList.ContactAvatar | src/components/contacts/ContactList.jsx:138 | The contact's user's image, cache-busted, or the default picture without a user |
| ContactList.View.Shown | src/components/contacts/ContactList.jsx:118-122 | Loading wins over the error, the error over the list |
| ContactList.View.FetchContacts | src/components/contacts/ContactList.jsx:20-34 | An ok answer replaces the list; any failure sets the fetch error; loading ends |
| ContactList.View.QueryChanged | src/components/contacts/ContactList.jsx:36-40 | A new query clears the error before fetching |
| ContactList.View.ContactClick | src/components/contacts/ContactList.jsx:42-62 | An ok answer hands up the chat id; a failure sets the start-chat error |
| ContactList.View.Delete | src/components/contacts/ContactList.jsx:64-81 | An ok answer removes the contact locally; a failure sets the delete error, which then hides the list |
| ContactList.View.StartEditing | src/components/contacts/ContactList.jsx:89-97 | The form opens on the contact with its fields |
| ContactList.View.Edit | src/components/contacts/ContactList.jsx:170-202 | Only the form changes |
| ContactList.View.Update | src/components/contacts/ContactList.jsx:99-116 | The form is sent; an ok answer closes it and re-fetches; a failure changes nothing else |
| ChatPage.Step | src/app/chat/page.jsx:21-34 | The indicator is on after an event exactly when it is `connect` |
| ChatPage.Run | src/app/chat/page.jsx:21-34 | After any run of events the indicator is on exactly when the last event was `connect`, and unchanged after none |
| ChatPage.JoinOnSelect | src/app/chat/page.jsx:44-48 | `join-chat` is emitted exactly when the selection changes to a truthy id, for that id |
| ChatPage.DisplayName | src/app/chat/page.jsx:86 | The user's name, or "Unnamed" when missing or empty |
| ChatPage.Page.SessionEffect | src/app/chat/page.jsx:17-35 | Without a session nothing happens; with one the socket connects and the listeners are registered |
| ChatPage.Page.OnEvent | src/app/chat/page.jsx:21-34 | A listened event steps the indicator and emits nothing |
| ChatPage.Page.Cleanup | src/app/chat/page.jsx:31-41 | The socket disconnects and the listeners go; a listening page's indicator ends off, because `disconnect()` fires the still-registered `disconnect` listener first |
| ChatPage.Page.SelectChat | src/app/chat/page.jsx:44-52 | The selection is set and `join-chat` is emitted as `JoinOnSelect` says |
| MessageInput.MaySend | src/components/messages/MessageInput.jsx:19 | A send needs a session user and either non-blank text or a file |
| MessageInput.Compose | src/components/messages/MessageInput.jsx:24-41 | Text goes as typed; a file becomes its link, the link of `undefined` after an error answer, and nothing when the upload throws |
| MessageInput.SentFileShowsAsLink | src/components/messages/MessageInput.jsx:36-40 | A sent file renders in a chat bubble as the uploaded file's link |
| MessageInput.SentFileShowsAsLinkInOlderRow | src/components/messages/MessageInput.jsx:36-40 | The older row renders it as the same link when the name also has no `(` |
| MessageInput.FailedUploadSendsUndefinedLink | src/components/messages/MessageInput.jsx:36-39 | A failed upload still sends a link named `undefined` to `undefined` |
| MessageInput.Input.SetContent | src/components/messages/MessageInput.jsx:83 | Only the text changes |
| MessageInput.Input.SetFile | src/components/messages/MessageInput.jsx:13-15 | Only the file changes |
| MessageInput.Input.Submit | src/components/messages/MessageInput.jsx:17-69 | Refused sends change nothing; otherwise the message with the session user as sender is emitted and then posted, only an ok post clears the form, and loading ends |
| MessageInput.Input.ButtonLabel | src/components/messages/MessageInput.jsx:92 | "Sending..." exactly while loading |
| MessageInput.CancelledPickerBlocksText | src/components/messages/MessageInput.jsx:13-84 | After a cancelled picker the text box is disabled, and a blank text cannot be sent |
| GroupMessageInput.GroupRecord | src/components/groups/GroupMessageInput.jsx:39-43 | The group message carries the group, the composed content and `isFile`, and no sender |
| GroupMessageInput.Input.SetContent | src/components/groups/GroupMessageInput.jsx:68 | Only the text changes |
| GroupMessageInput.Input.SetFile | src/components/groups/GroupMessageInput.jsx:14-16 | Only the file changes |
| GroupMessageInput.Input.Submit | src/components/groups/GroupMessageInput.jsx:18-59 | Refused sends change nothing; otherwise the message is posted and the form cleared unless the post throws, whatever its status |
| Text.TrimEmptyIff | src/components/messages/MessageInput.jsx:19 | `!content.trim()` holds exactly for text made only of JavaScript whitespace and line terminators |
| Text.ToLower | src/app/api/messages/route.js:23 | Lowercasing keeps the length and maps each ASCII capital to its small letter, position by position |
| Text.Utf16Length | lib/auth.js:34 | The password length counts UTF-16 units: between the number of code points and twice that |
| Text.BeforeFirst | lib/auth.js:43 | `split("@")[0]` is the longest prefix without `@`: all of the text, or the part just before its first `@` |
| Text.Decimal | src/components/messages/ChatMessageItem.jsx:9 | A number renders as digits without a leading zero that read back as the number |
| Ordering.SortBy | src/app/api/messages/route.js:28-30 | The result is in ascending key order and is a permutation of the input |
| Store.UserById | src/app/api/chats/route.js:37-41 | A user with that id when one exists, none otherwise |
| Store.UserByEmail | lib/auth.js:21-23 | A user with that email when one exists, none otherwise |
| Store.Param | src/app/api/messages/route.js:17-18 | An absent or empty search parameter reads as "" |
| ChatsRoute.ContactById | src/app/api/chats/route.js:21-25 | The contact with that id when one exists, none otherwise |
| ChatsRoute.ExistingChat | src/app/api/chats/route.js:52-71 | A private chat holding both users when one exists, none otherwise |
| ChatsRoute.PostChat | src/app/api/chats/route.js:6-100 | 401 without a session; 500 on a database error; 404 for an unknown contact or contact user; 200 with a two-user chat holding both; else 201 with a new private chat of both users appended, or 500 when the `connect` fails (the caller's user is missing, or a repeated id under `Refused`) |
| ChatsRoute.ReuseIffFirstMatchHasTwoUsers | src/app/api/chats/route.js:75-92 | Reuse happens exactly when the first matching chat has two users; otherwise a chat is created, or the create fails when the `connect` fails |
| ChatsRoute.SecondRequestReuses | src/app/api/chats/route.js:79-91 | For a contact of another user, the second click returns the chat the first created |
| ChatsRoute.SelfChatNeverReused | src/app/api/chats/route.js:76-91 | While the caller has no two-user chat, a contact of oneself is never reused. Under `Merged`, every click creates a new chat holding the caller alone. Under `Refused`, every click is a 500 and the store is unchanged |
| ChatsRoute.SelfContactOpensAnotherUsersChat | src/app/api/chats/route.js:52-78 | A contact of oneself opens the caller's chat with someone else |
| ChatsRoute.ExactChat | src/app/api/chats/route.js:75-78 | A private chat whose users are exactly the two, or none |
| ChatsRoute.PostChatExact | src/app/api/chats/route.js:6-100 | As the handler, except that a reused chat has exactly the caller and the contact's user |
| ChatsRoute.ExactSecondRequestReuses | src/app/api/chats/route.js:75-91 | With the exact test, every contact reopens the chat its first click created; one's own is included under `Merged`, while under `Refused` its click is a 500 with the store unchanged |
| GroupsRoute.MemberRows | src/app/api/groups/route.js:22-26 | The member rows are the caller, then the given ids in order, with nothing removed |
| GroupsRoute.WithUsers | src/app/api/groups/route.js:29-35 | Each member row carries its user |
| GroupsRoute.PostGroup | src/app/api/groups/route.js:7-46 | 401 without a session; 500 when the rows repeat a user, name an unknown user, or the database fails; else 201 with the caller as admin and the rows above |
| GroupsRoute.CallerListedTwiceFails | src/app/api/groups/route.js:23-26 | A caller who also lists themself gets 500 |
| GroupsRoute.DistinctMembersCreate | src/app/api/groups/route.js:23-26 | Distinct existing members other than the caller are all added, with the caller once |
| GroupsRoute.Newest | src/app/api/groups/route.js:73-78 | At most one message, present exactly when the group has any, and none newer than it |
| GroupsRoute.Listed | src/app/api/groups/route.js:66-79 | A listed group keeps its fields, has its members' users and its newest message |
| GroupsRoute.GetGroups | src/app/api/groups/route.js:48-90 | 401 without a session; 500 on a database error; else the caller's groups, listed |
| GroupsRoute.GetGroupsListsMemberships | src/app/api/groups/route.js:58-65 | Every group with the caller among its members is listed, every listed group is one, and each has at most one message |
| GroupsRoute.CreatedGroupIsListed | src/app/api/groups/route.js:18-78 | A created group is listed for its creator, with no message yet |
| MessagesRoute.GetMessages | src/app/api/messages/route.js:8-41 | 401 without a session; 500 on a database error; else the matching messages, in ascending creation time, as a permutation |
| MessagesRoute.GetMessagesFinds | src/app/api/messages/route.js:20-24 | A stored message is returned exactly when it is in the chat and contains the lowercased query |
| MessagesRoute.CapitalQueryMissesItsMessage | src/app/api/messages/route.js:23 | A query with a capital misses the message it spells |
| MessagesRoute.PostMessage | src/app/api/messages/route.js:43-79 | 401 without a session; 500 on a database error or when the chat or the sender's user is missing; else 201 with the session user as sender, `isFile` true only when sent true, and the row appended |
| MessagesRoute.PostedMessageIsFetched | src/app/api/messages/route.js:55-61 | A posted message is found by a search of its chat |
| GroupMessagesRoute.PostGroupMessage | src/app/api/group-messages/route.js:7-36 | 401 without a session; 500 on a database error or when the group or the sender's user is missing; else 201 with the session user as sender, `isFile` as sent, and the row appended |
| GroupMessagesRoute.GetGroupMessages | src/app/api/group-messages/route.js:38-72 | 401 without a session; 500 on a database error; else the group's matching messages, ascending, as a permutation |
| GroupMessagesRoute.GetGroupMessagesFinds | src/app/api/group-messages/route.js:49-55 | A stored message is returned exactly when it is in the group and contains the query as typed |
| GroupMessagesRoute.PostedGroupMessageIsFetched | src/app/api/group-messages/route.js:15-21 | A posted group message is found by a search of its group for its own content |
| ContactsRoute.Selected | src/app/api/contacts/route.js:28-35 | A listed user carries its id, image and name, and no email or password |
| ContactsRoute.GetContacts | src/app/api/contacts/route.js:7-47 | 401 without a session; 500 on a database error; else the matching contacts with their users, all added by the caller, none carrying a password |
| ContactsRoute.GetContactsFinds | src/app/api/contacts/route.js:19-27 | A stored contact is listed exactly when the caller added it and a name or its email contains the lowercased query |
| ContactsRoute.PostContact | src/app/api/contacts/route.js:49-95 | 401 without a session; 500 on a database error, a missing email, or a caller whose user is missing; 404 for an unregistered email; else 201 with the user's id, the caller as owner and the four fields |
| ContactsRoute.AddedContactIsListed | src/app/api/contacts/route.js:76-85 | A new contact points at the email's user and is listed by an empty search |
| Auth.Authorize | lib/auth.js:18-52 | A known email signs in exactly when the password verifies; an unknown one with fewer than 6 UTF-16 units gives nothing; else a user named by the text before `@`, storing the hash, is created; errors give nothing |
| Auth.RegistrationStoresNoPlaintext | lib/auth.js:38-42 | No stored password is the plaintext after a registration |
| Auth.RegisterThenLogin | lib/auth.js:25-46 | After registering, the same credentials sign in as that user without a change |
| Auth.WrongPasswordRejected | lib/auth.js:25-31 | A wrong password signs nobody in and changes nothing |
| Auth.RegistrationKeepsEmailsUnique | lib/auth.js:21-46 | Sign-in keeps every email held by one user at most |
| Auth.Token.Jwt | lib/auth.js:64-67 | The token takes a supplied user and otherwise keeps its own |
| Auth.Session.Fill | lib/auth.js:68-71 | The session's user is the token's |
| Auth.SignInThenRefresh | lib/auth.js:64-71 | After sign-in and any number of refreshes the session shows the signed-in user |

## Findings

| source | as written | input that shows it | evidently intended | confidence | as-written member | corrected member |
|---|---|---|---|---|---|---|
| src/app/api/chats/route.js:52-78 | The reuse test asks for a private chat that contains the caller, contains the contact's user and has two users | Caller `me` clicks a contact whose user is `me` while the private chat `{me, bob}` exists: the reply is 200 with that chat's id | Reuse only a chat whose users are exactly the caller and the contact's user, as the comment on line 77 says | high; not executed | ChatsRoute.SelfContactOpensAnotherUsersChat | ChatsRoute.PostChatExact |

## Left out

- Transport: the socket.io handshake, CORS, the path option, reconnection timing and the adapter's removal of a closed socket from its rooms. `Relay.Server.Disconnect` only models the handler, which logs.
- Asynchrony: the model runs each handler to completion with the answers of its awaits as arguments. Interleavings of effects and responses, and React's batching, are not modelled.
- Rendering: markup, CSS, scrolling to the newest message, time formatting, and `console` output.
- The upload route, the group details and update routes, the members route, the user routes, the socket route and the middleware are not part of this model. Their answers enter the components as `Fetched` arguments.
- CreateGroupForm's contact fetch: it fills the checkbox list only, and nothing about it is modelled.
- Database details: generated ids and times are parameters, and rows are kept in insertion order. `findFirst` and `findMany` are taken to return rows in that order. Messages with equal creation times keep their stored order. Column defaults are not modelled, so `isFile` stays absent when a group message omits it.
- The database's collation: `contains` is modelled as case-sensitive substring search.
- `toLowerCase` is modelled on ASCII letters only.
- MessageList.View.Request: the query goes into the URL without `encodeURIComponent` (MessageList.jsx:19). The route then sees it URL-decoded: `+` becomes a space, and `&` or `#` cuts it short (`c++` is searched as `c  `, `a&b` and `a#b` as `a`). The model hands the query to the route unchanged, so this loss is not modelled.
- ContactList.View.FetchContacts: the same loss for `/api/contacts?query=` (ContactList.jsx:22). Here the response is an argument, so the query does not appear at all.
- Included relations the entities do not carry: a message's `sender` and a group's `admin` object.
- Requests whose JSON lacks a field, or has a field of the wrong type, are not modelled (for example `members` not being an array), except the contact email, which is modelled as optional.
- GroupMessagesRoute.GetGroupMessages: takes the group id as given; a request without `groupId` is not modelled.
- bcrypt's hashing and comparison are parameters. The cost factor and salts are not modelled.
- `Auth.Token` and `Auth.Session` hold only the user. NextAuth's other token claims and its expiry handling are not modelled; `maxAge` appears only as a constant.
