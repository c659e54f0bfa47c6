# Chat client view models in Dafny

This project models the list-keeping and record-building logic of a SwiftUI chat client that stores everything in a hosted document database. The database is not modelled. Its listeners and fetches become inputs: a `Callback` value per callback, carrying an optional error and an optional result. Its `setData` calls become outputs: the methods return the `Write` records they would issue. The signed-in user's uid is an `Option<string>` parameter, and the wall-clock time is a `Timestamp` parameter.

- `Backend` (`backend.dfy`) holds the shared vocabulary. A document's data is a string-keyed map of values (a string, a timestamp, or any other value). It also defines document changes with their kind (`Added`, `Modified`, `Removed`), write targets, the `ChatUser` record, and the `as? String ?? ""` field rule.
- `MainMessages` (`main_messages.dfy`) models `MainMessagesViewModel`. It keeps the recent-conversation list, which every listener change updates by move-to-front. The kind of change is never looked at, so a removal also re-inserts its document at the front. The module also covers the logged-out flag, the fetch of the current user, and the header text, which removes every `"@gmail.com"` from the user's email.
- `ChatLog` (`chat_log.dfy`) models `ChatLogViewModel`. The message list only grows, and only from `.added` changes. The `count` field goes up once per snapshot that is not an error. Sending writes one record to both copies of the conversation. When the sender's write completes, a summary record is written and the draft is cleared. Lemmas connect the records written here to what the two listeners read back.
- `NewMessage` (`new_message.dfy`) models `CreateNewMessageViewModel`. It appends every fetched user whose uid is not the current uid.

## Model

| member | source | states |
|---|---|---|
| Backend.StringField | ChatApp/MainMessages/MainMessagesView.swift:23-27 | when the key holds a string, the result is that string; a non-empty result only comes from a string stored under the key, so a missing or non-string value gives "" |
| Backend.TimestampField | ChatApp/MainMessages/MainMessagesView.swift:28 | the timestamp stored under the key, or the supplied current time when none is stored |
| MainMessages.DecodeRecentMessage | ChatApp/MainMessages/MainMessagesView.swift:21-29 | the id is the document's id; text, fromId, toId, email and profileImageUrl each follow the string-or-empty rule for their key; the timestamp defaults to the current time |
| MainMessages.FirstIndexOf | ChatApp/MainMessages/MainMessagesView.swift:68-70 | a returned index holds the first entry with that id; None exactly when no entry has that id |
| MainMessages.MoveToFront | ChatApp/MainMessages/MainMessagesView.swift:67-74 | the effect of one change: the list grows by one exactly when the id is new and keeps its length otherwise, and the front entry carries the change's id and is decoded from its data |
| MainMessages.MoveToFrontPresent | ChatApp/MainMessages/MainMessagesView.swift:68-74 | for a document already present, only its first entry is removed; the other entries keep their relative order directly behind the new front entry; the length is unchanged |
| MainMessages.MoveToFrontAbsent | ChatApp/MainMessages/MainMessagesView.swift:68-74 | for an absent document, the decoded entry is put in front of the unchanged list and the length grows by one |
| MainMessages.RemoveFirst | ChatApp/MainMessages/MainMessagesView.swift:68-72 | an absent id leaves the list unchanged; otherwise the entry at the first index holding the id is taken out and the rest keep their order; the list is one shorter exactly when the id is present |
| MainMessages.RemoveFirstIds | ChatApp/MainMessages/MainMessagesView.swift:68-72 | removing the first entry with an id loses no other id |
| MainMessages.RemoveFirstKeepsDistinct | ChatApp/MainMessages/MainMessagesView.swift:68-72 | in a list of distinct ids, the removal keeps the rest distinct and leaves no entry with the removed id |
| MainMessages.MoveToFrontIds | ChatApp/MainMessages/MainMessagesView.swift:68-74 | the set of ids afterwards is the set before plus the changed id |
| MainMessages.MoveToFrontKeepsDistinct | ChatApp/MainMessages/MainMessagesView.swift:68-74 | pairwise distinct document ids stay pairwise distinct after one change |
| MainMessages.ApplyChangesFront | ChatApp/MainMessages/MainMessagesView.swift:66-75 | after a non-empty batch, the front entry is the last change's document, decoded from its data |
| MainMessages.ApplyChangesKeepsDistinct | ChatApp/MainMessages/MainMessagesView.swift:66-75 | pairwise distinct ids stay distinct through a whole batch |
| MainMessages.ApplyChangesIds | ChatApp/MainMessages/MainMessagesView.swift:66-75 | the ids after a batch are the ids before plus every changed id; removals take nothing out |
| MainMessages.ApplyChangesIgnoresKind | ChatApp/MainMessages/MainMessagesView.swift:66-75 | two batches with the same ids and data in the same order give the same list whatever their change kinds |
| MainMessages.ApplyChanges | ChatApp/MainMessages/MainMessagesView.swift:66-75 | the effect of a snapshot, every change applied in order by move-to-front: the list never shrinks and grows by at most one entry per change |
| MainMessages.ReplaceOccurrences | ChatApp/MainMessages/MainMessagesView.swift:139 | a replacement no longer than the target never lengthens the string |
| MainMessages.ReplaceWithoutOccurrence | ChatApp/MainMessages/MainMessagesView.swift:139 | where the target does not occur, the string comes back unchanged |
| MainMessages.RemovingOccurrenceShortens | ChatApp/MainMessages/MainMessagesView.swift:139 | where a non-empty target occurs, removing it makes the string strictly shorter |
| MainMessages.RemovingLeavesUnchangedIff | ChatApp/MainMessages/MainMessagesView.swift:139 | removing a non-empty target leaves a string unchanged exactly when the target does not occur in it |
| MainMessages.ReplaceLeftmostOccurrence | ChatApp/MainMessages/MainMessagesView.swift:139 | in `a + target + b` with no occurrence starting inside `a`, the result is `a`, then the replacement, then the replacement applied to `b` |
| MainMessages.RemovingSuffix | ChatApp/MainMessages/MainMessagesView.swift:139 | removing a target from `name + target` gives `name` when the target's first character does not occur in `name` |
| MainMessages.Header | ChatApp/MainMessages/MainMessagesView.swift:139 | the header text is "" without a user, and otherwise the user's email with "@gmail.com" removed, never longer than the email |
| MainMessages.HeaderOfGmailAddress | ChatApp/MainMessages/MainMessagesView.swift:139 | the header of `name@gmail.com` (no `@` in `name`) is `name` |
| MainMessages.HeaderUnchangedIff | ChatApp/MainMessages/MainMessagesView.swift:139 | the header equals the email exactly when "@gmail.com" does not occur in it; with no user the header is "" |
| MainMessages.RecentMessagesQuery | ChatApp/MainMessages/MainMessagesView.swift:50-57 | a listener is registered exactly when a uid is present, on `recent_messages/{uid}/messages` |
| MainMessages.MainMessagesViewModel.constructor | ChatApp/MainMessages/MainMessagesView.swift:40-47 | the logged-out flag is "no current uid"; without a uid the current-user fetch leaves "Could not find firebase uid"; the list starts empty |
| MainMessages.MainMessagesViewModel.FetchCurrentUser | ChatApp/MainMessages/MainMessagesView.swift:79-87 | with a uid, the `users/{uid}` document is requested and nothing else changes; without one, nothing is requested and the error message is set |
| MainMessages.MainMessagesViewModel.OnCurrentUserFetched | ChatApp/MainMessages/MainMessagesView.swift:87-98 | only a delivered document with no error replaces `chatUser`, by its decoded user; an error or a missing snapshot or data leaves it unchanged |
| MainMessages.MainMessagesViewModel.OnRecentMessagesSnapshot | ChatApp/MainMessages/MainMessagesView.swift:58-76 | on an error, the list is unchanged and the error message is "failed to listen to recent messages " followed by the error; otherwise the message is unchanged and the list is the old list with every change applied in order by move-to-front |
| MainMessages.MainMessagesViewModel.ApplyDocumentChange | ChatApp/MainMessages/MainMessagesView.swift:67-74 | the closure for one change leaves the list moved to front for that change: its first entry with the id removed, then the decoded entry inserted at index 0 |
| MainMessages.MainMessagesViewModel.HandleSignOut | ChatApp/MainMessages/MainMessagesView.swift:105-109 | the logged-out flag is negated |
| ChatLog.DecodeChatMessage | ChatApp/MainMessages/Chat/ChatLogView.swift:30-35 | the id is the document's id; fromId, toId and text each follow the string-or-empty rule for their key |
| ChatLog.AddedMessages | ChatApp/MainMessages/Chat/ChatLogView.swift:69-76 | the messages one snapshot appends, the decoded `.added` changes in batch order: never more than the batch has changes |
| ChatLog.AddedMessagesAppend | ChatApp/MainMessages/Chat/ChatLogView.swift:69-76 | the messages a batch contributes are those of its first part followed by those of its second (batch order) |
| ChatLog.OnlyAddedChangesGrow | ChatApp/MainMessages/Chat/ChatLogView.swift:71-75 | an `.added` change appends its decoded message; a modified or removed change appends nothing |
| ChatLog.AddedMessagesCount | ChatApp/MainMessages/Chat/ChatLogView.swift:69-76 | a batch contributes exactly as many messages as it has `.added` changes |
| ChatLog.AddedMessagesFromAddedChanges | ChatApp/MainMessages/Chat/ChatLogView.swift:69-76 | every contributed message is decoded from some `.added` change of the batch |
| ChatLog.MessageRecord | ChatApp/MainMessages/Chat/ChatLogView.swift:94 | the record holds exactly the keys fromId, toId, text and timestamp, and reading them back gives the sender's uid, the peer's uid, the draft and the time |
| ChatLog.RecentMessageRecord | ChatApp/MainMessages/Chat/ChatLogView.swift:137-144 | the summary holds exactly the six keys timestamp, text, fromId, toId, profileImageUrl and email, and reading them back gives the time, the draft, both uids and the peer's picture and email |
| ChatLog.MessageRecordComesBack | ChatApp/MainMessages/Chat/ChatLogView.swift:89-94 | the record `handleSend` writes, once reported as added, is appended as a message with the sender's uid, the peer's uid and the sent text |
| ChatLog.RecentMessageRecordComesBack | ChatApp/MainMessages/Chat/ChatLogView.swift:131-144 | the summary document lies in the collection the sender's recent-messages listener watches, under the peer's uid; reading it back puts an entry in front with the sent text, both uids, and the peer's email and picture |
| ChatLog.ChatLogViewModel.constructor | ChatApp/MainMessages/Chat/ChatLogView.swift:40-49 | the peer is stored; draft, error message and messages are empty and `count` is 0 |
| ChatLog.ChatLogViewModel.MessagesQuery | ChatApp/MainMessages/Chat/ChatLogView.swift:51-60 | a listener is registered exactly when both the current uid and the peer's uid exist, on `messages/{uid}/{peerUid}` |
| ChatLog.ChatLogViewModel.OnMessagesSnapshot | ChatApp/MainMessages/Chat/ChatLogView.swift:61-81 | on an error, messages and `count` are unchanged and the error message is "Failed to listen for messages: " followed by the error; otherwise the added messages are appended after the old list and `count` goes up by exactly one, even for a snapshot with no additions or no snapshot at all |
| ChatLog.ChatLogViewModel.HandleSend | ChatApp/MainMessages/Chat/ChatLogView.swift:84-114 | without the current uid or the peer's uid nothing is written; otherwise the identical record {fromId: uid, toId: peer, text: draft, timestamp} goes to a new document in `messages/uid/peer`, the collection the log's own listener is registered on, and to a new document in `messages/peer/uid`; the draft is unchanged |
| ChatLog.ChatLogViewModel.OnSenderWriteComplete | ChatApp/MainMessages/Chat/ChatLogView.swift:96-106 | whether or not the write failed, the summary of the draft as it was before clearing goes to `recent_messages/uid/messages/peer` with the peer's email and picture, and the draft becomes ""; an error sets "Failed to save message into Firestore: " followed by the error |
| ChatLog.ChatLogViewModel.PersistRecentMessage | ChatApp/MainMessages/Chat/ChatLogView.swift:124-144 | with both uids, one write of {timestamp, text: draft, fromId: uid, toId: peer, profileImageUrl, email} of the peer, to the document named by the peer's uid inside the collection the sender's recent-messages listener watches; otherwise nothing |
| ChatLog.ChatLogViewModel.OnRecipientWriteComplete | ChatApp/MainMessages/Chat/ChatLogView.swift:114-119 | only an error changes state: the error message becomes "Failed to save message into Firestore: " followed by the error |
| ChatLog.ChatLogViewModel.OnRecentMessageWriteComplete | ChatApp/MainMessages/Chat/ChatLogView.swift:146-153 | only an error changes state: the error message becomes "Failed to save recent message: " followed by the error |
| NewMessage.OtherUsers | ChatApp/MainMessages/NewMessage/CreateNewMessageView.swift:30-35 | the users one fetch appends, the decoded documents in order: no more than there are documents, and none of them has the current uid |
| NewMessage.OtherUsersAppend | ChatApp/MainMessages/NewMessage/CreateNewMessageView.swift:30-35 | users from documents fetched in two parts are those of the first part followed by those of the second (document order) |
| NewMessage.OtherUsersSnoc | ChatApp/MainMessages/NewMessage/CreateNewMessageView.swift:30-35 | one more document appends its decoded user exactly when that user's uid differs from the current uid |
| NewMessage.OtherUsersMembership | ChatApp/MainMessages/NewMessage/CreateNewMessageView.swift:30-35 | a user is contributed exactly when some document decodes to it and its uid is not the current uid, so the signed-in user is excluded |
| NewMessage.OtherUsersCount | ChatApp/MainMessages/NewMessage/CreateNewMessageView.swift:30-35 | the number contributed is the number of documents minus those decoding to the signed-in user; with nobody signed in, every document is kept |
| NewMessage.CreateNewMessageViewModel.constructor | ChatApp/MainMessages/NewMessage/CreateNewMessageView.swift:14-19 | users and the error message start empty |
| NewMessage.CreateNewMessageViewModel.OnUsersFetched | ChatApp/MainMessages/NewMessage/CreateNewMessageView.swift:22-37 | on an error, users are unchanged and the error message is ">>>>>>>>Failed to fetch All users " followed by the error; otherwise the old list stays a prefix and the contributed users are appended in order; without a snapshot nothing changes |

## Left out

- The database SDK: listener registration, query ordering by `timestamp`, `getDocuments`, `setData`, generated document ids and network failures. Listener and fetch results are inputs, and writes are an output log.
- Callback scheduling (`DispatchQueue.main.async`, and the order in which the two `setData` completions arrive). Each callback is one sequential step. The logged-out flag is set in the constructor, although the source sets it in an asynchronous block.
- `ChatUser`'s own definition and its `init(data:)` are not among the modelled files. The model has a matching `ChatUser` record, and its decoder is the function parameter `decodeUser`. The source decodes each fetched user document twice (CreateNewMessageView.swift:32 and :34) and decodes the current user once per completed fetch (MainMessagesView.swift:97). The decoder is deterministic, so the model decodes each document once.
- `Timestamp()` and `Timestamp(date: Date())`. The clock is a `now` parameter. In `RecentMessages.init` the default operand of `??` is evaluated only when no `Timestamp` is stored (MainMessagesView.swift:28), and the model follows that. It uses one `now` for every such entry of a snapshot, whereas the source reads the clock separately for each of them.
- `ChatLog.ChatLogViewModel.OnMessagesSnapshot`: does not model that Swift's `count += 1` traps on overflow past `Int.max`, because no realistic number of snapshots reaches it.
- Error strings: an error's description (`\(error)`) is a string input. The `print` diagnostics have no observable behaviour and are omitted.
- Strings are sequences of characters. Swift's Unicode canonical equivalence in string comparison and in `replacingOccurrences` is not modelled.
- Views: all SwiftUI view bodies, and with them the `LoginView` completion closure inside `MainMessagesView`'s body that clears the logged-out flag, plus message-bubble alignment, scrolling and placeholders.
- `MainMessages.MainMessagesViewModel.HandleSignOut`: the `try? auth.signOut()` call is not modelled, because the current uid is a parameter of every step. Nothing in the model ties the sign-out to later steps seeing no uid.
- The fetches and listeners that each `init()` starts are separate members and are not issued by the constructors. The constructors model only the state set up front. `MainMessagesViewModel`'s `init()` starts `fetchCurrentUser()` and `fetchRecentMessages()`; these are `FetchCurrentUser` and `RecentMessagesQuery`. `ChatLogViewModel`'s `fetchMessages()` is `MessagesQuery`. `CreateNewMessageViewModel`'s `fetchAllUsers()` reads `NewMessage.UsersCollection`, and its completion is `OnUsersFetched`.
- ChatApp/LoginView.swift and ChatApp/Utils/FirebaseManager.swift are not part of this model. They are authentication, storage upload and SDK configuration.
