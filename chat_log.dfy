/**
 * The conversation screen's view model: the messages between the signed-in user and
 * one peer, kept by a listener on `messages/{uid}/{peerUid}` that only appends added
 * documents, a counter bumped once per snapshot, and the draft text. Sending writes
 * one message record to both `messages/{uid}/{peerUid}` and `messages/{peerUid}/{uid}`;
 * when the sender's copy is stored, a summary record goes to
 * `recent_messages/{uid}/messages/{peerUid}` and the draft is cleared.
 */
module ChatLog {
  import opened Backend
  import MainMessages

  /** One message of the conversation. */
  datatype ChatMessage = ChatMessage(documentId: string, fromId: string, toId: string, text: string)

  /** `ChatMessage.init(documentId:data:)` */
  function DecodeChatMessage(documentId: string, data: Data): (r: ChatMessage)
    ensures r.documentId == documentId
    ensures FieldDecoded(r.fromId, data, FromIdKey)
    ensures FieldDecoded(r.toId, data, ToIdKey)
    ensures FieldDecoded(r.text, data, TextKey)
  {
    ChatMessage(documentId, StringField(data, FromIdKey), StringField(data, ToIdKey), StringField(data, TextKey))
  }

  /** The messages a snapshot's changes contribute: the added documents, decoded, in batch order. */
  function AddedMessages(changes: seq<DocumentChange>): (r: seq<ChatMessage>)
    ensures |r| <= |changes|
    decreases |changes|
  {
    if changes == [] then []
    else
      (if changes[0].kind == Added then [DecodeChatMessage(changes[0].documentId, changes[0].data)] else [])
      + AddedMessages(changes[1..])
  }

  /** The kinds of a batch's changes, in order. */
  function Kinds(changes: seq<DocumentChange>): (ks: seq<ChangeType>)
    ensures |ks| == |changes|
    ensures forall k :: 0 <= k < |changes| ==> ks[k] == changes[k].kind
  {
    seq(|changes|, k requires 0 <= k < |changes| => changes[k].kind)
  }

  /** A batch split in two contributes the messages of its first part followed by those of its second. */
  lemma {:induction false} AddedMessagesAppend(first: seq<DocumentChange>, second: seq<DocumentChange>)
    ensures AddedMessages(first + second) == AddedMessages(first) + AddedMessages(second)
    decreases |first|
  {
    if first != [] {
      assert (first + second)[1..] == first[1..] + second;
      AddedMessagesAppend(first[1..], second);
    } else {
      assert first + second == second;
    }
  }

  /** One more change appends its decoded message when it is an addition and nothing otherwise. */
  lemma OnlyAddedChangesGrow(changes: seq<DocumentChange>, change: DocumentChange)
    ensures change.kind == Added ==>
      AddedMessages(changes + [change]) == AddedMessages(changes) + [DecodeChatMessage(change.documentId, change.data)]
    ensures change.kind != Added ==> AddedMessages(changes + [change]) == AddedMessages(changes)
  {
    AddedMessagesAppend(changes, [change]);
    assert [change][1..] == [];
  }

  /** A batch contributes exactly as many messages as it has changes of kind `.added`. */
  lemma {:induction false} AddedMessagesCount(changes: seq<DocumentChange>)
    ensures |AddedMessages(changes)| == multiset(Kinds(changes))[Added]
    decreases |changes|
  {
    if changes != [] {
      AddedMessagesCount(changes[1..]);
      assert Kinds(changes) == [changes[0].kind] + Kinds(changes[1..]);
    } else {
      assert Kinds(changes) == [];
    }
  }

  /** Every contributed message is decoded from an added change of the batch. */
  lemma {:induction false} AddedMessagesFromAddedChanges(changes: seq<DocumentChange>, m: ChatMessage)
    requires m in AddedMessages(changes)
    ensures exists c :: c in changes && c.kind == Added && m == DecodeChatMessage(c.documentId, c.data)
    decreases |changes|
  {
    var head := if changes[0].kind == Added then [DecodeChatMessage(changes[0].documentId, changes[0].data)] else [];
    if m in head {
      assert changes[0] in changes;
    } else {
      AddedMessagesFromAddedChanges(changes[1..], m);
      var c :| c in changes[1..] && c.kind == Added && m == DecodeChatMessage(c.documentId, c.data);
      assert c in changes;
    }
  }

  // ----- the records and paths the conversation writes -----

  /** The collection holding `owner`'s copy of the conversation with `peer`. */
  function MessagesCollection(owner: string, peer: string): seq<string> {
    ["messages", owner, peer]
  }

  /** The message record `handleSend` stores in both copies of the conversation. */
  function MessageRecord(fromId: string, toId: string, text: string, timestamp: Timestamp): (d: Data)
    ensures d.Keys == {FromIdKey, ToIdKey, TextKey, TimestampKey}
    ensures StringField(d, FromIdKey) == fromId && StringField(d, ToIdKey) == toId && StringField(d, TextKey) == text
    ensures forall now :: TimestampField(d, TimestampKey, now) == timestamp
  {
    map[FromIdKey := Str(fromId), ToIdKey := Str(toId), TextKey := Str(text), TimestampKey := Time(timestamp)]
  }

  /** The document holding `uid`'s recent-message summary of the conversation with `peer`. */
  function RecentMessageDocument(uid: string, peer: string): seq<string> {
    MainMessages.RecentMessagesCollection(uid) + [peer]
  }

  /** The summary record `persistRecentMessage` stores. */
  function RecentMessageRecord(timestamp: Timestamp, text: string, fromId: string, toId: string, peer: ChatUser): (d: Data)
    ensures d.Keys == {TimestampKey, TextKey, FromIdKey, ToIdKey, ProfileImageUrlKey, EmailKey}
    ensures StringField(d, TextKey) == text && StringField(d, FromIdKey) == fromId && StringField(d, ToIdKey) == toId
    ensures StringField(d, ProfileImageUrlKey) == peer.profileImageUrl && StringField(d, EmailKey) == peer.email
    ensures forall now :: TimestampField(d, TimestampKey, now) == timestamp
  {
    map[TimestampKey := Time(timestamp), TextKey := Str(text), FromIdKey := Str(fromId), ToIdKey := Str(toId),
        ProfileImageUrlKey := Str(peer.profileImageUrl), EmailKey := Str(peer.email)]
  }

  /** A stored message record, once reported as added, is appended as the message that was sent. */
  lemma MessageRecordComesBack(documentId: string, fromId: string, toId: string, text: string, timestamp: Timestamp)
    ensures AddedMessages([DocumentChange(documentId, MessageRecord(fromId, toId, text, timestamp), Added)])
         == [ChatMessage(documentId, fromId, toId, text)]
  {
  }

  /** The summary record sits in the collection the sender's recent-messages listener watches, and
      a change reporting it puts the conversation with the peer at the front, carrying the sent
      text, both uids, and the peer's email and picture. */
  lemma RecentMessageRecordComesBack(uid: string, peer: ChatUser, text: string, timestamp: Timestamp,
                                     list: seq<MainMessages.RecentMessage>, kind: ChangeType, now: Timestamp)
    ensures MainMessages.RecentMessagesQuery(Some(uid)).Some?
    ensures RecentMessageDocument(uid, peer.uid) == MainMessages.RecentMessagesQuery(Some(uid)).value + [peer.uid]
    ensures MainMessages.MoveToFront(list, DocumentChange(peer.uid, RecentMessageRecord(timestamp, text, uid, peer.uid, peer), kind), now)[0]
         == MainMessages.RecentMessage(peer.uid, text, uid, peer.uid, peer.email, peer.profileImageUrl, timestamp)
  {
  }

  // ----- the view model -----

  const ListenErrorPrefix := "Failed to listen for messages: "
  const SaveMessageErrorPrefix := "Failed to save message into Firestore: "
  const SaveRecentErrorPrefix := "Failed to save recent message: "

  class ChatLogViewModel {
    var chatText: string
    var errorMessage: string
    var chatMessages: seq<ChatMessage>
    var count: int
    const chatUser: Option<ChatUser>

    /** `init(chatUser:)` */
    constructor (peer: ChatUser)
      ensures chatUser == Some(peer)
      ensures chatText == "" && errorMessage == "" && chatMessages == [] && count == 0
    {
      chatUser := Some(peer);
      chatText, errorMessage, chatMessages, count := "", "", [], 0;
    }

    /** The collection `fetchMessages()` listens to, or None when a uid is missing. */
    function MessagesQuery(currentUid: Option<string>): (q: Option<seq<string>>)
      ensures q.Some? <==> currentUid.Some? && chatUser.Some?
      ensures q.Some? ==> q.value == MessagesCollection(currentUid.value, chatUser.value.uid)
    {
      if currentUid.Some? && chatUser.Some? then Some(MessagesCollection(currentUid.value, chatUser.value.uid)) else None
    }

    /** The messages listener callback: an error only sets `errorMessage`; otherwise the added
        documents are appended in order and `count` goes up by one. */
    method OnMessagesSnapshot(event: Callback<seq<DocumentChange>>)
      modifies this`errorMessage, this`chatMessages, this`count
      ensures event.error.Some? ==> chatMessages == old(chatMessages) && count == old(count)
      ensures event.error.Some? ==> errorMessage == ListenErrorPrefix + event.error.value
      ensures event.error.None? ==> errorMessage == old(errorMessage)
      ensures event.error.None? ==> chatMessages == old(chatMessages) + AddedMessages(ChangesOf(event))
      ensures event.error.None? ==> count == old(count) + 1
    {
      if event.error.Some? {
        errorMessage := ListenErrorPrefix + event.error.value;
        return;
      }
      var changes := ChangesOf(event);
      var i := 0;
      while i < |changes|
        invariant 0 <= i <= |changes|
        invariant chatMessages == old(chatMessages) + AddedMessages(changes[..i])
        invariant errorMessage == old(errorMessage) && count == old(count)
      {
        var change := changes[i];
        if change.kind == Added {
          chatMessages := chatMessages + [DecodeChatMessage(change.documentId, change.data)];
        }
        assert changes[..i + 1] == changes[..i] + [change];
        OnlyAddedChangesGrow(changes[..i], change);
        i := i + 1;
      }
      assert changes[..i] == changes;
      count := count + 1;
    }

    /** `handleSend()`: with both uids known, the same record for the draft goes to a new document
        in the sender's copy and in the peer's copy of the conversation; otherwise nothing is written. */
    method HandleSend(currentUid: Option<string>, now: Timestamp) returns (writes: seq<Write>)
      ensures currentUid.None? || chatUser.None? ==> writes == []
      ensures currentUid.Some? && chatUser.Some? ==>
        var uid, peer := currentUid.value, chatUser.value.uid;
        && writes == [Write(NewDocumentIn(MessagesCollection(uid, peer)), MessageRecord(uid, peer, chatText, now)),
                      Write(NewDocumentIn(MessagesCollection(peer, uid)), MessageRecord(uid, peer, chatText, now))]
        && MessagesQuery(currentUid).Some?
        && writes[0].target == NewDocumentIn(MessagesQuery(currentUid).value)
    {
      if currentUid.None? || chatUser.None? {
        return [];
      }
      var uid, peer := currentUid.value, chatUser.value.uid;
      var messageData := MessageRecord(uid, peer, chatText, now);
      writes := [Write(NewDocumentIn(MessagesCollection(uid, peer)), messageData)];
      writes := writes + [Write(NewDocumentIn(MessagesCollection(peer, uid)), messageData)];
    }

    /** The completion of the sender's write: an error is reported, then, whether or not it failed,
        `persistRecentMessage()` writes the summary of the current draft and the draft is cleared. */
    method OnSenderWriteComplete(error: Option<string>, currentUid: Option<string>, now: Timestamp) returns (writes: seq<Write>)
      modifies this`errorMessage, this`chatText
      ensures errorMessage == if error.Some? then SaveMessageErrorPrefix + error.value else old(errorMessage)
      ensures chatText == ""
      ensures currentUid.None? || chatUser.None? ==> writes == []
      ensures currentUid.Some? && chatUser.Some? ==>
        writes == [Write(Document(RecentMessageDocument(currentUid.value, chatUser.value.uid)),
                         RecentMessageRecord(now, old(chatText), currentUid.value, chatUser.value.uid, chatUser.value))]
      ensures chatMessages == old(chatMessages) && count == old(count)
    {
      if error.Some? {
        errorMessage := SaveMessageErrorPrefix + error.value;
      }
      writes := PersistRecentMessage(currentUid, now);
      chatText := "";
    }

    /** `persistRecentMessage()`: the summary record of the draft for `recent_messages/{uid}/messages/{peerUid}`. */
    method PersistRecentMessage(currentUid: Option<string>, now: Timestamp) returns (writes: seq<Write>)
      ensures currentUid.None? || chatUser.None? ==> writes == []
      ensures currentUid.Some? && chatUser.Some? ==>
        var uid, peer := currentUid.value, chatUser.value;
        && writes == [Write(Document(RecentMessageDocument(uid, peer.uid)), RecentMessageRecord(now, chatText, uid, peer.uid, peer))]
        && MainMessages.RecentMessagesQuery(currentUid).Some?
        && writes[0].target == Document(MainMessages.RecentMessagesQuery(currentUid).value + [peer.uid])
    {
      if chatUser.None? || currentUid.None? {
        return [];
      }
      var peer := chatUser.value;
      var uid := currentUid.value;
      writes := [Write(Document(RecentMessageDocument(uid, peer.uid)), RecentMessageRecord(now, chatText, uid, peer.uid, peer))];
    }

    /** The completion of the peer's copy: only an error is reported. */
    method OnRecipientWriteComplete(error: Option<string>)
      modifies this`errorMessage
      ensures errorMessage == if error.Some? then SaveMessageErrorPrefix + error.value else old(errorMessage)
    {
      if error.Some? {
        errorMessage := SaveMessageErrorPrefix + error.value;
      }
    }

    /** The completion of the summary write: only an error is reported. */
    method OnRecentMessageWriteComplete(error: Option<string>)
      modifies this`errorMessage
      ensures errorMessage == if error.Some? then SaveRecentErrorPrefix + error.value else old(errorMessage)
    {
      if error.Some? {
        errorMessage := SaveRecentErrorPrefix + error.value;
      }
    }
  }
}
