/**
 * The main screen's view model: the signed-in user, the logged-out flag, and the
 * list of recent conversations kept up to date by a listener on
 * `recent_messages/{uid}/messages`. Every reported change moves its document to
 * the front of the list (the first entry with that id is removed, then the
 * freshly decoded entry is inserted at index 0), whatever the kind of change.
 */
module MainMessages {
  import opened Backend

  /** One row of the recent-messages list. */
  datatype RecentMessage = RecentMessage(
    documentId: string,
    text: string, fromId: string, toId: string,
    email: string, profileImageUrl: string,
    timestamp: Timestamp)

  /** `RecentMessages.init(documentId:data:)`; `now` is the time used when no timestamp is stored. */
  function DecodeRecentMessage(documentId: string, data: Data, now: Timestamp): (r: RecentMessage)
    ensures r.documentId == documentId
    ensures FieldDecoded(r.text, data, TextKey) && FieldDecoded(r.fromId, data, FromIdKey)
    ensures FieldDecoded(r.toId, data, ToIdKey) && FieldDecoded(r.email, data, EmailKey)
    ensures FieldDecoded(r.profileImageUrl, data, ProfileImageUrlKey)
    ensures TimestampKey in data && data[TimestampKey].Time? ==> r.timestamp == data[TimestampKey].t
    ensures !(TimestampKey in data && data[TimestampKey].Time?) ==> r.timestamp == now
  {
    RecentMessage(
      documentId,
      StringField(data, TextKey), StringField(data, FromIdKey), StringField(data, ToIdKey),
      StringField(data, EmailKey), StringField(data, ProfileImageUrlKey),
      TimestampField(data, TimestampKey, now))
  }

  // ----- the list and its move-to-front update -----

  /** The document ids present in a list. */
  function Ids(list: seq<RecentMessage>): set<string> {
    set m | m in list :: m.documentId
  }

  /** No two entries share a document id. */
  ghost predicate DistinctIds(list: seq<RecentMessage>) {
    forall i, j :: 0 <= i < j < |list| ==> list[i].documentId != list[j].documentId
  }

  /** Index `i` holds the first entry whose id is `documentId`. */
  ghost predicate IsFirstWithId(list: seq<RecentMessage>, i: int, documentId: string) {
    && 0 <= i < |list|
    && list[i].documentId == documentId
    && forall j :: 0 <= j < i ==> list[j].documentId != documentId
  }

  /** `firstIndex(where: { $0.documentId == documentId })` */
  function FirstIndexOf(list: seq<RecentMessage>, documentId: string): (r: Option<nat>)
    ensures r.Some? ==> IsFirstWithId(list, r.value, documentId)
    ensures r.None? <==> documentId !in Ids(list)
  {
    if list == [] then None
    else if list[0].documentId == documentId then Some(0)
    else
      match FirstIndexOf(list[1..], documentId)
      case None => None
      case Some(i) => Some(i + 1)
  }

  /** The list after `remove(at:)` of the first entry whose id is `documentId`, if there is one. */
  function RemoveFirst(list: seq<RecentMessage>, documentId: string): (r: seq<RecentMessage>)
    ensures documentId !in Ids(list) ==> r == list
    ensures forall i :: IsFirstWithId(list, i, documentId) ==> r == list[..i] + list[i + 1..]
    ensures |r| == |list| - (if documentId in Ids(list) then 1 else 0)
  {
    match FirstIndexOf(list, documentId)
    case None => list
    case Some(i) => list[..i] + list[i + 1..]
  }

  /** The list after `remove(at:)` of the first entry with the change's id (if any)
      and `insert(_, at: 0)` of the entry decoded from the change. */
  function MoveToFront(list: seq<RecentMessage>, change: DocumentChange, now: Timestamp): (r: seq<RecentMessage>)
    ensures |r| == |list| + (if change.documentId in Ids(list) then 0 else 1)
    ensures r[0] == DecodeRecentMessage(change.documentId, change.data, now)
  {
    [DecodeRecentMessage(change.documentId, change.data, now)] + RemoveFirst(list, change.documentId)
  }

  /** The list after the changes of one snapshot have been applied in order: it never shrinks
      and grows by at most one entry per change. */
  function ApplyChanges(list: seq<RecentMessage>, changes: seq<DocumentChange>, now: Timestamp): (r: seq<RecentMessage>)
    ensures |list| <= |r| <= |list| + |changes|
    decreases |changes|
  {
    if changes == [] then list
    else ApplyChanges(MoveToFront(list, changes[0], now), changes[1..], now)
  }

  /** Applying the changes from index `i` on is applying change `i`, then those after it. */
  lemma ApplyChangesStep(list: seq<RecentMessage>, changes: seq<DocumentChange>, i: nat, now: Timestamp)
    requires i < |changes|
    ensures ApplyChanges(list, changes[i..], now) == ApplyChanges(MoveToFront(list, changes[i], now), changes[i + 1..], now)
  {
    assert changes[i..][1..] == changes[i + 1..];
  }

  /** Present document: the first entry with its id is taken out, every other entry keeps
      its relative order directly behind the new front entry, and the length is unchanged. */
  lemma {:induction false} MoveToFrontPresent(list: seq<RecentMessage>, change: DocumentChange, now: Timestamp, i: int)
    requires IsFirstWithId(list, i, change.documentId)
    ensures MoveToFront(list, change, now) == [DecodeRecentMessage(change.documentId, change.data, now)] + list[..i] + list[i + 1..]
    ensures |MoveToFront(list, change, now)| == |list|
  {
    var k := FirstIndexOf(list, change.documentId);
    assert list[i] in list;
    assert k.Some?;
  }

  /** Absent document: the decoded entry is put in front of the unchanged list, which grows by one. */
  lemma MoveToFrontAbsent(list: seq<RecentMessage>, change: DocumentChange, now: Timestamp)
    requires change.documentId !in Ids(list)
    ensures MoveToFront(list, change, now) == [DecodeRecentMessage(change.documentId, change.data, now)] + list
    ensures |MoveToFront(list, change, now)| == |list| + 1
  {
  }

  lemma IdsAppend(a: seq<RecentMessage>, b: seq<RecentMessage>)
    ensures Ids(a + b) == Ids(a) + Ids(b)
  {
    forall m | m in a + b ensures m.documentId in Ids(a) + Ids(b) {
      if m in a {
        assert m.documentId in Ids(a);
      } else {
        assert m in b;
        assert m.documentId in Ids(b);
      }
    }
  }

  /** Removing the first entry with an id loses no other id. */
  lemma {:induction false} RemoveFirstIds(list: seq<RecentMessage>, documentId: string)
    ensures Ids(RemoveFirst(list, documentId)) + {documentId} == Ids(list) + {documentId}
  {
    match FirstIndexOf(list, documentId)
    case None =>
    case Some(i) =>
      assert list == list[..i] + [list[i]] + list[i + 1..];
      IdsAppend(list[..i], [list[i]]);
      IdsAppend(list[..i] + [list[i]], list[i + 1..]);
      IdsAppend(list[..i], list[i + 1..]);
  }

  /** In a list of distinct ids, removing the first entry with an id removes that id altogether. */
  lemma {:induction false} RemoveFirstKeepsDistinct(list: seq<RecentMessage>, documentId: string)
    requires DistinctIds(list)
    ensures DistinctIds(RemoveFirst(list, documentId))
    ensures forall m :: m in RemoveFirst(list, documentId) ==> m.documentId != documentId
  {
    match FirstIndexOf(list, documentId)
    case None =>
    case Some(i) =>
      var rest := list[..i] + list[i + 1..];
      forall a | 0 <= a < |rest| ensures rest[a] == list[if a < i then a else a + 1] {
      }
  }

  /** The set of ids gains the changed id and loses none. */
  lemma MoveToFrontIds(list: seq<RecentMessage>, change: DocumentChange, now: Timestamp)
    ensures Ids(MoveToFront(list, change, now)) == Ids(list) + {change.documentId}
  {
    var rest := RemoveFirst(list, change.documentId);
    IdsAppend([DecodeRecentMessage(change.documentId, change.data, now)], rest);
    RemoveFirstIds(list, change.documentId);
  }

  /** Distinct document ids stay distinct after one change. */
  lemma MoveToFrontKeepsDistinct(list: seq<RecentMessage>, change: DocumentChange, now: Timestamp)
    requires DistinctIds(list)
    ensures DistinctIds(MoveToFront(list, change, now))
  {
    var rest := RemoveFirst(list, change.documentId);
    RemoveFirstKeepsDistinct(list, change.documentId);
    var r := MoveToFront(list, change, now);
    forall b | 0 < b < |r| ensures r[b] == rest[b - 1] && rest[b - 1] in rest {
    }
  }

  /** After a non-empty batch the front entry is the last change's document, decoded from its data. */
  lemma {:induction false} ApplyChangesFront(list: seq<RecentMessage>, changes: seq<DocumentChange>, now: Timestamp)
    requires |changes| > 0
    ensures |ApplyChanges(list, changes, now)| > 0
    ensures ApplyChanges(list, changes, now)[0]
         == DecodeRecentMessage(changes[|changes| - 1].documentId, changes[|changes| - 1].data, now)
    decreases |changes|
  {
    var next := MoveToFront(list, changes[0], now);
    if |changes| == 1 {
      assert changes[1..] == [];
    } else {
      ApplyChangesFront(next, changes[1..], now);
      assert changes[1..][|changes[1..]| - 1] == changes[|changes| - 1];
    }
  }

  /** Distinct document ids stay distinct after a whole batch. */
  lemma {:induction false} ApplyChangesKeepsDistinct(list: seq<RecentMessage>, changes: seq<DocumentChange>, now: Timestamp)
    requires DistinctIds(list)
    ensures DistinctIds(ApplyChanges(list, changes, now))
    decreases |changes|
  {
    if changes != [] {
      MoveToFrontKeepsDistinct(list, changes[0], now);
      ApplyChangesKeepsDistinct(MoveToFront(list, changes[0], now), changes[1..], now);
    }
  }

  /** The ids after a batch are the ids before it plus every changed id: no change, not even
      a removal, takes a document out of the list. */
  lemma {:induction false} ApplyChangesIds(list: seq<RecentMessage>, changes: seq<DocumentChange>, now: Timestamp)
    ensures Ids(ApplyChanges(list, changes, now)) == Ids(list) + ChangedIds(changes)
    decreases |changes|
  {
    if changes != [] {
      var next := MoveToFront(list, changes[0], now);
      MoveToFrontIds(list, changes[0], now);
      ApplyChangesIds(next, changes[1..], now);
      ChangedIdsCons(changes);
    }
  }

  /** The ids a batch of changes names. */
  function ChangedIds(changes: seq<DocumentChange>): set<string> {
    set c | c in changes :: c.documentId
  }

  lemma ChangedIdsCons(changes: seq<DocumentChange>)
    requires changes != []
    ensures ChangedIds(changes) == {changes[0].documentId} + ChangedIds(changes[1..])
  {
    assert changes == [changes[0]] + changes[1..];
    forall x | x in ChangedIds(changes) ensures x in {changes[0].documentId} + ChangedIds(changes[1..]) {
      var c :| c in changes && c.documentId == x;
      if c != changes[0] {
        assert c in changes[1..];
      }
    }
  }

  /** The kind of a change is never inspected: two batches with the same ids and data in the
      same order give the same list, whatever their kinds. */
  lemma {:induction false} ApplyChangesIgnoresKind(list: seq<RecentMessage>, changes: seq<DocumentChange>, others: seq<DocumentChange>, now: Timestamp)
    requires |changes| == |others|
    requires forall k :: 0 <= k < |changes| ==> changes[k].documentId == others[k].documentId && changes[k].data == others[k].data
    ensures ApplyChanges(list, changes, now) == ApplyChanges(list, others, now)
    decreases |changes|
  {
    if changes != [] {
      assert MoveToFront(list, changes[0], now) == MoveToFront(list, others[0], now);
      ApplyChangesIgnoresKind(MoveToFront(list, changes[0], now), changes[1..], others[1..], now);
    }
  }

  // ----- the navigation bar header -----

  /** `s.replacingOccurrences(of: target, with: replacement)`: a left-to-right scan that
      replaces each non-overlapping occurrence of `target`; an empty target changes nothing. */
  function ReplaceOccurrences(s: string, target: string, replacement: string): (r: string)
    ensures |replacement| <= |target| ==> |r| <= |s|
    decreases |s|
  {
    if target == [] || |s| < |target| then s
    else if s[..|target|] == target then replacement + ReplaceOccurrences(s[|target|..], target, replacement)
    else [s[0]] + ReplaceOccurrences(s[1..], target, replacement)
  }

  /** `target` occurs somewhere in `s`. */
  ghost predicate Occurs(s: string, target: string) {
    exists i :: OccursAt(s, target, i)
  }

  /** `target` occurs in `s` starting at index `i`. */
  ghost predicate OccursAt(s: string, target: string, i: int) {
    0 <= i && i + |target| <= |s| && s[i..i + |target|] == target
  }

  /** Where the target does not occur, nothing is replaced. */
  lemma {:induction false} ReplaceWithoutOccurrence(s: string, target: string, replacement: string)
    requires !Occurs(s, target)
    ensures ReplaceOccurrences(s, target, replacement) == s
    decreases |s|
  {
    if target != [] && |s| >= |target| {
      assert !OccursAt(s, target, 0);
      forall i | OccursAt(s[1..], target, i) ensures OccursAt(s, target, i + 1) {
        assert s[i + 1..i + 1 + |target|] == s[1..][i..i + |target|];
      }
      ReplaceWithoutOccurrence(s[1..], target, replacement);
      assert s == [s[0]] + s[1..];
    }
  }

  /** Where a non-empty target occurs, removing it shortens the string. */
  lemma {:induction false} RemovingOccurrenceShortens(s: string, target: string)
    requires target != [] && Occurs(s, target)
    ensures |ReplaceOccurrences(s, target, "")| < |s|
    decreases |s|
  {
    var i :| OccursAt(s, target, i);
    if s[..|target|] != target {
      assert i != 0;
      assert s[1..][i - 1..i - 1 + |target|] == s[i..i + |target|];
      assert OccursAt(s[1..], target, i - 1);
      RemovingOccurrenceShortens(s[1..], target);
    }
  }

  /** Removing a non-empty target leaves the string unchanged exactly when the target does not occur in it. */
  lemma RemovingLeavesUnchangedIff(s: string, target: string)
    requires target != []
    ensures ReplaceOccurrences(s, target, "") == s <==> !Occurs(s, target)
  {
    if Occurs(s, target) {
      RemovingOccurrenceShortens(s, target);
    } else {
      ReplaceWithoutOccurrence(s, target, "");
    }
  }

  /** A string that starts with the target has that occurrence replaced. */
  lemma ReplaceAtStart(target: string, b: string, replacement: string)
    requires target != []
    ensures ReplaceOccurrences(target + b, target, replacement) == replacement + ReplaceOccurrences(b, target, replacement)
  {
    var s := target + b;
    assert s[..|target|] == target && s[|target|..] == b;
  }

  /** A string that does not start with the target keeps its first character. */
  lemma ReplaceSkipsFirst(s: string, target: string, replacement: string)
    requires target != [] && s != [] && !OccursAt(s, target, 0)
    ensures ReplaceOccurrences(s, target, replacement) == [s[0]] + ReplaceOccurrences(s[1..], target, replacement)
  {
  }

  /** An occurrence after the first character is an occurrence one index later in the whole string. */
  lemma OccursAtTail(s: string, target: string, i: int)
    requires s != [] && OccursAt(s[1..], target, i)
    ensures OccursAt(s, target, i + 1)
  {
    assert s[i + 1..i + 1 + |target|] == s[1..][i..i + |target|];
  }

  /** The scan replaces the leftmost occurrence first: in `a + target + b`, where the target
      starts at no index inside `a`, `a` is kept, that occurrence is replaced, and the scan
      goes on with `b`. */
  lemma {:induction false} ReplaceLeftmostOccurrence(a: string, target: string, b: string, replacement: string)
    requires target != []
    requires forall i :: 0 <= i < |a| ==> !OccursAt(a + target + b, target, i)
    ensures ReplaceOccurrences(a + target + b, target, replacement) == a + replacement + ReplaceOccurrences(b, target, replacement)
    decreases |a|
  {
    if a == [] {
      assert a + target + b == target + b;
      ReplaceAtStart(target, b, replacement);
    } else {
      var s := a + target + b;
      var rest := a[1..] + target + b;
      assert s[1..] == rest;
      ReplaceSkipsFirst(s, target, replacement);
      forall i | 0 <= i < |a[1..]| ensures !OccursAt(rest, target, i) {
        if OccursAt(rest, target, i) {
          OccursAtTail(s, target, i);
        }
      }
      ReplaceLeftmostOccurrence(a[1..], target, b, replacement);
      assert a == [a[0]] + a[1..];
    }
  }

  /** Removing a target from `name + target`, where the target's first character does not
      occur in `name`, gives back `name`. */
  lemma {:induction false} RemovingSuffix(name: string, target: string)
    requires target != [] && target[0] !in name
    ensures ReplaceOccurrences(name + target, target, "") == name
    decreases |name|
  {
    var s := name + target;
    if name == [] {
      assert s[..|target|] == target && s[|target|..] == [];
    } else {
      assert s[0] == name[0] != target[0];
      assert s[..|target|] != target by { assert s[..|target|][0] == s[0]; }
      RemovingSuffix(name[1..], target);
      assert s[1..] == name[1..] + target;
      assert name == [name[0]] + name[1..];
    }
  }

  const GmailSuffix := "@gmail.com"

  /** The header text: the signed-in user's email with every "@gmail.com" removed, or "" without a user. */
  function Header(chatUser: Option<ChatUser>): (h: string)
    ensures chatUser.None? ==> h == ""
    ensures chatUser.Some? ==> |h| <= |chatUser.value.email|
  {
    match chatUser
    case None => ""
    case Some(u) => ReplaceOccurrences(u.email, GmailSuffix, "")
  }

  /** A Gmail address is shown as its local part. */
  lemma HeaderOfGmailAddress(u: ChatUser, name: string)
    requires u.email == name + GmailSuffix && '@' !in name
    ensures Header(Some(u)) == name
  {
    RemovingSuffix(name, GmailSuffix);
  }

  /** An email shows unchanged exactly when "@gmail.com" does not occur in it; with no user the header is empty. */
  lemma HeaderUnchangedIff(u: ChatUser)
    ensures Header(Some(u)) == u.email <==> !Occurs(u.email, GmailSuffix)
    ensures Header(None) == ""
  {
    RemovingLeavesUnchangedIff(u.email, GmailSuffix);
  }

  // ----- the view model -----

  const MissingUidError := "Could not find firebase uid"
  const RecentListenErrorPrefix := "failed to listen to recent messages "

  /** The collection of `uid`'s recent-message summaries, one document per peer. */
  function RecentMessagesCollection(uid: string): seq<string> {
    ["recent_messages", uid, "messages"]
  }

  /** The collection the recent-messages listener is registered on, or None when nobody is signed in. */
  function RecentMessagesQuery(currentUid: Option<string>): (q: Option<seq<string>>)
    ensures q.Some? <==> currentUid.Some?
    ensures currentUid.Some? ==> q.value == RecentMessagesCollection(currentUid.value)
  {
    match currentUid
    case None => None
    case Some(uid) => Some(RecentMessagesCollection(uid))
  }

  class MainMessagesViewModel {
    var errorMessage: string
    var chatUser: Option<ChatUser>
    var recentMessages: seq<RecentMessage>
    var isUserCurrentlyLoggedOut: bool

    /** `init()`: the logged-out flag is whether a uid is present, and fetching the current
        user without a uid reports an error. */
    constructor (currentUid: Option<string>)
      ensures isUserCurrentlyLoggedOut == currentUid.None?
      ensures errorMessage == (if currentUid.None? then MissingUidError else "")
      ensures chatUser == None && recentMessages == []
    {
      errorMessage := if currentUid.None? then MissingUidError else "";
      chatUser := None;
      recentMessages := [];
      isUserCurrentlyLoggedOut := currentUid.None?;
    }

    /** `fetchCurrentUser()`: the `users/{uid}` document to read, or an error without a uid. */
    method FetchCurrentUser(currentUid: Option<string>) returns (request: Option<seq<string>>)
      modifies this`errorMessage
      ensures currentUid.None? ==> request == None && errorMessage == MissingUidError
      ensures currentUid.Some? ==> request == Some(["users", currentUid.value]) && errorMessage == old(errorMessage)
    {
      match currentUid
      case None =>
        errorMessage := MissingUidError;
        request := None;
      case Some(uid) =>
        request := Some(["users", uid]);
    }

    /** The completion of the `users/{uid}` read: only a delivered document replaces `chatUser`. */
    method OnCurrentUserFetched(response: Callback<Option<Data>>, decodeUser: Data -> ChatUser)
      modifies this`chatUser
      ensures response.error.None? && response.result.Some? && response.result.value.Some?
          ==> chatUser == Some(decodeUser(response.result.value.value))
      ensures !(response.error.None? && response.result.Some? && response.result.value.Some?)
          ==> chatUser == old(chatUser)
    {
      if response.error.Some? {
        return;
      }
      if response.result.Some? && response.result.value.Some? {
        chatUser := Some(decodeUser(response.result.value.value));
      }
    }

    /** The recent-messages listener callback: an error only sets `errorMessage`; otherwise every
        change of the snapshot is moved to the front in order. */
    method OnRecentMessagesSnapshot(event: Callback<seq<DocumentChange>>, now: Timestamp)
      modifies this`errorMessage, this`recentMessages
      ensures event.error.Some? ==> recentMessages == old(recentMessages)
      ensures event.error.Some? ==> errorMessage == RecentListenErrorPrefix + event.error.value
      ensures event.error.None? ==> errorMessage == old(errorMessage)
      ensures event.error.None? ==> recentMessages == ApplyChanges(old(recentMessages), ChangesOf(event), now)
    {
      if event.error.Some? {
        errorMessage := RecentListenErrorPrefix + event.error.value;
        return;
      }
      var changes := ChangesOf(event);
      var i := 0;
      while i < |changes|
        invariant 0 <= i <= |changes|
        invariant ApplyChanges(recentMessages, changes[i..], now) == ApplyChanges(old(recentMessages), changes, now)
        invariant errorMessage == old(errorMessage)
      {
        ApplyChangesStep(recentMessages, changes, i, now);
        ApplyDocumentChange(changes[i], now);
        i := i + 1;
      }
    }

    /** The closure run for one change: `remove(at:)` of the first entry with the change's id,
        if there is one, then `insert(_, at: 0)` of the entry decoded from the change. */
    method ApplyDocumentChange(change: DocumentChange, now: Timestamp)
      modifies this`recentMessages
      ensures recentMessages == MoveToFront(old(recentMessages), change, now)
    {
      var index := FirstIndexOf(recentMessages, change.documentId);
      if index.Some? {
        recentMessages := recentMessages[..index.value] + recentMessages[index.value + 1..];
      }
      recentMessages := [DecodeRecentMessage(change.documentId, change.data, now)] + recentMessages;
    }

    /** `handleSignOut()`: toggles the logged-out flag. */
    method HandleSignOut()
      modifies this`isUserCurrentlyLoggedOut
      ensures isUserCurrentlyLoggedOut == !old(isUserCurrentlyLoggedOut)
    {
      isUserCurrentlyLoggedOut := !isUserCurrentlyLoggedOut;
    }
  }
}
