/**
 * The new-message screen's view model: one fetch of the `users` collection, whose
 * documents are decoded and appended to `users` unless they are the signed-in user.
 */
module NewMessage {
  import opened Backend

  /** The users a fetch contributes: every document's decoded user whose uid is not the
      current uid (`user.uid != currentUser?.uid`), in document order. */
  function OtherUsers(documents: seq<Data>, currentUid: Option<string>, decodeUser: Data -> ChatUser): (r: seq<ChatUser>)
    ensures |r| <= |documents|
    ensures forall u :: u in r ==> Some(u.uid) != currentUid
    decreases |documents|
  {
    if documents == [] then []
    else
      var user := decodeUser(documents[0]);
      (if Some(user.uid) != currentUid then [user] else []) + OtherUsers(documents[1..], currentUid, decodeUser)
  }

  /** The uids of the decoded documents, in order. */
  function Uids(documents: seq<Data>, decodeUser: Data -> ChatUser): (uids: seq<string>)
    ensures |uids| == |documents|
    ensures forall k :: 0 <= k < |documents| ==> uids[k] == decodeUser(documents[k]).uid
  {
    seq(|documents|, k requires 0 <= k < |documents| => decodeUser(documents[k]).uid)
  }

  /** How many of the documents decode to the signed-in user (none when nobody is signed in). */
  function SignedInCount(documents: seq<Data>, currentUid: Option<string>, decodeUser: Data -> ChatUser): nat {
    match currentUid
    case None => 0
    case Some(uid) => multiset(Uids(documents, decodeUser))[uid]
  }

  /** Documents fetched in two parts contribute the users of the first part followed by those of the second. */
  lemma {:induction false} OtherUsersAppend(first: seq<Data>, second: seq<Data>, currentUid: Option<string>, decodeUser: Data -> ChatUser)
    ensures OtherUsers(first + second, currentUid, decodeUser)
         == OtherUsers(first, currentUid, decodeUser) + OtherUsers(second, currentUid, decodeUser)
    decreases |first|
  {
    if first != [] {
      assert (first + second)[1..] == first[1..] + second;
      OtherUsersAppend(first[1..], second, currentUid, decodeUser);
    } else {
      assert first + second == second;
    }
  }

  /** One more document appends its decoded user exactly when that user is not the signed-in one. */
  lemma OtherUsersSnoc(documents: seq<Data>, document: Data, currentUid: Option<string>, decodeUser: Data -> ChatUser)
    ensures Some(decodeUser(document).uid) != currentUid ==>
      OtherUsers(documents + [document], currentUid, decodeUser) == OtherUsers(documents, currentUid, decodeUser) + [decodeUser(document)]
    ensures Some(decodeUser(document).uid) == currentUid ==>
      OtherUsers(documents + [document], currentUid, decodeUser) == OtherUsers(documents, currentUid, decodeUser)
  {
    OtherUsersAppend(documents, [document], currentUid, decodeUser);
    assert [document][1..] == [];
  }

  /** A user is contributed exactly when some document decodes to it and its uid is not the current uid. */
  lemma {:induction false} OtherUsersMembership(documents: seq<Data>, currentUid: Option<string>, decodeUser: Data -> ChatUser, u: ChatUser)
    ensures u in OtherUsers(documents, currentUid, decodeUser)
        <==> Some(u.uid) != currentUid && exists k :: 0 <= k < |documents| && decodeUser(documents[k]) == u
    decreases |documents|
  {
    if documents != [] {
      OtherUsersMembership(documents[1..], currentUid, decodeUser, u);
      if exists k :: 0 <= k < |documents[1..]| && decodeUser(documents[1..][k]) == u {
        var k :| 0 <= k < |documents[1..]| && decodeUser(documents[1..][k]) == u;
        assert decodeUser(documents[k + 1]) == u;
      }
      if exists k :: 0 <= k < |documents| && decodeUser(documents[k]) == u {
        var k :| 0 <= k < |documents| && decodeUser(documents[k]) == u;
        if k > 0 {
          assert decodeUser(documents[1..][k - 1]) == u;
        }
      }
    }
  }

  /** The list grows by the number of documents minus those that decode to the signed-in user;
      with nobody signed in, every document is kept. */
  lemma {:induction false} OtherUsersCount(documents: seq<Data>, currentUid: Option<string>, decodeUser: Data -> ChatUser)
    ensures |OtherUsers(documents, currentUid, decodeUser)| == |documents| - SignedInCount(documents, currentUid, decodeUser)
    decreases |documents|
  {
    if documents != [] {
      OtherUsersCount(documents[1..], currentUid, decodeUser);
      assert Uids(documents, decodeUser) == [decodeUser(documents[0]).uid] + Uids(documents[1..], decodeUser);
    } else {
      assert Uids(documents, decodeUser) == [];
    }
  }

  const FetchUsersErrorPrefix := ">>>>>>>>Failed to fetch All users "

  /** The collection `fetchAllUsers()` reads. */
  const UsersCollection := ["users"]

  class CreateNewMessageViewModel {
    var users: seq<ChatUser>
    var errorMessage: string

    /** `init()`: the lists start empty; the fetch of `UsersCollection` is then issued. */
    constructor ()
      ensures users == [] && errorMessage == ""
    {
      users, errorMessage := [], "";
    }

    /** The completion of the `users` fetch: an error only sets `errorMessage`; otherwise every
        document whose decoded uid is not the current uid is appended, in order. */
    method OnUsersFetched(response: Callback<seq<Data>>, currentUid: Option<string>, decodeUser: Data -> ChatUser)
      modifies this
      ensures response.error.Some? ==> users == old(users)
      ensures response.error.Some? ==> errorMessage == FetchUsersErrorPrefix + response.error.value
      ensures response.error.None? ==> errorMessage == old(errorMessage)
      ensures response.error.None? && response.result.None? ==> users == old(users)
      ensures response.error.None? && response.result.Some? ==>
        users == old(users) + OtherUsers(response.result.value, currentUid, decodeUser)
    {
      if response.error.Some? {
        errorMessage := FetchUsersErrorPrefix + response.error.value;
        return;
      }
      if response.result.None? {
        return;
      }
      var documents := response.result.value;
      var i := 0;
      while i < |documents|
        invariant 0 <= i <= |documents|
        invariant users == old(users) + OtherUsers(documents[..i], currentUid, decodeUser)
        invariant errorMessage == old(errorMessage)
      {
        var data := documents[i];
        var user := decodeUser(data);
        if Some(user.uid) != currentUid {
          users := users + [decodeUser(data)];
        }
        assert documents[..i + 1] == documents[..i] + [data];
        OtherUsersSnoc(documents[..i], data, currentUid, decodeUser);
        i := i + 1;
      }
      assert documents[..i] == documents;
    }
  }
}
