/**
 * What the chat client exchanges with its hosted document database, seen from the
 * application: documents are string-keyed maps of field values, listeners deliver
 * batches of document changes, fetches and listeners report through a callback
 * that carries an optional error and an optional result, and every `setData` call
 * is recorded as a write in an output log.
 */
module Backend {

  datatype Option<+T> = None | Some(value: T)

  /** A point in time as the database stores it; the application never looks inside. */
  datatype Timestamp = Timestamp(seconds: int, nanoseconds: int)

  /** A field value of a document: a string, a timestamp, or a value of any other kind. */
  datatype Value = Str(s: string) | Time(t: Timestamp) | Other(tag: int)

  /** The `[String: Any]` data of a document. */
  type Data = map<string, Value>

  /** The field under `key` holds exactly the string `field`, or `field` is empty and no string is stored there. */
  ghost predicate FieldDecoded(field: string, data: Data, key: string) {
    && (key in data && data[key].Str? ==> field == data[key].s)
    && (field != "" ==> key in data && data[key] == Str(field))
  }

  /** `data[key] as? String ?? ""` */
  function StringField(data: Data, key: string): (r: string)
    ensures FieldDecoded(r, data, key)
  {
    if key in data && data[key].Str? then data[key].s else ""
  }

  /** `data[key] as? Timestamp ?? default` */
  function TimestampField(data: Data, key: string, default: Timestamp): (r: Timestamp)
    ensures key in data && data[key].Time? ==> r == data[key].t
    ensures r != default ==> key in data && data[key] == Time(r)
  {
    if key in data && data[key].Time? then data[key].t else default
  }

  /** The kind of a document change a listener reports. */
  datatype ChangeType = Added | Modified | Removed

  /** One entry of a snapshot's `documentChanges`: the document's id, its data and the kind of change. */
  datatype DocumentChange = DocumentChange(documentId: string, data: Data, kind: ChangeType)

  /** The two arguments a completion or listener callback receives; either may be absent. */
  datatype Callback<T> = Callback(error: Option<string>, result: Option<T>)

  /** The batch a listener or fetch callback carries; a missing snapshot carries none. */
  function ChangesOf<T>(event: Callback<seq<T>>): seq<T> {
    match event.result
    case None => []
    case Some(items) => items
  }

  /** Where a write goes: a new document with a generated id in a collection, or a named document. */
  datatype DocRef = NewDocumentIn(collection: seq<string>) | Document(path: seq<string>)

  /** One `setData` call: the document written and the record written to it. */
  datatype Write = Write(target: DocRef, record: Data)

  /** A user record as stored in the `users` collection. */
  datatype ChatUser = ChatUser(uid: string, email: string, profileImageUrl: string)

  // Field names of message records
  const FromIdKey := "fromId"
  const ToIdKey := "toId"
  const TextKey := "text"
  const EmailKey := "email"
  const ProfileImageUrlKey := "profileImageUrl"
  const TimestampKey := "timestamp"
}
