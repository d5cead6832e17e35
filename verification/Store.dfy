/** The database: five collections, and writes that may fail. */
module Store {
  import opened Common
  import opened Bson
  import opened Schemas

  /** Servers are kept in their natural order, since they are searched by content; the other collections
      are searched by id. */
  datatype Db = Db(
    subscribers: map<string, Doc>,
    servers: seq<Doc>,
    streams: map<string, Doc>,
    series: map<string, Doc>,
    requests: map<string, Doc>)

  /** A write succeeds, is refused, or is applied although an error is reported (the reply was lost). */
  datatype Outcome = Done | Refused | Lost

  /** What a write leaves behind, given what it would write; the server itself refuses None. */
  function Written<T>(o: Outcome, before: T, after: Option<T>): T {
    if o == Refused || after == None then before else after.value
  }

  predicate Reported<T>(o: Outcome, after: Option<T>) {
    o == Done && after.Some?
  }

  /** Documents have distinct keys, are stored under their own id, and link to object ids only. */
  predicate ValidStreams(streams: map<string, Doc>) {
    forall id :: id in streams ==> ValidStream(id, streams[id])
  }

  predicate ValidStream(id: string, d: Doc) {
    id != "" && Distinct(d) && First(d, ID_FIELD) == Some(Oid(id)) && OidLists(d)
  }

  predicate HasEmail(d: Doc, email: string) {
    First(d, EMAIL_FIELD) == Some(Utf8(email))
  }

  /** No two users share an email. */
  predicate UniqueEmails(subscribers: map<string, Doc>) {
    forall u, v :: u in subscribers && v in subscribers && u != v
                   && First(subscribers[u], EMAIL_FIELD).Some? && First(subscribers[u], EMAIL_FIELD).value.Utf8? ==>
      First(subscribers[u], EMAIL_FIELD) != First(subscribers[v], EMAIL_FIELD)
  }

  /** The query by email. */
  method FindByEmail(subscribers: map<string, Doc>, email: string) returns (uid: Option<string>)
    ensures uid.Some? ==> uid.value in subscribers && HasEmail(subscribers[uid.value], email)
    ensures uid.None? ==> forall u :: u in subscribers ==> !HasEmail(subscribers[u], email)
  {
    if u :| u in subscribers && HasEmail(subscribers[u], email) {
      uid := Some(u);
    } else {
      uid := None;
    }
  }

  /** With unique emails the query has one answer. */
  lemma OneUser(subscribers: map<string, Doc>, u: string, v: string, email: string)
    requires UniqueEmails(subscribers) && u in subscribers && v in subscribers
    requires HasEmail(subscribers[u], email) && HasEmail(subscribers[v], email)
    ensures u == v
  {
  }
}
