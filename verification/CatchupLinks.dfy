/** The links this service writes into streams, servers and users never dangle, at whichever write a
    request stops. */
module CatchupLinks {
  import opened Common
  import opened Bson
  import opened Infos
  import opened Urls
  import opened UserEntries
  import opened Store
  import opened UserUpdates
  import opened CatchupDocs
  import opened CatchupCache
  import opened CatchupCalls
  import opened CatchupRequests
  import opened CatchupViews
  import opened CatchupRuns

  function Served(servers: seq<Doc>, i: nat): seq<Value>
    requires i < |servers|
  {
    Items(servers[i], STREAMS_FIELD)
  }

  // ---- links made between two states ---------------------------------------------------------

  /** Nothing that links point to goes away, and no link does. */
  ghost predicate Grown(a: Db, b: Db) {
    && (forall s :: s in a.streams ==> s in b.streams && Parts(a.streams[s]) <= Parts(b.streams[s]))
    && |a.servers| == |b.servers|
    && (forall i, v :: 0 <= i < |a.servers| && v in Served(a.servers, i) ==> v in Served(b.servers, i))
    && (forall r :: r in a.requests ==> r in b.requests)
  }

  /** Every part of a stream was there before or exists. */
  ghost predicate PartsExist(a: Db, b: Db) {
    forall s, p :: s in b.streams && p in Parts(b.streams[s]) ==>
      p in b.streams || (s in a.streams && p in Parts(a.streams[s]))
  }

  /** It exists, and is a part of a stream of the same server. */
  ghost predicate IsServedPart(b: Db, i: nat, v: Value)
    requires i < |b.servers|
  {
    v.Oid? && v.id in b.streams
    && exists s :: s in b.streams && v.id in Parts(b.streams[s]) && Oid(s) in Served(b.servers, i)
  }

  ghost predicate ServedExist(a: Db, b: Db)
    requires |a.servers| == |b.servers|
  {
    forall i, v :: 0 <= i < |b.servers| && v in Served(b.servers, i) ==> v in Served(a.servers, i) || IsServedPart(b, i, v)
  }

  ghost predicate RequestsExist(a: Db, b: Db) {
    forall u, v :: u in b.subscribers && v in Items(b.subscribers[u], REQUESTS_FIELD) ==>
      (v.Oid? && v.id in b.requests) || (u in a.subscribers && v in Items(a.subscribers[u], REQUESTS_FIELD))
  }

  /** Every link of `b` that `a` does not have points to something that exists; a stream linked to a server
      is a part of a stream of that server. */
  ghost predicate Linked(a: Db, b: Db) {
    Grown(a, b) && PartsExist(a, b) && ServedExist(a, b) && RequestsExist(a, b)
  }

  lemma LinkedTrans(a: Db, b: Db, c: Db)
    requires Linked(a, b) && Linked(b, c)
    ensures Linked(a, c)
  {
  }

  lemma LinkedSame(db: Db)
    ensures Linked(db, db)
  {
  }

  // ---- one write -----------------------------------------------------------------------------

  lemma PushedItems(d: Doc, k: Key, v: Value)
    requires Push(d, k, v).Some?
    ensures Items(Push(d, k, v).value, k) == Items(d, k) + [v]
    ensures forall q :: q != k ==> Items(Push(d, k, v).value, q) == Items(d, q)
  {
    assert [] + [v] == [v];
    SetFieldFrame(d, k, Array(Items(d, k) + [v]));
  }

  lemma InsertLinked(db: Db, cid: string, doc: Doc, o: Outcome)
    requires cid !in db.streams && Parts(doc) == []
    ensures Linked(db, Inserted(db, cid, doc, o))
  {
  }

  lemma PartAppended(db: Db, sid: string, cid: string, e: Doc)
    requires sid in db.streams && cid in db.streams && Parts(e) == Parts(db.streams[sid]) + [cid]
    ensures Linked(db, db.(streams := db.streams[sid := e]))
  {
  }

  lemma PartLinks(db: Db, sid: string, cid: string, o: Outcome)
    requires sid in db.streams && cid in db.streams
    ensures Linked(db, PartLinked(db, sid, cid, o))
    ensures Reported(o, Push(db.streams[sid], PARTS_FIELD, Oid(cid))) ==>
              sid in PartLinked(db, sid, cid, o).streams && cid in Parts(PartLinked(db, sid, cid, o).streams[sid])
  {
    var pushed := Push(db.streams[sid], PARTS_FIELD, Oid(cid));
    if o == Refused || pushed.None? {
      assert db.streams[sid := db.streams[sid]] == db.streams;
      LinkedSame(db);
    } else {
      PushedParts(db.streams[sid], cid);
      PartAppended(db, sid, cid, pushed.value);
    }
  }

  lemma ServerLinks(db: Db, at: nat, sid: string, cid: string, o: Outcome)
    requires at < |db.servers| && Oid(sid) in Served(db.servers, at)
    requires sid in db.streams && cid in db.streams && cid in Parts(db.streams[sid])
    ensures Linked(db, ServerLinked(db, at, cid, o))
  {
    var after := ServerLinked(db, at, cid, o);
    if Push(db.servers[at], STREAMS_FIELD, Oid(cid)).Some? {
      PushedItems(db.servers[at], STREAMS_FIELD, Oid(cid));
      assert Oid(sid) in Served(after.servers, at);
    }
  }

  lemma UserLinks(db: Db, uid: string, k: Key, v: Value, o: Outcome)
    requires k == REQUESTS_FIELD ==> v.Oid? && v.id in db.requests
    ensures uid in db.subscribers ==>
              Linked(db, db.(subscribers := db.subscribers[uid := Written(o, db.subscribers[uid], Push(db.subscribers[uid], k, v))]))
  {
    if uid in db.subscribers && Push(db.subscribers[uid], k, v).Some? {
      PushedItems(db.subscribers[uid], k, v);
    }
  }

  // ---- one request ---------------------------------------------------------------------------

  lemma WritesLinked(db: Db, at: nat, sid: string, cid: string, doc: Doc, fate: Fate)
    requires sid in db.streams && at < |db.servers| && Oid(sid) in Served(db.servers, at)
    requires cid !in db.streams && Parts(doc) == []
    ensures Linked(db, Writes(db, at, sid, cid, doc, fate).0)
  {
    var db1 := Inserted(db, cid, doc, fate.insert);
    InsertLinked(db, cid, doc, fate.insert);
    if fate.insert == Done {
      var db2 := PartLinked(db1, sid, cid, fate.part);
      PartLinks(db1, sid, cid, fate.part);
      LinkedTrans(db, db1, db2);
      if Reported(fate.part, Push(db1.streams[sid], PARTS_FIELD, Oid(cid))) {
        ServerLinks(db2, at, sid, cid, fate.server);
        LinkedTrans(db, db2, ServerLinked(db2, at, cid, fate.server));
      }
    }
  }

  lemma CreateLinked(lib: Library, db: Db, ep: Endpoint, base: ChannelInfo, key: CatKey, fate: Fate)
    requires Fresh(db.streams, fate.cid)
    ensures Linked(db, Create(lib, db, ep, base, key, fate).0)
  {
    LinkedSame(db);
    var plan := Prepare(db, ep, base.base.id);
    if plan.Ok? {
      var urls := ReadOutputs(lib, plan.value.outputs);
      NewDocServes(lib, ep, fate.cid, fate.now, key, base, urls);
      WritesLinked(db, plan.value.server, base.base.id, fate.cid, NewDoc(lib, ep, fate.cid, fate.now, key, base, urls), fate);
    }
  }

  lemma CreateCatchupLinked(lib: Library, db: Db, ep: Endpoint, uid: string, sid: string, key: CatKey, fate: Fate)
    requires Fresh(db.streams, fate.cid)
    ensures Linked(db, CreateCatchup(lib, db, ep, uid, sid, key, fate).0)
  {
    LinkedSame(db);
    if FindStream(lib, db, uid, sid).Ok? {
      CreateLinked(lib, db, ep, FindStream(lib, db, uid, sid).value, key, fate);
    }
  }

  lemma AddLinked(lib: Library, db: Db, db1: Db, uid: string, cid: string, o: Outcome)
    requires Linked(db, db1)
    ensures Linked(db, AddUserCatchup(lib, db1, uid, cid, o).0)
  {
    UserLinks(db1, uid, CATCHUPS_FIELD, Document(NewEntry(cid, Some(lib.classes.userStream))), o);
    LinkedSame(db1);
    LinkedTrans(db, db1, AddUserCatchup(lib, db1, uid, cid, o).0);
  }

  lemma GenerateLinked(lib: Library, db: Db, ep: Endpoint, uid: string, sid: string, key: CatKey, fate: Fate)
    requires Fresh(db.streams, fate.cid)
    ensures Linked(db, Generate(lib, db, ep, uid, sid, key, fate).0)
  {
    var (db1, r) := CreateCatchup(lib, db, ep, uid, sid, key, fate);
    CreateCatchupLinked(lib, db, ep, uid, sid, key, fate);
    if r.Ok? {
      AddLinked(lib, db, db1, uid, r.value.cat.base.id, fate.user);
    }
  }

  lemma RequestLinked(lib: Library, db: Db, uid: string, title: string, kind: int32, status: int32, fate: RequestFate)
    requires fate.rid !in db.requests
    ensures Linked(db, CreateRequest(lib, db, uid, title, kind, status, fate).0)
  {
    LinkedSame(db);
    if uid != "" {
      var doc := RequestDoc(lib, fate.rid, title, kind, status);
      var db1 := db.(requests := Written(fate.insert, db.requests, Some(db.requests[fate.rid := doc])));
      assert Linked(db, db1);
      if fate.insert == Done && uid in db1.subscribers {
        UserLinks(db1, uid, REQUESTS_FIELD, Oid(fate.rid), fate.user);
        LinkedTrans(db, db1, PushRequest(db1, uid, fate.rid, fate.user));
      }
    }
  }

  lemma CountedParts(d: Doc)
    requires Inc(d, VIEW_COUNT_FIELD).Some?
    ensures Parts(Inc(d, VIEW_COUNT_FIELD).value) == Parts(d)
  {
    var v := First(Inc(d, VIEW_COUNT_FIELD).value, VIEW_COUNT_FIELD).value;
    SetFieldOther(d, VIEW_COUNT_FIELD, v, PARTS_FIELD);
  }

  lemma SameLists(db: Db, after: Db)
    requires after.servers == db.servers && after.requests == db.requests
    requires db.streams.Keys == after.streams.Keys
    requires forall s :: s in db.streams ==> Parts(after.streams[s]) == Parts(db.streams[s])
    requires SameRequests(db.subscribers, after.subscribers)
    ensures Linked(db, after)
  {
  }

  /** SetRecent makes no links. */
  lemma RecentLinked(lib: Library, db: Db, uid: string, sid: string, ts: int, entry: Outcome, view: Outcome)
    ensures Linked(db, AfterRecent(lib, db, uid, sid, ts, entry, view))
  {
    var after := AfterRecent(lib, db, uid, sid, ts, entry, view);
    RecentStreams(lib, db, uid, sid, ts, entry, view);
    if Counts(lib, db.streams, uid, sid, view) {
      CountedParts(db.streams[sid]);
    }
    var arr := Target(lib, db, uid, sid);
    if arr.Ok? {
      SetsAllowed(db, uid, arr.value, sid, RECENT_FIELD, DateTime(ts), "", entry);
    }
    SameLists(db, after);
  }

  lemma StepLinked(lib: Library, s: State, step: Step)
    requires Enabled(s, step)
    ensures Linked(s.db, Next(lib, s, step).db)
  {
    match step
    case Generated(ep, uid, sid, key, fate) => GenerateLinked(lib, s.db, ep, uid, sid, key, fate);
    case Requested(uid, title, kind, status, fate) => RequestLinked(lib, s.db, uid, title, kind, status, fate);
    case Viewed(uid, sid, ts, entry, view) => RecentLinked(lib, s.db, uid, sid, ts, entry, view);
    case UsersChanged(subscribers) => LinkedSame(s.db);
  }

  /** In every state of every run each link that was not there at the start leads somewhere. A run may stop
      after any write: what follows a refused write is not made, so that state is the end of a run too. */
  lemma {:induction false} NoDanglingLinks(lib: Library, s: State, steps: seq<Step>)
    requires Run(lib, s, steps).Some?
    ensures Linked(s.db, Run(lib, s, steps).value.db)
  {
    if steps == [] {
      LinkedSame(s.db);
    } else {
      var n := |steps| - 1;
      NoDanglingLinks(lib, s, steps[..n]);
      var before := Run(lib, s, steps[..n]).value;
      StepLinked(lib, before, steps[n]);
      LinkedTrans(s.db, before.db, Next(lib, before, steps[n]).db);
    }
  }
}
