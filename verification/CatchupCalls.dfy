/** A request for a catchup: find the stream of the user, find the catchup in its parts or create it by
    three writes, add it to the user, tell the daemon. */
module CatchupCalls {
  import opened Common
  import opened Bson
  import opened Infos
  import opened Urls
  import opened Schemas
  import opened FieldValues
  import opened UserEntries
  import opened Store
  import opened UserUpdates
  import opened CatchupDocs
  import opened CatchupCache

  // ---- the calls -----------------------------------------------------------------------------

  /** Some entry of the user's streams is for this stream. */
  predicate HasStream(d: Doc, sid: string) {
    exists v :: v in Items(d, STREAMS_FIELD) && Refers(v, SID_FIELD, sid)
  }

  /** The user flags are read from the whole user document, not from the entry. */
  function FindStream(lib: Library, db: Db, uid: string, sid: string): Result<ChannelInfo> {
    if uid == "" || sid == "" then Err(InvalidArgument)
    else if uid !in db.subscribers || !HasStream(db.subscribers[uid], sid) || sid !in db.streams then Err(StreamNotFound)
    else
      match TypeOf(lib, db.streams[sid])
      case None => Err(InvalidStream)
      case Some(st) =>
        if IsVod(st) || !Accepts(Channel, st, db.streams[sid]) then Err(StreamNotFound)
        else Ok(ChannelOf(lib, Index(db.streams[sid]), UserInfo(db.subscribers[uid], 0)))
  }

  /** The first server whose streams hold this one. */
  function ServerOf(servers: seq<Doc>, sid: string): (at: nat)
    ensures at <= |servers|
    ensures at < |servers| ==> Oid(sid) in Items(servers[at], STREAMS_FIELD)
    ensures forall j :: 0 <= j < at ==> Oid(sid) !in Items(servers[j], STREAMS_FIELD)
  {
    if servers == [] || Oid(sid) in Items(servers[0], STREAMS_FIELD) then 0 else 1 + ServerOf(servers[1..], sid)
  }

  datatype Plan = Plan(server: nat, serverId: string, outputs: seq<Value>)

  /** Everything that is checked before the first write. */
  function Prepare(db: Db, ep: Endpoint, sid: string): (r: Result<Plan>)
    ensures r.Ok? ==> sid in db.streams && r.value.server == ServerOf(db.servers, sid) < |db.servers|
  {
    if !ep.valid then Err(NotPrepared)
    else if sid == "" then Err(InvalidStreamId)
    else if sid !in db.streams then Err(StreamNotFound)
    else
      var at, sdoc := ServerOf(db.servers, sid), db.streams[sid];
      if at == |db.servers| then Err(ServerNotFound)
      else
        match First(db.servers[at], ID_FIELD)
        case Some(Oid(server)) =>
          if TextAt(sdoc, CLS_FIELD) == None then Err(InvalidStream)
          else
            (match First(sdoc, OUTPUT_FIELD)
             case Some(Array(items)) => Ok(Plan(at, server, items))
             case _ => Err(InvalidStream))
        case _ => Err(InvalidStream)
  }

  /** The outcomes of the four writes of one request, and what the environment provides. */
  datatype Fate = Fate(cid: string, now: int, insert: Outcome, part: Outcome, server: Outcome, user: Outcome)

  datatype Reply = Reply(cat: CatchupInfo, serverId: Option<string>, isCreated: bool)

  function Inserted(db: Db, cid: string, doc: Doc, o: Outcome): Db {
    db.(streams := Written(o, db.streams, Some(db.streams[cid := doc])))
  }

  function PartLinked(db: Db, sid: string, cid: string, o: Outcome): Db
    requires sid in db.streams
  {
    db.(streams := db.streams[sid := Written(o, db.streams[sid], Push(db.streams[sid], PARTS_FIELD, Oid(cid)))])
  }

  function ServerLinked(db: Db, at: nat, cid: string, o: Outcome): Db
    requires at < |db.servers|
  {
    db.(servers := db.servers[at := Written(o, db.servers[at], Push(db.servers[at], STREAMS_FIELD, Oid(cid)))])
  }

  /** The three writes; each is made only if the one before it was reported as done. */
  function Writes(db: Db, at: nat, sid: string, cid: string, doc: Doc, fate: Fate): (Db, bool)
    requires sid in db.streams && at < |db.servers|
  {
    var db1 := Inserted(db, cid, doc, fate.insert);
    if fate.insert != Done then (db1, false)
    else
      var db2 := PartLinked(db1, sid, cid, fate.part);
      if !Reported(fate.part, Push(db1.streams[sid], PARTS_FIELD, Oid(cid))) then (db2, false)
      else (ServerLinked(db2, at, cid, fate.server), Reported(fate.server, Push(db2.servers[at], STREAMS_FIELD, Oid(cid))))
  }

  function Create(lib: Library, db: Db, ep: Endpoint, base: ChannelInfo, key: CatKey, fate: Fate): (Db, Result<Reply>) {
    match Prepare(db, ep, base.base.id)
    case Err(e) => (db, Err(e))
    case Ok(plan) =>
      var urls := ReadOutputs(lib, plan.outputs);
      var doc := NewDoc(lib, ep, fate.cid, fate.now, key, base, urls);
      var (db', done) := Writes(db, plan.server, base.base.id, fate.cid, doc, fate);
      (db', if done then Ok(Reply(CreatedInfo(lib, ep, fate.cid, key, base, urls), Some(plan.serverId), true))
            else Err(WriteFailed))
  }

  function CreateOrFind(lib: Library, db: Db, ep: Endpoint, base: ChannelInfo, key: CatKey,
                        fate: Fate): (Db, Result<Reply>) {
    match FirstHit(db.streams, base.base.parts, key)
    case Some(p) => (db, Ok(Reply(CatchupOf(lib, Index(db.streams[p]), NO_USER_INFO), None, false)))
    case None => Create(lib, db, ep, base, key, fate)
  }

  function CreateCatchup(lib: Library, db: Db, ep: Endpoint, uid: string, sid: string, key: CatKey,
                         fate: Fate): (Db, Result<Reply>) {
    match FindStream(lib, db, uid, sid)
    case Err(e) => (db, Err(e))
    case Ok(base) => CreateOrFind(lib, db, ep, base, key, fate)
  }

  /** An update by id that meets no document is not an error. */
  function AddUserCatchup(lib: Library, db: Db, uid: string, cid: string, o: Outcome): (Db, Option<Error>) {
    if uid == "" || cid == "" then (db, Some(InvalidArgument))
    else
      var entry := NewEntry(cid, Some(lib.classes.userStream));
      (PushEntry(db, uid, CATCHUPS_FIELD, entry, o),
       if o == Done && (uid in db.subscribers ==> Push(db.subscribers[uid], CATCHUPS_FIELD, Document(entry)).Some?)
       then None else Some(WriteFailed))
  }

  /** What the daemon of a server is told about a new catchup. */
  datatype Note = Note(sid: string, key: CatKey, serverId: Option<string>, cat: CatchupInfo)

  /** The handler: an error anywhere ends the request; only a catchup that was created is announced. */
  function Generate(lib: Library, db: Db, ep: Endpoint, uid: string, sid: string, key: CatKey, fate: Fate):
    (Db, Result<CatchupInfo>, seq<Note>)
  {
    var (db1, r) := CreateCatchup(lib, db, ep, uid, sid, key, fate);
    match r
    case Err(e) => (db1, Err(e), [])
    case Ok(reply) =>
      var (db2, failed) := AddUserCatchup(lib, db1, uid, reply.cat.base.id, fate.user);
      if failed.Some? then (db2, Err(failed.value), [])
      else (db2, Ok(reply.cat), if reply.isCreated then [Note(sid, key, reply.serverId, reply.cat)] else [])
  }

  // ---- one call ------------------------------------------------------------------------------

  lemma StoredBase(lib: Library, sid: string, sdoc: Doc, u: UserStreamInfo)
    requires ValidStream(sid, sdoc)
    ensures var base := BaseOf(lib, Index(sdoc), u);
            base.id == sid && base.parts == Parts(sdoc) && ToInt32(base.iarc) == base.iarc
  {
    IndexIsFirst(sdoc, ID_FIELD);
    IndexIsFirst(sdoc, PARTS_FIELD);
    assert ItemsAt(Index(sdoc), PARTS_FIELD) == Items(sdoc, PARTS_FIELD);
  }

  /** The stream that was found is the one asked for, and its parts are the stored ones. */
  lemma FoundBase(lib: Library, db: Db, uid: string, sid: string)
    requires ValidStreams(db.streams) && FindStream(lib, db, uid, sid).Ok?
    ensures var base := FindStream(lib, db, uid, sid).value;
            && sid in db.streams && base.base.id == sid && base.base.parts == Parts(db.streams[sid])
            && ToInt32(base.base.iarc) == base.base.iarc
  {
    assert ValidStream(sid, db.streams[sid]);
    StoredBase(lib, sid, db.streams[sid], UserInfo(db.subscribers[uid], 0));
  }

  lemma HitId(lib: Library, streams: Streams, p: string, key: CatKey)
    requires ValidStreams(streams) && Hit(streams, p, key)
    ensures CatchupOf(lib, Index(streams[p]), NO_USER_INFO).base.id == p && p != ""
  {
    assert ValidStream(p, streams[p]);
    IndexIsFirst(streams[p], ID_FIELD);
  }

  /** The new document is a valid stream without parts that serves exactly its own request. */
  lemma NewDocServes(lib: Library, ep: Endpoint, cid: string, now: int, key: CatKey, base: ChannelInfo,
                     urls: seq<OutputUri>)
    requires cid != ""
    ensures var d := NewDoc(lib, ep, cid, now, key, base, urls);
            && ValidStream(cid, d) && Parts(d) == [] && Accepts(Catchup, CATCHUP, d)
            && First(d, CLS_FIELD) == Some(Utf8(lib.classes.catchup))
            && forall k :: KeyMatches(d, k) <==> k == key
  {
    var d := NewDoc(lib, ep, cid, now, key, base, urls);
    NewDocAccepted(lib, ep, cid, now, key, base, urls);
    NewDocValues(lib, ep, cid, now, key, base, urls);
    NewDocKeys(lib, ep, cid, now, key, base, urls);
    IndexIsFirst(d, ID_FIELD);
    IndexIsFirst(d, CLS_FIELD);
    IndexIsFirst(d, NAME_FIELD);
    IndexIsFirst(d, START_FIELD);
    IndexIsFirst(d, STOP_FIELD);
    IndexIsFirst(d, PARTS_FIELD);
    var head, tail := Head(lib, cid, now, key, base), Tail(key, base);
    assert Index(d)[ID_FIELD] == head[0].value && Index(d)[CLS_FIELD] == head[1].value && Index(d)[NAME_FIELD] == head[3].value;
    assert Index(d)[PARTS_FIELD] == head[12].value;
    assert Index(d)[START_FIELD] == tail[10].value && Index(d)[STOP_FIELD] == tail[11].value;
    NewDocLists(d);
  }

  lemma NewDocLists(d: Doc)
    requires |d| == 28 && (forall i :: 0 <= i < 28 ==> d[i].key == i) && First(d, PARTS_FIELD) == Some(Array([]))
    ensures OidLists(d)
  {
  }

  lemma InsertKeeps(streams: Streams, sid: string, cid: string, key: CatKey, doc: Doc)
    requires Good(streams) && Fresh(streams, cid) && sid in streams && FirstHit(streams, Parts(streams[sid]), key) == None
    requires ValidStream(cid, doc) && Parts(doc) == [] && Accepts(Catchup, CATCHUP, doc)
    requires forall k :: KeyMatches(doc, k) <==> k == key
    ensures var after := streams[cid := doc];
            && Good(after) && Later(streams, after) && after[sid] == streams[sid]
            && FirstHit(after, Parts(after[sid]), key) == None
            && forall k :: Hit(after, cid, k) <==> k == key
  {
    var after := streams[cid := doc];
    InsertStage(streams, cid, doc);
    FirstHitNone(streams, Parts(streams[sid]), key);
    FirstHitNone(after, Parts(streams[sid]), key);
  }

  /** The catchup is linked: from now on it is what the request finds. */
  lemma LinkServes(streams: Streams, sid: string, cid: string, key: CatKey)
    requires Good(streams) && sid in streams && Push(streams[sid], PARTS_FIELD, Oid(cid)).Some?
    requires FirstHit(streams, Parts(streams[sid]), key) == None && forall k :: Hit(streams, cid, k) <==> k == key
    ensures var after := streams[sid := Push(streams[sid], PARTS_FIELD, Oid(cid)).value];
            && Good(after) && Later(streams, after) && FirstHit(after, Parts(after[sid]), key) == Some(cid)
  {
    LinkStage(streams, sid, cid);
    var after := streams[sid := Push(streams[sid], PARTS_FIELD, Oid(cid)).value];
    FirstHitNone(streams, Parts(streams[sid]), key);
    FirstHitNone(after, Parts(streams[sid]), key);
    FirstHitAppended(after, Parts(streams[sid]), cid, key);
  }

  lemma LinkMaybe(db: Db, sid: string, cid: string, key: CatKey, o: Outcome)
    requires Good(db.streams) && sid in db.streams
    requires FirstHit(db.streams, Parts(db.streams[sid]), key) == None && forall k :: Hit(db.streams, cid, k) <==> k == key
    ensures var after := PartLinked(db, sid, cid, o).streams;
            && Good(after) && Later(db.streams, after)
            && (Reported(o, Push(db.streams[sid], PARTS_FIELD, Oid(cid))) ==>
                FirstHit(after, Parts(after[sid]), key) == Some(cid))
  {
    var pushed := Push(db.streams[sid], PARTS_FIELD, Oid(cid));
    if o == Refused || pushed.None? {
      LaterSame(db.streams);
      assert db.streams[sid := db.streams[sid]] == db.streams;
    } else {
      LinkServes(db.streams, sid, cid, key);
    }
  }

  lemma LaterSame(a: Streams)
    ensures Later(a, a)
  {
  }

  lemma WritesKeep(db: Db, at: nat, sid: string, cid: string, doc: Doc, key: CatKey, fate: Fate)
    requires Good(db.streams) && Fresh(db.streams, cid) && sid in db.streams && at < |db.servers|
    requires FirstHit(db.streams, Parts(db.streams[sid]), key) == None
    requires ValidStream(cid, doc) && Parts(doc) == [] && Accepts(Catchup, CATCHUP, doc)
    requires forall k :: KeyMatches(doc, k) <==> k == key
    ensures var (db', done) := Writes(db, at, sid, cid, doc, fate);
            && Good(db'.streams) && Later(db.streams, db'.streams) && db'.subscribers == db.subscribers
            && (done ==> FirstHit(db'.streams, Parts(db'.streams[sid]), key) == Some(cid))
            && (done ==> cid in db'.streams && db'.streams[cid] == doc)
  {
    LaterSame(db.streams);
    InsertKeeps(db.streams, sid, cid, key, doc);
    var db1 := Inserted(db, cid, doc, fate.insert);
    if fate.insert == Done {
      LinkMaybe(db1, sid, cid, key, fate.part);
      LaterTrans(db.streams, db1.streams, PartLinked(db1, sid, cid, fate.part).streams);
    }
  }

  /** Whatever the three writes do, no stream gets two parts for one request; a creation that is reported
      leaves the new catchup as what the request finds. */
  lemma CreateKeeps(lib: Library, db: Db, ep: Endpoint, base: ChannelInfo, key: CatKey, fate: Fate)
    requires Good(db.streams) && Fresh(db.streams, fate.cid)
    requires base.base.id in db.streams && FirstHit(db.streams, Parts(db.streams[base.base.id]), key) == None
    ensures var (db', r) := Create(lib, db, ep, base, key, fate);
            && Good(db'.streams) && Later(db.streams, db'.streams) && db'.subscribers == db.subscribers
            && (r.Ok? ==> r.value.isCreated && r.value.cat.base.id == fate.cid
                          && FirstHit(db'.streams, Parts(db'.streams[base.base.id]), key) == Some(fate.cid)
                          && fate.cid in db'.streams && TypeOf(lib, db'.streams[fate.cid]).Some?)
  {
    LaterSame(db.streams);
    var plan := Prepare(db, ep, base.base.id);
    if plan.Ok? {
      var urls := ReadOutputs(lib, plan.value.outputs);
      var doc := NewDoc(lib, ep, fate.cid, fate.now, key, base, urls);
      NewDocServes(lib, ep, fate.cid, fate.now, key, base, urls);
      WritesKeep(db, plan.value.server, base.base.id, fate.cid, doc, key, fate);
    }
  }
}
