/** One request for a catchup or for content: what it leaves behind, when it succeeds and when it is
    announced, for every outcome of its writes. */
module CatchupRequests {
  import opened Common
  import opened Bson
  import opened Infos
  import opened Urls
  import opened Schemas
  import opened FieldValues
  import opened UserEntries
  import opened Store
  import opened UserUpdates
  import opened CatchupDocs
  import opened CatchupCache
  import opened CatchupCalls
  import opened CatchupViews

  // ---- content requests ----------------------------------------------------------------------

  function RequestDoc(lib: Library, rid: string, title: string, kind: int32, status: int32): Doc {
    [Field(ID_FIELD, Oid(rid)), Field(TITLE_FIELD, Utf8(title)), Field(CLS_FIELD, Utf8(lib.classes.request)),
     Field(STATUS_FIELD, I32(status)), Field(TYPE_FIELD, I32(kind))]
  }

  datatype RequestFate = RequestFate(rid: string, insert: Outcome, user: Outcome)

  function PushRequest(db: Db, uid: string, rid: string, o: Outcome): Db {
    if uid in db.subscribers
    then db.(subscribers := db.subscribers[uid :=
               Written(o, db.subscribers[uid], Push(db.subscribers[uid], REQUESTS_FIELD, Oid(rid)))])
    else db
  }

  function CreateRequest(lib: Library, db: Db, uid: string, title: string, kind: int32, status: int32,
                         fate: RequestFate):
    (Db, Result<ContentRequestInfo>)
  {
    if uid == "" then (db, Err(InvalidArgument))
    else
      var doc := RequestDoc(lib, fate.rid, title, kind, status);
      var db1 := db.(requests := Written(fate.insert, db.requests, Some(db.requests[fate.rid := doc])));
      if fate.insert != Done then (db1, Err(WriteFailed))
      else
        var db2 := PushRequest(db1, uid, fate.rid, fate.user);
        (db2, if fate.user == Done && (uid in db1.subscribers ==> Push(db1.subscribers[uid], REQUESTS_FIELD, Oid(fate.rid)).Some?)
              then Ok(ContentRequestInfo(fate.rid, title, kind, status)) else Err(WriteFailed))
  }

  lemma RequestFields(lib: Library, rid: string, title: string, kind: int32, status: int32)
    ensures var d := RequestDoc(lib, rid, title, kind, status);
            var t := Index(d);
            && Distinct(d) && ID_FIELD in t && TITLE_FIELD in t && STATUS_FIELD in t && TYPE_FIELD in t
            && t[ID_FIELD] == Oid(rid) && t[TITLE_FIELD] == Utf8(title) && t[STATUS_FIELD] == I32(status) && t[TYPE_FIELD] == I32(kind)
  {
    var d := RequestDoc(lib, rid, title, kind, status);
    assert d[0].key == ID_FIELD && d[1].key == TITLE_FIELD && d[2].key == CLS_FIELD;
    assert d[3].key == STATUS_FIELD && d[4].key == TYPE_FIELD;
    IndexHoldsFields(d);
    assert d[0].key in Keys(d) && d[1].key in Keys(d) && d[3].key in Keys(d) && d[4].key in Keys(d);
  }

  lemma RequestTyped(lib: Library, rid: string, title: string, kind: int32, status: int32)
    ensures WellTyped(Request, RequestDoc(lib, rid, title, kind, status))
  {
  }

  /** The request reader accepts what was written and reads the same info back. */
  lemma RequestRead(lib: Library, rid: string, title: string, kind: int32, status: int32)
    ensures var d := RequestDoc(lib, rid, title, kind, status);
            Distinct(d) && Accepts(Request, PROXY, d) && RequestOf(Index(d)) == ContentRequestInfo(rid, title, kind, status)
  {
    var d := RequestDoc(lib, rid, title, kind, status);
    RequestFields(lib, rid, title, kind, status);
    RequestTyped(lib, rid, title, kind, status);
    IndexHoldsFields(d);
    assert Required(Request) <= Keys(d);
    AcceptsIff(Request, PROXY, d);
  }

  // ---- what a request keeps ------------------------------------------------------------------

  /** A request that finds its catchup changes nothing. */
  lemma CreateCatchupKeeps(lib: Library, db: Db, ep: Endpoint, uid: string, sid: string, key: CatKey, fate: Fate)
    requires Good(db.streams) && Fresh(db.streams, fate.cid)
    ensures var (db', r) := CreateCatchup(lib, db, ep, uid, sid, key, fate);
            && Good(db'.streams) && Later(db.streams, db'.streams) && db'.subscribers == db.subscribers
            && (r.Ok? ==>
                && uid in db.subscribers && sid in db.streams && sid in db'.streams
                && FirstHit(db'.streams, Parts(db'.streams[sid]), key) == Some(r.value.cat.base.id)
                && (r.value.isCreated <==> FirstHit(db.streams, Parts(db.streams[sid]), key) == None)
                && (r.value.isCreated ==> TypeOf(lib, db'.streams[r.value.cat.base.id]).Some?))
  {
    LaterSame(db.streams);
    if FindStream(lib, db, uid, sid).Ok? {
      FoundBase(lib, db, uid, sid);
      var base := FindStream(lib, db, uid, sid).value;
      var hit := FirstHit(db.streams, Parts(db.streams[sid]), key);
      if hit.Some? {
        HitId(lib, db.streams, hit.value, key);
      } else {
        CreateKeeps(lib, db, ep, base, key, fate);
      }
    }
  }

  lemma GenerateKeeps(lib: Library, db: Db, ep: Endpoint, uid: string, sid: string, key: CatKey, fate: Fate)
    requires Good(db.streams) && Fresh(db.streams, fate.cid)
    ensures var (db', r, notes) := Generate(lib, db, ep, uid, sid, key, fate);
            && Good(db'.streams) && Later(db.streams, db'.streams)
            && (r.Ok? ==> sid in db'.streams && FirstHit(db'.streams, Parts(db'.streams[sid]), key) == Some(r.value.base.id))
            && (notes != [] ==> r.Ok? && |notes| == 1 && notes[0].sid == sid && notes[0].key == key
                                && sid in db.streams && FirstHit(db.streams, Parts(db.streams[sid]), key) == None)
  {
    CreateCatchupKeeps(lib, db, ep, uid, sid, key, fate);
  }

  // ---- when it succeeds ----------------------------------------------------------------------

  /** An accepted channel has a list of parts, or none yet. */
  lemma PartsPushable(s: Shape, st: StreamType, d: Doc, v: Value)
    requires Distinct(d) && Accepts(s, st, d) && KindOf(s, PARTS_FIELD) == OfArray
    ensures Push(d, PARTS_FIELD, v).Some?
  {
    AcceptsIff(s, st, d);
    var at := NextAt(d, PARTS_FIELD, 0);
    if at < |d| {
      assert d[at] in d && Typed(s)(d[at]);
    }
  }

  predicate AllDone(fate: Fate) {
    fate.insert == Done && fate.part == Done && fate.server == Done
  }

  lemma WritesDoneIff(db: Db, at: nat, sid: string, cid: string, doc: Doc, fate: Fate)
    requires sid in db.streams && at < |db.servers| && Oid(sid) in Items(db.servers[at], STREAMS_FIELD)
    requires cid != sid && Push(db.streams[sid], PARTS_FIELD, Oid(cid)).Some?
    ensures Writes(db, at, sid, cid, doc, fate).1 <==> AllDone(fate)
  {
  }

  lemma CreateSucceedsIff(lib: Library, db: Db, ep: Endpoint, base: ChannelInfo, key: CatKey, fate: Fate)
    requires base.base.id in db.streams && fate.cid != base.base.id
    requires Push(db.streams[base.base.id], PARTS_FIELD, Oid(fate.cid)).Some?
    ensures Create(lib, db, ep, base, key, fate).1.Ok? <==> Prepare(db, ep, base.base.id).Ok? && AllDone(fate)
  {
    var plan := Prepare(db, ep, base.base.id);
    if plan.Ok? {
      var doc := NewDoc(lib, ep, fate.cid, fate.now, key, base, ReadOutputs(lib, plan.value.outputs));
      WritesDoneIff(db, plan.value.server, base.base.id, fate.cid, doc, fate);
    }
  }

  lemma FoundChannel(lib: Library, db: Db, uid: string, sid: string)
    requires FindStream(lib, db, uid, sid).Ok?
    ensures sid in db.streams && TypeOf(lib, db.streams[sid]).Some?
    ensures Accepts(Channel, TypeOf(lib, db.streams[sid]).value, db.streams[sid])
  {
  }

  lemma BasePushable(lib: Library, db: Db, uid: string, sid: string, cid: string)
    requires ValidStreams(db.streams) && FindStream(lib, db, uid, sid).Ok?
    ensures sid in db.streams && Push(db.streams[sid], PARTS_FIELD, Oid(cid)).Some?
  {
    FoundChannel(lib, db, uid, sid);
    assert ValidStream(sid, db.streams[sid]);
    PartsPushable(Channel, TypeOf(lib, db.streams[sid]).value, db.streams[sid], Oid(cid));
  }

  lemma CatchupSucceedsIff(lib: Library, db: Db, ep: Endpoint, uid: string, sid: string, key: CatKey, fate: Fate)
    requires Good(db.streams) && Fresh(db.streams, fate.cid)
    ensures CreateCatchup(lib, db, ep, uid, sid, key, fate).1.Ok? <==>
            && FindStream(lib, db, uid, sid).Ok?
            && (FirstHit(db.streams, Parts(db.streams[sid]), key).Some? || (Prepare(db, ep, sid).Ok? && AllDone(fate)))
  {
    if FindStream(lib, db, uid, sid).Ok? {
      FoundBase(lib, db, uid, sid);
      BasePushable(lib, db, uid, sid, fate.cid);
      CreateSucceedsIff(lib, db, ep, FindStream(lib, db, uid, sid).value, key, fate);
    }
  }

  lemma AddSucceedsIff(lib: Library, db: Db, uid: string, cid: string, o: Outcome)
    requires uid != "" && cid != "" && uid in db.subscribers
    ensures AddUserCatchup(lib, db, uid, cid, o).1 == None <==> o == Done && TakesPull(db.subscribers[uid])
  {
  }

  /** A request succeeds exactly when the user has the stream and it reads as a channel, the catchup is
      cached or everything is there to create it and the three writes are reported, and the write to the
      user is reported and meets a list of catchups. */
  lemma RequestSucceedsIff(lib: Library, db: Db, ep: Endpoint, uid: string, sid: string, key: CatKey, fate: Fate)
    requires Good(db.streams) && Fresh(db.streams, fate.cid)
    ensures Generate(lib, db, ep, uid, sid, key, fate).1.Ok? <==>
            && FindStream(lib, db, uid, sid).Ok?
            && (FirstHit(db.streams, Parts(db.streams[sid]), key).Some? || (Prepare(db, ep, sid).Ok? && AllDone(fate)))
            && fate.user == Done && TakesPull(db.subscribers[uid])
  {
    CatchupSucceedsIff(lib, db, ep, uid, sid, key, fate);
    CreateCatchupKeeps(lib, db, ep, uid, sid, key, fate);
    var (db1, r) := CreateCatchup(lib, db, ep, uid, sid, key, fate);
    if r.Ok? {
      HitId(lib, db1.streams, r.value.cat.base.id, key);
      AddSucceedsIff(lib, db1, uid, r.value.cat.base.id, fate.user);
    }
  }

  // ---- when it is linked, and when it is announced -------------------------------------------

  /** A request that has to create its catchup and can. */
  predicate Creates(lib: Library, db: Db, ep: Endpoint, uid: string, sid: string, key: CatKey) {
    && FindStream(lib, db, uid, sid).Ok?
    && FirstHit(db.streams, Parts(db.streams[sid]), key) == None
    && Prepare(db, ep, sid).Ok?
  }

  /** Such a request is announced exactly when all four writes are reported and the user's catchups are a
      list. */
  lemma AnnouncedIff(lib: Library, db: Db, ep: Endpoint, uid: string, sid: string, key: CatKey, fate: Fate)
    requires Good(db.streams) && Fresh(db.streams, fate.cid) && Creates(lib, db, ep, uid, sid, key)
    ensures Generate(lib, db, ep, uid, sid, key, fate).2 != [] <==>
            AllDone(fate) && fate.user == Done && TakesPull(db.subscribers[uid])
  {
    RequestSucceedsIff(lib, db, ep, uid, sid, key, fate);
    CreateCatchupKeeps(lib, db, ep, uid, sid, key, fate);
  }

  predicate Links(fate: Fate) {
    fate.insert == Done && fate.part != Refused
  }

  lemma LinkedStreams(db: Db, at: nat, sid: string, cid: string, doc: Doc, fate: Fate)
    requires sid in db.streams && cid != sid && at < |db.servers|
    requires Push(db.streams[sid], PARTS_FIELD, Oid(cid)).Some? && Links(fate)
    ensures Writes(db, at, sid, cid, doc, fate).0.streams
         == db.streams[cid := doc][sid := Push(db.streams[sid], PARTS_FIELD, Oid(cid)).value]
  {
  }

  lemma WritesLink(db: Db, at: nat, sid: string, cid: string, doc: Doc, key: CatKey, fate: Fate)
    requires Good(db.streams) && Fresh(db.streams, cid) && sid in db.streams && at < |db.servers|
    requires FirstHit(db.streams, Parts(db.streams[sid]), key) == None
    requires ValidStream(cid, doc) && Parts(doc) == [] && Accepts(Catchup, CATCHUP, doc)
    requires forall k :: KeyMatches(doc, k) <==> k == key
    requires Push(db.streams[sid], PARTS_FIELD, Oid(cid)).Some? && Links(fate)
    ensures var db' := Writes(db, at, sid, cid, doc, fate).0;
            sid in db'.streams && FirstHit(db'.streams, Parts(db'.streams[sid]), key) == Some(cid)
  {
    LinkedStreams(db, at, sid, cid, doc, fate);
    InsertKeeps(db.streams, sid, cid, key, doc);
    LinkServes(db.streams[cid := doc], sid, cid, key);
  }

  lemma OnlyInserted(db: Db, at: nat, sid: string, cid: string, doc: Doc, fate: Fate)
    requires sid in db.streams && at < |db.servers| && cid != sid && !Links(fate)
    ensures Writes(db, at, sid, cid, doc, fate).0 == Inserted(db, cid, doc, fate.insert)
  {
    var db1 := Inserted(db, cid, doc, fate.insert);
    assert db1.streams[sid := db1.streams[sid]] == db1.streams;
  }

  lemma WritesLeave(db: Db, at: nat, sid: string, cid: string, doc: Doc, key: CatKey, fate: Fate)
    requires Good(db.streams) && Fresh(db.streams, cid) && sid in db.streams && at < |db.servers|
    requires FirstHit(db.streams, Parts(db.streams[sid]), key) == None
    requires ValidStream(cid, doc) && Parts(doc) == [] && Accepts(Catchup, CATCHUP, doc)
    requires forall k :: KeyMatches(doc, k) <==> k == key
    requires !Links(fate)
    ensures var db' := Writes(db, at, sid, cid, doc, fate).0;
            && sid in db'.streams && db'.streams[sid] == db.streams[sid] && db'.servers == db.servers
            && FirstHit(db'.streams, Parts(db'.streams[sid]), key) == None
  {
    InsertKeeps(db.streams, sid, cid, key, doc);
    OnlyInserted(db, at, sid, cid, doc, fate);
  }

  lemma CreateLinkedIff(lib: Library, db: Db, ep: Endpoint, base: ChannelInfo, key: CatKey, fate: Fate)
    requires Good(db.streams) && Fresh(db.streams, fate.cid) && base.base.id in db.streams
    requires FirstHit(db.streams, Parts(db.streams[base.base.id]), key) == None
    requires Prepare(db, ep, base.base.id).Ok? && Push(db.streams[base.base.id], PARTS_FIELD, Oid(fate.cid)).Some?
    ensures var db', sid := Create(lib, db, ep, base, key, fate).0, base.base.id;
            && sid in db'.streams
            && (FirstHit(db'.streams, Parts(db'.streams[sid]), key).Some? <==> Links(fate))
            && (!Links(fate) ==> db'.streams[sid] == db.streams[sid] && db'.servers == db.servers)
  {
    var plan := Prepare(db, ep, base.base.id).value;
    var urls := ReadOutputs(lib, plan.outputs);
    NewDocServes(lib, ep, fate.cid, fate.now, key, base, urls);
    var doc := NewDoc(lib, ep, fate.cid, fate.now, key, base, urls);
    if Links(fate) {
      WritesLink(db, plan.server, base.base.id, fate.cid, doc, key, fate);
    } else {
      WritesLeave(db, plan.server, base.base.id, fate.cid, doc, key, fate);
    }
  }

  /** Its catchup is linked to the stream exactly when the insert is reported and the push to the stream is
      not refused; otherwise the stream and the servers are left alone. */
  lemma LinkedIff(lib: Library, db: Db, ep: Endpoint, uid: string, sid: string, key: CatKey, fate: Fate)
    requires Good(db.streams) && Fresh(db.streams, fate.cid) && Creates(lib, db, ep, uid, sid, key)
    ensures var (db', r, notes) := Generate(lib, db, ep, uid, sid, key, fate);
            && sid in db'.streams
            && (FirstHit(db'.streams, Parts(db'.streams[sid]), key).Some? <==> Links(fate))
            && (!Links(fate) ==>
                db'.streams[sid] == db.streams[sid] && db'.servers == db.servers && db'.subscribers == db.subscribers)
  {
    FoundBase(lib, db, uid, sid);
    BasePushable(lib, db, uid, sid, fate.cid);
    CreateLinkedIff(lib, db, ep, FindStream(lib, db, uid, sid).value, key, fate);
    CatchupSucceedsIff(lib, db, ep, uid, sid, key, fate);
    CreateCatchupKeeps(lib, db, ep, uid, sid, key, fate);
  }
}
