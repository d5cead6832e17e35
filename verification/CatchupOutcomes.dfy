/** What becomes of a request for a catchup, in terms of the stored documents alone: who is served, who is
    refused and why, and what a catchup that was created leaves behind. */
module CatchupOutcomes {
  import opened Common
  import opened Bson
  import opened Infos
  import opened Urls
  import opened Schemas
  import opened FieldValues
  import opened UserEntries
  import opened Store
  import opened UserUpdates
  import opened CatchupDocs
  import opened CatchupCache
  import opened CatchupCalls
  import opened CatchupRequests

  // ---- who has the stream --------------------------------------------------------------------

  /** The user has an entry for the stream among his streams. */
  predicate Holder(db: Db, uid: string, sid: string) {
    && uid != "" && sid != "" && uid in db.subscribers
    && exists v :: v in Items(db.subscribers[uid], STREAMS_FIELD) && v.Document? && First(v.fields, SID_FIELD) == Some(Oid(sid))
  }

  /** The stream is stored with a class that is not one of a vod, and reads as a channel. */
  predicate Broadcast(lib: Library, db: Db, sid: string) {
    sid in db.streams &&
    match First(db.streams[sid], CLS_FIELD)
    case Some(Utf8(cls)) =>
      && lib.streamType(cls) != VOD_PROXY && lib.streamType(cls) != VOD_RELAY && lib.streamType(cls) != VOD_ENCODE
      && Accepts(Channel, lib.streamType(cls), db.streams[sid])
    case _ => false
  }

  /** Some part of the stream is stored with that title and those dates and reads as a catchup. */
  predicate Cached(db: Db, sid: string, key: CatKey) {
    sid in db.streams &&
    exists p :: p in Parts(db.streams[sid]) && p in db.streams
      && First(db.streams[p], NAME_FIELD) == Some(Utf8(key.title))
      && First(db.streams[p], START_FIELD) == Some(DateTime(key.start))
      && First(db.streams[p], STOP_FIELD) == Some(DateTime(key.stop))
      && Accepts(Catchup, CATCHUP, db.streams[p])
  }

  /** The service is set up for catchups, the first server that runs the stream has an id, and the stream has
      a list of outputs. */
  predicate Creatable(db: Db, ep: Endpoint, sid: string) {
    && ep.valid && sid in db.streams
    && First(db.streams[sid], OUTPUT_FIELD).Some? && First(db.streams[sid], OUTPUT_FIELD).value.Array?
    && exists at :: 0 <= at < |db.servers| && RunsAt(db.servers, sid, at) && First(db.servers[at], ID_FIELD).Some? && First(db.servers[at], ID_FIELD).value.Oid?
  }

  predicate RunsAt(servers: seq<Doc>, sid: string, at: nat) {
    && at < |servers| && Oid(sid) in Items(servers[at], STREAMS_FIELD)
    && forall j :: 0 <= j < at ==> Oid(sid) !in Items(servers[j], STREAMS_FIELD)
  }

  lemma FoundIff(lib: Library, db: Db, uid: string, sid: string)
    ensures FindStream(lib, db, uid, sid).Ok? <==> Holder(db, uid, sid) && Broadcast(lib, db, sid)
    ensures FindStream(lib, db, uid, sid).Ok? ==>
              FindStream(lib, db, uid, sid).value == ChannelOf(lib, Index(db.streams[sid]), UserInfo(db.subscribers[uid], 0))
  {
    if uid in db.subscribers && HasStream(db.subscribers[uid], sid) {
      var v :| v in Items(db.subscribers[uid], STREAMS_FIELD) && Refers(v, SID_FIELD, sid);
      assert v.Document? && First(v.fields, SID_FIELD) == Some(Oid(sid));
    }
    if Holder(db, uid, sid) {
      var v :| v in Items(db.subscribers[uid], STREAMS_FIELD) && v.Document? && First(v.fields, SID_FIELD) == Some(Oid(sid));
      assert Refers(v, SID_FIELD, sid);
    }
  }

  lemma RunsOnce(servers: seq<Doc>, sid: string, at: nat)
    requires RunsAt(servers, sid, at)
    ensures ServerOf(servers, sid) == at
  {
  }

  lemma PreparedIff(lib: Library, db: Db, ep: Endpoint, sid: string)
    requires sid != "" && Broadcast(lib, db, sid)
    ensures Prepare(db, ep, sid).Ok? <==> Creatable(db, ep, sid)
  {
    var at := ServerOf(db.servers, sid);
    if at < |db.servers| {
      assert RunsAt(db.servers, sid, at);
    }
    if Creatable(db, ep, sid) {
      var s :| 0 <= s < |db.servers| && RunsAt(db.servers, sid, s) && First(db.servers[s], ID_FIELD).Some? && First(db.servers[s], ID_FIELD).value.Oid?;
      RunsOnce(db.servers, sid, s);
    }
  }

  lemma CachedIff(db: Db, sid: string, key: CatKey)
    requires sid in db.streams
    ensures FirstHit(db.streams, Parts(db.streams[sid]), key).Some? <==> Cached(db, sid, key)
  {
    FirstHitNone(db.streams, Parts(db.streams[sid]), key);
    forall p ensures Hit(db.streams, p, key) <==>
                     && p in db.streams && First(db.streams[p], NAME_FIELD) == Some(Utf8(key.title))
                     && First(db.streams[p], START_FIELD) == Some(DateTime(key.start))
                     && First(db.streams[p], STOP_FIELD) == Some(DateTime(key.stop)) && Accepts(Catchup, CATCHUP, db.streams[p])
    {
    }
  }

  /** A request succeeds exactly when the user has an entry for the stream, the stream reads as a channel that
      is not a vod, the catchup is cached or can be created by three reported writes, and the write to the
      user is reported and meets a list of catchups or none. */
  lemma ServedIff(lib: Library, db: Db, ep: Endpoint, uid: string, sid: string, key: CatKey, fate: Fate)
    requires Good(db.streams) && Fresh(db.streams, fate.cid)
    ensures Generate(lib, db, ep, uid, sid, key, fate).1.Ok? <==>
            && Holder(db, uid, sid) && Broadcast(lib, db, sid)
            && (Cached(db, sid, key)
                || (Creatable(db, ep, sid) && fate.insert == Done && fate.part == Done && fate.server == Done))
            && fate.user == Done
            && (First(db.subscribers[uid], CATCHUPS_FIELD) == None || First(db.subscribers[uid], CATCHUPS_FIELD).value.Array?)
  {
    RequestSucceedsIff(lib, db, ep, uid, sid, key, fate);
    FoundIff(lib, db, uid, sid);
    if Holder(db, uid, sid) && Broadcast(lib, db, sid) {
      PreparedIff(lib, db, ep, sid);
      CachedIff(db, sid, key);
    }
  }

  /** Who has no entry for a stream gets no catchup of it: nothing is written and nobody is told. */
  lemma StrangerRefused(lib: Library, db: Db, ep: Endpoint, uid: string, sid: string, key: CatKey, fate: Fate)
    requires uid != "" && sid != ""
    requires uid !in db.subscribers
             || forall v :: v in Items(db.subscribers[uid], STREAMS_FIELD) && v.Document? ==>
                  First(v.fields, SID_FIELD) != Some(Oid(sid))
    ensures Generate(lib, db, ep, uid, sid, key, fate) == (db, Err(StreamNotFound), [])
  {
    assert FindStream(lib, db, uid, sid) == Err(StreamNotFound);
  }

  /** Nor is anything written for a stream that is unknown, unreadable or a vod, or when the checks before the
      first write fail. */
  lemma RefusedUntouched(lib: Library, db: Db, ep: Endpoint, uid: string, sid: string, key: CatKey, fate: Fate)
    requires Good(db.streams) && Fresh(db.streams, fate.cid)
    requires !Holder(db, uid, sid) || !Broadcast(lib, db, sid) || (!Cached(db, sid, key) && !Creatable(db, ep, sid))
    ensures var (after, r, notes) := Generate(lib, db, ep, uid, sid, key, fate);
            after == db && notes == [] && r.Err?
    ensures var e := Generate(lib, db, ep, uid, sid, key, fate).1.error;
            if uid == "" || sid == "" then e == InvalidArgument
            else if !Holder(db, uid, sid) || sid !in db.streams then e == StreamNotFound
            else if First(db.streams[sid], CLS_FIELD) == None || !First(db.streams[sid], CLS_FIELD).value.Utf8? then e == InvalidStream
            else if !Broadcast(lib, db, sid) then e == StreamNotFound
            else if !ep.valid then e == NotPrepared
            else if forall at :: 0 <= at < |db.servers| ==> Oid(sid) !in Items(db.servers[at], STREAMS_FIELD) then e == ServerNotFound
            else e == InvalidStream
  {
    ServedIff(lib, db, ep, uid, sid, key, fate);
    FoundIff(lib, db, uid, sid);
    if Holder(db, uid, sid) && Broadcast(lib, db, sid) {
      FoundBase(lib, db, uid, sid);
      PreparedIff(lib, db, ep, sid);
      CachedIff(db, sid, key);
    }
  }

  // ---- what is left behind -------------------------------------------------------------------

  /** The stream has one part more, at the end; all other streams but the new one stay. */
  predicate PartAdded(a: Streams, b: Streams, sid: string, cid: string) {
    && sid in a && sid in b && cid in b && Parts(b[sid]) == Parts(a[sid]) + [cid]
    && b.Keys == a.Keys + {cid} && forall s :: s in a && s != sid && s != cid ==> b[s] == a[s]
  }

  /** The server has one stream more, at the end; all other servers stay. */
  predicate StreamAdded(a: seq<Doc>, b: seq<Doc>, at: nat, cid: string) {
    && at < |a| == |b| && Items(b[at], STREAMS_FIELD) == Items(a[at], STREAMS_FIELD) + [Oid(cid)]
    && forall j :: 0 <= j < |a| && j != at ==> b[j] == a[j]
  }

  lemma PushedStream(d: Doc, cid: string)
    requires Push(d, STREAMS_FIELD, Oid(cid)).Some?
    ensures Items(Push(d, STREAMS_FIELD, Oid(cid)).value, STREAMS_FIELD) == Items(d, STREAMS_FIELD) + [Oid(cid)]
  {
  }

  lemma WritesLeaveBehind(db: Db, at: nat, sid: string, cid: string, doc: Doc, fate: Fate)
    requires sid in db.streams && at < |db.servers| && cid !in db.streams && Writes(db, at, sid, cid, doc, fate).1
    ensures var after := Writes(db, at, sid, cid, doc, fate).0;
            && PartAdded(db.streams, after.streams, sid, cid) && after.streams[cid] == doc
            && StreamAdded(db.servers, after.servers, at, cid)
            && after == db.(streams := after.streams, servers := after.servers)
  {
    PushedParts(db.streams[sid], cid);
    PushedStream(db.servers[at], cid);
  }

  lemma CreateLeaves(lib: Library, db: Db, ep: Endpoint, base: ChannelInfo, key: CatKey, fate: Fate)
    requires fate.cid !in db.streams && base.base.id in db.streams && Create(lib, db, ep, base, key, fate).1.Ok?
    ensures var (after, r) := Create(lib, db, ep, base, key, fate);
            var at, sid, cid := ServerOf(db.servers, base.base.id), base.base.id, fate.cid;
            && r.value.isCreated && r.value.serverId.Some? && RunsAt(db.servers, sid, at)
            && First(db.servers[at], ID_FIELD) == Some(Oid(r.value.serverId.value))
            && PartAdded(db.streams, after.streams, sid, cid) && StreamAdded(db.servers, after.servers, at, cid)
            && after == db.(streams := after.streams, servers := after.servers)
            && var urls := ReadOutputs(lib, Items(db.streams[sid], OUTPUT_FIELD));
               && r.value.cat == CreatedInfo(lib, ep, cid, key, base, urls)
               && after.streams[cid] == NewDoc(lib, ep, cid, fate.now, key, base, urls)
  {
    var plan := Prepare(db, ep, base.base.id).value;
    var doc := NewDoc(lib, ep, fate.cid, fate.now, key, base, ReadOutputs(lib, plan.outputs));
    WritesLeaveBehind(db, plan.server, base.base.id, fate.cid, doc, fate);
  }

  lemma CallCreates(lib: Library, db: Db, ep: Endpoint, uid: string, sid: string, key: CatKey, fate: Fate)
    requires ValidStreams(db.streams) && FindStream(lib, db, uid, sid).Ok?
    ensures var base := FindStream(lib, db, uid, sid).value;
            && uid in db.subscribers && sid in db.streams && base.base.id == sid
            && base == ChannelOf(lib, Index(db.streams[sid]), UserInfo(db.subscribers[uid], 0))
            && (FirstHit(db.streams, Parts(db.streams[sid]), key) == None ==>
                CreateCatchup(lib, db, ep, uid, sid, key, fate) == Create(lib, db, ep, base, key, fate))
  {
    FoundBase(lib, db, uid, sid);
    FoundIff(lib, db, uid, sid);
  }

  /** A request that is announced has created its catchup: the answer and the note name it with the title and
      dates of the request, it is the last part of the stream and the last stream of the first server that
      runs the stream, that server is the one that is told, and nothing else changed but the user. */
  lemma AnnouncedLeaves(lib: Library, db: Db, ep: Endpoint, uid: string, sid: string, key: CatKey, fate: Fate)
    requires Good(db.streams) && Fresh(db.streams, fate.cid) && Generate(lib, db, ep, uid, sid, key, fate).2 != []
    ensures var (after, r, notes) := Generate(lib, db, ep, uid, sid, key, fate);
            var at := ServerOf(db.servers, sid);
            && r.Ok? && |notes| == 1 && notes[0].sid == sid && notes[0].key == key && notes[0].cat == r.value
            && RunsAt(db.servers, sid, at) && notes[0].serverId.Some?
            && First(db.servers[at], ID_FIELD) == Some(Oid(notes[0].serverId.value))
            && r.value.base.id == fate.cid && r.value.epg.name == key.title && r.value.start == key.start && r.value.stop == key.stop
            && uid in db.subscribers && sid in db.streams && fate.cid in after.streams
            && (var base := ChannelOf(lib, Index(db.streams[sid]), UserInfo(db.subscribers[uid], 0));
                var urls := ReadOutputs(lib, Items(db.streams[sid], OUTPUT_FIELD));
                && r.value == CreatedInfo(lib, ep, fate.cid, key, base, urls)
                && after.streams[fate.cid] == NewDoc(lib, ep, fate.cid, fate.now, key, base, urls))
            && PartAdded(db.streams, after.streams, sid, fate.cid) && StreamAdded(db.servers, after.servers, at, fate.cid)
            && after == db.(streams := after.streams, servers := after.servers, subscribers := after.subscribers)
  {
    CallCreates(lib, db, ep, uid, sid, key, fate);
    GenerateKeeps(lib, db, ep, uid, sid, key, fate);
    CreateLeaves(lib, db, ep, FindStream(lib, db, uid, sid).value, key, fate);
  }

  /** A request that is served without an announcement changed nothing but the user; the answer is what the
      first matching part reads as. */
  lemma FoundLeaves(lib: Library, db: Db, ep: Endpoint, uid: string, sid: string, key: CatKey, fate: Fate)
    requires Good(db.streams) && Fresh(db.streams, fate.cid)
    requires Generate(lib, db, ep, uid, sid, key, fate).1.Ok? && Generate(lib, db, ep, uid, sid, key, fate).2 == []
    ensures var (after, r, notes) := Generate(lib, db, ep, uid, sid, key, fate);
            && after == db.(subscribers := after.subscribers) && sid in db.streams
            && FirstHit(db.streams, Parts(db.streams[sid]), key) == Some(r.value.base.id)
            && r.value == CatchupOf(lib, Index(db.streams[r.value.base.id]), NO_USER_INFO)
  {
    FoundBase(lib, db, uid, sid);
    CreateCatchupKeeps(lib, db, ep, uid, sid, key, fate);
    HitId(lib, db.streams, FirstHit(db.streams, Parts(db.streams[sid]), key).value, key);
  }

  // ---- content requests ----------------------------------------------------------------------

  lemma PushedRequest(d: Doc, rid: string)
    requires Push(d, REQUESTS_FIELD, Oid(rid)).Some?
    ensures var e := Push(d, REQUESTS_FIELD, Oid(rid)).value;
            && Items(e, REQUESTS_FIELD) == Items(d, REQUESTS_FIELD) + [Oid(rid)]
            && forall k :: k != REQUESTS_FIELD ==> First(e, k) == First(d, k)
  {
    assert [] + [Oid(rid)] == [Oid(rid)];
    SetFieldFrame(d, REQUESTS_FIELD, Array(Items(d, REQUESTS_FIELD) + [Oid(rid)]));
  }

  lemma RequestIff(lib: Library, db: Db, uid: string, title: string, kind: int32, status: int32, fate: RequestFate)
    ensures CreateRequest(lib, db, uid, title, kind, status, fate).1.Ok? <==>
            && uid != "" && fate.insert == Done && fate.user == Done
            && (uid in db.subscribers ==>
                First(db.subscribers[uid], REQUESTS_FIELD) == None || First(db.subscribers[uid], REQUESTS_FIELD).value.Array?)
  {
  }

  lemma RequestStored(lib: Library, rid: string, title: string, kind: int32, status: int32)
    ensures var d := RequestDoc(lib, rid, title, kind, status);
            && First(d, ID_FIELD) == Some(Oid(rid)) && First(d, TITLE_FIELD) == Some(Utf8(title))
            && First(d, TYPE_FIELD) == Some(I32(kind)) && First(d, STATUS_FIELD) == Some(I32(status))
            && First(d, CLS_FIELD) == Some(Utf8(lib.classes.request))
  {
    var d := RequestDoc(lib, rid, title, kind, status);
    RequestFields(lib, rid, title, kind, status);
    IndexIsFirst(d, ID_FIELD);
    IndexIsFirst(d, TITLE_FIELD);
    IndexIsFirst(d, TYPE_FIELD);
    IndexIsFirst(d, STATUS_FIELD);
    FirstIs(d, CLS_FIELD, 2);
  }

  /** A content request that is answered is stored with its title, type and status, and is the last request
      of the user; nothing else changes. */
  lemma RequestLeaves(lib: Library, db: Db, uid: string, title: string, kind: int32, status: int32, fate: RequestFate)
    requires CreateRequest(lib, db, uid, title, kind, status, fate).1.Ok?
    ensures var (after, r) := CreateRequest(lib, db, uid, title, kind, status, fate);
            && r.value == ContentRequestInfo(fate.rid, title, kind, status)
            && fate.rid in after.requests && after.requests == db.requests[fate.rid := after.requests[fate.rid]]
            && after.requests[fate.rid] == RequestDoc(lib, fate.rid, title, kind, status)
            && after == db.(requests := after.requests, subscribers := after.subscribers)
            && (uid !in db.subscribers ==> after.subscribers == db.subscribers)
            && (uid in db.subscribers ==>
                && uid in after.subscribers && after.subscribers == db.subscribers[uid := after.subscribers[uid]]
                && Items(after.subscribers[uid], REQUESTS_FIELD) == Items(db.subscribers[uid], REQUESTS_FIELD) + [Oid(fate.rid)]
                && forall k :: k != REQUESTS_FIELD ==> First(after.subscribers[uid], k) == First(db.subscribers[uid], k))
  {
    RequestIff(lib, db, uid, title, kind, status, fate);
    if uid in db.subscribers {
      PushedRequest(db.subscribers[uid], fate.rid);
    }
  }
}
