/** Views of catchups: SetRecent raises a counter in the very documents the cache is read from. */
module CatchupViews {
  import opened Common
  import opened Bson
  import opened Infos
  import opened Urls
  import opened Schemas
  import opened FieldValues
  import opened Store
  import opened UserUpdates
  import opened CatchupDocs
  import opened CatchupCache
  import opened CatchupCalls

  const MAX_COUNT: int := 0x7fff_ffff

  /** The document lacks nothing but its counter. */
  predicate LacksCounter(d: Doc) {
    WellTyped(Catchup, d) && Required(Catchup) - Keys(d) == {VIEW_COUNT_FIELD}
  }

  /** No number of views up to `k` changes whether the catchup reader accepts the document. */
  predicate Ready(d: Doc, k: int) {
    match First(d, VIEW_COUNT_FIELD)
    case None => k <= 0 || !LacksCounter(d)
    case Some(I32(n)) => n + k <= MAX_COUNT || !Accepts(Catchup, CATCHUP, d)
    case Some(_) => true
  }

  lemma CounterNeeded(d: Doc)
    requires Distinct(d) && Accepts(Catchup, CATCHUP, d)
    ensures First(d, VIEW_COUNT_FIELD).Some? && First(d, VIEW_COUNT_FIELD).value.I32?
  {
    ViewCountKind(Catchup);
    RequiredTyped(Catchup, CATCHUP, d, VIEW_COUNT_FIELD);
    IndexIsFirst(d, VIEW_COUNT_FIELD);
  }

  /** A view of a ready document changes nothing, and leaves it ready for one view less. */
  lemma ReadyView(d: Doc, k: int)
    requires Distinct(d) && Ready(d, k) && k >= 1 && Inc(d, VIEW_COUNT_FIELD).Some?
    ensures var e := Inc(d, VIEW_COUNT_FIELD).value;
            && (Accepts(Catchup, CATCHUP, e) <==> Accepts(Catchup, CATCHUP, d)) && Ready(e, k - 1)
  {
    CountedStaysReadable(Catchup, CATCHUP, d);
    if Accepts(Catchup, CATCHUP, d) {
      CounterNeeded(d);
    }
  }

  // ---- a database that views do not disturb --------------------------------------------------

  /** Every part that can be viewed is ready for what is left of `k` views. */
  ghost predicate Steady(lib: Library, streams: Streams, used: multiset<string>, k: int) {
    forall s, p :: s in streams && p in Parts(streams[s]) && p in streams && TypeOf(lib, streams[p]).Some? ==>
      Ready(streams[p], k - used[p])
  }

  lemma InsertSteady(lib: Library, streams: Streams, used: multiset<string>, k: int, cid: string, doc: Doc)
    requires Steady(lib, streams, used, k) && Fresh(streams, cid) && Parts(doc) == []
    ensures Steady(lib, streams[cid := doc], used, k)
  {
  }

  lemma PushedReady(lib: Library, d: Doc, v: Value, k: int)
    requires Distinct(d) && Push(d, PARTS_FIELD, v).Some?
    ensures var e := Push(d, PARTS_FIELD, v).value;
            TypeOf(lib, e) == TypeOf(lib, d) && (Ready(e, k) <==> Ready(d, k))
  {
    var e, items := Push(d, PARTS_FIELD, v).value, Array(Items(d, PARTS_FIELD) + [v]);
    assert [] + [v] == [v];
    SetFieldOther(d, PARTS_FIELD, items, VIEW_COUNT_FIELD);
    SetFieldOther(d, PARTS_FIELD, items, CLS_FIELD);
    SetFieldKeys(d, PARTS_FIELD, items);
    PartsKind(Catchup);
    assert Required(Catchup) - Keys(e) == Required(Catchup) - Keys(d);
    PushPartsTyped(Catchup, d, v);
    PushPartsAccepted(Catchup, CATCHUP, d, v);
  }

  lemma LinkSteady(lib: Library, streams: Streams, used: multiset<string>, k: int, sid: string, cid: string)
    requires ValidStreams(streams) && Steady(lib, streams, used, k) && sid in streams && cid in streams && sid != cid
    requires Ready(streams[cid], k - used[cid]) && Push(streams[sid], PARTS_FIELD, Oid(cid)).Some?
    ensures Steady(lib, streams[sid := Push(streams[sid], PARTS_FIELD, Oid(cid)).value], used, k)
  {
    var after := streams[sid := Push(streams[sid], PARTS_FIELD, Oid(cid)).value];
    assert ValidStream(sid, streams[sid]);
    PushedParts(streams[sid], cid);
    PushedReady(lib, streams[sid], Oid(cid), k - used[sid]);
    forall s, p | s in after && p in Parts(after[s]) && p in after && TypeOf(lib, after[p]).Some?
      ensures Ready(after[p], k - used[p])
    {
      assert p in Parts(streams[s]) || p == cid;
    }
  }

  // ---- one view ------------------------------------------------------------------------------

  lemma ViewedDoc(id: string, d: Doc)
    requires ValidStream(id, d) && Inc(d, VIEW_COUNT_FIELD).Some?
    ensures var e := Inc(d, VIEW_COUNT_FIELD).value;
            && Distinct(e) && First(e, ID_FIELD) == First(d, ID_FIELD) && TextAt(e, CLS_FIELD) == TextAt(d, CLS_FIELD)
            && Parts(e) == Parts(d) && forall key :: KeyMatches(e, key) <==> KeyMatches(d, key)
  {
    var e := Inc(d, VIEW_COUNT_FIELD).value;
    var v := First(e, VIEW_COUNT_FIELD).value;
    assert e == SetField(d, VIEW_COUNT_FIELD, v);
    SetFieldFrame(d, VIEW_COUNT_FIELD, v);
  }

  lemma ViewedLists(id: string, d: Doc)
    requires ValidStream(id, d) && Inc(d, VIEW_COUNT_FIELD).Some?
    ensures OidLists(Inc(d, VIEW_COUNT_FIELD).value)
  {
    var e := Inc(d, VIEW_COUNT_FIELD).value;
    forall i | 0 <= i < |e| && (e[i].key == PARTS_FIELD || e[i].key == EPISODES_FIELD) && e[i].value.Array?
      ensures forall v :: v in e[i].value.items ==> v.Oid?
    {
      assert i < |d| && e[i] == d[i];
    }
  }

  /** A view of a part that stays what it was for the reader disturbs no cache. */
  lemma ViewStage(streams: Streams, x: string)
    requires Good(streams) && x in streams && Inc(streams[x], VIEW_COUNT_FIELD).Some?
    requires (exists s :: s in streams && x in Parts(streams[s])) ==>
               (Accepts(Catchup, CATCHUP, Inc(streams[x], VIEW_COUNT_FIELD).value) <==> Accepts(Catchup, CATCHUP, streams[x]))
    ensures var after := streams[x := Inc(streams[x], VIEW_COUNT_FIELD).value];
            Good(after) && Later(streams, after)
  {
    var after := streams[x := Inc(streams[x], VIEW_COUNT_FIELD).value];
    assert ValidStream(x, streams[x]);
    ViewedDoc(x, streams[x]);
    ViewedLists(x, streams[x]);
    forall s, p, key | s in streams && p in Parts(streams[s]) ensures Hit(streams, p, key) <==> Hit(after, p, key) {
    }
    forall s | s in after ensures NoTwoIn(after, Parts(after[s])) {
      NoTwoSame(streams, after, Parts(streams[s]));
    }
  }

  lemma ViewSteady(lib: Library, streams: Streams, used: multiset<string>, k: int, x: string)
    requires ValidStreams(streams) && Steady(lib, streams, used, k) && x in streams && used[x] < k
    requires TypeOf(lib, streams[x]).Some? && Inc(streams[x], VIEW_COUNT_FIELD).Some?
    ensures Steady(lib, streams[x := Inc(streams[x], VIEW_COUNT_FIELD).value], used + multiset{x}, k)
  {
    var after := streams[x := Inc(streams[x], VIEW_COUNT_FIELD).value];
    assert ValidStream(x, streams[x]);
    ViewedDoc(x, streams[x]);
    forall s, p | s in after && p in Parts(after[s]) && p in after && TypeOf(lib, after[p]).Some?
      ensures Ready(after[p], k - (used + multiset{x})[p])
    {
      assert p in Parts(streams[s]);
      if p == x {
        ReadyView(streams[x], k - used[x]);
      }
    }
  }

  // ---- requests leave the database steady ----------------------------------------------------

  lemma NewDocReady(lib: Library, ep: Endpoint, cid: string, now: int, key: CatKey, base: ChannelInfo,
                    urls: seq<OutputUri>, k: int)
    requires k <= MAX_COUNT
    ensures Ready(NewDoc(lib, ep, cid, now, key, base, urls), k)
  {
    var d := NewDoc(lib, ep, cid, now, key, base, urls);
    NewDocAccepted(lib, ep, cid, now, key, base, urls);
    NewDocValues(lib, ep, cid, now, key, base, urls);
    IndexIsFirst(d, VIEW_COUNT_FIELD);
    assert Index(d)[VIEW_COUNT_FIELD] == Head(lib, cid, now, key, base)[11].value;
  }

  lemma PartLinkedSteady(lib: Library, db: Db, sid: string, cid: string, o: Outcome, used: multiset<string>, k: int)
    requires ValidStreams(db.streams) && sid in db.streams && cid in db.streams && sid != cid
    requires Steady(lib, db.streams, used, k) && Ready(db.streams[cid], k - used[cid])
    ensures Steady(lib, PartLinked(db, sid, cid, o).streams, used, k)
  {
    if o == Refused || Push(db.streams[sid], PARTS_FIELD, Oid(cid)) == None {
      assert db.streams[sid := db.streams[sid]] == db.streams;
    } else {
      LinkSteady(lib, db.streams, used, k, sid, cid);
    }
  }

  lemma WritesSteady(lib: Library, db: Db, at: nat, sid: string, cid: string, doc: Doc, fate: Fate,
                     used: multiset<string>, k: int)
    requires ValidStreams(db.streams) && Fresh(db.streams, cid) && sid in db.streams && at < |db.servers|
    requires ValidStream(cid, doc) && Parts(doc) == [] && Ready(doc, k - used[cid])
    requires Steady(lib, db.streams, used, k)
    ensures Steady(lib, Writes(db, at, sid, cid, doc, fate).0.streams, used, k)
  {
    var db1 := Inserted(db, cid, doc, fate.insert);
    InsertSteady(lib, db.streams, used, k, cid, doc);
    if fate.insert == Done {
      PartLinkedSteady(lib, db1, sid, cid, fate.part, used, k);
    }
  }

  lemma CreateSteady(lib: Library, db: Db, ep: Endpoint, base: ChannelInfo, key: CatKey, fate: Fate,
                     used: multiset<string>, k: int)
    requires ValidStreams(db.streams) && Fresh(db.streams, fate.cid)
    requires Steady(lib, db.streams, used, k) && k <= MAX_COUNT
    ensures Steady(lib, Create(lib, db, ep, base, key, fate).0.streams, used, k)
  {
    var plan := Prepare(db, ep, base.base.id);
    if plan.Ok? {
      var urls := ReadOutputs(lib, plan.value.outputs);
      var doc := NewDoc(lib, ep, fate.cid, fate.now, key, base, urls);
      NewDocServes(lib, ep, fate.cid, fate.now, key, base, urls);
      NewDocReady(lib, ep, fate.cid, fate.now, key, base, urls, k - used[fate.cid]);
      WritesSteady(lib, db, plan.value.server, base.base.id, fate.cid, doc, fate, used, k);
    }
  }

  lemma CreateCatchupSteady(lib: Library, db: Db, ep: Endpoint, uid: string, sid: string, key: CatKey, fate: Fate,
                            used: multiset<string>, k: int)
    requires ValidStreams(db.streams) && Fresh(db.streams, fate.cid)
    requires Steady(lib, db.streams, used, k) && k <= MAX_COUNT
    ensures Steady(lib, CreateCatchup(lib, db, ep, uid, sid, key, fate).0.streams, used, k)
  {
    if FindStream(lib, db, uid, sid).Ok? {
      CreateSteady(lib, db, ep, FindStream(lib, db, uid, sid).value, key, fate, used, k);
    }
  }

  /** The last write of a request goes to the user. */
  lemma GenerateStreams(lib: Library, db: Db, ep: Endpoint, uid: string, sid: string, key: CatKey, fate: Fate)
    ensures Generate(lib, db, ep, uid, sid, key, fate).0.streams == CreateCatchup(lib, db, ep, uid, sid, key, fate).0.streams
  {
    var (db1, r) := CreateCatchup(lib, db, ep, uid, sid, key, fate);
    if r.Ok? {
      assert AddUserCatchup(lib, db1, uid, r.value.cat.base.id, fate.user).0.streams == db1.streams;
    }
  }

  lemma GenerateSteady(lib: Library, db: Db, ep: Endpoint, uid: string, sid: string, key: CatKey, fate: Fate,
                       used: multiset<string>, k: int)
    requires ValidStreams(db.streams) && Fresh(db.streams, fate.cid)
    requires Steady(lib, db.streams, used, k) && k <= MAX_COUNT
    ensures Steady(lib, Generate(lib, db, ep, uid, sid, key, fate).0.streams, used, k)
  {
    CreateCatchupSteady(lib, db, ep, uid, sid, key, fate, used, k);
    GenerateStreams(lib, db, ep, uid, sid, key, fate);
  }

  // ---- one call of SetRecent -----------------------------------------------------------------

  function AfterRecent(lib: Library, db: Db, uid: string, sid: string, ts: int, entry: Outcome, view: Outcome): Db {
    DbOf(SetRecentEntry(lib, db, uid, sid, ts, entry, view), db)
  }

  /** Whether the call raises the counter of the stream. */
  predicate Counts(lib: Library, streams: Streams, uid: string, sid: string, view: Outcome) {
    && uid != "" && sid != "" && sid in streams && TypeOf(lib, streams[sid]).Some?
    && view != Refused && Inc(streams[sid], VIEW_COUNT_FIELD).Some?
  }

  lemma CountedStreams(db: Db, sid: string, view: Outcome)
    ensures var after := CountView(db, sid, view);
            && after.servers == db.servers && after.requests == db.requests
            && after.streams == if sid in db.streams && view != Refused && Inc(db.streams[sid], VIEW_COUNT_FIELD).Some?
                                then db.streams[sid := Inc(db.streams[sid], VIEW_COUNT_FIELD).value] else db.streams
  {
    if sid in db.streams {
      assert db.streams[sid := db.streams[sid]] == db.streams;
    }
  }

  lemma RecentStreams(lib: Library, db: Db, uid: string, sid: string, ts: int, entry: Outcome, view: Outcome)
    ensures var after := AfterRecent(lib, db, uid, sid, ts, entry, view);
            && after.servers == db.servers && after.requests == db.requests
            && after.streams == if Counts(lib, db.streams, uid, sid, view)
                                then db.streams[sid := Inc(db.streams[sid], VIEW_COUNT_FIELD).value] else db.streams
  {
    var entered := SetEntry(lib, db, uid, sid, RECENT_FIELD, DateTime(ts), entry);
    if entered.Ok? {
      CountedStreams(entered.value, sid, view);
    }
  }

  lemma SteadyLess(lib: Library, streams: Streams, used: multiset<string>, k: int, x: string)
    requires Steady(lib, streams, used, k)
    ensures Steady(lib, streams, used + multiset{x}, k)
  {
  }

  /** A call of SetRecent in a steady database disturbs no cache. */
  lemma RecentKeeps(lib: Library, db: Db, uid: string, sid: string, ts: int, entry: Outcome, view: Outcome,
                    used: multiset<string>, k: int)
    requires Good(db.streams) && Steady(lib, db.streams, used, k) && used[sid] < k
    ensures var after := AfterRecent(lib, db, uid, sid, ts, entry, view).streams;
            Good(after) && Later(db.streams, after) && Steady(lib, after, used + multiset{sid}, k)
  {
    RecentStreams(lib, db, uid, sid, ts, entry, view);
    if Counts(lib, db.streams, uid, sid, view) {
      assert ValidStream(sid, db.streams[sid]);
      if exists s :: s in db.streams && sid in Parts(db.streams[s]) {
        ReadyView(db.streams[sid], k - used[sid]);
      }
      ViewStage(db.streams, sid);
      ViewSteady(lib, db.streams, used, k, sid);
    } else {
      LaterSame(db.streams);
      SteadyLess(lib, db.streams, used, k, sid);
    }
  }
}
