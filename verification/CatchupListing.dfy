/** From the request to the catalogue: what a user sees after asking for a catchup. */
module CatchupListing {
  import opened Common
  import opened Bson
  import opened Infos
  import opened Urls
  import opened Schemas
  import opened FieldValues
  import opened UserEntries
  import opened Store
  import opened UserUpdates
  import opened Catalogue
  import opened CatchupDocs
  import opened CatchupCache
  import opened CatchupCalls
  import opened CatchupRequests

  /** An entry pushed by the service resolves to its stream, with all flags off. */
  lemma PushedEntryResolves(lib: Library, streams: Streams, id: string)
    requires id in streams
    ensures Resolve(lib, streams, Document(NewEntry(id, Some(lib.classes.userStream)))) ==
            match TypeOf(lib, streams[id])
            case None => None
            case Some(st) => Some(Entry(streams[id], st, NO_USER_INFO))
  {
    var e := NewEntry(id, Some(lib.classes.userStream));
    NewEntryShape(id, Some(lib.classes.userStream));
    WithoutLocked(e, 1);
    UserInfoMeaning(e, 1);
    FirstIs(e, FAVORITE_FIELD, 1);
    FirstIs(e, PRIVATE_FIELD, 2);
  }

  /** A stored catchup that serves a request carries the request's title and dates. */
  lemma HitShows(lib: Library, streams: Streams, id: string, key: CatKey, u: UserStreamInfo)
    requires ValidStreams(streams) && Hit(streams, id, key)
    ensures var cat := CatchupOf(lib, Index(streams[id]), u);
            cat.base.id == id && cat.epg.name == key.title && cat.start == key.start && cat.stop == key.stop
  {
    assert ValidStream(id, streams[id]);
    IndexIsFirst(streams[id], ID_FIELD);
    IndexIsFirst(streams[id], NAME_FIELD);
    IndexIsFirst(streams[id], START_FIELD);
    IndexIsFirst(streams[id], STOP_FIELD);
  }

  /** What an entry for a catchup contributes to the catalogue. */
  predicate ShownAs(lib: Library, streams: Streams, v: Value, id: string, key: CatKey) {
    id in streams &&
    match Shown(lib, streams, Catchups(lib), v)
    case None => TypeOf(lib, streams[id]) == None
    case Some((priv, cat)) => !priv && TypeOf(lib, streams[id]).Some? && cat.base.id == id
                              && cat.epg.name == key.title && cat.start == key.start && cat.stop == key.stop
  }

  lemma EntryShown(lib: Library, streams: Streams, id: string, key: CatKey)
    requires ValidStreams(streams) && Hit(streams, id, key)
    ensures ShownAs(lib, streams, Document(NewEntry(id, Some(lib.classes.userStream))), id, key)
  {
    PushedEntryResolves(lib, streams, id);
    HitShows(lib, streams, id, key, NO_USER_INFO);
  }

  lemma PushedItem(d: Doc, v: Value)
    requires Push(d, CATCHUPS_FIELD, v).Some?
    ensures Items(Push(d, CATCHUPS_FIELD, v).value, CATCHUPS_FIELD) == Items(d, CATCHUPS_FIELD) + [v]
  {
  }

  /** After a request that succeeded the user has one catchup entry more, at the end. The catalogue shows it
      with the id of the answer and the title and dates of the request, and not as private, unless the
      stored catchup has no class; one that was just created has. */
  lemma GeneratedIsListed(lib: Library, db: Db, ep: Endpoint, uid: string, sid: string, key: CatKey, fate: Fate)
    requires Good(db.streams) && Fresh(db.streams, fate.cid)
    requires Generate(lib, db, ep, uid, sid, key, fate).1.Ok?
    ensures var (db', r, notes) := Generate(lib, db, ep, uid, sid, key, fate);
            var id, v := r.value.base.id, Document(NewEntry(r.value.base.id, Some(lib.classes.userStream)));
            && uid in db.subscribers && uid in db'.subscribers && id in db'.streams
            && Items(db'.subscribers[uid], CATCHUPS_FIELD) == Items(db.subscribers[uid], CATCHUPS_FIELD) + [v]
            && (notes != [] ==> TypeOf(lib, db'.streams[id]).Some?)
            && ShownAs(lib, db'.streams, v, id, key)
  {
    CreateCatchupKeeps(lib, db, ep, uid, sid, key, fate);
    var (db1, r) := CreateCatchup(lib, db, ep, uid, sid, key, fate);
    var id := r.value.cat.base.id;
    PushedItem(db.subscribers[uid], Document(NewEntry(id, Some(lib.classes.userStream))));
    EntryShown(lib, db1.streams, id, key);
  }
}
