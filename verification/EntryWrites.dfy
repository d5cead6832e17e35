/** What SetFavorite, SetRecent and SetInterruptTime write, in terms of the stored documents alone. */
module EntryWrites {
  import opened Common
  import opened Bson
  import opened Infos
  import opened Urls
  import opened Store
  import opened UserUpdates

  /** The stream is stored with a class of that type. */
  predicate HasType(lib: Library, db: Db, sid: string, st: StreamType) {
    && sid in db.streams
    && First(db.streams[sid], CLS_FIELD).Some? && First(db.streams[sid], CLS_FIELD).value.Utf8?
    && lib.streamType(First(db.streams[sid], CLS_FIELD).value.text) == st
  }

  /** The array an entry for a stream of a type stands in. */
  predicate Belongs(st: StreamType, arr: Key) {
    && (arr == VODS_FIELD <==> st == VOD_PROXY || st == VOD_RELAY || st == VOD_ENCODE)
    && (arr == CATCHUPS_FIELD <==> st == CATCHUP)
    && (arr == STREAMS_FIELD <==> st != VOD_PROXY && st != VOD_RELAY && st != VOD_ENCODE && st != CATCHUP)
  }

  /** The first entry for the stream in the array has the value; its other fields, the other entries and the
      other fields of the user are as before. */
  ghost predicate EntrySet(d: Doc, e: Doc, arr: Key, sid: string, k: Key, v: Value) {
    var items, items' := Items(d, arr), Items(e, arr);
    && |items'| == |items| && (forall q :: q != arr ==> First(e, q) == First(d, q))
    && (forall i :: 0 <= i < |items| ==>
          if Refers(items[i], SID_FIELD, sid) && forall j :: 0 <= j < i ==> !Refers(items[j], SID_FIELD, sid)
          then && items'[i].Document? && First(items'[i].fields, k) == Some(v)
               && forall q :: q != k ==> First(items'[i].fields, q) == First(items[i].fields, q)
          else items'[i] == items[i])
  }

  lemma PositionalSets(d: Doc, arr: Key, sid: string, k: Key, v: Value)
    ensures EntrySet(d, SetPositional(d, arr, SID_FIELD, sid, k, v), arr, sid, k, v)
  {
    PositionalFrame(d, arr, sid, k, v);
    var items, at := Items(d, arr), PosOf(Items(d, arr), SID_FIELD, sid);
    forall i | 0 <= i < |items|
      ensures i == at <==> Refers(items[i], SID_FIELD, sid) && forall j :: 0 <= j < i ==> !Refers(items[j], SID_FIELD, sid)
    {
    }
  }

  /** A setter that passes its checks and is not refused sets the first entry for the stream in the array of
      its type, of that user; other users and collections stay. */
  lemma SetterSets(lib: Library, db: Db, uid: string, sid: string, st: StreamType, arr: Key, k: Key, v: Value, o: Outcome)
    requires uid != "" && sid != "" && uid in db.subscribers && HasType(lib, db, sid, st) && o != Refused
    requires arr in {STREAMS_FIELD, VODS_FIELD, CATCHUPS_FIELD} && Belongs(st, arr)
    ensures var r := SetEntry(lib, db, uid, sid, k, v, o);
            && r.Ok? && uid in r.value.subscribers
            && r.value == db.(subscribers := db.subscribers[uid := r.value.subscribers[uid]])
            && EntrySet(db.subscribers[uid], r.value.subscribers[uid], arr, sid, k, v)
  {
    PositionalSets(db.subscribers[uid], arr, sid, k, v);
    assert ArrayFor(st) == arr;
  }

  /** The checks of the three setters; otherwise only the user is missing or the write refused, which is no
      error and changes nothing. */
  lemma SetterChecks(lib: Library, db: Db, uid: string, sid: string, k: Key, v: Value, o: Outcome)
    ensures var r := SetEntry(lib, db, uid, sid, k, v, o);
            if sid == "" then r == Err(InvalidStreamId)
            else if sid !in db.streams then r == Err(StreamNotFound)
            else if First(db.streams[sid], CLS_FIELD) == None || !First(db.streams[sid], CLS_FIELD).value.Utf8? then r == Err(InvalidStream)
            else if uid == "" then r == Err(InvalidUserId)
            else r.Ok? && (uid !in db.subscribers || o == Refused ==> r.value == db)
  {
    if uid in db.subscribers {
      assert db.subscribers[uid := db.subscribers[uid]] == db.subscribers;
    }
  }

  /** SetRecent sets the viewing time in the entry and then counts a view of the stream, one more than before
      if the server takes it. */
  lemma RecentSets(lib: Library, db: Db, uid: string, sid: string, st: StreamType, arr: Key, ts: int, entry: Outcome,
                   view: Outcome)
    requires uid != "" && sid != "" && uid in db.subscribers && HasType(lib, db, sid, st) && entry != Refused
    requires arr in {STREAMS_FIELD, VODS_FIELD, CATCHUPS_FIELD} && Belongs(st, arr)
    ensures var r := SetRecentEntry(lib, db, uid, sid, ts, entry, view);
            && r.Ok? && uid in r.value.subscribers && sid in r.value.streams
            && r.value == db.(subscribers := db.subscribers[uid := r.value.subscribers[uid]],
                              streams := db.streams[sid := r.value.streams[sid]])
            && EntrySet(db.subscribers[uid], r.value.subscribers[uid], arr, sid, RECENT_FIELD, DateTime(ts))
            && (view == Refused ==> r.value.streams[sid] == db.streams[sid])
            && (view != Refused && Inc(db.streams[sid], VIEW_COUNT_FIELD).Some? ==>
                Views(r.value.streams[sid]) == Views(db.streams[sid]) + 1.0)
  {
    SetterSets(lib, db, uid, sid, st, arr, RECENT_FIELD, DateTime(ts), entry);
    IncAddsOne(db.streams[sid]);
  }
}
