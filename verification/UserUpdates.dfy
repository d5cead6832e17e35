/** What SetFavorite, SetRecent, SetInterruptTime and the add/remove helpers do to the database. */
module UserUpdates {
  import opened Common
  import opened Bson
  import opened Infos
  import opened Urls
  import opened UserEntries
  import opened Schemas
  import opened Store

  /** The array of a user that holds entries for streams of a type. */
  function ArrayFor(st: StreamType): Key {
    if IsVod(st) then VODS_FIELD else if st == CATCHUP then CATCHUPS_FIELD else STREAMS_FIELD
  }

  /** The type a stream document declares. */
  function TypeOf(lib: Library, sdoc: Doc): Option<StreamType> {
    match TextAt(sdoc, CLS_FIELD) case None => None case Some(cls) => Some(lib.streamType(cls))
  }

  /** The checks all three setters make before they write. */
  function Target(lib: Library, db: Db, uid: string, sid: string): Result<Key> {
    if sid == "" then Err(InvalidStreamId)
    else if sid !in db.streams then Err(StreamNotFound)
    else if TypeOf(lib, db.streams[sid]) == None then Err(InvalidStream)
    else if uid == "" then Err(InvalidUserId)
    else Ok(ArrayFor(TypeOf(lib, db.streams[sid]).value))
  }

  /** positional $set on one user. */
  function SetOnUser(db: Db, uid: string, arr: Key, sid: string, k: Key, v: Value, o: Outcome): Db {
    if uid in db.subscribers
    then db.(subscribers := db.subscribers[uid :=
               Written(o, db.subscribers[uid], Some(SetPositional(db.subscribers[uid], arr, SID_FIELD, sid, k, v)))])
    else db
  }

  function SetEntry(lib: Library, db: Db, uid: string, sid: string, k: Key, v: Value, o: Outcome): Result<Db> {
    match Target(lib, db, uid, sid)
    case Err(e) => Err(e)
    case Ok(arr) => Ok(SetOnUser(db, uid, arr, sid, k, v, o))
  }

  /** SetRecent also counts a view of the stream, whether or not the user has an entry for it. */
  function CountView(db: Db, sid: string, o: Outcome): Db {
    if sid in db.streams
    then db.(streams := db.streams[sid := Written(o, db.streams[sid], Inc(db.streams[sid], VIEW_COUNT_FIELD))])
    else db
  }

  function SetRecentEntry(lib: Library, db: Db, uid: string, sid: string, ts: int, o1: Outcome,
                          o2: Outcome): Result<Db> {
    match SetEntry(lib, db, uid, sid, RECENT_FIELD, DateTime(ts), o1)
    case Err(e) => Err(e)
    case Ok(db1) => Ok(CountView(db1, sid, o2))
  }

  // ---- one field of one entry ----------------------------------------------------------------

  /** A positional $set touches one field of the first matching element and nothing else. */
  lemma PositionalFrame(d: Doc, arr: Key, id: string, k: Key, v: Value)
    ensures var d', items := SetPositional(d, arr, SID_FIELD, id, k, v), Items(d, arr);
            var at, items' := PosOf(items, SID_FIELD, id), Items(SetPositional(d, arr, SID_FIELD, id, k, v), arr);
            && |items'| == |items|
            && (forall j :: 0 <= j < |items| && j != at ==> items'[j] == items[j])
            && (at < |items| ==> items'[at].Document? && First(items'[at].fields, k) == Some(v)
                                 && forall q :: q != k ==> First(items'[at].fields, q) == First(items[at].fields, q))
            && (forall q :: q != arr ==> First(d', q) == First(d, q))
            && (at == |items| ==> d' == d)
  {
    var items := Items(d, arr);
    var at := PosOf(items, SID_FIELD, id);
    if First(d, arr).Some? && First(d, arr).value.Array? && at < |items| {
      SetFieldFrame(items[at].fields, k, v);
      var items' := items[at := Document(SetField(items[at].fields, k, v))];
      SetFieldFrame(d, arr, Array(items'));
      assert Items(SetPositional(d, arr, SID_FIELD, id, k, v), arr) == items';
    }
  }

  /** Setting a field with a non-default value is visible to the forward-only reader exactly when the
      fields asked for before it stand in order behind the sid and the field itself is absent or
      stands behind them. */
  predicate Visible(e: Doc, from: nat, n: nat)
    requires from <= |e| && n < 5
  {
    InOrder(e, from, ASKED[..n]) && (First(e, ASKED[n]) == None || InOrder(e, from, ASKED[..n + 1]))
  }

  lemma SetThenOrder(e: Doc, from: nat, n: nat, v: Value)
    requires from <= |e| && n < 5
    ensures InOrder(SetField(e, ASKED[n], v), from, ASKED[..n + 1]) <==> Visible(e, from, n)
  {
    assert ASKED[..n + 1] == ASKED[..n] + [ASKED[n]];
    assert ASKED[n] !in ASKED[..n] by {
      assert ASKED[0] == FAVORITE_FIELD && ASKED[1] == PRIVATE_FIELD && ASKED[2] == LOCKED_FIELD;
      assert ASKED[3] == RECENT_FIELD && ASKED[4] == INTERRUPTION_TIME_FIELD;
    }
    SetKeepsOrder(e, from, ASKED[..n], ASKED[n], v);
  }

  /** The sid of an entry stays where it is. */
  lemma SidStays(e: Doc, k: Key, v: Value)
    requires k != SID_FIELD && NextAt(e, SID_FIELD, 0) < |e|
    ensures NextAt(SetField(e, k, v), SID_FIELD, 0) == NextAt(e, SID_FIELD, 0)
  {
    SetMovesNothing(e, k, v, SID_FIELD, 0);
  }

  lemma FavoriteShown(e: Doc, from: nat, favorite: bool)
    requires Distinct(e) && from <= |e|
    ensures UserInfo(SetField(e, FAVORITE_FIELD, Boolean(favorite)), from).favorite == favorite
            <==> !favorite || First(e, FAVORITE_FIELD) == None || NextAt(e, FAVORITE_FIELD, from) < |e|
  {
    var v := Boolean(favorite);
    SetFieldDistinct(e, FAVORITE_FIELD, v);
    UserInfoMeaning(SetField(e, FAVORITE_FIELD, v), from);
    SetThenOrder(e, from, 0, v);
    assert ASKED[..1] == [FAVORITE_FIELD] && ASKED[..0] == [] && [FAVORITE_FIELD][1..] == [];
    assert InOrder(e, from, [FAVORITE_FIELD]) <==> NextAt(e, FAVORITE_FIELD, from) < |e|;
  }

  lemma RecentShown(e: Doc, from: nat, ts: int)
    requires Distinct(e) && from <= |e|
    ensures UserInfo(SetField(e, RECENT_FIELD, DateTime(ts)), from).recent == ts <==> ts == 0 || Visible(e, from, 3)
  {
    var v := DateTime(ts);
    SetFieldDistinct(e, RECENT_FIELD, v);
    UserInfoMeaning(SetField(e, RECENT_FIELD, v), from);
    SetThenOrder(e, from, 3, v);
  }

  lemma InterruptionShown(e: Doc, from: nat, time: int32)
    requires Distinct(e) && from <= |e|
    ensures UserInfo(SetField(e, INTERRUPTION_TIME_FIELD, I32(time)), from).interruption == time
            <==> time == 0 || Visible(e, from, 4)
  {
    var v := I32(time);
    SetFieldDistinct(e, INTERRUPTION_TIME_FIELD, v);
    UserInfoMeaning(SetField(e, INTERRUPTION_TIME_FIELD, v), from);
    SetThenOrder(e, from, 4, v);
    assert ASKED[..5] == ASKED;
  }

  /** Entries pushed by this service have no `locked`: a favorite set on them is shown, a viewing time
      or an interruption time never is. */
  lemma PushedEntryUpdates(sid: string, cls: Option<string>, favorite: bool, ts: int, time: int32)
    ensures var e := NewEntry(sid, cls);
            && UserInfo(SetField(e, FAVORITE_FIELD, Boolean(favorite)), 1).favorite == favorite
            && UserInfo(SetField(e, RECENT_FIELD, DateTime(ts)), 1).recent == 0
            && UserInfo(SetField(e, INTERRUPTION_TIME_FIELD, I32(time)), 1).interruption == 0
  {
    var e := NewEntry(sid, cls);
    NewEntryShape(sid, cls);
    NextAtIs(e, FAVORITE_FIELD, 1, 1);
    FavoriteShown(e, 1, favorite);
    SetFieldDistinct(e, RECENT_FIELD, DateTime(ts));
    SetFieldOther(e, RECENT_FIELD, DateTime(ts), LOCKED_FIELD);
    WithoutLocked(SetField(e, RECENT_FIELD, DateTime(ts)), 1);
    SetFieldDistinct(e, INTERRUPTION_TIME_FIELD, I32(time));
    SetFieldOther(e, INTERRUPTION_TIME_FIELD, I32(time), LOCKED_FIELD);
    WithoutLocked(SetField(e, INTERRUPTION_TIME_FIELD, I32(time)), 1);
  }

  // ---- view counts over runs -----------------------------------------------------------------

  datatype RecentCall = RecentCall(uid: string, sid: string, ts: int, o1: Outcome, o2: Outcome)

  function DbOf(r: Result<Db>, otherwise: Db): Db {
    match r case Ok(db) => db case Err(_) => otherwise
  }

  function RunRecents(lib: Library, db: Db, calls: seq<RecentCall>): Db
    decreases |calls|
  {
    if calls == [] then db
    else
      var before := RunRecents(lib, db, calls[..|calls| - 1]);
      var c := calls[|calls| - 1];
      DbOf(SetRecentEntry(lib, before, c.uid, c.sid, c.ts, c.o1, c.o2), before)
  }

  /** How many calls raised the counter of `sid`: they passed the checks and the server took the $inc. */
  function Increments(lib: Library, db: Db, calls: seq<RecentCall>, sid: string): nat
    decreases |calls|
  {
    if calls == [] then 0
    else
      var before := RunRecents(lib, db, calls[..|calls| - 1]);
      var c := calls[|calls| - 1];
      Increments(lib, db, calls[..|calls| - 1], sid)
      + if c.sid == sid && Target(lib, before, c.uid, sid).Ok? && c.o2 != Refused
           && Inc(before.streams[sid], VIEW_COUNT_FIELD).Some? then 1 else 0
  }

  /** The number a view counter stands for; an absent counter counts as zero. */
  function Views(d: Doc): real {
    match First(d, VIEW_COUNT_FIELD)
    case Some(I32(n)) => n as int as real
    case Some(I64(n)) => n as real
    case Some(Double(x)) => x
    case _ => 0.0
  }

  lemma IncAddsOne(d: Doc)
    ensures var e := Inc(d, VIEW_COUNT_FIELD); e.Some? ==> Views(e.value) == Views(d) + 1.0
  {
  }

  /** A stream's view count is its start value plus the increments that took effect. */
  lemma {:induction false} ViewCountConserved(lib: Library, db: Db, calls: seq<RecentCall>, sid: string)
    requires sid in db.streams
    ensures sid in RunRecents(lib, db, calls).streams
    ensures Views(RunRecents(lib, db, calls).streams[sid])
         == Views(db.streams[sid]) + Increments(lib, db, calls, sid) as real
    decreases |calls|
  {
    if calls != [] {
      var n := |calls| - 1;
      ViewCountConserved(lib, db, calls[..n], sid);
      var before, c := RunRecents(lib, db, calls[..n]), calls[n];
      var r := SetEntry(lib, before, c.uid, c.sid, RECENT_FIELD, DateTime(c.ts), c.o1);
      if r.Ok? {
        assert r.value.streams == before.streams;
        IncAddsOne(before.streams[sid]);
      }
    }
  }

  lemma ViewCountKind(s: Shape)
    requires s == Vod || s == Catchup || s == Channel
    ensures KindOf(s, VIEW_COUNT_FIELD) == OfInt32 && VIEW_COUNT_FIELD in Required(s)
  {
  }

  /** What a counted view does to a stream: a 32-bit counter that still fits changes nothing, one that
      does not fit or is of another type makes the stream unreadable, and a missing counter is filled in.
      Filling it in completes a document that lacked only the counter; a proxy may lack two fields, so it
      completes one that lacked three and breaks one that lacked two. */
  lemma CountedStaysReadable(s: Shape, st: StreamType, d: Doc)
    requires s == Vod || s == Catchup || s == Channel
    requires Distinct(d) && Inc(d, VIEW_COUNT_FIELD).Some?
    ensures var missing := Required(s) - Keys(d);
            Accepts(s, st, Inc(d, VIEW_COUNT_FIELD).value) <==>
            match First(d, VIEW_COUNT_FIELD)
            case None => WellTyped(s, d) && (missing == {VIEW_COUNT_FIELD} || (ProxyExempt(s, st) && |missing| == 3))
            case Some(I32(n)) => n < 0x7fff_ffff && Accepts(s, st, d)
            case Some(_) => false
  {
    ViewCountKind(s);
    match First(d, VIEW_COUNT_FIELD)
    case None => FirstViewCounted(s, st, d);
    case Some(I32(n)) =>
      if n < 0x7fff_ffff {
        SetAccepted(s, st, d, VIEW_COUNT_FIELD, I32(n + 1));
      } else {
        SetRefused(s, st, d, VIEW_COUNT_FIELD, I64(n as int + 1));
      }
    case Some(I64(n)) => SetRefused(s, st, d, VIEW_COUNT_FIELD, I64(n + 1));
    case Some(Double(x)) => SetRefused(s, st, d, VIEW_COUNT_FIELD, Double(x + 1.0));
  }

  lemma FirstViewCounted(s: Shape, st: StreamType, d: Doc)
    requires s == Vod || s == Catchup || s == Channel
    requires Distinct(d) && First(d, VIEW_COUNT_FIELD) == None
    ensures var missing := Required(s) - Keys(d);
            Accepts(s, st, SetField(d, VIEW_COUNT_FIELD, I32(1))) <==>
            WellTyped(s, d) && (missing == {VIEW_COUNT_FIELD} || (ProxyExempt(s, st) && |missing| == 3))
  {
    ViewCountKind(s);
    SetAccepted(s, st, d, VIEW_COUNT_FIELD, I32(1));
    IndexIsFirst(d, VIEW_COUNT_FIELD);
    IndexHoldsFields(d);
    var missing := Required(s) - Keys(d);
    assert VIEW_COUNT_FIELD in missing;
    assert |missing| == |missing - {VIEW_COUNT_FIELD}| + 1;
    assert missing - {VIEW_COUNT_FIELD} == {} <==> missing == {VIEW_COUNT_FIELD};
  }

  /** One view takes a proxy without a counter out of the catalogue: it lacked exactly two fields and then
      lacks one. No other readable stream lacks its counter. */
  lemma FirstViewHidesProxy(s: Shape, st: StreamType, d: Doc)
    requires s == Vod || s == Catchup || s == Channel
    requires Distinct(d) && Accepts(s, st, d) && First(d, VIEW_COUNT_FIELD) == None
    ensures ProxyExempt(s, st) && |Required(s) - Keys(d)| == 2
    ensures Inc(d, VIEW_COUNT_FIELD).Some? && !Accepts(s, st, Inc(d, VIEW_COUNT_FIELD).value)
  {
    FirstViewCounted(s, st, d);
    AcceptsIff(s, st, d);
    ViewCountKind(s);
    IndexIsFirst(d, VIEW_COUNT_FIELD);
    IndexHoldsFields(d);
    assert VIEW_COUNT_FIELD in Required(s) - Keys(d);
    assert |{VIEW_COUNT_FIELD}| == 1;
  }

  // ---- adding and removing entries -----------------------------------------------------------

  function PushEntry(db: Db, uid: string, arr: Key, entry: Doc, o: Outcome): Db {
    if uid in db.subscribers
    then db.(subscribers := db.subscribers[uid :=
               Written(o, db.subscribers[uid], Push(db.subscribers[uid], arr, Document(entry)))])
    else db
  }

  function PullEntry(db: Db, uid: string, arr: Key, sid: string, o: Outcome): Db {
    if uid in db.subscribers
    then db.(subscribers := db.subscribers[uid :=
               Written(o, db.subscribers[uid], Pull(db.subscribers[uid], arr, sid))])
    else db
  }

  /** Entries refer to their own stream. */
  lemma NewEntryRefers(lib: Library, id: string, other: string)
    ensures Refers(Document(NewEntry(id, Some(lib.classes.userStream))), SID_FIELD, other) <==> id == other
  {
  }

  lemma {:induction false} WithoutMembers(items: seq<Value>, k: Key, id: string)
    ensures forall v :: v in Without(items, k, id) <==> v in items && !Refers(v, k, id)
    ensures (forall v :: v in items ==> !Refers(v, k, id)) ==> Without(items, k, id) == items
    decreases |items|
  {
    if items != [] {
      var init := items[..|items| - 1];
      WithoutMembers(init, k, id);
      assert items == init + [items[|items| - 1]];
    }
  }

  /** The server pulls from an array or from an absent field only. */
  predicate TakesPull(d: Doc) {
    First(d, CATCHUPS_FIELD).Some? ==> First(d, CATCHUPS_FIELD).value.Array?
  }

  /** A pull from the catchups succeeds on a list or an absent field, leaves the others in their order, and
      repeated it changes nothing. */
  lemma PulledOnce(d: Doc, id: string)
    ensures var undone := Pull(d, CATCHUPS_FIELD, id);
            && (undone.Some? <==> TakesPull(d))
            && (undone.Some? ==>
                && Items(undone.value, CATCHUPS_FIELD) == Without(Items(d, CATCHUPS_FIELD), SID_FIELD, id)
                && (forall v :: v in Items(undone.value, CATCHUPS_FIELD) ==> !Refers(v, SID_FIELD, id))
                && Pull(undone.value, CATCHUPS_FIELD, id) == undone)
  {
    if TakesPull(d) {
      var undone := Pull(d, CATCHUPS_FIELD, id).value;
      var items := Items(undone, CATCHUPS_FIELD);
      WithoutMembers(Items(d, CATCHUPS_FIELD), SID_FIELD, id);
      WithoutMembers(items, SID_FIELD, id);
      if First(undone, CATCHUPS_FIELD).Some? {
        var at := NextAt(undone, CATCHUPS_FIELD, 0);
        assert undone[at] == Field(CATCHUPS_FIELD, Array(items));
        assert SetField(undone, CATCHUPS_FIELD, Array(items)) == undone;
      }
    }
  }
}
