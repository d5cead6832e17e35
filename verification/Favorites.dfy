/** SetFavorite and then ClientGetChannels: what of the seven lists changes. */
module Favorites {
  import opened Common
  import opened Bson
  import opened Infos
  import opened Urls
  import opened Schemas
  import opened FieldValues
  import opened UserEntries
  import opened Store
  import opened UserUpdates
  import opened Catalogue

  // ---- one entry -----------------------------------------------------------------------------

  /** Two cursors, over a document and over the document with `k` set, that still find the same. */
  predicate Together(e: Doc, e': Doc, p: nat, p': nat) {
    p <= |e| && p' <= |e'| && (p == p' || (p == |e| && p' == |e'|))
  }

  lemma StepTogether(e: Doc, k: Key, v: Value, q: Key, p: nat, p': nat)
    requires q != k && Together(e, SetField(e, k, v), p, p')
    ensures var e' := SetField(e, k, v);
            Value1(e', q, p') == Value1(e, q, p) && Together(e, e', After(e, q, p), After(e', q, p'))
  {
    if p == p' {
      SetMovesNothing(e, k, v, q, p);
    }
  }

  /** Setting the favorite of an entry leaves the other four values the reader finds as they were. */
  lemma FavoriteOnly(e: Doc, from: nat, favorite: bool)
    requires from <= |e|
    ensures var u, u' := UserInfo(e, from), UserInfo(SetField(e, FAVORITE_FIELD, Boolean(favorite)), from);
            u' == u.(favorite := u'.favorite)
  {
    var k, v := FAVORITE_FIELD, Boolean(favorite);
    var e' := SetField(e, k, v);
    WalkUnfold(e, from);
    WalkUnfold(e', from);
    SetMovesNothing(e, k, v, k, from);
    var p1, q1 := After(e, k, from), After(e', k, from);
    StepTogether(e, k, v, PRIVATE_FIELD, p1, q1);
    var p2, q2 := After(e, PRIVATE_FIELD, p1), After(e', PRIVATE_FIELD, q1);
    StepTogether(e, k, v, LOCKED_FIELD, p2, q2);
    var p3, q3 := After(e, LOCKED_FIELD, p2), After(e', LOCKED_FIELD, q2);
    StepTogether(e, k, v, RECENT_FIELD, p3, q3);
    StepTogether(e, k, v, INTERRUPTION_TIME_FIELD, After(e, RECENT_FIELD, p3), After(e', RECENT_FIELD, q3));
  }

  /** An entry whose favorite is set resolves as before, but for the favorite. */
  lemma FavoriteResolved(lib: Library, streams: map<string, Doc>, e: Doc, sid: string, favorite: bool)
    requires Refers(Document(e), SID_FIELD, sid) && Resolve(lib, streams, Document(e)).Some?
    ensures var behind, e' := NextAt(e, SID_FIELD, 0) + 1, SetField(e, FAVORITE_FIELD, Boolean(favorite));
            var u := Resolve(lib, streams, Document(e)).value.user;
            Resolve(lib, streams, Document(e'))
            == Some(Resolve(lib, streams, Document(e)).value.(user := u.(favorite := UserInfo(e', behind).favorite)))
  {
    var behind, e' := NextAt(e, SID_FIELD, 0) + 1, SetField(e, FAVORITE_FIELD, Boolean(favorite));
    SidStays(e, FAVORITE_FIELD, Boolean(favorite));
    FavoriteOnly(e, behind, favorite);
    ResolveAt(lib, streams, e, behind - 1);
    ResolveAt(lib, streams, e', behind - 1);
  }

  lemma ResolveAt(lib: Library, streams: map<string, Doc>, e: Doc, at: nat)
    requires at < |e| && NextAt(e, SID_FIELD, 0) == at && e[at].value.Oid?
    ensures Resolve(lib, streams, Document(e)) ==
            if e[at].value.id in streams && TypeOf(lib, streams[e[at].value.id]).Some?
            then Some(Entry(streams[e[at].value.id], TypeOf(lib, streams[e[at].value.id]).value, UserInfo(e, at + 1))) else None
  {
  }

  /** The favorite of an entry goes unchanged into what is listed, and into nothing else. */
  lemma FavoriteListed(lib: Library, e: Entry, favorite: bool)
    ensures var e' := e.(user := e.user.(favorite := favorite));
            && (match ListedChannel(lib, e)
                case None => ListedChannel(lib, e') == None
                case Some(ch) => ListedChannel(lib, e') == Some(ch.(base := ch.base.(favorite := favorite))))
            && (match ListedVod(lib, e)
                case None => ListedVod(lib, e') == None
                case Some(vod) => ListedVod(lib, e') == Some(vod.(base := vod.base.(favorite := favorite))))
            && (match ListedCatchup(lib, e)
                case None => ListedCatchup(lib, e') == None
                case Some(cat) => ListedCatchup(lib, e') == Some(cat.(base := cat.base.(favorite := favorite))))
  {
  }

  /** The favorite the reader finds after it was set. */
  function FavoriteAfter(e: Doc, favorite: bool): bool
    requires NextAt(e, SID_FIELD, 0) < |e|
  {
    UserInfo(SetField(e, FAVORITE_FIELD, Boolean(favorite)), NextAt(e, SID_FIELD, 0) + 1).favorite
  }

  // ---- one list ------------------------------------------------------------------------------

  /** One element of a list is replaced, the others stay as they are. */
  ghost predicate Replaced<A>(before: seq<A>, after: seq<A>, n: nat, a: A, b: A) {
    n < |before| && before[n] == a && after == before[n := b]
  }

  lemma AllSplit<A>(lib: Library, streams: map<string, Doc>, listed: Entry -> Option<A>, items: seq<Value>, at: nat)
    requires at < |items|
    ensures All(lib, streams, listed, items)
         == All(lib, streams, listed, items[..at]) + OneOf(Shown(lib, streams, listed, items[at]))
            + All(lib, streams, listed, items[at + 1..])
  {
    var f := (v: Value) => Shown(lib, streams, listed, v);
    assert items == items[..at + 1] + items[at + 1..];
    CollectConcat(f, items[..at + 1], items[at + 1..]);
    CollectStep(f, items, at);
  }

  lemma SideConcat<A>(pre: seq<(bool, A)>, p: (bool, A), post: seq<(bool, A)>, priv: bool)
    ensures Side(pre + [p] + post, priv) == Side(pre, priv) + (if p.0 == priv then [p.1] else []) + Side(post, priv)
  {
    var f := (q: (bool, A)) => if q.0 == priv then Some(q.1) else None;
    CollectConcat(f, pre + [p], post);
    SideSplit(pre + [p], priv);
    assert (pre + [p])[..|pre|] == pre;
  }

  lemma SideReplaced<A>(pre: seq<(bool, A)>, priv: bool, a: A, b: A, post: seq<(bool, A)>)
    ensures var x, y := pre + [(priv, a)] + post, pre + [(priv, b)] + post;
            && Side(x, !priv) == Side(y, !priv) && Replaced(Side(x, priv), Side(y, priv), |Side(pre, priv)|, a, b)
            && Replaced(Listings(x), Listings(y), |pre|, a, b)
  {
    var x, y := pre + [(priv, a)] + post, pre + [(priv, b)] + post;
    SideConcat(pre, (priv, a), post, priv);
    SideConcat(pre, (priv, b), post, priv);
    SideConcat(pre, (priv, a), post, !priv);
    SideConcat(pre, (priv, b), post, !priv);
    assert Listings(y) == Listings(x)[|pre| := b];
  }

  /** An entry that lists something else than before. */
  lemma EntryReplaced<A>(lib: Library, streams: map<string, Doc>, listed: Entry -> Option<A>, items: seq<Value>,
                         at: nat, v: Value, priv: bool, a: A, b: A)
    requires at < |items|
    requires Shown(lib, streams, listed, items[at]) == Some((priv, a)) && Shown(lib, streams, listed, v) == Some((priv, b))
    ensures var pre, x, y := All(lib, streams, listed, items[..at]), All(lib, streams, listed, items),
                             All(lib, streams, listed, items[at := v]);
            && Side(x, !priv) == Side(y, !priv) && Replaced(Side(x, priv), Side(y, priv), |Side(pre, priv)|, a, b)
            && Replaced(Listings(x), Listings(y), |pre|, a, b)
  {
    var items' := items[at := v];
    AllSplit(lib, streams, listed, items, at);
    AllSplit(lib, streams, listed, items', at);
    assert items'[..at] == items[..at] && items'[at + 1..] == items[at + 1..];
    SideReplaced(All(lib, streams, listed, items[..at]), priv, a, b, All(lib, streams, listed, items[at + 1..]));
  }

  /** An entry that lists nothing, before and after. */
  lemma EntryHidden<A>(lib: Library, streams: map<string, Doc>, listed: Entry -> Option<A>, items: seq<Value>,
                       at: nat, v: Value)
    requires at < |items| && Shown(lib, streams, listed, items[at]) == None && Shown(lib, streams, listed, v) == None
    ensures All(lib, streams, listed, items[at := v]) == All(lib, streams, listed, items)
  {
    var items' := items[at := v];
    AllSplit(lib, streams, listed, items, at);
    AllSplit(lib, streams, listed, items', at);
    assert items'[..at] == items[..at] && items'[at + 1..] == items[at + 1..];
  }

  // ---- the series do not see favorites -------------------------------------------------------

  predicate SameVods(vods: seq<VodInfo>, vods': seq<VodInfo>) {
    |vods'| == |vods| &&
    forall i :: 0 <= i < |vods| ==> vods'[i] == vods[i].(base := vods[i].base.(favorite := vods'[i].base.favorite))
  }

  lemma {:induction false} SameEpisodeViews(lib: Library, vods: seq<VodInfo>, vods': seq<VodInfo>, episode: string)
    requires SameVods(vods, vods')
    ensures EpisodeViews(lib, vods', episode) == EpisodeViews(lib, vods, episode)
  {
    if vods != [] {
      SameEpisodeViews(lib, vods[1..], vods'[1..], episode);
      assert vods'[0] == vods[0].(base := vods[0].base.(favorite := vods'[0].base.favorite));
    }
  }

  lemma {:induction false} SameSums(lib: Library, vods: seq<VodInfo>, vods': seq<VodInfo>, episodes: seq<string>)
    requires SameVods(vods, vods')
    ensures SumViews(lib, vods', episodes) == SumViews(lib, vods, episodes)
  {
    if episodes != [] {
      SameSums(lib, vods, vods', episodes[..|episodes| - 1]);
      SameEpisodeViews(lib, vods, vods', episodes[|episodes| - 1]);
    }
  }

  lemma {:induction false} SameSeries(lib: Library, series: map<string, Doc>, vods: seq<VodInfo>, vods': seq<VodInfo>,
                                      items: seq<Value>)
    requires SameVods(vods, vods')
    ensures ListedSeries(lib, series, vods', items) == ListedSeries(lib, series, vods, items)
  {
    if items != [] {
      var n := |items| - 1;
      SameSeries(lib, series, vods, vods', items[..n]);
      var v := items[n];
      if v.Oid? && v.id in series {
        SameSums(lib, vods, vods', SerialOf(lib, Index(series[v.id])).episodes);
      }
      SeriesStep(lib, series, vods, items, n);
      SeriesStep(lib, series, vods', items, n);
      assert items[..n + 1] == items;
    }
  }

  // ---- the seven lists -----------------------------------------------------------------------

  /** The database takes the write and the user has an entry for the stream in the array of its type. */
  predicate Sets(lib: Library, db: Db, uid: string, sid: string, arr: Key, o: Outcome) {
    && uid in db.subscribers && Target(lib, db, uid, sid) == Ok(arr) && o != Refused
    && PosOf(Items(db.subscribers[uid], arr), SID_FIELD, sid) < |Items(db.subscribers[uid], arr)|
  }

  /** The entry that is set: its place in the array, what it resolves to, and the favorite it then shows. */
  datatype Change = Change(items: seq<Value>, at: nat, entry: Entry, shown: bool)

  function ChangeOf(lib: Library, db: Db, uid: string, sid: string, arr: Key, favorite: bool, o: Outcome): (c: Change)
    requires Sets(lib, db, uid, sid, arr, o)
    ensures c.at < |c.items| && Refers(c.items[c.at], SID_FIELD, sid) && c.items == Items(db.subscribers[uid], arr)
    ensures Resolve(lib, db.streams, c.items[c.at]) == Some(c.entry)
  {
    var items := Items(db.subscribers[uid], arr);
    var at := PosOf(items, SID_FIELD, sid);
    Change(items, at, Resolve(lib, db.streams, items[at]).value, FavoriteAfter(items[at].fields, favorite))
  }

  function AfterFavorite(lib: Library, db: Db, uid: string, sid: string, favorite: bool, o: Outcome): Db {
    DbOf(SetEntry(lib, db, uid, sid, FAVORITE_FIELD, Boolean(favorite), o), db)
  }

  /** Only the one array of the user is written. */
  lemma FavoriteWritten(lib: Library, db: Db, uid: string, sid: string, arr: Key, favorite: bool, o: Outcome)
    requires Sets(lib, db, uid, sid, arr, o)
    ensures var c, after := ChangeOf(lib, db, uid, sid, arr, favorite, o), AfterFavorite(lib, db, uid, sid, favorite, o);
            && after == db.(subscribers := after.subscribers) && uid in after.subscribers
            && Items(after.subscribers[uid], arr)
               == c.items[c.at := Document(SetField(c.items[c.at].fields, FAVORITE_FIELD, Boolean(favorite)))]
            && forall q :: q != arr ==> Items(after.subscribers[uid], q) == Items(db.subscribers[uid], q)
  {
    var d, items := db.subscribers[uid], Items(db.subscribers[uid], arr);
    var at := PosOf(items, SID_FIELD, sid);
    SetFieldFrame(d, arr, Array(items[at := Document(SetField(items[at].fields, FAVORITE_FIELD, Boolean(favorite)))]));
  }

  /** The entry then resolves to the same stream and flags, but for the favorite. */
  lemma ChangeResolved(lib: Library, db: Db, uid: string, sid: string, arr: Key, favorite: bool, o: Outcome)
    requires Sets(lib, db, uid, sid, arr, o)
    ensures var c := ChangeOf(lib, db, uid, sid, arr, favorite, o);
            Resolve(lib, db.streams, Document(SetField(c.items[c.at].fields, FAVORITE_FIELD, Boolean(favorite))))
            == Some(c.entry.(user := c.entry.user.(favorite := c.shown)))
  {
    var c := ChangeOf(lib, db, uid, sid, arr, favorite, o);
    FavoriteResolved(lib, db.streams, c.items[c.at].fields, sid, favorite);
  }

  /** The favorite that is shown is the one that was set, unless it is true and an older one stands before
      the sid. */
  lemma ChangeShown(lib: Library, db: Db, uid: string, sid: string, arr: Key, favorite: bool, o: Outcome)
    requires Sets(lib, db, uid, sid, arr, o)
    ensures var c := ChangeOf(lib, db, uid, sid, arr, favorite, o);
            var e := c.items[c.at].fields;
            Distinct(e) ==>
              (c.shown == favorite <==>
               !favorite || First(e, FAVORITE_FIELD) == None || NextAt(e, FAVORITE_FIELD, NextAt(e, SID_FIELD, 0) + 1) < |e|)
  {
    var e := ChangeOf(lib, db, uid, sid, arr, favorite, o).items[ChangeOf(lib, db, uid, sid, arr, favorite, o).at].fields;
    if Distinct(e) {
      FavoriteShown(e, NextAt(e, SID_FIELD, 0) + 1, favorite);
    }
  }

  function ChannelMarked(ch: ChannelInfo, shown: bool): ChannelInfo { ch.(base := ch.base.(favorite := shown)) }

  function VodMarked(vod: VodInfo, shown: bool): VodInfo { vod.(base := vod.base.(favorite := shown)) }

  function CatchupMarked(cat: CatchupInfo, shown: bool): CatchupInfo { cat.(base := cat.base.(favorite := shown)) }

  // What ListsOf makes of a user one of whose arrays changed.

  lemma StreamsChanged(lib: Library, db: Db, after: Db, d: Doc, d': Doc)
    requires after == db.(subscribers := after.subscribers)
    requires forall q :: q != STREAMS_FIELD ==> Items(d', q) == Items(d, q)
    ensures var all := All(lib, db.streams, Channels(lib), Items(d', STREAMS_FIELD));
            ListsOf(lib, after, d') == ListsOf(lib, db, d).(chans := Side(all, false), pchans := Side(all, true))
  {
  }

  lemma CatchupsChanged(lib: Library, db: Db, after: Db, d: Doc, d': Doc)
    requires after == db.(subscribers := after.subscribers)
    requires forall q :: q != CATCHUPS_FIELD ==> Items(d', q) == Items(d, q)
    ensures ListsOf(lib, after, d')
         == ListsOf(lib, db, d).(catchups := Listings(All(lib, db.streams, Catchups(lib), Items(d', CATCHUPS_FIELD))))
  {
  }

  lemma VodsChanged(lib: Library, db: Db, after: Db, d: Doc, d': Doc)
    requires after == db.(subscribers := after.subscribers)
    requires forall q :: q != VODS_FIELD ==> Items(d', q) == Items(d, q)
    requires SameVods(ListsOf(lib, db, d).vods, Side(All(lib, db.streams, Vods(lib), Items(d', VODS_FIELD)), false))
    ensures var all := All(lib, db.streams, Vods(lib), Items(d', VODS_FIELD));
            ListsOf(lib, after, d') == ListsOf(lib, db, d).(vods := Side(all, false), pvods := Side(all, true))
  {
    SameSeries(lib, db.series, ListsOf(lib, db, d).vods, Side(All(lib, db.streams, Vods(lib), Items(d', VODS_FIELD)), false),
               Items(d, SERIES_FIELD));
  }

  lemma ChannelReplaced(lib: Library, streams: map<string, Doc>, c: Change, v: Value)
    requires c.at < |c.items| && Resolve(lib, streams, c.items[c.at]) == Some(c.entry)
    requires Resolve(lib, streams, v) == Some(c.entry.(user := c.entry.user.(favorite := c.shown)))
    ensures var x, y := All(lib, streams, Channels(lib), c.items), All(lib, streams, Channels(lib), c.items[c.at := v]);
            match ListedChannel(lib, c.entry)
            case None => y == x
            case Some(ch) =>
              var priv := c.entry.user.priv;
              && Side(y, !priv) == Side(x, !priv)
              && Replaced(Side(x, priv), Side(y, priv), |Side(All(lib, streams, Channels(lib), c.items[..c.at]), priv)|, ch,
                          ChannelMarked(ch, c.shown))
  {
    FavoriteListed(lib, c.entry, c.shown);
    match ListedChannel(lib, c.entry)
    case None => EntryHidden(lib, streams, Channels(lib), c.items, c.at, v);
    case Some(ch) =>
      EntryReplaced(lib, streams, Channels(lib), c.items, c.at, v, c.entry.user.priv, ch, ChannelMarked(ch, c.shown));
  }

  /** A favorite set on a channel: if the channel is listed, its element of the public or the private list
      gets the favorite; nothing else in the catalogue changes. */
  lemma ChannelFavorite(lib: Library, db: Db, uid: string, sid: string, favorite: bool, o: Outcome)
    requires Sets(lib, db, uid, sid, STREAMS_FIELD, o)
    ensures var after, c := AfterFavorite(lib, db, uid, sid, favorite, o), ChangeOf(lib, db, uid, sid, STREAMS_FIELD, favorite, o);
            uid in after.subscribers &&
            var x, y := ListsOf(lib, db, db.subscribers[uid]), ListsOf(lib, after, after.subscribers[uid]);
            match ListedChannel(lib, c.entry)
            case None => y == x
            case Some(ch) =>
              var priv, marked := c.entry.user.priv, ChannelMarked(ch, c.shown);
              var n := |Side(All(lib, db.streams, Channels(lib), c.items[..c.at]), priv)|;
              && y == x.(chans := y.chans, pchans := y.pchans)
              && (if priv then y.chans == x.chans && Replaced(x.pchans, y.pchans, n, ch, marked)
                  else y.pchans == x.pchans && Replaced(x.chans, y.chans, n, ch, marked))
  {
    var after, c := AfterFavorite(lib, db, uid, sid, favorite, o), ChangeOf(lib, db, uid, sid, STREAMS_FIELD, favorite, o);
    var v := Document(SetField(c.items[c.at].fields, FAVORITE_FIELD, Boolean(favorite)));
    FavoriteWritten(lib, db, uid, sid, STREAMS_FIELD, favorite, o);
    ChangeResolved(lib, db, uid, sid, STREAMS_FIELD, favorite, o);
    ChannelReplaced(lib, db.streams, c, v);
    StreamsChanged(lib, db, after, db.subscribers[uid], after.subscribers[uid]);
  }

  lemma VodReplaced(lib: Library, streams: map<string, Doc>, c: Change, v: Value)
    requires c.at < |c.items| && Resolve(lib, streams, c.items[c.at]) == Some(c.entry)
    requires Resolve(lib, streams, v) == Some(c.entry.(user := c.entry.user.(favorite := c.shown)))
    ensures var x, y := All(lib, streams, Vods(lib), c.items), All(lib, streams, Vods(lib), c.items[c.at := v]);
            match ListedVod(lib, c.entry)
            case None => y == x
            case Some(vod) =>
              var priv := c.entry.user.priv;
              && Side(y, !priv) == Side(x, !priv)
              && Replaced(Side(x, priv), Side(y, priv), |Side(All(lib, streams, Vods(lib), c.items[..c.at]), priv)|, vod,
                          VodMarked(vod, c.shown))
  {
    FavoriteListed(lib, c.entry, c.shown);
    match ListedVod(lib, c.entry)
    case None => EntryHidden(lib, streams, Vods(lib), c.items, c.at, v);
    case Some(vod) =>
      EntryReplaced(lib, streams, Vods(lib), c.items, c.at, v, c.entry.user.priv, vod, VodMarked(vod, c.shown));
  }

  lemma VodsAlike(lib: Library, streams: map<string, Doc>, c: Change, v: Value)
    requires c.at < |c.items| && Resolve(lib, streams, c.items[c.at]) == Some(c.entry)
    requires Resolve(lib, streams, v) == Some(c.entry.(user := c.entry.user.(favorite := c.shown)))
    ensures SameVods(Side(All(lib, streams, Vods(lib), c.items), false),
                     Side(All(lib, streams, Vods(lib), c.items[c.at := v]), false))
  {
    VodReplaced(lib, streams, c, v);
  }

  /** The same for a vod; the series count views of the public vods and stay as they are. */
  lemma VodFavorite(lib: Library, db: Db, uid: string, sid: string, favorite: bool, o: Outcome)
    requires Sets(lib, db, uid, sid, VODS_FIELD, o)
    ensures var after, c := AfterFavorite(lib, db, uid, sid, favorite, o), ChangeOf(lib, db, uid, sid, VODS_FIELD, favorite, o);
            uid in after.subscribers &&
            var x, y := ListsOf(lib, db, db.subscribers[uid]), ListsOf(lib, after, after.subscribers[uid]);
            match ListedVod(lib, c.entry)
            case None => y == x
            case Some(vod) =>
              var priv, marked := c.entry.user.priv, VodMarked(vod, c.shown);
              var n := |Side(All(lib, db.streams, Vods(lib), c.items[..c.at]), priv)|;
              && y == x.(vods := y.vods, pvods := y.pvods)
              && (if priv then y.vods == x.vods && Replaced(x.pvods, y.pvods, n, vod, marked)
                  else y.pvods == x.pvods && Replaced(x.vods, y.vods, n, vod, marked))
  {
    var after, c := AfterFavorite(lib, db, uid, sid, favorite, o), ChangeOf(lib, db, uid, sid, VODS_FIELD, favorite, o);
    var v := Document(SetField(c.items[c.at].fields, FAVORITE_FIELD, Boolean(favorite)));
    FavoriteWritten(lib, db, uid, sid, VODS_FIELD, favorite, o);
    ChangeResolved(lib, db, uid, sid, VODS_FIELD, favorite, o);
    VodReplaced(lib, db.streams, c, v);
    VodsAlike(lib, db.streams, c, v);
    VodsChanged(lib, db, after, db.subscribers[uid], after.subscribers[uid]);
  }

  lemma CatchupReplaced(lib: Library, streams: map<string, Doc>, c: Change, v: Value)
    requires c.at < |c.items| && Resolve(lib, streams, c.items[c.at]) == Some(c.entry)
    requires Resolve(lib, streams, v) == Some(c.entry.(user := c.entry.user.(favorite := c.shown)))
    ensures var x, y := All(lib, streams, Catchups(lib), c.items), All(lib, streams, Catchups(lib), c.items[c.at := v]);
            match ListedCatchup(lib, c.entry)
            case None => y == x
            case Some(cat) =>
              Replaced(Listings(x), Listings(y), |All(lib, streams, Catchups(lib), c.items[..c.at])|, cat,
                       CatchupMarked(cat, c.shown))
  {
    FavoriteListed(lib, c.entry, c.shown);
    match ListedCatchup(lib, c.entry)
    case None => EntryHidden(lib, streams, Catchups(lib), c.items, c.at, v);
    case Some(cat) =>
      EntryReplaced(lib, streams, Catchups(lib), c.items, c.at, v, c.entry.user.priv, cat, CatchupMarked(cat, c.shown));
  }

  /** The same for a catchup; catchups are in one list. */
  lemma CatchupFavorite(lib: Library, db: Db, uid: string, sid: string, favorite: bool, o: Outcome)
    requires Sets(lib, db, uid, sid, CATCHUPS_FIELD, o)
    ensures var after, c := AfterFavorite(lib, db, uid, sid, favorite, o), ChangeOf(lib, db, uid, sid, CATCHUPS_FIELD, favorite, o);
            uid in after.subscribers &&
            var x, y := ListsOf(lib, db, db.subscribers[uid]), ListsOf(lib, after, after.subscribers[uid]);
            match ListedCatchup(lib, c.entry)
            case None => y == x
            case Some(cat) =>
              && y == x.(catchups := y.catchups)
              && Replaced(x.catchups, y.catchups, |All(lib, db.streams, Catchups(lib), c.items[..c.at])|, cat,
                          CatchupMarked(cat, c.shown))
  {
    var after, c := AfterFavorite(lib, db, uid, sid, favorite, o), ChangeOf(lib, db, uid, sid, CATCHUPS_FIELD, favorite, o);
    var v := Document(SetField(c.items[c.at].fields, FAVORITE_FIELD, Boolean(favorite)));
    FavoriteWritten(lib, db, uid, sid, CATCHUPS_FIELD, favorite, o);
    ChangeResolved(lib, db, uid, sid, CATCHUPS_FIELD, favorite, o);
    CatchupReplaced(lib, db.streams, c, v);
    CatchupsChanged(lib, db, after, db.subscribers[uid], after.subscribers[uid]);
  }

  /** In every other case the database stays as it is. */
  lemma NothingSet(lib: Library, db: Db, uid: string, sid: string, favorite: bool, o: Outcome)
    requires forall arr :: !Sets(lib, db, uid, sid, arr, o)
    ensures AfterFavorite(lib, db, uid, sid, favorite, o) == db
  {
    if uid in db.subscribers && Target(lib, db, uid, sid).Ok? {
      assert !Sets(lib, db, uid, sid, Target(lib, db, uid, sid).value, o);
      assert db.subscribers[uid := db.subscribers[uid]] == db.subscribers;
    }
  }
}
