/** What exactly stands in each of the seven lists of a catalogue, and which views a serial is shown with. */
module CatalogueContents {
  import opened Common
  import opened Bson
  import opened Infos
  import opened Urls
  import opened Schemas
  import opened FieldValues
  import opened UserEntries
  import opened Store
  import opened UserUpdates
  import opened Catalogue

  // ---- views of series -----------------------------------------------------------------------

  /** An episode counts with the views of the first vod of the serial kind that has its id. */
  lemma {:induction false} EpisodeCounts(lib: Library, vods: seq<VodInfo>, episode: string, j: nat)
    requires j < |vods| && vods[j].movie.kind == lib.serialKind && vods[j].base.id == episode
    requires forall i :: 0 <= i < j ==> !(vods[i].movie.kind == lib.serialKind && vods[i].base.id == episode)
    ensures EpisodeViews(lib, vods, episode) == vods[j].base.viewCount
  {
    if j > 0 {
      EpisodeCounts(lib, vods[1..], episode, j - 1);
    }
  }

  /** An episode without such a vod counts nothing. */
  lemma {:induction false} EpisodeMissing(lib: Library, vods: seq<VodInfo>, episode: string)
    requires forall i :: 0 <= i < |vods| ==> !(vods[i].movie.kind == lib.serialKind && vods[i].base.id == episode)
    ensures EpisodeViews(lib, vods, episode) == 0
  {
    if vods != [] {
      EpisodeMissing(lib, vods[1..], episode);
    }
  }

  /** Views of two lists of episodes add up. */
  lemma {:induction false} SumsAdd(lib: Library, vods: seq<VodInfo>, a: seq<string>, b: seq<string>)
    ensures SumViews(lib, vods, a + b) == SumViews(lib, vods, a) + SumViews(lib, vods, b)
  {
    if b == [] {
      assert a + b == a;
    } else {
      var n := |b| - 1;
      SumsAdd(lib, vods, a, b[..n]);
      assert (a + b)[..|a| + n] == a + b[..n];
    }
  }

  lemma OneEpisode(lib: Library, vods: seq<VodInfo>, episode: string)
    ensures SumViews(lib, vods, [episode]) == EpisodeViews(lib, vods, episode) && SumViews(lib, vods, []) == 0
  {
    assert [episode][..0] == [];
    assert SumViews(lib, vods, [episode][..0]) == 0;
  }

  function SerialVods(lib: Library, vods: seq<VodInfo>): seq<VodInfo> {
    if vods == [] then []
    else (if vods[0].movie.kind == lib.serialKind then [vods[0]] else []) + SerialVods(lib, vods[1..])
  }

  lemma {:induction false} OtherVodsIgnored(lib: Library, vods: seq<VodInfo>, episode: string)
    ensures EpisodeViews(lib, SerialVods(lib, vods), episode) == EpisodeViews(lib, vods, episode)
  {
    if vods != [] {
      OtherVodsIgnored(lib, vods[1..], episode);
      var rest := SerialVods(lib, vods[1..]);
      if vods[0].movie.kind == lib.serialKind {
        assert ([vods[0]] + rest)[1..] == rest;
      } else {
        assert [] + rest == rest;
      }
    }
  }

  /** Vods of another kind count for no serial. */
  lemma {:induction false} SumIgnoresOthers(lib: Library, vods: seq<VodInfo>, episodes: seq<string>)
    ensures SumViews(lib, SerialVods(lib, vods), episodes) == SumViews(lib, vods, episodes)
  {
    if episodes != [] {
      SumIgnoresOthers(lib, vods, episodes[..|episodes| - 1]);
      OtherVodsIgnored(lib, vods, episodes[|episodes| - 1]);
    }
  }

  /** A user whose public vods are listed the same is shown the same series, whatever his private vods. */
  lemma PrivateVodsIgnored(lib: Library, db: Db, d: Doc, e: Doc)
    requires Items(d, SERIES_FIELD) == Items(e, SERIES_FIELD) && ListsOf(lib, db, d).vods == ListsOf(lib, db, e).vods
    ensures ListsOf(lib, db, d).series == ListsOf(lib, db, e).series
  {
  }

  // ---- lists as one loop over the entries ----------------------------------------------------

  function OnSide<A>(lib: Library, streams: map<string, Doc>, listed: Entry -> Option<A>, priv: bool, v: Value): Option<A> {
    match Shown(lib, streams, listed, v)
    case None => None
    case Some(p) => if p.0 == priv then Some(p.1) else None
  }

  function OnEither<A>(lib: Library, streams: map<string, Doc>, listed: Entry -> Option<A>, v: Value): Option<A> {
    match Shown(lib, streams, listed, v) case None => None case Some(p) => Some(p.1)
  }

  lemma {:induction false} SideCollected<A>(lib: Library, streams: map<string, Doc>, listed: Entry -> Option<A>,
                                            items: seq<Value>, priv: bool)
    ensures Side(All(lib, streams, listed, items), priv)
         == Collect((v: Value) => OnSide(lib, streams, listed, priv, v), items)
  {
    if items != [] {
      var n := |items| - 1;
      SideCollected(lib, streams, listed, items[..n], priv);
      AllStep(lib, streams, listed, items, n, priv);
      assert items[..n + 1] == items;
    }
  }

  lemma {:induction false} ListingsCollected<A>(lib: Library, streams: map<string, Doc>, listed: Entry -> Option<A>,
                                                items: seq<Value>)
    ensures Listings(All(lib, streams, listed, items)) == Collect((v: Value) => OnEither(lib, streams, listed, v), items)
  {
    if items != [] {
      var n := |items| - 1;
      ListingsCollected(lib, streams, listed, items[..n]);
      ListingsStep(lib, streams, listed, items, n);
      assert items[..n + 1] == items;
    }
  }

  // ---- what is in them -----------------------------------------------------------------------

  /** The entry is a document whose first sid leads to a stored stream with a class. */
  predicate Leads(streams: map<string, Doc>, v: Value) {
    && v.Document?
    && First(v.fields, SID_FIELD).Some? && First(v.fields, SID_FIELD).value.Oid?
    && First(v.fields, SID_FIELD).value.id in streams
    && First(streams[First(v.fields, SID_FIELD).value.id], CLS_FIELD).Some?
    && First(streams[First(v.fields, SID_FIELD).value.id], CLS_FIELD).value.Utf8?
  }

  function StreamOf(streams: map<string, Doc>, v: Value): Doc
    requires Leads(streams, v)
  {
    streams[First(v.fields, SID_FIELD).value.id]
  }

  function ClassOf(lib: Library, streams: map<string, Doc>, v: Value): StreamType
    requires Leads(streams, v)
  {
    lib.streamType(First(StreamOf(streams, v), CLS_FIELD).value.text)
  }

  /** The user's flags are those that stand behind the sid. */
  function FlagsOf(v: Value): UserStreamInfo
    requires v.Document? && First(v.fields, SID_FIELD).Some?
  {
    UserInfo(v.fields, NextAt(v.fields, SID_FIELD, 0) + 1)
  }

  lemma LeadsResolved(lib: Library, streams: map<string, Doc>, v: Value)
    ensures Resolve(lib, streams, v) ==
            if Leads(streams, v) then Some(Entry(StreamOf(streams, v), ClassOf(lib, streams, v), FlagsOf(v))) else None
  {
  }

  predicate Increasing(at: seq<nat>) {
    forall k, l :: 0 <= k < l < |at| ==> at[k] < at[l]
  }

  lemma InPositions<A, B>(f: A -> Option<B>, xs: seq<A>, at: seq<nat>)
    requires CollectedAt(f, xs, at)
    ensures forall i :: i in at <==> 0 <= i < |xs| && f(xs[i]).Some?
    ensures Increasing(at)
  {
    forall i ensures i in at <==> 0 <= i < |xs| && f(xs[i]).Some? {
      if i in at {
        var k :| 0 <= k < |at| && at[k] == i;
      }
    }
  }

  /** The stream of the entry reads as a channel and says that it is visible. */
  predicate VisibleChannel(lib: Library, streams: map<string, Doc>, v: Value) {
    && Leads(streams, v) && Accepts(Channel, ClassOf(lib, streams, v), StreamOf(streams, v))
    && First(StreamOf(streams, v), VISIBLE_FIELD) == Some(Boolean(true))
  }

  lemma ChannelOnSide(lib: Library, streams: map<string, Doc>, priv: bool, v: Value)
    requires ValidStreams(streams)
    ensures OnSide(lib, streams, Channels(lib), priv, v) ==
            if VisibleChannel(lib, streams, v) && FlagsOf(v).priv == priv
            then Some(ChannelOf(lib, Index(StreamOf(streams, v)), FlagsOf(v))) else None
  {
    LeadsResolved(lib, streams, v);
    if Leads(streams, v) {
      assert ValidStream(First(v.fields, SID_FIELD).value.id, StreamOf(streams, v));
      IndexIsFirst(StreamOf(streams, v), VISIBLE_FIELD);
    }
  }

  /** The channels of either list: exactly the entries with that private flag whose stream reads as a visible
      channel, in the order of the entries, each with what its stream and the flags of the user say. */
  lemma ChannelContents(lib: Library, db: Db, d: Doc, priv: bool) returns (at: seq<nat>)
    requires ValidStreams(db.streams)
    ensures var list := if priv then ListsOf(lib, db, d).pchans else ListsOf(lib, db, d).chans;
            var items := Items(d, STREAMS_FIELD);
            && |at| == |list| && Increasing(at)
            && (forall i :: i in at <==>
                  0 <= i < |items| && VisibleChannel(lib, db.streams, items[i]) && FlagsOf(items[i]).priv == priv)
            && forall k :: 0 <= k < |at| ==>
                 && at[k] < |items| && Leads(db.streams, items[at[k]])
                 && list[k] == ChannelOf(lib, Index(StreamOf(db.streams, items[at[k]])), FlagsOf(items[at[k]]))
  {
    var items := Items(d, STREAMS_FIELD);
    var f := (v: Value) => OnSide(lib, db.streams, Channels(lib), priv, v);
    SideCollected(lib, db.streams, Channels(lib), items, priv);
    at := CollectPositions(f, items);
    forall v ensures f(v) == if VisibleChannel(lib, db.streams, v) && FlagsOf(v).priv == priv
                             then Some(ChannelOf(lib, Index(StreamOf(db.streams, v)), FlagsOf(v))) else None
    {
      ChannelOnSide(lib, db.streams, priv, v);
    }
    InPositions(f, items, at);
  }

  /** The stream of the entry reads as a vod, visible or not. */
  predicate ReadableVod(lib: Library, streams: map<string, Doc>, v: Value) {
    Leads(streams, v) && Accepts(Vod, ClassOf(lib, streams, v), StreamOf(streams, v))
  }

  lemma VodOnSide(lib: Library, streams: map<string, Doc>, priv: bool, v: Value)
    ensures OnSide(lib, streams, Vods(lib), priv, v) ==
            if ReadableVod(lib, streams, v) && FlagsOf(v).priv == priv
            then Some(VodOf(lib, Index(StreamOf(streams, v)), FlagsOf(v))) else None
  {
    LeadsResolved(lib, streams, v);
  }

  /** The vods of either list, in the same way. */
  lemma VodContents(lib: Library, db: Db, d: Doc, priv: bool) returns (at: seq<nat>)
    ensures var list := if priv then ListsOf(lib, db, d).pvods else ListsOf(lib, db, d).vods;
            var items := Items(d, VODS_FIELD);
            && |at| == |list| && Increasing(at)
            && (forall i :: i in at <==>
                  0 <= i < |items| && ReadableVod(lib, db.streams, items[i]) && FlagsOf(items[i]).priv == priv)
            && forall k :: 0 <= k < |at| ==>
                 && at[k] < |items| && Leads(db.streams, items[at[k]])
                 && list[k] == VodOf(lib, Index(StreamOf(db.streams, items[at[k]])), FlagsOf(items[at[k]]))
  {
    var items := Items(d, VODS_FIELD);
    var f := (v: Value) => OnSide(lib, db.streams, Vods(lib), priv, v);
    SideCollected(lib, db.streams, Vods(lib), items, priv);
    at := CollectPositions(f, items);
    forall v ensures f(v) == if ReadableVod(lib, db.streams, v) && FlagsOf(v).priv == priv
                             then Some(VodOf(lib, Index(StreamOf(db.streams, v)), FlagsOf(v))) else None
    {
      VodOnSide(lib, db.streams, priv, v);
    }
    InPositions(f, items, at);
  }

  /** The stream of the entry reads as a catchup, visible or not. */
  predicate ReadableCatchup(lib: Library, streams: map<string, Doc>, v: Value) {
    Leads(streams, v) && Accepts(Catchup, ClassOf(lib, streams, v), StreamOf(streams, v))
  }

  lemma CatchupOnEither(lib: Library, streams: map<string, Doc>, v: Value)
    ensures OnEither(lib, streams, Catchups(lib), v) ==
            if ReadableCatchup(lib, streams, v)
            then Some(CatchupOf(lib, Index(StreamOf(streams, v)), FlagsOf(v))) else None
  {
    LeadsResolved(lib, streams, v);
  }

  /** The catchups, private or not, in one list. */
  lemma CatchupContents(lib: Library, db: Db, d: Doc) returns (at: seq<nat>)
    ensures var list, items := ListsOf(lib, db, d).catchups, Items(d, CATCHUPS_FIELD);
            && |at| == |list| && Increasing(at)
            && (forall i :: i in at <==> 0 <= i < |items| && ReadableCatchup(lib, db.streams, items[i]))
            && forall k :: 0 <= k < |at| ==>
                 && at[k] < |items| && Leads(db.streams, items[at[k]])
                 && list[k] == CatchupOf(lib, Index(StreamOf(db.streams, items[at[k]])), FlagsOf(items[at[k]]))
  {
    var items := Items(d, CATCHUPS_FIELD);
    var f := (v: Value) => OnEither(lib, db.streams, Catchups(lib), v);
    ListingsCollected(lib, db.streams, Catchups(lib), items);
    at := CollectPositions(f, items);
    forall v ensures f(v) == if ReadableCatchup(lib, db.streams, v)
                             then Some(CatchupOf(lib, Index(StreamOf(db.streams, v)), FlagsOf(v))) else None
    {
      CatchupOnEither(lib, db.streams, v);
    }
    InPositions(f, items, at);
  }

  /** The link leads to a stored document that the reader accepts. */
  predicate Stored(s: Shape, docs: map<string, Doc>, v: Value) {
    v.Oid? && v.id in docs && Accepts(s, PROXY, docs[v.id])
  }

  /** The series: exactly the links to readable serials, in order, each with the views of its stored episodes
      in the public vods, wrapped to 64 bits. */
  lemma SeriesContents(lib: Library, db: Db, d: Doc) returns (at: seq<nat>)
    ensures var lists, items := ListsOf(lib, db, d), Items(d, SERIES_FIELD);
            && |at| == |lists.series| && Increasing(at)
            && (forall i :: i in at <==> 0 <= i < |items| && Stored(Serial, db.series, items[i]))
            && forall k :: 0 <= k < |at| ==>
                 && at[k] < |items| && Stored(Serial, db.series, items[at[k]])
                 && var t := Index(db.series[items[at[k]].id]);
                    lists.series[k] == SerialOf(lib, t).(viewCount :=
                      SumViews(lib, lists.vods, Ids(ItemsAt(t, EPISODES_FIELD))) % 0x1_0000_0000_0000_0000)
  {
    var lists, items := ListsOf(lib, db, d), Items(d, SERIES_FIELD);
    var f := (v: Value) => ListedSerial(lib, db.series, lists.vods, v);
    assert lists.series == Collect(f, items);
    at := CollectPositions(f, items);
    InPositions(f, items, at);
    forall v | Stored(Serial, db.series, v)
      ensures SerialOf(lib, Index(db.series[v.id])).episodes == Ids(ItemsAt(Index(db.series[v.id]), EPISODES_FIELD)) {
    }
  }

  /** The content requests: exactly the links to readable requests, in order. */
  lemma RequestContents(lib: Library, db: Db, d: Doc) returns (at: seq<nat>)
    ensures var list, items := ListsOf(lib, db, d).requests, Items(d, REQUESTS_FIELD);
            && |at| == |list| && Increasing(at)
            && (forall i :: i in at <==> 0 <= i < |items| && Stored(Request, db.requests, items[i]))
            && forall k :: 0 <= k < |at| ==>
                 && at[k] < |items| && Stored(Request, db.requests, items[at[k]])
                 && list[k] == RequestOf(Index(db.requests[items[at[k]].id]))
  {
    var items := Items(d, REQUESTS_FIELD);
    var f := (v: Value) => ListedRequest(db.requests, v);
    assert ListsOf(lib, db, d).requests == Collect(f, items);
    at := CollectPositions(f, items);
    InPositions(f, items, at);
  }
}
