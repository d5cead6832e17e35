/** What ClientGetChannels hands to a user: the resolved entries split by their private flag, the series
    with their view counts, and the content requests. */
module Catalogue {
  import opened Common
  import opened Bson
  import opened Infos
  import opened Urls
  import opened Schemas
  import opened FieldValues
  import opened Readers
  import opened UserEntries
  import opened Store
  import opened UserUpdates

  // ---- one entry -----------------------------------------------------------------------------

  /** The driver aborts on a `sid` that is not an object id, and on such a link in series or requests. */
  predicate SidsOk(items: seq<Value>) {
    forall v :: v in items && v.Document? && First(v.fields, SID_FIELD).Some? ==> First(v.fields, SID_FIELD).value.Oid?
  }

  predicate LinksOk(d: Doc) {
    && SidsOk(Items(d, STREAMS_FIELD)) && SidsOk(Items(d, VODS_FIELD)) && SidsOk(Items(d, CATCHUPS_FIELD))
    && (forall v :: v in Items(d, SERIES_FIELD) ==> v.Oid?)
    && (forall v :: v in Items(d, REQUESTS_FIELD) ==> v.Oid?)
  }

  datatype Entry = Entry(sdoc: Doc, st: StreamType, user: UserStreamInfo)

  /** The stream an entry points to and the flags behind its `sid`. */
  function Resolve(lib: Library, streams: map<string, Doc>, v: Value): Option<Entry> {
    if !v.Document? then None
    else
      var at := NextAt(v.fields, SID_FIELD, 0);
      if at == |v.fields| || !v.fields[at].value.Oid? then None
      else
        var id := v.fields[at].value.id;
        if id !in streams || TypeOf(lib, streams[id]) == None then None
        else Some(Entry(streams[id], TypeOf(lib, streams[id]).value, UserInfo(v.fields, at + 1)))
  }

  method ResolveEntry(lib: Library, streams: map<string, Doc>, item: Value) returns (found: Option<Entry>)
    requires SidsOk([item])
    ensures found == Resolve(lib, streams, item)
  {
    if !item.Document? {
      return None;
    }
    var at := IterFind(item.fields, SID_FIELD, 0);
    if at == |item.fields| {
      return None;
    }
    assert First(item.fields, SID_FIELD) == Some(item.fields[at].value) && item in [item];
    var oid := item.fields[at].value.id;
    if oid !in streams {
      return None;
    }
    var sdoc := streams[oid];
    var bcls := First(sdoc, CLS_FIELD);
    if bcls.None? || !bcls.value.Utf8? {
      return None;
    }
    var u := MakeUserStreamInfo(item.fields, at + 1);
    found := Some(Entry(sdoc, lib.streamType(bcls.value.text), u));
  }

  // ---- lists of entries ----------------------------------------------------------------------

  /** Channels are listed only when they are visible, and hidden unless they say otherwise. */
  function ListedChannel(lib: Library, e: Entry): Option<ChannelInfo> {
    if Accepts(Channel, e.st, e.sdoc) && BoolAt(Index(e.sdoc), VISIBLE_FIELD, false)
    then Some(ChannelOf(lib, Index(e.sdoc), e.user)) else None
  }

  /** Vods and catchups are listed whether or not they are visible. */
  function ListedVod(lib: Library, e: Entry): Option<VodInfo> {
    if Accepts(Vod, e.st, e.sdoc) then Some(VodOf(lib, Index(e.sdoc), e.user)) else None
  }

  function ListedCatchup(lib: Library, e: Entry): Option<CatchupInfo> {
    if Accepts(Catchup, e.st, e.sdoc) then Some(CatchupOf(lib, Index(e.sdoc), e.user)) else None
  }

  /** An entry together with its private flag, if it resolves and is listed. */
  function Shown<A>(lib: Library, streams: map<string, Doc>, listed: Entry -> Option<A>, v: Value): Option<(bool, A)> {
    match Resolve(lib, streams, v)
    case None => None
    case Some(e) => match listed(e) case None => None case Some(a) => Some((e.user.priv, a))
  }

  /** Everything that is listed, in the order of the entries. */
  function All<A>(lib: Library, streams: map<string, Doc>, listed: Entry -> Option<A>,
                  items: seq<Value>): seq<(bool, A)> {
    Collect((v: Value) => Shown(lib, streams, listed, v), items)
  }

  /** The part with that private flag. */
  function Side<A>(all: seq<(bool, A)>, priv: bool): seq<A> {
    Collect((p: (bool, A)) => if p.0 == priv then Some(p.1) else None, all)
  }

  lemma AllStep<A>(lib: Library, streams: map<string, Doc>, listed: Entry -> Option<A>, items: seq<Value>, i: nat,
                   priv: bool)
    requires i < |items|
    ensures var x := Shown(lib, streams, listed, items[i]);
            Side(All(lib, streams, listed, items[..i + 1]), priv)
            == Side(All(lib, streams, listed, items[..i]), priv) + if x.Some? && x.value.0 == priv then [x.value.1] else []
  {
    CollectStep((v: Value) => Shown(lib, streams, listed, v), items, i);
    var all, x := All(lib, streams, listed, items[..i]), Shown(lib, streams, listed, items[i]);
    if x.Some? {
      assert (all + [x.value])[..|all|] == all;
    }
  }

  function OneOf<A>(x: Option<A>): seq<A> {
    match x case None => [] case Some(a) => [a]
  }

  function Channels(lib: Library): Entry -> Option<ChannelInfo> { (e: Entry) => ListedChannel(lib, e) }

  function Vods(lib: Library): Entry -> Option<VodInfo> { (e: Entry) => ListedVod(lib, e) }

  function Catchups(lib: Library): Entry -> Option<CatchupInfo> { (e: Entry) => ListedCatchup(lib, e) }

  method ReadChannels(lib: Library, streams: map<string, Doc>, items: seq<Value>)
    returns (chans: seq<ChannelInfo>, pchans: seq<ChannelInfo>)
    requires ValidStreams(streams) && SidsOk(items)
    ensures chans == Side(All(lib, streams, Channels(lib), items), false)
    ensures pchans == Side(All(lib, streams, Channels(lib), items), true)
  {
    chans, pchans := [], [];
    var i := 0;
    while i < |items|
      invariant 0 <= i <= |items|
      invariant chans == Side(All(lib, streams, Channels(lib), items[..i]), false)
      invariant pchans == Side(All(lib, streams, Channels(lib), items[..i]), true)
    {
      AllStep(lib, streams, Channels(lib), items, i, false);
      AllStep(lib, streams, Channels(lib), items, i, true);
      var found := ResolveEntry(lib, streams, items[i]);
      if found.Some? {
        StreamIsValid(lib, streams, items[i]);
        var ok, ch, visible := MakeChannelInfo(lib, found.value.sdoc, found.value.st, found.value.user, false);
        if ok && visible {
          if found.value.user.priv {
            pchans := pchans + [ch];
          } else {
            chans := chans + [ch];
          }
        }
      }
      i := i + 1;
    }
    assert items[..i] == items;
  }

  lemma StreamIsValid(lib: Library, streams: map<string, Doc>, item: Value)
    requires ValidStreams(streams) && Resolve(lib, streams, item).Some?
    ensures Distinct(Resolve(lib, streams, item).value.sdoc) && OidLists(Resolve(lib, streams, item).value.sdoc)
  {
  }

  method ReadVods(lib: Library, streams: map<string, Doc>, items: seq<Value>)
    returns (vods: seq<VodInfo>, pvods: seq<VodInfo>)
    requires ValidStreams(streams) && SidsOk(items)
    ensures vods == Side(All(lib, streams, Vods(lib), items), false)
    ensures pvods == Side(All(lib, streams, Vods(lib), items), true)
  {
    vods, pvods := [], [];
    var i := 0;
    while i < |items|
      invariant 0 <= i <= |items|
      invariant vods == Side(All(lib, streams, Vods(lib), items[..i]), false)
      invariant pvods == Side(All(lib, streams, Vods(lib), items[..i]), true)
    {
      AllStep(lib, streams, Vods(lib), items, i, false);
      AllStep(lib, streams, Vods(lib), items, i, true);
      var found := ResolveEntry(lib, streams, items[i]);
      if found.Some? {
        StreamIsValid(lib, streams, items[i]);
        var ok, ch, _ := MakeVodInfo(lib, found.value.sdoc, found.value.st, found.value.user, false);
        if ok {
          if found.value.user.priv {
            pvods := pvods + [ch];
          } else {
            vods := vods + [ch];
          }
        }
      }
      i := i + 1;
    }
    assert items[..i] == items;
  }

  /** Catchups go into one list, whatever their private flag. */
  function Listings<A>(all: seq<(bool, A)>): seq<A> {
    seq(|all|, i requires 0 <= i < |all| => all[i].1)
  }

  function Flags<A>(all: seq<(bool, A)>): seq<bool> {
    seq(|all|, i requires 0 <= i < |all| => all[i].0)
  }

  lemma ListingsStep<A>(lib: Library, streams: map<string, Doc>, listed: Entry -> Option<A>, items: seq<Value>, i: nat)
    requires i < |items|
    ensures var x := Shown(lib, streams, listed, items[i]);
            Listings(All(lib, streams, listed, items[..i + 1]))
            == Listings(All(lib, streams, listed, items[..i])) + if x.Some? then [x.value.1] else []
  {
    CollectStep((v: Value) => Shown(lib, streams, listed, v), items, i);
  }

  /** One element of the catchups array. */
  method ReadCatchup(lib: Library, streams: map<string, Doc>, item: Value) returns (cat: Option<CatchupInfo>)
    requires ValidStreams(streams) && SidsOk([item])
    ensures match Shown(lib, streams, Catchups(lib), item) case None => cat == None case Some(p) => cat == Some(p.1)
  {
    var found := ResolveEntry(lib, streams, item);
    if found.None? {
      return None;
    }
    StreamIsValid(lib, streams, item);
    var ok, ch, _ := MakeCatchupInfo(lib, found.value.sdoc, found.value.st, found.value.user, false);
    cat := if ok then Some(ch) else None;
  }

  method ReadCatchups(lib: Library, streams: map<string, Doc>, items: seq<Value>) returns (catchups: seq<CatchupInfo>)
    requires ValidStreams(streams) && SidsOk(items)
    ensures catchups == Listings(All(lib, streams, Catchups(lib), items))
  {
    catchups := [];
    var i := 0;
    while i < |items|
      invariant 0 <= i <= |items|
      invariant catchups == Listings(All(lib, streams, Catchups(lib), items[..i]))
    {
      ListingsStep(lib, streams, Catchups(lib), items, i);
      var cat := ReadCatchup(lib, streams, items[i]);
      if cat.Some? {
        catchups := catchups + [cat.value];
      }
      i := i + 1;
    }
    assert items[..i] == items;
  }

  // ---- the partition -------------------------------------------------------------------------

  /** Takes the next element from the private list where the flag is set, else from the public one. */
  function Merge<A>(flags: seq<bool>, public: seq<A>, private: seq<A>): seq<A> {
    if flags == [] then []
    else
      var n := |flags| - 1;
      if flags[n] then
        if private == [] then [] else Merge(flags[..n], public, private[..|private| - 1]) + [private[|private| - 1]]
      else
        if public == [] then [] else Merge(flags[..n], public[..|public| - 1], private) + [public[|public| - 1]]
  }

  /** Nothing is lost, doubled or reordered: the flags alone restore the full list from the two lists. */
  lemma {:induction false} PartitionKeepsOrder<A>(all: seq<(bool, A)>)
    ensures Merge(Flags(all), Side(all, false), Side(all, true)) == Listings(all)
    ensures |Side(all, false)| + |Side(all, true)| == |all|
  {
    if all != [] {
      var n := |all| - 1;
      PartitionKeepsOrder(all[..n]);
      assert Flags(all)[..n] == Flags(all[..n]);
      assert Listings(all) == Listings(all[..n]) + [all[n].1];
      SideSplit(all, false);
      SideSplit(all, true);
    }
  }

  lemma SideSplit<A>(all: seq<(bool, A)>, priv: bool)
    requires all != []
    ensures Side(all, priv) == Side(all[..|all| - 1], priv) + if all[|all| - 1].0 == priv then [all[|all| - 1].1] else []
  {
  }

  // ---- series --------------------------------------------------------------------------------

  /** The views of the first public serial vod with that id. */
  function EpisodeViews(lib: Library, vods: seq<VodInfo>, episode: string): nat {
    if vods == [] then 0
    else if vods[0].movie.kind == lib.serialKind && vods[0].base.id == episode then vods[0].base.viewCount
    else EpisodeViews(lib, vods[1..], episode)
  }

  function SumViews(lib: Library, vods: seq<VodInfo>, episodes: seq<string>): nat {
    if episodes == [] then 0
    else SumViews(lib, vods, episodes[..|episodes| - 1]) + EpisodeViews(lib, vods, episodes[|episodes| - 1])
  }

  /** The inner loop: it stops at the first match. */
  method CountEpisodeViews(lib: Library, vods: seq<VodInfo>, episode: string) returns (views: nat)
    ensures views == EpisodeViews(lib, vods, episode)
  {
    var j := 0;
    while j < |vods| && !(vods[j].movie.kind == lib.serialKind && vods[j].base.id == episode)
      invariant 0 <= j <= |vods|
      invariant EpisodeViews(lib, vods, episode) == EpisodeViews(lib, vods[j..], episode)
    {
      j := j + 1;
    }
    views := if j < |vods| then vods[j].base.viewCount else 0;
  }

  lemma WrapAdd(a: nat, b: nat)
    ensures ToUint64(ToUint64(a) + b) == ToUint64(a + b)
  {
  }

  lemma SumViewsStep(lib: Library, vods: seq<VodInfo>, episodes: seq<string>, i: nat)
    requires i < |episodes|
    ensures SumViews(lib, vods, episodes[..i + 1]) == SumViews(lib, vods, episodes[..i]) + EpisodeViews(lib, vods, episodes[i])
  {
    assert episodes[..i + 1][..i] == episodes[..i];
  }

  method CountSerialViews(lib: Library, vods: seq<VodInfo>, episodes: seq<string>) returns (viewCounts: nat)
    ensures viewCounts == ToUint64(SumViews(lib, vods, episodes))
  {
    viewCounts := 0;
    var i := 0;
    while i < |episodes|
      invariant 0 <= i <= |episodes|
      invariant viewCounts == ToUint64(SumViews(lib, vods, episodes[..i]))
    {
      SumViewsStep(lib, vods, episodes, i);
      var views := CountEpisodeViews(lib, vods, episodes[i]);
      WrapAdd(SumViews(lib, vods, episodes[..i]), views);
      viewCounts := ToUint64(viewCounts + views);
      i := i + 1;
    }
    assert episodes[..i] == episodes;
  }

  function ListedSerial(lib: Library, series: map<string, Doc>, vods: seq<VodInfo>, v: Value): Option<SerialInfo> {
    if !v.Oid? || v.id !in series || !Accepts(Serial, PROXY, series[v.id]) then None
    else
      var info := SerialOf(lib, Index(series[v.id]));
      Some(info.(viewCount := ToUint64(SumViews(lib, vods, info.episodes))))
  }

  function ListedSeries(lib: Library, series: map<string, Doc>, vods: seq<VodInfo>,
                        items: seq<Value>): seq<SerialInfo> {
    Collect((v: Value) => ListedSerial(lib, series, vods, v), items)
  }

  predicate ValidSeries(series: map<string, Doc>) {
    forall id :: id in series ==> Distinct(series[id]) && OidLists(series[id])
  }

  /** One element of the series array. */
  method ReadSerial(lib: Library, series: map<string, Doc>, vods: seq<VodInfo>,
                    sid: string) returns (ser: Option<SerialInfo>)
    requires ValidSeries(series)
    ensures ser == ListedSerial(lib, series, vods, Oid(sid))
  {
    if sid !in series {
      return None;
    }
    var ok, info, _ := MakeSerialInfo(lib, series[sid], false);
    if !ok {
      return None;
    }
    var views := CountSerialViews(lib, vods, info.episodes);
    ser := Some(info.(viewCount := views));
  }

  lemma SeriesStep(lib: Library, series: map<string, Doc>, vods: seq<VodInfo>, items: seq<Value>, i: nat)
    requires i < |items|
    ensures ListedSeries(lib, series, vods, items[..i + 1])
         == ListedSeries(lib, series, vods, items[..i]) + OneOf(ListedSerial(lib, series, vods, items[i]))
  {
    CollectStep((v: Value) => ListedSerial(lib, series, vods, v), items, i);
  }

  method ReadSeries(lib: Library, series: map<string, Doc>, vods: seq<VodInfo>, items: seq<Value>)
    returns (lseries: seq<SerialInfo>)
    requires ValidSeries(series) && forall v :: v in items ==> v.Oid?
    ensures lseries == ListedSeries(lib, series, vods, items)
  {
    lseries := [];
    var i := 0;
    while i < |items|
      invariant 0 <= i <= |items|
      invariant lseries == ListedSeries(lib, series, vods, items[..i])
    {
      SeriesStep(lib, series, vods, items, i);
      var ser := ReadSerial(lib, series, vods, items[i].id);
      if ser.Some? {
        lseries := lseries + [ser.value];
      }
      i := i + 1;
    }
    assert items[..i] == items;
  }

  // ---- content requests ----------------------------------------------------------------------

  function ListedRequest(requests: map<string, Doc>, v: Value): Option<ContentRequestInfo> {
    if !v.Oid? || v.id !in requests || !Accepts(Request, PROXY, requests[v.id]) then None
    else Some(RequestOf(Index(requests[v.id])))
  }

  function ListedRequests(requests: map<string, Doc>, items: seq<Value>): seq<ContentRequestInfo> {
    Collect((v: Value) => ListedRequest(requests, v), items)
  }

  method ReadRequests(requests: map<string, Doc>, items: seq<Value>) returns (lcreq: seq<ContentRequestInfo>)
    requires (forall id :: id in requests ==> Distinct(requests[id])) && forall v :: v in items ==> v.Oid?
    ensures lcreq == ListedRequests(requests, items)
  {
    lcreq := [];
    var i := 0;
    while i < |items|
      invariant 0 <= i <= |items|
      invariant lcreq == ListedRequests(requests, items[..i])
    {
      CollectStep((v: Value) => ListedRequest(requests, v), items, i);
      var sid := items[i].id;
      if sid in requests {
        var ok, cont := MakeContentRequestInfo(requests[sid]);
        if ok {
          lcreq := lcreq + [cont];
        }
      }
      i := i + 1;
    }
    assert items[..i] == items;
  }

  // ---- what makes an entry appear ------------------------------------------------------------

  /** A channel is listed exactly when its document is well typed, has every required field (a proxy may
      lack exactly two) and says that it is visible. */
  lemma ChannelListedIff(lib: Library, e: Entry)
    requires Distinct(e.sdoc)
    ensures ListedChannel(lib, e).Some? <==>
            && WellTyped(Channel, e.sdoc)
            && (Required(Channel) <= Keys(e.sdoc) || (e.st == PROXY && |Required(Channel) - Keys(e.sdoc)| == 2))
            && First(e.sdoc, VISIBLE_FIELD) == Some(Boolean(true))
  {
    AcceptsIff(Channel, e.st, e.sdoc);
    IndexIsFirst(e.sdoc, VISIBLE_FIELD);
  }

  // ---- the seven lists -----------------------------------------------------------------------

  /** What ClientGetChannels fills, in the order of its parameters. */
  datatype Lists = Lists(
    vods: seq<VodInfo>, chans: seq<ChannelInfo>, pchans: seq<ChannelInfo>, pvods: seq<VodInfo>,
    catchups: seq<CatchupInfo>, series: seq<SerialInfo>, requests: seq<ContentRequestInfo>)

  /** The catalogue of a user; the series count the views of the public vods. */
  function ListsOf(lib: Library, db: Db, d: Doc): Lists {
    var shown := All(lib, db.streams, Vods(lib), Items(d, VODS_FIELD));
    var chans := All(lib, db.streams, Channels(lib), Items(d, STREAMS_FIELD));
    Lists(Side(shown, false), Side(chans, false), Side(chans, true), Side(shown, true),
          Listings(All(lib, db.streams, Catchups(lib), Items(d, CATCHUPS_FIELD))),
          ListedSeries(lib, db.series, Side(shown, false), Items(d, SERIES_FIELD)),
          ListedRequests(db.requests, Items(d, REQUESTS_FIELD)))
  }
}
