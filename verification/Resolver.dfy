/** How a stream request becomes a directory to serve from or a url to redirect to. */
module Resolver {
  import opened Common
  import opened Bson
  import opened Infos
  import opened Urls
  import opened Schemas
  import opened FieldValues
  import opened UserEntries
  import opened Store
  import opened UserUpdates
  import opened Catalogue

  // ---- outputs of a stream -------------------------------------------------------------------

  function FirstOutput(urls: seq<OutputUri>, cid: int32): Option<OutputUri> {
    if urls == [] then None else if urls[0].id == cid then Some(urls[0]) else FirstOutput(urls[1..], cid)
  }

  /** The first output with the channel id, in the first `output` field. */
  function OutputOf(lib: Library, sdoc: Doc, cid: int32): Option<OutputUri> {
    match First(sdoc, OUTPUT_FIELD)
    case Some(Array(items)) => FirstOutput(ReadOutputs(lib, items), cid)
    case _ => None
  }

  method FindOutput(lib: Library, sdoc: Doc, cid: int32) returns (out: Option<OutputUri>)
    ensures out == OutputOf(lib, sdoc, cid)
  {
    var at := IterFind(sdoc, OUTPUT_FIELD, 0);
    if at == |sdoc| {
      return None;
    }
    var ok, urls := GetOutputUrlData(lib, sdoc[at].value);
    if !ok {
      return None;
    }
    var i := 0;
    while i < |urls| && urls[i].id != cid
      invariant 0 <= i <= |urls|
      invariant FirstOutput(urls, cid) == FirstOutput(urls[i..], cid)
    {
      i := i + 1;
    }
    out := if i < |urls| then Some(urls[i]) else None;
  }

  method GetHttpRootFromStream(lib: Library, sdoc: Doc, cid: int32) returns (dir: Option<string>)
    ensures dir == match OutputOf(lib, sdoc, cid) case None => None case Some(out) => out.httpRoot
  {
    var out := FindOutput(lib, sdoc, cid);
    dir := if out.Some? then out.value.httpRoot else None;
  }

  method GetUrlFromStream(lib: Library, sdoc: Doc, cid: int32) returns (url: Option<string>)
    ensures url == match OutputOf(lib, sdoc, cid) case None => None case Some(out) => Some(out.url)
  {
    var out := FindOutput(lib, sdoc, cid);
    url := if out.Some? then Some(out.value.url) else None;
  }

  // ---- one stream ----------------------------------------------------------------------------

  datatype Section = InStreams | InVods | InCatchups

  datatype Place = Directory(path: string) | Link(url: string)

  predicate IsProxy(section: Section, st: StreamType) {
    match section
    case InStreams => st == PROXY
    case InVods => st == VOD_PROXY
    case InCatchups => st == PROXY || st == VOD_PROXY
  }

  /** Streams made on request have no directory of their own. */
  predicate IsRequestStream(st: StreamType) {
    st == COD_RELAY || st == COD_ENCODE || st == VOD_ENCODE || st == VOD_RELAY
  }

  /** Where a stream is served from, given its output: a root is used when it exists on disk; without a
      root only proxies and catchups have anything to offer. */
  function PlaceOf(section: Section, st: StreamType, out: Option<OutputUri>, onDisk: string -> bool): Result<Place> {
    match out
    case None => Err(CantParseUrls)
    case Some(o) =>
      if IsProxy(section, st) || (section == InCatchups && IsRequestStream(st)) then Ok(Link(o.url))
      else if o.httpRoot.Some? && onDisk(o.httpRoot.value) then Ok(Directory(o.httpRoot.value))
      else if o.httpRoot.Some? || section == InCatchups then Ok(Link(o.url))
      else Err(CantParseUrls)
  }

  function ResolveStream(lib: Library, streams: map<string, Doc>, onDisk: string -> bool,
                         section: Section, sid: string, cid: int32): Result<Place> {
    if sid !in streams then Err(StreamTypeNotSupported)
    else if TypeOf(lib, streams[sid]) == None then Err(InvalidStream)
    else PlaceOf(section, TypeOf(lib, streams[sid]).value, OutputOf(lib, streams[sid], cid), onDisk)
  }

  /** The two results of the call; an error leaves both unset. */
  datatype Answer = Answer(error: Option<Error>, directory: Option<string>, url: Option<string>)

  function Answered(r: Result<Place>): Answer {
    match r
    case Err(e) => Answer(Some(e), None, None)
    case Ok(Directory(path)) => Answer(None, Some(path), None)
    case Ok(Link(url)) => Answer(None, None, Some(url))
  }

  /** The branches of the three loops once the entry is found. */
  method AnswerStream(lib: Library, streams: map<string, Doc>, onDisk: string -> bool, section: Section,
                      sid: string, cid: int32)
    returns (a: Answer)
    ensures a == Answered(ResolveStream(lib, streams, onDisk, section, sid, cid))
  {
    if sid !in streams {
      return Answer(Some(StreamTypeNotSupported), None, None);
    }
    var sdoc := streams[sid];
    var bcls := First(sdoc, CLS_FIELD);
    if bcls.None? || !bcls.value.Utf8? {
      return Answer(Some(InvalidStream), None, None);
    }
    var st := lib.streamType(bcls.value.text);
    if IsProxy(section, st) {
      var url := GetUrlFromStream(lib, sdoc, cid);
      if url.Some? {
        return Answer(None, None, url);
      }
    } else if section == InCatchups {
      if !IsRequestStream(st) {
        var dir := GetHttpRootFromStream(lib, sdoc, cid);
        if dir.Some? && onDisk(dir.value) {
          return Answer(None, dir, None);
        }
      }
      var url := GetUrlFromStream(lib, sdoc, cid);
      if url.Some? {
        return Answer(None, None, url);
      }
    } else {
      var dir := GetHttpRootFromStream(lib, sdoc, cid);
      if dir.Some? {
        if onDisk(dir.value) {
          return Answer(None, dir, None);
        }
        var url := GetUrlFromStream(lib, sdoc, cid);
        if url.Some? {
          return Answer(None, None, url);
        }
      }
    }
    a := Answer(Some(CantParseUrls), None, None);
  }

  // ---- the three scans -----------------------------------------------------------------------

  /** The driver aborts on a sid that is not an object id; a scan ends at the first entry with the sid it is
      after. */
  predicate ScanOk(items: seq<Value>, sid: string) {
    SidsOk(items[..PosOf(items, SID_FIELD, sid)])
  }

  predicate Misses(items: seq<Value>, sid: string) {
    PosOf(items, SID_FIELD, sid) == |items|
  }

  /** Each scan is made only if the one before it found nothing. */
  predicate ScansOk(d: Doc, sid: string) {
    && ScanOk(Items(d, STREAMS_FIELD), sid)
    && (Misses(Items(d, STREAMS_FIELD), sid) ==> ScanOk(Items(d, VODS_FIELD), sid))
    && (Misses(Items(d, STREAMS_FIELD), sid) && Misses(Items(d, VODS_FIELD), sid) ==> ScanOk(Items(d, CATCHUPS_FIELD), sid))
  }

  /** One scan: only the first entry with the sid counts. */
  method ScanSection(lib: Library, streams: map<string, Doc>, onDisk: string -> bool, section: Section,
                     items: seq<Value>, sid: string, cid: int32)
    returns (a: Option<Answer>)
    requires ScanOk(items, sid)
    ensures a == if PosOf(items, SID_FIELD, sid) < |items|
                 then Some(Answered(ResolveStream(lib, streams, onDisk, section, sid, cid))) else None
  {
    var i := 0;
    while i < |items|
      invariant 0 <= i <= |items|
      invariant forall j :: 0 <= j < i ==> !Refers(items[j], SID_FIELD, sid)
    {
      if items[i].Document? {
        var at := IterFind(items[i].fields, SID_FIELD, 0);
        if at < |items[i].fields| {
          assert i < PosOf(items, SID_FIELD, sid) ==> items[i] in items[..PosOf(items, SID_FIELD, sid)];
          var oid := items[i].fields[at].value.id;
          if oid == sid {
            var found := AnswerStream(lib, streams, onDisk, section, oid, cid);
            return Some(found);
          }
        }
      }
      i := i + 1;
    }
    a := None;
  }

  /** All entries of a user, each with the array it is in, in the order the scans meet them. */
  function Entries(d: Doc): seq<(Section, Value)> {
    Tagged(InStreams, Items(d, STREAMS_FIELD)) + Tagged(InVods, Items(d, VODS_FIELD))
    + Tagged(InCatchups, Items(d, CATCHUPS_FIELD))
  }

  function Tagged(section: Section, items: seq<Value>): seq<(Section, Value)> {
    seq(|items|, i requires 0 <= i < |items| => (section, items[i]))
  }

  /** The array of the first entry with that sid. */
  function FirstWith(entries: seq<(Section, Value)>, sid: string): Option<Section> {
    if entries == [] then None
    else if Refers(entries[0].1, SID_FIELD, sid) then Some(entries[0].0)
    else FirstWith(entries[1..], sid)
  }

  /** Take the first entry with that sid in streams, vods and catchups and resolve only that one. */
  function Lookup(lib: Library, streams: map<string, Doc>, onDisk: string -> bool, d: Doc, sid: string,
                  cid: int32): Result<Place> {
    match FirstWith(Entries(d), sid)
    case None => Err(StreamNotFound)
    case Some(section) => ResolveStream(lib, streams, onDisk, section, sid, cid)
  }

  lemma {:induction false} FirstWithConcat(a: seq<(Section, Value)>, b: seq<(Section, Value)>, sid: string)
    ensures FirstWith(a + b, sid) == if FirstWith(a, sid).Some? then FirstWith(a, sid) else FirstWith(b, sid)
  {
    if a == [] {
      assert a + b == b;
    } else {
      FirstWithConcat(a[1..], b, sid);
      assert (a + b)[1..] == a[1..] + b;
    }
  }

  lemma {:induction false} FirstWithTagged(section: Section, items: seq<Value>, sid: string)
    ensures FirstWith(Tagged(section, items), sid) == if PosOf(items, SID_FIELD, sid) < |items| then Some(section) else None
  {
    if items != [] {
      FirstWithTagged(section, items[1..], sid);
      assert Tagged(section, items)[1..] == Tagged(section, items[1..]);
    }
  }

  lemma LookupBySections(d: Doc, sid: string)
    ensures var s, v, c := Items(d, STREAMS_FIELD), Items(d, VODS_FIELD), Items(d, CATCHUPS_FIELD);
            FirstWith(Entries(d), sid) ==
            if PosOf(s, SID_FIELD, sid) < |s| then Some(InStreams)
            else if PosOf(v, SID_FIELD, sid) < |v| then Some(InVods)
            else if PosOf(c, SID_FIELD, sid) < |c| then Some(InCatchups)
            else None
  {
    var s, v, c := Items(d, STREAMS_FIELD), Items(d, VODS_FIELD), Items(d, CATCHUPS_FIELD);
    FirstWithConcat(Tagged(InStreams, s) + Tagged(InVods, v), Tagged(InCatchups, c), sid);
    FirstWithConcat(Tagged(InStreams, s), Tagged(InVods, v), sid);
    FirstWithTagged(InStreams, s, sid);
    FirstWithTagged(InVods, v, sid);
    FirstWithTagged(InCatchups, c, sid);
  }

  /** The three scans in a row do what Lookup says, and on success set exactly one of the two results. */
  method FindDirectoryOrUrl(lib: Library, streams: map<string, Doc>, onDisk: string -> bool, d: Doc, sid: string,
                            cid: int32)
    returns (a: Answer)
    requires ScansOk(d, sid)
    ensures a == Answered(Lookup(lib, streams, onDisk, d, sid, cid))
    ensures a.error.None? <==> (a.directory.Some? <==> a.url.None?)
  {
    LookupBySections(d, sid);
    var found := ScanSection(lib, streams, onDisk, InStreams, Items(d, STREAMS_FIELD), sid, cid);
    if found.Some? {
      return found.value;
    }
    found := ScanSection(lib, streams, onDisk, InVods, Items(d, VODS_FIELD), sid, cid);
    if found.Some? {
      return found.value;
    }
    found := ScanSection(lib, streams, onDisk, InCatchups, Items(d, CATCHUPS_FIELD), sid, cid);
    if found.Some? {
      return found.value;
    }
    a := Answer(Some(StreamNotFound), None, None);
  }

  // ---- when it succeeds ----------------------------------------------------------------------

  lemma {:induction false} FirstOutputMember(urls: seq<OutputUri>, cid: int32)
    ensures FirstOutput(urls, cid).Some? <==> exists out :: out in urls && out.id == cid
    ensures FirstOutput(urls, cid).Some? ==> FirstOutput(urls, cid).value in urls && FirstOutput(urls, cid).value.id == cid
  {
    if urls != [] {
      FirstOutputMember(urls[1..], cid);
      assert urls == [urls[0]] + urls[1..];
    }
  }

  /** A proxy or a catchup is served exactly when it has an output with the channel id, any other stream
      exactly when the first such output has an http root. */
  lemma SucceedsIff(lib: Library, streams: map<string, Doc>, onDisk: string -> bool, section: Section, sid: string,
                    cid: int32)
    requires sid in streams && TypeOf(lib, streams[sid]).Some?
    ensures var outputs, st := ReadOutputs(lib, Items(streams[sid], OUTPUT_FIELD)), TypeOf(lib, streams[sid]).value;
            ResolveStream(lib, streams, onDisk, section, sid, cid).Ok? <==>
            if IsProxy(section, st) || section == InCatchups then exists out :: out in outputs && out.id == cid
            else FirstOutput(outputs, cid).Some? && FirstOutput(outputs, cid).value.httpRoot.Some?
  {
    var outputs := ReadOutputs(lib, Items(streams[sid], OUTPUT_FIELD));
    FirstOutputMember(outputs, cid);
    assert OutputOf(lib, streams[sid], cid) == FirstOutput(outputs, cid);
  }

  /** Files are served from this machine exactly when the first output with the channel id has a root that
      exists here, and the stream is neither a proxy nor a catchup made on request; otherwise the client is
      sent away. */
  lemma ServedHereIff(lib: Library, streams: map<string, Doc>, onDisk: string -> bool, section: Section,
                      sid: string, cid: int32)
    requires ResolveStream(lib, streams, onDisk, section, sid, cid).Ok?
    ensures sid in streams && TypeOf(lib, streams[sid]).Some?
    ensures var outputs, st := ReadOutputs(lib, Items(streams[sid], OUTPUT_FIELD)), TypeOf(lib, streams[sid]).value;
            ResolveStream(lib, streams, onDisk, section, sid, cid).value.Directory? <==>
            && !IsProxy(section, st) && !(section == InCatchups && IsRequestStream(st))
            && FirstOutput(outputs, cid).Some? && FirstOutput(outputs, cid).value.httpRoot.Some?
            && onDisk(FirstOutput(outputs, cid).value.httpRoot.value)
  {
  }

  /** A directory that is handed out exists and is the root of an output of the stream; a url is the url
      of such an output. */
  lemma PlaceIsOutput(lib: Library, streams: map<string, Doc>, onDisk: string -> bool, section: Section,
                      sid: string, cid: int32)
    requires ResolveStream(lib, streams, onDisk, section, sid, cid).Ok?
    ensures sid in streams
    ensures var outputs := ReadOutputs(lib, Items(streams[sid], OUTPUT_FIELD));
            match ResolveStream(lib, streams, onDisk, section, sid, cid).value
            case Directory(path) => onDisk(path) && exists out :: out in outputs && out.id == cid && out.httpRoot == Some(path)
            case Link(url) => exists out :: out in outputs && out.id == cid && out.url == url
  {
    FirstOutputMember(ReadOutputs(lib, Items(streams[sid], OUTPUT_FIELD)), cid);
  }

  /** What a client is redirected to is one of the urls its catalogue lists for that channel. */
  lemma RedirectsIntoCatalogue(lib: Library, streams: map<string, Doc>, onDisk: string -> bool, v: Value,
                               sid: string, cid: int32)
    requires ValidStreams(streams) && Refers(v, SID_FIELD, sid)
    requires Resolve(lib, streams, v).Some? && ListedChannel(lib, Resolve(lib, streams, v).value).Some?
    requires ResolveStream(lib, streams, onDisk, InStreams, sid, cid).Ok?
    requires ResolveStream(lib, streams, onDisk, InStreams, sid, cid).value.Link?
    ensures ResolveStream(lib, streams, onDisk, InStreams, sid, cid).value.url
         in ListedChannel(lib, Resolve(lib, streams, v).value).value.epg.urls
  {
    var sdoc := streams[sid];
    assert ValidStream(sid, sdoc);
    IndexIsFirst(sdoc, OUTPUT_FIELD);
    PlaceIsOutput(lib, streams, onDisk, InStreams, sid, cid);
    var outputs := ReadOutputs(lib, Items(sdoc, OUTPUT_FIELD));
    var out :| out in outputs && out.url == ResolveStream(lib, streams, onDisk, InStreams, sid, cid).value.url;
    var i :| 0 <= i < |outputs| && outputs[i] == out;
    assert UrlsOf(outputs)[i] == out.url;
    assert OutputUrls(lib, Index(sdoc)) == UrlsOf(outputs);
  }
}
