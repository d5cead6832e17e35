/** What a request for a stream is answered with, array by array and type by type. */
module ResolverTypes {
  import opened Common
  import opened Bson
  import opened Infos
  import opened Urls
  import opened UserEntries
  import opened UserUpdates
  import opened Store
  import opened Catalogue
  import opened Resolver

  /** The user has an entry for the stream in that array. */
  predicate HasEntry(d: Doc, arr: Key, sid: string) {
    exists v :: v in Items(d, arr) && v.Document? && First(v.fields, SID_FIELD) == Some(Oid(sid))
  }

  lemma EntryFound(items: seq<Value>, sid: string)
    ensures PosOf(items, SID_FIELD, sid) < |items| <==>
            exists v :: v in items && v.Document? && First(v.fields, SID_FIELD) == Some(Oid(sid))
  {
    var at := PosOf(items, SID_FIELD, sid);
    if at < |items| {
      assert items[at] in items && items[at].Document? && First(items[at].fields, SID_FIELD) == Some(Oid(sid));
    }
    if v :| v in items && v.Document? && First(v.fields, SID_FIELD) == Some(Oid(sid)) {
      var i :| 0 <= i < |items| && items[i] == v;
      assert Refers(items[i], SID_FIELD, sid);
    }
  }

  lemma FirstEntry(d: Doc, sid: string)
    ensures FirstWith(Entries(d), sid) ==
            if HasEntry(d, STREAMS_FIELD, sid) then Some(InStreams)
            else if HasEntry(d, VODS_FIELD, sid) then Some(InVods)
            else if HasEntry(d, CATCHUPS_FIELD, sid) then Some(InCatchups)
            else None
  {
    LookupBySections(d, sid);
    EntryFound(Items(d, STREAMS_FIELD), sid);
    EntryFound(Items(d, VODS_FIELD), sid);
    EntryFound(Items(d, CATCHUPS_FIELD), sid);
  }

  /** The stream is stored with a class of that type, and `out` is the first of its outputs with that id. */
  predicate Offers(lib: Library, streams: map<string, Doc>, sid: string, cid: int32, st: StreamType, out: OutputUri) {
    && sid in streams
    && First(streams[sid], CLS_FIELD).Some? && First(streams[sid], CLS_FIELD).value.Utf8?
    && lib.streamType(First(streams[sid], CLS_FIELD).value.text) == st
    && var outputs := ReadOutputs(lib, Items(streams[sid], OUTPUT_FIELD));
       exists i :: 0 <= i < |outputs| && outputs[i] == out && out.id == cid && forall j :: 0 <= j < i ==> outputs[j].id != cid
  }

  lemma {:induction false} FirstOutputAt(urls: seq<OutputUri>, cid: int32, i: nat)
    requires i < |urls| && urls[i].id == cid && forall j :: 0 <= j < i ==> urls[j].id != cid
    ensures FirstOutput(urls, cid) == Some(urls[i])
  {
    if i > 0 {
      FirstOutputAt(urls[1..], cid, i - 1);
    }
  }

  lemma OfferFound(lib: Library, streams: map<string, Doc>, sid: string, cid: int32, st: StreamType, out: OutputUri)
    requires Offers(lib, streams, sid, cid, st, out)
    ensures TypeOf(lib, streams[sid]) == Some(st) && OutputOf(lib, streams[sid], cid) == Some(out)
  {
    var outputs := ReadOutputs(lib, Items(streams[sid], OUTPUT_FIELD));
    var i :| 0 <= i < |outputs| && outputs[i] == out && out.id == cid && forall j :: 0 <= j < i ==> outputs[j].id != cid;
    FirstOutputAt(outputs, cid, i);
  }

  /** A proxy among the streams is answered with its url, root or no root; any other stream needs a root, is
      answered with the directory when it exists here, and else with the url. */
  lemma StreamServed(lib: Library, streams: map<string, Doc>, onDisk: string -> bool, d: Doc, sid: string, cid: int32,
                     st: StreamType, out: OutputUri)
    requires HasEntry(d, STREAMS_FIELD, sid) && Offers(lib, streams, sid, cid, st, out)
    ensures Answered(Lookup(lib, streams, onDisk, d, sid, cid)) ==
            if st == PROXY then Answer(None, None, Some(out.url))
            else if out.httpRoot == None then Answer(Some(CantParseUrls), None, None)
            else if onDisk(out.httpRoot.value) then Answer(None, out.httpRoot, None)
            else Answer(None, None, Some(out.url))
  {
    FirstEntry(d, sid);
    OfferFound(lib, streams, sid, cid, st, out);
  }

  /** The same among the vods, where only a vod proxy counts as a proxy. */
  lemma VodServed(lib: Library, streams: map<string, Doc>, onDisk: string -> bool, d: Doc, sid: string, cid: int32,
                  st: StreamType, out: OutputUri)
    requires !HasEntry(d, STREAMS_FIELD, sid) && HasEntry(d, VODS_FIELD, sid) && Offers(lib, streams, sid, cid, st, out)
    ensures Answered(Lookup(lib, streams, onDisk, d, sid, cid)) ==
            if st == VOD_PROXY then Answer(None, None, Some(out.url))
            else if out.httpRoot == None then Answer(Some(CantParseUrls), None, None)
            else if onDisk(out.httpRoot.value) then Answer(None, out.httpRoot, None)
            else Answer(None, None, Some(out.url))
  {
    FirstEntry(d, sid);
    OfferFound(lib, streams, sid, cid, st, out);
  }

  /** A catchup is always answered: with a directory only if it is neither a proxy of either kind nor made on
      request and its root exists here, and else with the url. */
  lemma CatchupServed(lib: Library, streams: map<string, Doc>, onDisk: string -> bool, d: Doc, sid: string, cid: int32,
                      st: StreamType, out: OutputUri)
    requires !HasEntry(d, STREAMS_FIELD, sid) && !HasEntry(d, VODS_FIELD, sid) && HasEntry(d, CATCHUPS_FIELD, sid)
    requires Offers(lib, streams, sid, cid, st, out)
    ensures Answered(Lookup(lib, streams, onDisk, d, sid, cid)) ==
            if && st != PROXY && st != VOD_PROXY
               && st != COD_RELAY && st != COD_ENCODE && st != VOD_ENCODE && st != VOD_RELAY
               && out.httpRoot.Some? && onDisk(out.httpRoot.value)
            then Answer(None, out.httpRoot, None)
            else Answer(None, None, Some(out.url))
  {
    FirstEntry(d, sid);
    OfferFound(lib, streams, sid, cid, st, out);
  }

  /** Without an entry, a stored stream, a class or an output with that id there is an error, each its own. */
  lemma NothingServed(lib: Library, streams: map<string, Doc>, onDisk: string -> bool, d: Doc, sid: string, cid: int32)
    requires forall st, out :: !Offers(lib, streams, sid, cid, st, out)
    ensures Answered(Lookup(lib, streams, onDisk, d, sid, cid)) == Answer(Some(
            if !HasEntry(d, STREAMS_FIELD, sid) && !HasEntry(d, VODS_FIELD, sid) && !HasEntry(d, CATCHUPS_FIELD, sid) then StreamNotFound
            else if sid !in streams then StreamTypeNotSupported
            else if First(streams[sid], CLS_FIELD) == None || !First(streams[sid], CLS_FIELD).value.Utf8? then InvalidStream
            else CantParseUrls), None, None)
  {
    FirstEntry(d, sid);
    if sid in streams && TypeOf(lib, streams[sid]).Some? {
      NoOffer(lib, streams, sid, cid);
    }
  }

  lemma NoOffer(lib: Library, streams: map<string, Doc>, sid: string, cid: int32)
    requires sid in streams && TypeOf(lib, streams[sid]).Some? && forall st, out :: !Offers(lib, streams, sid, cid, st, out)
    ensures OutputOf(lib, streams[sid], cid) == None
  {
    var outputs := ReadOutputs(lib, Items(streams[sid], OUTPUT_FIELD));
    if FirstOutput(outputs, cid).Some? {
      var i := FirstOutputIndex(outputs, cid);
      assert Offers(lib, streams, sid, cid, TypeOf(lib, streams[sid]).value, outputs[i]);
    }
  }

  lemma {:induction false} FirstOutputIndex(urls: seq<OutputUri>, cid: int32) returns (i: nat)
    requires FirstOutput(urls, cid).Some?
    ensures i < |urls| && urls[i].id == cid && forall j :: 0 <= j < i ==> urls[j].id != cid
  {
    if urls[0].id == cid {
      i := 0;
    } else {
      var k := FirstOutputIndex(urls[1..], cid);
      i := k + 1;
      forall j | 0 <= j < i ensures urls[j].id != cid {
        assert j > 0 ==> urls[j] == urls[1..][j - 1];
      }
    }
  }
}
