/** The document written for a new catchup, and what the catchup reader makes of it. */
module CatchupDocs {
  import opened Common
  import opened Bson
  import opened Infos
  import opened Urls
  import opened Schemas
  import opened FieldValues
  import opened Store

  datatype Endpoint = Endpoint(valid: bool, host: string, root: string)

  /** What a catchup is requested by. */
  datatype CatKey = CatKey(title: string, start: int, stop: int)

  /** Up to `parts`. The groups are appended as an array that holds the array of group names. */
  function Head(lib: Library, cid: string, now: int, key: CatKey, base: ChannelInfo): Doc {
    [Field(ID_FIELD, Oid(cid)),
     Field(CLS_FIELD, Utf8(lib.classes.catchup)),
     Field(CREATED_DATE_FIELD, DateTime(now)),
     Field(NAME_FIELD, Utf8(key.title)),
     Field(GROUPS_FIELD, Array([Array(GroupTexts(base.base.groups))])),
     Field(TVG_ID_FIELD, Utf8(base.epg.tvgId)),
     Field(TVG_NAME_FIELD, Utf8("")),
     Field(TVG_LOGO_FIELD, Utf8(base.epg.icon)),
     Field(PRICE_FIELD, Double(0.0)),
     Field(VISIBLE_FIELD, Boolean(true)),
     Field(IARC_FIELD, I32(ToInt32(base.base.iarc))),
     Field(VIEW_COUNT_FIELD, I32(0)),
     Field(PARTS_FIELD, Array([]))]
  }

  function GroupTexts(groups: seq<string>): seq<Value> {
    seq(|groups|, i requires 0 <= i < |groups| => Utf8(groups[i]))
  }

  /** From `have_video` on. */
  function Tail(key: CatKey, base: ChannelInfo): Doc {
    [Field(HAVE_VIDEO_FIELD, Boolean(base.base.haveVideo)),
     Field(HAVE_AUDIO_FIELD, Boolean(base.base.haveAudio)),
     Field(LOOP_FIELD, Boolean(false)),
     Field(RESTART_ATTEMPTS_FIELD, I32(10)),
     Field(AUTO_EXIT_FIELD, I32(ToInt32(Truncated(key.stop - key.start, 1000)))),
     Field(EXTRA_CONFIG_FIELD, Utf8("{}")),
     Field(VIDEO_PARSER_FIELD, Utf8("h264parse")),
     Field(AUDIO_PARSER_FIELD, Utf8("aacparse")),
     Field(CHUNK_DURATION_FIELD, I32(12)),
     Field(CHUNK_LIFE_TIME_FIELD, I32(43200)),
     Field(START_FIELD, DateTime(key.start)),
     Field(STOP_FIELD, DateTime(key.stop))]
  }

  function NewDoc(lib: Library, ep: Endpoint, cid: string, now: int, key: CatKey, base: ChannelInfo,
                  urls: seq<OutputUri>): Doc {
    Head(lib, cid, now, key, base)
    + [Field(OUTPUT_FIELD, Array(WriteOutputs(lib.classes, CatchupOutputs(lib, urls, cid, ep.host, ep.root))))]
    + [Field(LOG_LEVEL_FIELD, I32(lib.logLevelInfo))]
    + [Field(INPUT_FIELD, Array(WriteInputs(lib.classes, urls)))]
    + Tail(key, base)
  }

  /** The appends, in the order of the code; also the outputs of the catchup, for the answer. */
  method BuildDoc(lib: Library, ep: Endpoint, cid: string, now: int, key: CatKey, base: ChannelInfo,
                  urls: seq<OutputUri>)
    returns (doc: Doc, caturls: seq<OutputUri>)
    ensures doc == NewDoc(lib, ep, cid, now, key, base, urls)
    ensures caturls == CatchupOutputs(lib, urls, cid, ep.host, ep.root)
  {
    var child: seq<Value> := [];
    var i := 0;
    while i < |base.base.groups|
      invariant 0 <= i <= |base.base.groups|
      invariant child == GroupTexts(base.base.groups[..i])
    {
      child := child + [Utf8(base.base.groups[i])];
      i := i + 1;
    }
    assert base.base.groups[..i] == base.base.groups;
    doc := Head(lib, cid, now, key, base);
    doc, caturls := CreateCatchupOutputUrl(lib, doc, urls, cid, ep.host, ep.root);
    doc := doc + [Field(LOG_LEVEL_FIELD, I32(lib.logLevelInfo))];
    doc := CreateInputUrl(lib.classes, doc, urls);
    doc := doc + Tail(key, base);
  }

  // ---- reading it back -----------------------------------------------------------------------

  lemma NewDocKeys(lib: Library, ep: Endpoint, cid: string, now: int, key: CatKey, base: ChannelInfo,
                   urls: seq<OutputUri>)
    ensures var d := NewDoc(lib, ep, cid, now, key, base, urls);
            |d| == 28 && forall i :: 0 <= i < 28 ==> d[i].key == i
  {
  }

  lemma HeadTyped(lib: Library, cid: string, now: int, key: CatKey, base: ChannelInfo)
    ensures WellTyped(Catchup, Head(lib, cid, now, key, base))
  {
  }

  /** The catchup reader has no opinion on the fields from `loop` to `chunk_life_time`. */
  lemma UnknownFields(k: Key)
    requires LOOP_FIELD <= k <= CHUNK_LIFE_TIME_FIELD
    ensures KindOf(Catchup, k) == Any
  {
  }

  lemma TailTyped(key: CatKey, base: ChannelInfo)
    ensures WellTyped(Catchup, Tail(key, base))
  {
    var tail := Tail(key, base);
    forall i | 0 <= i < |tail| ensures Typed(Catchup)(tail[i]) {
      if 2 <= i < 10 {
        UnknownFields(tail[i].key);
      }
    }
  }

  lemma NewDocTyped(lib: Library, ep: Endpoint, cid: string, now: int, key: CatKey, base: ChannelInfo,
                    urls: seq<OutputUri>)
    ensures WellTyped(Catchup, NewDoc(lib, ep, cid, now, key, base, urls))
  {
    HeadTyped(lib, cid, now, key, base);
    TailTyped(key, base);
  }

  /** A document whose fields are numbered from 0 on has them all under their own number. */
  lemma Numbered(d: Doc)
    requires forall i :: 0 <= i < |d| ==> d[i].key == i
    ensures Distinct(d) && Index(d).Keys == Keys(d) && forall k :: 0 <= k < |d| ==> k in Index(d) && Index(d)[k] == d[k].value
  {
    IndexHoldsFields(d);
    forall k | 0 <= k < |d| ensures k in Index(d) && Index(d)[k] == d[k].value {
      assert d[k].key in Keys(d);
    }
  }

  lemma RequiredNumbers(k: Key)
    requires k in Required(Catchup)
    ensures 0 <= k < 28
  {
  }

  lemma NumberedAccepted(d: Doc)
    requires |d| == 28 && (forall i :: 0 <= i < |d| ==> d[i].key == i) && WellTyped(Catchup, d)
    ensures Accepts(Catchup, CATCHUP, d)
  {
    Numbered(d);
    forall k | k in Required(Catchup) ensures k in Keys(d) {
      RequiredNumbers(k);
    }
    AcceptsIff(Catchup, CATCHUP, d);
  }

  /** The catchup reader counts exactly 12 in a new document and accepts it. */
  lemma NewDocAccepted(lib: Library, ep: Endpoint, cid: string, now: int, key: CatKey, base: ChannelInfo,
                       urls: seq<OutputUri>)
    ensures var d := NewDoc(lib, ep, cid, now, key, base, urls);
            Distinct(d) && Scan(Catchup, d) == Some(12) && Accepts(Catchup, CATCHUP, d)
  {
    var d := NewDoc(lib, ep, cid, now, key, base, urls);
    NewDocKeys(lib, ep, cid, now, key, base, urls);
    NewDocTyped(lib, ep, cid, now, key, base, urls);
    Numbered(d);
    NumberedAccepted(d);
  }

  lemma NewDocValues(lib: Library, ep: Endpoint, cid: string, now: int, key: CatKey, base: ChannelInfo,
                     urls: seq<OutputUri>)
    ensures var d := NewDoc(lib, ep, cid, now, key, base, urls);
            var t, head, tail := Index(d), Head(lib, cid, now, key, base), Tail(key, base);
            && (forall k :: 0 <= k < 13 ==> k in t && t[k] == head[k].value)
            && (forall k :: 16 <= k < 28 ==> k in t && t[k] == tail[k - 16].value)
            && OUTPUT_FIELD in t
            && t[OUTPUT_FIELD] == Array(WriteOutputs(lib.classes, CatchupOutputs(lib, urls, cid, ep.host, ep.root)))
            && META_FIELD !in t
  {
    var d := NewDoc(lib, ep, cid, now, key, base, urls);
    var head, tail := Head(lib, cid, now, key, base), Tail(key, base);
    NewDocKeys(lib, ep, cid, now, key, base, urls);
    Numbered(d);
    assert |head| == 13 && |tail| == 12;
    assert forall k :: 0 <= k < 13 ==> d[k] == head[k];
    assert forall k :: 16 <= k < 28 ==> d[k] == tail[k - 16];
    assert d[13].value == Array(WriteOutputs(lib.classes, CatchupOutputs(lib, urls, cid, ep.host, ep.root)));
    assert META_FIELD !in Keys(d);
  }

  /** What the recording of a catchup is steered by: it is created now, records the outputs of the channel
      between the two dates, and ends after the full seconds between them. */
  lemma NewDocRecords(lib: Library, ep: Endpoint, cid: string, now: int, key: CatKey, base: ChannelInfo,
                      urls: seq<OutputUri>)
    ensures var d := NewDoc(lib, ep, cid, now, key, base, urls);
            && First(d, CREATED_DATE_FIELD) == Some(DateTime(now)) && First(d, CLS_FIELD) == Some(Utf8(lib.classes.catchup))
            && First(d, START_FIELD) == Some(DateTime(key.start)) && First(d, STOP_FIELD) == Some(DateTime(key.stop))
            && First(d, INPUT_FIELD) == Some(Array(WriteInputs(lib.classes, urls)))
            && First(d, AUTO_EXIT_FIELD).Some? && First(d, AUTO_EXIT_FIELD).value.I32?
            && (0 <= key.stop - key.start < 1000 * 0x8000_0000 ==>
                var s := First(d, AUTO_EXIT_FIELD).value.i;
                1000 * s <= key.stop - key.start < 1000 * (s + 1))
  {
    var d := NewDoc(lib, ep, cid, now, key, base, urls);
    NewDocKeys(lib, ep, cid, now, key, base, urls);
    FirstIs(d, CREATED_DATE_FIELD, 2);
    FirstIs(d, CLS_FIELD, 1);
    FirstIs(d, START_FIELD, 26);
    FirstIs(d, STOP_FIELD, 27);
    FirstIs(d, INPUT_FIELD, 15);
    FirstIs(d, AUTO_EXIT_FIELD, 20);
    NewDocAt(lib, ep, cid, now, key, base, urls);
  }

  /** The settings every recording gets. */
  lemma NewDocSettings(lib: Library, ep: Endpoint, cid: string, now: int, key: CatKey, base: ChannelInfo,
                       urls: seq<OutputUri>)
    ensures var d := NewDoc(lib, ep, cid, now, key, base, urls);
            && First(d, TVG_NAME_FIELD) == Some(Utf8("")) && First(d, PRICE_FIELD) == Some(Double(0.0))
            && First(d, LOG_LEVEL_FIELD) == Some(I32(lib.logLevelInfo)) && First(d, LOOP_FIELD) == Some(Boolean(false))
            && First(d, RESTART_ATTEMPTS_FIELD) == Some(I32(10)) && First(d, EXTRA_CONFIG_FIELD) == Some(Utf8("{}"))
            && First(d, VIDEO_PARSER_FIELD) == Some(Utf8("h264parse")) && First(d, AUDIO_PARSER_FIELD) == Some(Utf8("aacparse"))
            && First(d, CHUNK_DURATION_FIELD) == Some(I32(12)) && First(d, CHUNK_LIFE_TIME_FIELD) == Some(I32(43200))
  {
    var d := NewDoc(lib, ep, cid, now, key, base, urls);
    NewDocKeys(lib, ep, cid, now, key, base, urls);
    forall k | 0 <= k < 28 ensures First(d, k) == Some(d[k].value) {
      FirstIs(d, k, k);
    }
  }

  lemma NewDocAt(lib: Library, ep: Endpoint, cid: string, now: int, key: CatKey, base: ChannelInfo, urls: seq<OutputUri>)
    ensures var d := NewDoc(lib, ep, cid, now, key, base, urls);
            && |d| == 28 && d[1].value == Utf8(lib.classes.catchup) && d[2].value == DateTime(now)
            && d[15].value == Array(WriteInputs(lib.classes, urls))
            && d[20].value == I32(ToInt32(Truncated(key.stop - key.start, 1000)))
            && d[26].value == DateTime(key.start) && d[27].value == DateTime(key.stop)
  {
  }

  /** Urls and directories the libraries produce are canonical: parsing them again changes nothing. */
  ghost predicate Stable(lib: Library) {
    && (forall s :: lib.gurl(lib.gurl(s)) == lib.gurl(s))
    && (forall s :: lib.directory(lib.directory(s)) == lib.directory(s))
    && (forall root, s :: lib.subdirectory(root, s).Some? ==>
          lib.directory(lib.subdirectory(root, s).value) == lib.subdirectory(root, s).value)
  }

  /** Outputs that were read from a document are canonical. */
  lemma {:induction false} ReadOutputsCanonical(lib: Library, items: seq<Value>)
    requires Stable(lib)
    ensures forall out :: out in ReadOutputs(lib, items) ==> Canonical(lib, out)
  {
    if items != [] {
      var n := |items| - 1;
      ReadOutputsCanonical(lib, items[..n]);
      ReadOutputsStep(lib, items, n);
      assert items[..n + 1] == items;
    }
  }

  /** The outputs of a catchup are read back as they were written. */
  lemma CatchupOutputsRead(lib: Library, urls: seq<OutputUri>, cid: string, ep: Endpoint)
    requires Stable(lib) && forall out :: out in urls ==> Canonical(lib, out)
    ensures var outs := CatchupOutputs(lib, urls, cid, ep.host, ep.root);
            ReadOutputs(lib, WriteOutputs(lib.classes, outs)) == outs
  {
    var outs := CatchupOutputs(lib, urls, cid, ep.host, ep.root);
    forall out | out in outs ensures Canonical(lib, out) {
      var i :| 0 <= i < |outs| && outs[i] == out;
      assert urls[i] in urls;
      assert out == CatchupOutput(lib, urls[i], cid, ep.host, ep.root);
    }
    OutputRoundTrip(lib, lib.classes, outs);
  }

  /** What a client is told about a catchup that was just created. The two flags are passed on in the
      opposite order of the readers. */
  function CreatedInfo(lib: Library, ep: Endpoint, cid: string, key: CatKey, base: ChannelInfo,
                       urls: seq<OutputUri>): CatchupInfo {
    CatchupInfo(base.base.(id := cid, haveVideo := base.base.haveAudio, haveAudio := base.base.haveVideo,
                           viewCount := 0, locked := false),
                Epg(base.epg.tvgId, key.title, base.epg.icon, UrlsOf(CatchupOutputs(lib, urls, cid, ep.host, ep.root))),
                key.start, key.stop)
  }

  lemma NestedGroups(groups: seq<string>)
    ensures Texts([Array(GroupTexts(groups))]) == []
  {
    var items := [Array(GroupTexts(groups))];
    CollectStep((v: Value) => if v.Utf8? then Some(v.text) else None, items, 0);
    assert items[..1] == items && items[..0] == [];
  }

  lemma NewDocBase(lib: Library, ep: Endpoint, cid: string, now: int, key: CatKey, base: ChannelInfo,
                   urls: seq<OutputUri>)
    ensures BaseOf(lib, Index(NewDoc(lib, ep, cid, now, key, base, urls)), NO_USER_INFO)
         == StreamBase(cid, [], ToInt32(base.base.iarc), false, 0, 0, base.base.haveVideo, base.base.haveAudio, [], 0, false, [])
  {
    NewDocValues(lib, ep, cid, now, key, base, urls);
    NestedGroups(base.base.groups);
    var t, head, tail := Index(NewDoc(lib, ep, cid, now, key, base, urls)), Head(lib, cid, now, key, base), Tail(key, base);
    assert t[ID_FIELD] == head[0].value && t[GROUPS_FIELD] == head[4].value && t[IARC_FIELD] == head[10].value;
    assert t[VIEW_COUNT_FIELD] == head[11].value && t[PARTS_FIELD] == head[12].value;
    assert t[HAVE_VIDEO_FIELD] == tail[0].value && t[HAVE_AUDIO_FIELD] == tail[1].value;
  }

  lemma NewDocEpg(lib: Library, ep: Endpoint, cid: string, now: int, key: CatKey, base: ChannelInfo,
                  urls: seq<OutputUri>)
    requires Stable(lib) && (forall out :: out in urls ==> Canonical(lib, out)) && lib.gurl(base.epg.icon) == base.epg.icon
    ensures EpgOf(lib, Index(NewDoc(lib, ep, cid, now, key, base, urls)))
         == Epg(base.epg.tvgId, key.title, base.epg.icon, UrlsOf(CatchupOutputs(lib, urls, cid, ep.host, ep.root)))
  {
    NewDocValues(lib, ep, cid, now, key, base, urls);
    CatchupOutputsRead(lib, urls, cid, ep);
    var t, head := Index(NewDoc(lib, ep, cid, now, key, base, urls)), Head(lib, cid, now, key, base);
    assert t[NAME_FIELD] == head[3].value && t[TVG_ID_FIELD] == head[5].value && t[TVG_LOGO_FIELD] == head[7].value;
  }

  /** What the document of a new catchup is read back as: the values of the request and of the base
      channel; no groups, parts or meta urls. */
  lemma NewDocRead(lib: Library, ep: Endpoint, cid: string, now: int, key: CatKey, base: ChannelInfo,
                   urls: seq<OutputUri>)
    requires Stable(lib) && (forall out :: out in urls ==> Canonical(lib, out)) && lib.gurl(base.epg.icon) == base.epg.icon
    ensures CatchupOf(lib, Index(NewDoc(lib, ep, cid, now, key, base, urls)), NO_USER_INFO)
         == CatchupInfo(StreamBase(cid, [], ToInt32(base.base.iarc), false, 0, 0, base.base.haveVideo, base.base.haveAudio,
                                   [], 0, false, []),
                        Epg(base.epg.tvgId, key.title, base.epg.icon,
                            UrlsOf(CatchupOutputs(lib, urls, cid, ep.host, ep.root))),
                        key.start, key.stop)
  {
    NewDocBase(lib, ep, cid, now, key, base, urls);
    NewDocEpg(lib, ep, cid, now, key, base, urls);
    NewDocValues(lib, ep, cid, now, key, base, urls);
    var t, tail := Index(NewDoc(lib, ep, cid, now, key, base, urls)), Tail(key, base);
    assert t[START_FIELD] == tail[10].value && t[STOP_FIELD] == tail[11].value;
  }

  /** A client that gets the catchup again is told the same as the one it was created for, except for the
      groups, parts, meta urls and flags of the user, and for the two swapped flags. */
  lemma RefoundAgrees(lib: Library, ep: Endpoint, cid: string, now: int, key: CatKey, base: ChannelInfo,
                      urls: seq<OutputUri>)
    requires Stable(lib) && (forall out :: out in urls ==> Canonical(lib, out)) && lib.gurl(base.epg.icon) == base.epg.icon
    requires ToInt32(base.base.iarc) == base.base.iarc
    ensures var created := CreatedInfo(lib, ep, cid, key, base, urls);
            var again := CatchupOf(lib, Index(NewDoc(lib, ep, cid, now, key, base, urls)), NO_USER_INFO);
            && again == created.(base := created.base.(
                 groups := [], parts := [], meta := [], favorite := false, recent := 0, interruption := 0,
                 haveVideo := created.base.haveAudio, haveAudio := created.base.haveVideo))
            && (again.base.haveVideo == created.base.haveVideo && again.base.haveAudio == created.base.haveAudio
                <==> base.base.haveVideo == base.base.haveAudio)
  {
    NewDocRead(lib, ep, cid, now, key, base, urls);
  }
}
