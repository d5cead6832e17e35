/** What each value of an info is, by the field of the document it is stored under. */
module InfoValues {
  import opened Common
  import opened Bson
  import opened Infos
  import opened Urls
  import opened FieldValues

  lemma IndexLookup(d: Doc)
    requires Distinct(d)
    ensures forall k :: First(d, k) == if k in Index(d) then Some(Index(d)[k]) else None
  {
    forall k ensures First(d, k) == if k in Index(d) then Some(Index(d)[k]) else None {
      IndexIsFirst(d, k);
    }
  }

  lemma ListLookup(d: Doc, k: Key)
    requires Distinct(d)
    ensures ItemsAt(Index(d), k) == Items(d, k)
  {
    IndexIsFirst(d, k);
  }

  /** The numbers and flags shared by channels, vods and catchups; the four values of the user come from his
      entry. */
  lemma BaseValues(lib: Library, d: Doc, u: UserStreamInfo)
    requires Distinct(d)
    ensures var b := BaseOf(lib, Index(d), u);
            && (match First(d, ID_FIELD) case Some(Oid(x)) => b.id == x case _ => b.id == "")
            && (match First(d, IARC_FIELD) case Some(I32(n)) => b.iarc == n case _ => b.iarc == lib.defaultIarc)
            && (match First(d, VIEW_COUNT_FIELD) case Some(I32(n)) => b.viewCount == n % 0x1_0000_0000_0000_0000 case _ => b.viewCount == 0)
            && (match First(d, HAVE_VIDEO_FIELD) case Some(Boolean(x)) => b.haveVideo == x case _ => b.haveVideo)
            && (match First(d, HAVE_AUDIO_FIELD) case Some(Boolean(x)) => b.haveAudio == x case _ => b.haveAudio)
            && b.favorite == u.favorite && b.recent == u.recent && b.interruption == u.interruption && b.locked == u.locked
  {
    IndexIsFirst(d, ID_FIELD);
    IndexIsFirst(d, IARC_FIELD);
    IndexIsFirst(d, VIEW_COUNT_FIELD);
    IndexIsFirst(d, HAVE_VIDEO_FIELD);
    IndexIsFirst(d, HAVE_AUDIO_FIELD);
  }

  lemma BaseLists(lib: Library, d: Doc, u: UserStreamInfo)
    requires Distinct(d)
    ensures var b := BaseOf(lib, Index(d), u);
            && b.groups == Texts(Items(d, GROUPS_FIELD)) && b.parts == Ids(Items(d, PARTS_FIELD))
            && b.meta == Metas(lib, Items(d, META_FIELD))
  {
    ListLookup(d, GROUPS_FIELD);
    ListLookup(d, PARTS_FIELD);
    ListLookup(d, META_FIELD);
  }

  lemma EpgValues(lib: Library, d: Doc)
    requires Distinct(d)
    ensures var e := EpgOf(lib, Index(d));
            && (match First(d, NAME_FIELD) case Some(Utf8(s)) => e.name == s case _ => e.name == "")
            && (match First(d, TVG_ID_FIELD) case Some(Utf8(s)) => e.tvgId == s case _ => e.tvgId == "")
            && (match First(d, TVG_LOGO_FIELD) case Some(Utf8(s)) => e.icon == lib.gurl(s) case _ => e.icon == "")
            && e.urls == UrlsOf(ReadOutputs(lib, Items(d, OUTPUT_FIELD)))
  {
    IndexLookup(d);
  }

  lemma ChannelValues(lib: Library, d: Doc, u: UserStreamInfo)
    requires Distinct(d)
    ensures var c, k := ChannelOf(lib, Index(d), u), CatchupOf(lib, Index(d), u);
            && c.base == BaseOf(lib, Index(d), u) && c.epg == EpgOf(lib, Index(d)) && k.base == c.base && k.epg == c.epg
            && (match First(d, START_FIELD) case Some(DateTime(ms)) => k.start == ms case _ => k.start == 0)
            && (match First(d, STOP_FIELD) case Some(DateTime(ms)) => k.stop == ms case _ => k.stop == 0)
  {
    IndexLookup(d);
  }

  lemma MovieValues(lib: Library, d: Doc)
    requires Distinct(d)
    ensures var m, default := MovieOf(lib, Index(d)), lib.defaultMovie;
            && (match First(d, NAME_FIELD) case Some(Utf8(s)) => m.name == s case _ => m.name == default.name)
            && (match First(d, DESCRIPTION_FIELD) case Some(Utf8(s)) => m.description == s case _ => m.description == default.description)
            && (match First(d, TVG_LOGO_FIELD) case Some(Utf8(s)) => m.preview == lib.gurl(s) case _ => m.preview == default.preview)
            && (match First(d, TRAILER_URL_FIELD) case Some(Utf8(s)) => m.trailer == lib.gurl(s) case _ => m.trailer == default.trailer)
            && (match First(d, USER_SCORE_FIELD) case Some(Double(x)) => m.score == x case _ => m.score == default.score)
            && (match First(d, PRIME_DATE_FIELD) case Some(DateTime(ms)) => m.primeDate == ms case _ => m.primeDate == default.primeDate)
            && (match First(d, COUNTRY_FIELD) case Some(Utf8(s)) => m.country == s case _ => m.country == default.country)
            && (match First(d, DURATION_FIELD) case Some(I32(n)) => m.duration == n case _ => m.duration == default.duration)
            && (match First(d, VOD_TYPE_FIELD) case Some(I32(n)) => m.kind == n case _ => m.kind == default.kind)
            && (match First(d, OUTPUT_FIELD) case Some(Array(items)) => m.urls == UrlsOf(ReadOutputs(lib, items))
                case _ => m.urls == default.urls)
  {
    IndexLookup(d);
  }

  lemma SerialValues(lib: Library, d: Doc)
    requires Distinct(d)
    ensures var s := SerialOf(lib, Index(d));
            && (match First(d, ID_FIELD) case Some(Oid(x)) => s.id == x case _ => s.id == "")
            && (match First(d, NAME_FIELD) case Some(Utf8(x)) => s.name == x case _ => s.name == "")
            && (match First(d, ICON_FIELD) case Some(Utf8(x)) => s.icon == lib.gurl(x) case _ => s.icon == "")
            && (match First(d, DESCRIPTION_FIELD) case Some(Utf8(x)) => s.description == x case _ => s.description == "")
            && (match First(d, SEASON_FIELD) case Some(I32(n)) => s.season == n % 0x1_0000_0000_0000_0000 case _ => s.season == 0)
  {
    IndexIsFirst(d, ID_FIELD);
    IndexIsFirst(d, NAME_FIELD);
    IndexIsFirst(d, ICON_FIELD);
    IndexIsFirst(d, DESCRIPTION_FIELD);
    IndexIsFirst(d, SEASON_FIELD);
  }

  lemma SerialLists(lib: Library, d: Doc)
    requires Distinct(d)
    ensures SerialOf(lib, Index(d)).groups == Texts(Items(d, GROUPS_FIELD))
    ensures SerialOf(lib, Index(d)).episodes == Ids(Items(d, EPISODES_FIELD))
  {
    ListLookup(d, GROUPS_FIELD);
    ListLookup(d, EPISODES_FIELD);
  }

  lemma RequestValues(d: Doc)
    requires Distinct(d)
    ensures var r := RequestOf(Index(d));
            && (match First(d, ID_FIELD) case Some(Oid(x)) => r.id == x case _ => r.id == "")
            && (match First(d, TITLE_FIELD) case Some(Utf8(x)) => r.title == x case _ => r.title == "")
            && (match First(d, TYPE_FIELD) case Some(I32(n)) => r.kind == n case _ => r.kind == 0)
            && (match First(d, STATUS_FIELD) case Some(I32(n)) => r.status == n case _ => r.status == 0)
  {
    IndexLookup(d);
  }

  /** A list of texts is read as it stands. */
  lemma {:induction false} TextsRead(texts: seq<string>, items: seq<Value>)
    requires |items| == |texts| && forall i :: 0 <= i < |texts| ==> items[i] == Utf8(texts[i])
    ensures Texts(items) == texts
  {
    if texts != [] {
      var n := |texts| - 1;
      TextsRead(texts[..n], items[..n]);
      CollectStep((v: Value) => if v.Utf8? then Some(v.text) else None, items, n);
      assert items[..n + 1] == items && texts == texts[..n] + [texts[n]];
    }
  }

  /** A meta url is read if its name stands before its url; the other way round the url is lost. */
  lemma MetaRead(lib: Library, name: string, url: string)
    ensures ReadMeta(lib, Document([Field(NAME_FIELD, Utf8(name)), Field(URL_FIELD, Utf8(url))]))
         == if lib.metaValid(MetaUrl(name, lib.gurl(url))) then Some(MetaUrl(name, lib.gurl(url))) else None
    ensures ReadMeta(lib, Document([Field(URL_FIELD, Utf8(url)), Field(NAME_FIELD, Utf8(name))]))
         == if lib.metaValid(MetaUrl(name, "")) then Some(MetaUrl(name, "")) else None
  {
    var a, b := [Field(NAME_FIELD, Utf8(name)), Field(URL_FIELD, Utf8(url))], [Field(URL_FIELD, Utf8(url)), Field(NAME_FIELD, Utf8(name))];
    NextAtIs(a, NAME_FIELD, 0, 0);
    NextAtIs(a, URL_FIELD, 1, 1);
    NextAtIs(b, NAME_FIELD, 0, 1);
    NextAtIs(b, URL_FIELD, 2, 2);
  }
}
