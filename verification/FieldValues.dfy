/** What the readers take from a document: field by field as their loops do, and by key. */
module FieldValues {
  import opened Common
  import opened Bson
  import opened Infos
  import opened Urls

  // ---- values read ---------------------------------------------------------------------------

  type Table = map<Key, Value>

  function OidAt(t: Table, k: Key): string { if k in t && t[k].Oid? then t[k].id else "" }

  function StringAt(t: Table, k: Key, default: string): string { if k in t && t[k].Utf8? then t[k].text else default }

  function IntAt(t: Table, k: Key, default: int): int { if k in t && t[k].I32? then t[k].i else default }

  function BoolAt(t: Table, k: Key, default: bool): bool { if k in t && t[k].Boolean? then t[k].b else default }

  function DateAt(t: Table, k: Key, default: int): int { if k in t && t[k].DateTime? then t[k].ms else default }

  function RealAt(t: Table, k: Key, default: real): real { if k in t && t[k].Double? then t[k].d else default }

  function ItemsAt(t: Table, k: Key): seq<Value> { if k in t && t[k].Array? then t[k].items else [] }

  function GurlAt(lib: Library, t: Table, k: Key, default: string): string {
    if k in t && t[k].Utf8? then lib.gurl(t[k].text) else default
  }

  function Texts(items: seq<Value>): seq<string> {
    Collect((v: Value) => if v.Utf8? then Some(v.text) else None, items)
  }

  function Ids(items: seq<Value>): seq<string> {
    Collect((v: Value) => if v.Oid? then Some(v.id) else None, items)
  }

  /** A meta url: one cursor looks for the name and then, further on, for the url. */
  function ReadMeta(lib: Library, v: Value): Option<MetaUrl> {
    if !v.Document? then None
    else
      var f := v.fields;
      var n := NextAt(f, NAME_FIELD, 0);
      var u := NextAt(f, URL_FIELD, if n < |f| then n + 1 else |f|);
      var meta := MetaUrl(if n < |f| && f[n].value.Utf8? then f[n].value.text else "",
                          if u < |f| && f[u].value.Utf8? then lib.gurl(f[u].value.text) else "");
      if lib.metaValid(meta) then Some(meta) else None
  }

  function Metas(lib: Library, items: seq<Value>): seq<MetaUrl> {
    Collect((v: Value) => ReadMeta(lib, v), items)
  }

  function OutputUrls(lib: Library, t: Table): seq<string> {
    UrlsOf(ReadOutputs(lib, ItemsAt(t, OUTPUT_FIELD)))
  }

  // ---- what the loops compute, field by field ------------------------------------------------

  function NewBase(lib: Library, u: UserStreamInfo): StreamBase {
    StreamBase("", [], lib.defaultIarc, u.favorite, u.recent, u.interruption, true, true, [], 0, u.locked, [])
  }

  function BaseStep(lib: Library, b: StreamBase, f: Field): StreamBase {
    var k, v := f.key, f.value;
    if k == ID_FIELD && v.Oid? then b.(id := v.id)
    else if k == GROUPS_FIELD && v.Array? then b.(groups := b.groups + Texts(v.items))
    else if k == IARC_FIELD && v.I32? then b.(iarc := v.i)
    else if k == VIEW_COUNT_FIELD && v.I32? then b.(viewCount := ToUint64(v.i))
    else if k == HAVE_AUDIO_FIELD && v.Boolean? then b.(haveAudio := v.b)
    else if k == HAVE_VIDEO_FIELD && v.Boolean? then b.(haveVideo := v.b)
    else if k == PARTS_FIELD && v.Array? then b.(parts := b.parts + Ids(v.items))
    else if k == META_FIELD && v.Array? then b.(meta := b.meta + Metas(lib, v.items))
    else b
  }

  function EpgStep(lib: Library, e: Epg, f: Field): Epg {
    var k, v := f.key, f.value;
    if k == TVG_ID_FIELD && v.Utf8? then e.(tvgId := v.text)
    else if k == NAME_FIELD && v.Utf8? then e.(name := v.text)
    else if k == TVG_LOGO_FIELD && v.Utf8? then e.(icon := lib.gurl(v.text))
    else if k == OUTPUT_FIELD && v.Array? then e.(urls := UrlsOf(ReadOutputs(lib, v.items)))
    else e
  }

  function MovieStep(lib: Library, m: MovieInfo, f: Field): MovieInfo {
    var k, v := f.key, f.value;
    if k == NAME_FIELD && v.Utf8? then m.(name := v.text)
    else if k == DESCRIPTION_FIELD && v.Utf8? then m.(description := v.text)
    else if k == TVG_LOGO_FIELD && v.Utf8? then m.(preview := lib.gurl(v.text))
    else if k == OUTPUT_FIELD && v.Array? then m.(urls := UrlsOf(ReadOutputs(lib, v.items)))
    else if k == TRAILER_URL_FIELD && v.Utf8? then m.(trailer := lib.gurl(v.text))
    else if k == USER_SCORE_FIELD && v.Double? then m.(score := v.d)
    else if k == PRIME_DATE_FIELD && v.DateTime? then m.(primeDate := v.ms)
    else if k == COUNTRY_FIELD && v.Utf8? then m.(country := v.text)
    else if k == DURATION_FIELD && v.I32? then m.(duration := v.i)
    else if k == VOD_TYPE_FIELD && v.I32? then m.(kind := v.i)
    else m
  }

  function VisibleStep(visible: bool, f: Field): bool {
    if f.key == VISIBLE_FIELD && f.value.Boolean? then f.value.b else visible
  }

  /** A loop over the fields that updates its local variables, seen as a fold. */
  function Fold<A>(step: (A, Field) -> A, init: A, d: Doc): A {
    if d == [] then init else step(Fold(step, init, d[..|d| - 1]), d[|d| - 1])
  }

  datatype VodState = VodState(base: StreamBase, mov: MovieInfo, visible: bool)

  function VodStep(lib: Library): (VodState, Field) -> VodState {
    (s: VodState, f: Field) => VodState(BaseStep(lib, s.base, f), MovieStep(lib, s.mov, f), VisibleStep(s.visible, f))
  }

  datatype ChannelState = ChannelState(base: StreamBase, epg: Epg, visible: bool)

  function ChannelStep(lib: Library): (ChannelState, Field) -> ChannelState {
    (s: ChannelState, f: Field) =>
      ChannelState(BaseStep(lib, s.base, f), EpgStep(lib, s.epg, f), VisibleStep(s.visible, f))
  }

  datatype CatchupState = CatchupState(chan: ChannelState, start: int, stop: int)

  function CatchupStep(lib: Library): (CatchupState, Field) -> CatchupState {
    (s: CatchupState, f: Field) =>
      CatchupState(ChannelStep(lib)(s.chan, f),
                   if f.key == START_FIELD && f.value.DateTime? then f.value.ms else s.start,
                   if f.key == STOP_FIELD && f.value.DateTime? then f.value.ms else s.stop)
  }

  datatype SerialState = SerialState(info: SerialInfo, visible: bool)

  function SerialStep(lib: Library): (SerialState, Field) -> SerialState {
    (s: SerialState, f: Field) => SerialState(SerialInfoStep(lib, s.info, f), VisibleStep(s.visible, f))
  }

  function SerialInfoStep(lib: Library, s: SerialInfo, f: Field): SerialInfo {
    var k, v := f.key, f.value;
    if k == ID_FIELD && v.Oid? then s.(id := v.id)
    else if k == GROUPS_FIELD && v.Array? then s.(groups := s.groups + Texts(v.items))
    else if k == SEASON_FIELD && v.I32? then s.(season := ToUint64(v.i))
    else if k == NAME_FIELD && v.Utf8? then s.(name := v.text)
    else if k == ICON_FIELD && v.Utf8? then s.(icon := lib.gurl(v.text))
    else if k == DESCRIPTION_FIELD && v.Utf8? then s.(description := v.text)
    else if k == EPISODES_FIELD && v.Array? then s.(episodes := s.episodes + Ids(v.items))
    else s
  }

  function RequestStep(): (ContentRequestInfo, Field) -> ContentRequestInfo {
    (s: ContentRequestInfo, f: Field) =>
      var k, v := f.key, f.value;
      if k == ID_FIELD && v.Oid? then s.(id := v.id)
      else if k == TITLE_FIELD && v.Utf8? then s.(title := v.text)
      else if k == TYPE_FIELD && v.I32? then s.(kind := v.i)
      else if k == STATUS_FIELD && v.I32? then s.(status := v.i)
      else s
  }

  // ---- what they mean when keys are distinct: lookups by key ---------------------------------

  function BaseOf(lib: Library, t: Table, u: UserStreamInfo): StreamBase {
    StreamBase(OidAt(t, ID_FIELD), Texts(ItemsAt(t, GROUPS_FIELD)), IntAt(t, IARC_FIELD, lib.defaultIarc),
               u.favorite, u.recent, u.interruption,
               BoolAt(t, HAVE_VIDEO_FIELD, true), BoolAt(t, HAVE_AUDIO_FIELD, true),
               Ids(ItemsAt(t, PARTS_FIELD)), ToUint64(IntAt(t, VIEW_COUNT_FIELD, 0)), u.locked,
               Metas(lib, ItemsAt(t, META_FIELD)))
  }

  function EpgOf(lib: Library, t: Table): Epg {
    Epg(StringAt(t, TVG_ID_FIELD, ""), StringAt(t, NAME_FIELD, ""), GurlAt(lib, t, TVG_LOGO_FIELD, ""), OutputUrls(lib, t))
  }

  function ChannelOf(lib: Library, t: Table, u: UserStreamInfo): ChannelInfo {
    ChannelInfo(BaseOf(lib, t, u), EpgOf(lib, t))
  }

  function CatchupOf(lib: Library, t: Table, u: UserStreamInfo): CatchupInfo {
    CatchupInfo(BaseOf(lib, t, u), EpgOf(lib, t), DateAt(t, START_FIELD, 0), DateAt(t, STOP_FIELD, 0))
  }

  function MovieOf(lib: Library, t: Table): MovieInfo {
    var m := lib.defaultMovie;
    MovieInfo(StringAt(t, NAME_FIELD, m.name), StringAt(t, DESCRIPTION_FIELD, m.description),
              GurlAt(lib, t, TVG_LOGO_FIELD, m.preview),
              if OUTPUT_FIELD in t && t[OUTPUT_FIELD].Array? then OutputUrls(lib, t) else m.urls,
              GurlAt(lib, t, TRAILER_URL_FIELD, m.trailer), RealAt(t, USER_SCORE_FIELD, m.score),
              DateAt(t, PRIME_DATE_FIELD, m.primeDate), StringAt(t, COUNTRY_FIELD, m.country),
              IntAt(t, DURATION_FIELD, m.duration), IntAt(t, VOD_TYPE_FIELD, m.kind))
  }

  function VodOf(lib: Library, t: Table, u: UserStreamInfo): VodInfo {
    VodInfo(BaseOf(lib, t, u), MovieOf(lib, t))
  }

  function SerialOf(lib: Library, t: Table): SerialInfo {
    SerialInfo(OidAt(t, ID_FIELD), StringAt(t, NAME_FIELD, ""), GurlAt(lib, t, ICON_FIELD, ""),
               Texts(ItemsAt(t, GROUPS_FIELD)), StringAt(t, DESCRIPTION_FIELD, ""),
               ToUint64(IntAt(t, SEASON_FIELD, 0)), Ids(ItemsAt(t, EPISODES_FIELD)), 0)
  }

  function RequestOf(t: Table): ContentRequestInfo {
    ContentRequestInfo(OidAt(t, ID_FIELD), StringAt(t, TITLE_FIELD, ""), IntAt(t, TYPE_FIELD, 0), IntAt(t, STATUS_FIELD, 0))
  }

  // ---- the loops compute the lookups ---------------------------------------------------------

  /** If every step on a new key agrees with a lookup table, so does the whole loop. */
  lemma {:induction false} FoldIsLookup<A>(step: (A, Field) -> A, init: A, of: Table -> A, d: Doc)
    requires Distinct(d) && of(map[]) == init
    requires forall t: Table, f: Field :: f.key !in t ==> of(t[f.key := f.value]) == step(of(t), f)
    ensures Fold(step, init, d) == of(Index(d))
  {
    if d != [] {
      var n := |d| - 1;
      FoldIsLookup(step, init, of, d[..n]);
      IndexHoldsFields(d[..n]);
      IndexStep(d, n);
      assert d[..n + 1] == d;
      assert d[n].key !in Index(d[..n]);
    }
  }

  lemma BaseStepScalar(lib: Library, u: UserStreamInfo, t: Table, f: Field)
    requires f.key !in t && f.key != GROUPS_FIELD && f.key != PARTS_FIELD && f.key != META_FIELD
    ensures BaseOf(lib, t[f.key := f.value], u) == BaseStep(lib, BaseOf(lib, t, u), f)
  {
    var t' := t[f.key := f.value];
    assert ItemsAt(t', GROUPS_FIELD) == ItemsAt(t, GROUPS_FIELD);
    assert ItemsAt(t', PARTS_FIELD) == ItemsAt(t, PARTS_FIELD);
    assert ItemsAt(t', META_FIELD) == ItemsAt(t, META_FIELD);
  }

  /** A table without a key has an empty list under it, and adding a key changes no other list. */
  lemma ListsStay(t: Table, f: Field)
    requires f.key !in t
    ensures ItemsAt(t, f.key) == []
    ensures forall k :: k != f.key ==> ItemsAt(t[f.key := f.value], k) == ItemsAt(t, k)
    ensures ItemsAt(t[f.key := f.value], f.key) == if f.value.Array? then f.value.items else []
  {
  }

  lemma BaseStepGroups(lib: Library, u: UserStreamInfo, t: Table, f: Field)
    requires f.key !in t && f.key == GROUPS_FIELD
    ensures BaseOf(lib, t[f.key := f.value], u) == BaseStep(lib, BaseOf(lib, t, u), f)
  {
    ListsStay(t, f);
    assert f.value.Array? ==> [] + Texts(f.value.items) == Texts(f.value.items);
  }

  lemma BaseStepParts(lib: Library, u: UserStreamInfo, t: Table, f: Field)
    requires f.key !in t && f.key == PARTS_FIELD
    ensures BaseOf(lib, t[f.key := f.value], u) == BaseStep(lib, BaseOf(lib, t, u), f)
  {
    ListsStay(t, f);
    assert f.value.Array? ==> [] + Ids(f.value.items) == Ids(f.value.items);
  }

  lemma BaseStepMeta(lib: Library, u: UserStreamInfo, t: Table, f: Field)
    requires f.key !in t && f.key == META_FIELD
    ensures BaseOf(lib, t[f.key := f.value], u) == BaseStep(lib, BaseOf(lib, t, u), f)
  {
    ListsStay(t, f);
    assert f.value.Array? ==> [] + Metas(lib, f.value.items) == Metas(lib, f.value.items);
  }

  lemma BaseStepIs(lib: Library, u: UserStreamInfo, t: Table, f: Field)
    requires f.key !in t
    ensures BaseOf(lib, t[f.key := f.value], u) == BaseStep(lib, BaseOf(lib, t, u), f)
  {
    if f.key == GROUPS_FIELD {
      BaseStepGroups(lib, u, t, f);
    } else if f.key == PARTS_FIELD {
      BaseStepParts(lib, u, t, f);
    } else if f.key == META_FIELD {
      BaseStepMeta(lib, u, t, f);
    } else {
      BaseStepScalar(lib, u, t, f);
    }
  }

  lemma EpgStepIs(lib: Library, t: Table, f: Field)
    requires f.key !in t
    ensures EpgOf(lib, t[f.key := f.value]) == EpgStep(lib, EpgOf(lib, t), f)
  {
  }

  lemma MovieStepOutput(lib: Library, t: Table, f: Field)
    requires f.key !in t && f.key == OUTPUT_FIELD
    ensures MovieOf(lib, t[f.key := f.value]) == MovieStep(lib, MovieOf(lib, t), f)
  {
  }

  lemma MovieStepOther(lib: Library, t: Table, f: Field)
    requires f.key !in t && f.key != OUTPUT_FIELD
    ensures MovieOf(lib, t[f.key := f.value]) == MovieStep(lib, MovieOf(lib, t), f)
  {
    assert ItemsAt(t[f.key := f.value], OUTPUT_FIELD) == ItemsAt(t, OUTPUT_FIELD);
  }

  lemma MovieStepIs(lib: Library, t: Table, f: Field)
    requires f.key !in t
    ensures MovieOf(lib, t[f.key := f.value]) == MovieStep(lib, MovieOf(lib, t), f)
  {
    if f.key == OUTPUT_FIELD {
      MovieStepOutput(lib, t, f);
    } else {
      MovieStepOther(lib, t, f);
    }
  }

  lemma VodFold(lib: Library, u: UserStreamInfo, visible: bool, d: Doc)
    requires Distinct(d)
    ensures Fold(VodStep(lib), VodState(NewBase(lib, u), lib.defaultMovie, visible), d)
         == VodState(BaseOf(lib, Index(d), u), MovieOf(lib, Index(d)), BoolAt(Index(d), VISIBLE_FIELD, visible))
  {
    var of := (t: Table) => VodState(BaseOf(lib, t, u), MovieOf(lib, t), BoolAt(t, VISIBLE_FIELD, visible));
    forall t: Table, f: Field | f.key !in t ensures of(t[f.key := f.value]) == VodStep(lib)(of(t), f) {
      BaseStepIs(lib, u, t, f);
      MovieStepIs(lib, t, f);
    }
    FoldIsLookup(VodStep(lib), VodState(NewBase(lib, u), lib.defaultMovie, visible), of, d);
  }

  function ChannelTable(lib: Library, u: UserStreamInfo, visible: bool, t: Table): ChannelState {
    ChannelState(BaseOf(lib, t, u), EpgOf(lib, t), BoolAt(t, VISIBLE_FIELD, visible))
  }

  lemma EmptyChannel(lib: Library, u: UserStreamInfo, visible: bool)
    ensures ChannelTable(lib, u, visible, map[]) == ChannelState(NewBase(lib, u), NO_EPG, visible)
  {
  }

  lemma ChannelStepIs(lib: Library, u: UserStreamInfo, visible: bool, t: Table, f: Field)
    requires f.key !in t
    ensures ChannelTable(lib, u, visible, t[f.key := f.value]) == ChannelStep(lib)(ChannelTable(lib, u, visible, t), f)
  {
    BaseStepIs(lib, u, t, f);
    EpgStepIs(lib, t, f);
  }

  lemma ChannelFold(lib: Library, u: UserStreamInfo, visible: bool, d: Doc)
    requires Distinct(d)
    ensures Fold(ChannelStep(lib), ChannelState(NewBase(lib, u), NO_EPG, visible), d)
         == ChannelTable(lib, u, visible, Index(d))
  {
    var of := (t: Table) => ChannelTable(lib, u, visible, t);
    forall t: Table, f: Field | f.key !in t ensures of(t[f.key := f.value]) == ChannelStep(lib)(of(t), f) {
      ChannelStepIs(lib, u, visible, t, f);
    }
    EmptyChannel(lib, u, visible);
    FoldIsLookup(ChannelStep(lib), ChannelState(NewBase(lib, u), NO_EPG, visible), of, d);
  }

  function CatchupTable(lib: Library, u: UserStreamInfo, start: int, stop: int, visible: bool, t: Table): CatchupState {
    CatchupState(ChannelTable(lib, u, visible, t), DateAt(t, START_FIELD, start), DateAt(t, STOP_FIELD, stop))
  }

  lemma CatchupStepIs(lib: Library, u: UserStreamInfo, start: int, stop: int, visible: bool, t: Table, f: Field)
    requires f.key !in t
    ensures CatchupTable(lib, u, start, stop, visible, t[f.key := f.value])
         == CatchupStep(lib)(CatchupTable(lib, u, start, stop, visible, t), f)
  {
    ChannelStepIs(lib, u, visible, t, f);
  }

  lemma CatchupFold(lib: Library, u: UserStreamInfo, start: int, stop: int, visible: bool, d: Doc)
    requires Distinct(d)
    ensures Fold(CatchupStep(lib), CatchupState(ChannelState(NewBase(lib, u), NO_EPG, visible), start, stop), d)
         == CatchupTable(lib, u, start, stop, visible, Index(d))
  {
    var of := (t: Table) => CatchupTable(lib, u, start, stop, visible, t);
    forall t: Table, f: Field | f.key !in t ensures of(t[f.key := f.value]) == CatchupStep(lib)(of(t), f) {
      CatchupStepIs(lib, u, start, stop, visible, t, f);
    }
    EmptyChannel(lib, u, visible);
    FoldIsLookup(CatchupStep(lib), CatchupState(ChannelState(NewBase(lib, u), NO_EPG, visible), start, stop), of, d);
  }

  /** A serial as its loop starts: `season` is whatever the uninitialised local held. */
  function SerialFrom(lib: Library, t: Table, season: nat): SerialInfo {
    SerialOf(lib, t).(season := if SEASON_FIELD in t && t[SEASON_FIELD].I32? then ToUint64(t[SEASON_FIELD].i) else season)
  }

  lemma SerialStepGroups(lib: Library, season: nat, t: Table, f: Field)
    requires f.key !in t && f.key == GROUPS_FIELD
    ensures SerialFrom(lib, t[f.key := f.value], season) == SerialInfoStep(lib, SerialFrom(lib, t, season), f)
  {
  }

  lemma SerialStepEpisodes(lib: Library, season: nat, t: Table, f: Field)
    requires f.key !in t && f.key == EPISODES_FIELD
    ensures SerialFrom(lib, t[f.key := f.value], season) == SerialInfoStep(lib, SerialFrom(lib, t, season), f)
  {
  }

  lemma SerialStepScalar(lib: Library, season: nat, t: Table, f: Field)
    requires f.key !in t && f.key != GROUPS_FIELD && f.key != EPISODES_FIELD
    ensures SerialFrom(lib, t[f.key := f.value], season) == SerialInfoStep(lib, SerialFrom(lib, t, season), f)
  {
    ListsStay(t, f);
  }

  lemma SerialStepIs(lib: Library, season: nat, t: Table, f: Field)
    requires f.key !in t
    ensures SerialFrom(lib, t[f.key := f.value], season) == SerialInfoStep(lib, SerialFrom(lib, t, season), f)
  {
    if f.key == GROUPS_FIELD {
      SerialStepGroups(lib, season, t, f);
    } else if f.key == EPISODES_FIELD {
      SerialStepEpisodes(lib, season, t, f);
    } else {
      SerialStepScalar(lib, season, t, f);
    }
  }

  lemma SerialFold(lib: Library, season: nat, visible: bool, d: Doc)
    requires Distinct(d)
    ensures Fold(SerialStep(lib), SerialState(SerialInfo("", "", "", [], "", season, [], 0), visible), d)
         == SerialState(SerialFrom(lib, Index(d), season), BoolAt(Index(d), VISIBLE_FIELD, visible))
  {
    var of := (t: Table) => SerialState(SerialFrom(lib, t, season), BoolAt(t, VISIBLE_FIELD, visible));
    forall t: Table, f: Field | f.key !in t ensures of(t[f.key := f.value]) == SerialStep(lib)(of(t), f) {
      SerialStepIs(lib, season, t, f);
    }
    FoldIsLookup(SerialStep(lib), SerialState(SerialInfo("", "", "", [], "", season, [], 0), visible), of, d);
  }

  lemma RequestFold(kind: int, status: int, d: Doc)
    requires Distinct(d)
    ensures Fold(RequestStep(), ContentRequestInfo("", "", kind, status), d)
         == RequestOf(Index(d)).(kind := IntAt(Index(d), TYPE_FIELD, kind), status := IntAt(Index(d), STATUS_FIELD, status))
  {
    var of := (t: Table) =>
      RequestOf(t).(kind := IntAt(t, TYPE_FIELD, kind), status := IntAt(t, STATUS_FIELD, status));
    FoldIsLookup(RequestStep(), ContentRequestInfo("", "", kind, status), of, d);
  }
}
