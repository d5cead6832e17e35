/** What the five document readers accept, stated without their loops. */
module Schemas {
  import opened Common
  import opened Bson
  import opened Infos

  datatype Shape = Vod | Catchup | Channel | Serial | Request

  datatype Kind = Any | OfOid | OfText | OfInt32 | OfBool | OfDouble | OfDate | OfArray

  predicate Holds(kind: Kind, v: Value) {
    match kind
    case Any => true
    case OfOid => v.Oid?
    case OfText => v.Utf8?
    case OfInt32 => v.I32?
    case OfBool => v.Boolean?
    case OfDouble => v.Double?
    case OfDate => v.DateTime?
    case OfArray => v.Array?
  }

  /** The type a reader insists on for a field; `Any` for the fields it does not know. */
  function KindOf(s: Shape, k: Key): Kind {
    if k == ID_FIELD then OfOid
    else if s == Request then
      if k == TITLE_FIELD then OfText
      else if k == TYPE_FIELD || k == STATUS_FIELD then OfInt32
      else Any
    else if k == GROUPS_FIELD then OfArray
    else if k == NAME_FIELD then OfText
    else if k == VISIBLE_FIELD then OfBool
    else if s == Serial then
      if k == SEASON_FIELD then OfInt32
      else if k == ICON_FIELD || k == DESCRIPTION_FIELD then OfText
      else if k == EPISODES_FIELD then OfArray
      else Any
    else if k == IARC_FIELD || k == VIEW_COUNT_FIELD then OfInt32
    else if k == OUTPUT_FIELD || k == PARTS_FIELD || k == META_FIELD then OfArray
    else if k == HAVE_AUDIO_FIELD || k == HAVE_VIDEO_FIELD then OfBool
    else if k == TVG_LOGO_FIELD then OfText
    else if s == Vod then
      if k == DESCRIPTION_FIELD || k == TRAILER_URL_FIELD || k == COUNTRY_FIELD then OfText
      else if k == USER_SCORE_FIELD then OfDouble
      else if k == PRIME_DATE_FIELD then OfDate
      else if k == DURATION_FIELD || k == VOD_TYPE_FIELD then OfInt32
      else Any
    else if k == TVG_ID_FIELD then OfText
    else if s == Catchup && (k == START_FIELD || k == STOP_FIELD) then OfDate
    else Any
  }

  /** The nine fields every stream document needs. */
  function StreamFields(): set<Key> {
    {ID_FIELD, GROUPS_FIELD, IARC_FIELD, VIEW_COUNT_FIELD, NAME_FIELD, TVG_LOGO_FIELD, OUTPUT_FIELD,
     HAVE_AUDIO_FIELD, HAVE_VIDEO_FIELD}
  }

  function MovieFields(): set<Key> {
    {DESCRIPTION_FIELD, TRAILER_URL_FIELD, USER_SCORE_FIELD, PRIME_DATE_FIELD, COUNTRY_FIELD, DURATION_FIELD,
     VOD_TYPE_FIELD}
  }

  /** The fields a complete document has. */
  function Required(s: Shape): set<Key> {
    match s
    case Vod => StreamFields() + MovieFields()
    case Catchup => StreamFields() + {TVG_ID_FIELD, START_FIELD, STOP_FIELD}
    case Channel => StreamFields() + {TVG_ID_FIELD}
    case Serial => {ID_FIELD, GROUPS_FIELD, SEASON_FIELD, NAME_FIELD, ICON_FIELD, DESCRIPTION_FIELD}
    case Request => {ID_FIELD, TITLE_FIELD, TYPE_FIELD, STATUS_FIELD}
  }

  /** The constant each reader compares its counter with. */
  function ExpectedSum(s: Shape): nat {
    match s case Vod => 16 case Catchup => 12 case Channel => 10 case Serial => 6 case Request => 4
  }

  /** Proxies may lack two required fields. */
  predicate ProxyExempt(s: Shape, st: StreamType) {
    (s == Vod && st == VOD_PROXY) || (s == Channel && st == PROXY)
  }

  predicate WellTyped(s: Shape, d: Doc) {
    forall f :: f in d ==> Typed(s)(f)
  }

  /** Arrays of links hold object ids only; the driver aborts on anything else. */
  predicate OidLists(d: Doc) {
    forall i :: 0 <= i < |d| && (d[i].key == PARTS_FIELD || d[i].key == EPISODES_FIELD) && d[i].value.Array? ==>
      forall v :: v in d[i].value.items ==> v.Oid?
  }

  /** The counter of a loop over the fields of `d` that counts the keys in `counted`; None once it met a
      field that is not `typed`. */
  function ScanBy(typed: Field -> bool, counted: set<Key>, d: Doc): Option<nat> {
    if d == [] then Some(0)
    else
      var f, before := d[|d| - 1], ScanBy(typed, counted, d[..|d| - 1]);
      if before.None? || !typed(f) then None
      else if f.key in counted then Some(before.value + 1)
      else before
  }

  function Typed(s: Shape): Field -> bool {
    (f: Field) => Holds(KindOf(s, f.key), f.value)
  }

  function Scan(s: Shape, d: Doc): Option<nat> {
    ScanBy(Typed(s), Required(s), d)
  }

  predicate Accepts(s: Shape, st: StreamType, d: Doc) {
    var n := Scan(s, d);
    n.Some? && (n.value == ExpectedSum(s) || (ProxyExempt(s, st) && n.value == ExpectedSum(s) - 2))
  }

  /** A required field of an accepted document is there and of its type. */
  lemma RequiredTyped(s: Shape, st: StreamType, d: Doc, k: Key)
    requires Distinct(d) && Accepts(s, st, d) && !ProxyExempt(s, st) && k in Required(s)
    ensures k in Index(d) && Holds(KindOf(s, k), Index(d)[k])
  {
    AcceptsIff(s, st, d);
    IndexHoldsFields(d);
    assert k in Keys(d);
    var i :| 0 <= i < |d| && d[i].key == k;
    assert d[i] in d && Typed(s)(d[i]);
  }

  predicate HasDates(t: map<Key, Value>) {
    START_FIELD in t && t[START_FIELD].DateTime? && STOP_FIELD in t && t[STOP_FIELD].DateTime?
  }

  lemma AcceptedDates(st: StreamType, d: Doc)
    requires Distinct(d) && Accepts(Catchup, st, d)
    ensures HasDates(Index(d))
  {
    RequiredTyped(Catchup, st, d, START_FIELD);
    RequiredTyped(Catchup, st, d, STOP_FIELD);
  }

  // ---- acceptance ----------------------------------------------------------------------------

  lemma StreamFieldsSize()
    ensures |StreamFields()| == 9 && |MovieFields()| == 7
  {
  }

  lemma VodSize()
    ensures |Required(Vod)| == 16
  {
    StreamFieldsSize();
    assert StreamFields() !! MovieFields();
  }

  lemma CatchupSize()
    ensures |Required(Catchup)| == 12 && |Required(Channel)| == 10
  {
    StreamFieldsSize();
    var more := {TVG_ID_FIELD, START_FIELD, STOP_FIELD};
    assert |more| == 3;
    assert StreamFields() !! more;
  }

  lemma SerialSize()
    ensures |Required(Serial)| == 6 && |Required(Request)| == 4
  {
  }

  lemma RequiredSize(s: Shape)
    ensures |Required(s)| == ExpectedSum(s)
  {
    match s
    case Vod => VodSize();
    case Catchup => CatchupSize();
    case Channel => CatchupSize();
    case _ => SerialSize();
  }

  lemma {:induction false} ScanTyped(typed: Field -> bool, counted: set<Key>, d: Doc)
    ensures ScanBy(typed, counted, d).Some? <==> forall f :: f in d ==> typed(f)
  {
    if d != [] {
      var p := d[..|d| - 1];
      ScanTyped(typed, counted, p);
      assert d == p + [d[|d| - 1]];
    }
  }

  lemma {:induction false} ScanCounts(typed: Field -> bool, counted: set<Key>, d: Doc)
    requires Distinct(d) && ScanBy(typed, counted, d).Some?
    ensures ScanBy(typed, counted, d).value == |counted * Keys(d)|
  {
    if d == [] {
      assert counted * Keys(d) == {};
    } else {
      var p := d[..|d| - 1];
      ScanCounts(typed, counted, p);
      KeysSplit(d);
      assert d[|d| - 1].key !in Keys(p);
      CountStep(counted, Keys(p), d[|d| - 1].key);
    }
  }

  lemma CountStep(counted: set<Key>, seen: set<Key>, k: Key)
    requires k !in seen
    ensures |counted * (seen + {k})| == |counted * seen| + if k in counted then 1 else 0
  {
    assert counted * (seen + {k}) == counted * seen + if k in counted then {k} else {};
  }

  /** Counting to the constant is the same as having every required field; a proxy is also accepted
      when exactly two are missing. */
  lemma AcceptsIff(s: Shape, st: StreamType, d: Doc)
    requires Distinct(d)
    ensures Accepts(s, st, d) <==>
            WellTyped(s, d) && (Required(s) <= Keys(d) || (ProxyExempt(s, st) && |Required(s) - Keys(d)| == 2))
  {
    ScanTyped(Typed(s), Required(s), d);
    if WellTyped(s, d) {
      ScanCounts(Typed(s), Required(s), d);
    }
    RequiredSize(s);
    MissingSize(Required(s), Keys(d));
  }

  lemma MissingSize(wanted: set<Key>, seen: set<Key>)
    ensures |wanted * seen| == |wanted| - |wanted - seen|
    ensures wanted <= seen <==> |wanted * seen| == |wanted|
  {
    var missing := wanted - seen;
    assert wanted == wanted * seen + missing;
    assert wanted <= seen <==> missing == {};
  }

  /** The order of the fields does not matter. */
  lemma AcceptsPermuted(s: Shape, st: StreamType, d: Doc, e: Doc)
    requires Distinct(d) && multiset(d) == multiset(e)
    ensures Accepts(s, st, d) <==> Accepts(s, st, e)
    ensures Index(d) == Index(e)
  {
    PermutedIndex(d, e);
    SameFields(d, e);
    SameFields(e, d);
    assert WellTyped(s, d) ==> WellTyped(s, e);
    assert WellTyped(s, e) ==> WellTyped(s, d);
    AcceptsIff(s, st, d);
    AcceptsIff(s, st, e);
    IndexHoldsFields(d);
    IndexHoldsFields(e);
  }

  /** Setting a well-typed value in place of a well-typed one, or of none, leaves the rest to decide. */
  lemma SetTyped(typed: Field -> bool, d: Doc, k: Key, v: Value)
    requires Distinct(d) && typed(Field(k, v)) && (First(d, k).Some? ==> typed(Field(k, First(d, k).value)))
    ensures (forall f :: f in SetField(d, k, v) ==> typed(f)) <==> (forall f :: f in d ==> typed(f))
  {
  }

  lemma SetIllTyped(typed: Field -> bool, d: Doc, k: Key, v: Value)
    requires !typed(Field(k, v))
    ensures Field(k, v) in SetField(d, k, v) && !(forall f :: f in SetField(d, k, v) ==> typed(f))
  {
    var e := SetField(d, k, v);
    assert e[NextAt(e, k, 0)] == Field(k, v);
  }

  /** A value of a wrong type makes a document unacceptable. */
  lemma SetRefused(s: Shape, st: StreamType, d: Doc, k: Key, v: Value)
    requires !Holds(KindOf(s, k), v)
    ensures !Accepts(s, st, SetField(d, k, v))
  {
    SetIllTyped(Typed(s), d, k, v);
    ScanTyped(Typed(s), Required(s), SetField(d, k, v));
  }

  /** Setting a value of the right type where there was one of the right type changes nothing; where there
      was none it fills in the field. */
  lemma SetAccepted(s: Shape, st: StreamType, d: Doc, k: Key, v: Value)
    requires Distinct(d) && Holds(KindOf(s, k), v) && (First(d, k).Some? ==> Holds(KindOf(s, k), First(d, k).value))
    ensures Accepts(s, st, SetField(d, k, v)) <==>
            var missing := Required(s) - Keys(d) - {k};
            WellTyped(s, d) && (missing == {} || (ProxyExempt(s, st) && |missing| == 2))
    ensures First(d, k).Some? ==> (Accepts(s, st, SetField(d, k, v)) <==> Accepts(s, st, d))
  {
    var e := SetField(d, k, v);
    SetTyped(Typed(s), d, k, v);
    SetFieldKeys(d, k, v);
    SetFieldDistinct(d, k, v);
    AcceptsIff(s, st, e);
    AcceptsIff(s, st, d);
    assert Required(s) - Keys(e) == Required(s) - Keys(d) - {k};
    if First(d, k).Some? {
      assert d[NextAt(d, k, 0)].key in Keys(d);
      assert Required(s) - Keys(d) - {k} == Required(s) - Keys(d);
    }
  }

  /** Overwriting a field keeps a document acceptable exactly if the new value has the type of the field. */
  lemma OverwrittenAccepted(s: Shape, st: StreamType, d: Doc, k: Key, v: Value)
    requires Distinct(d) && Accepts(s, st, d) && First(d, k).Some?
    ensures Accepts(s, st, SetField(d, k, v)) <==> Holds(KindOf(s, k), v)
  {
    if Holds(KindOf(s, k), v) {
      AcceptsIff(s, st, d);
      assert d[NextAt(d, k, 0)] in d && Typed(s)(d[NextAt(d, k, 0)]);
      SetAccepted(s, st, d, k, v);
    } else {
      SetRefused(s, st, d, k, v);
    }
  }
}
