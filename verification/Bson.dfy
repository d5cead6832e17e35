/** Documents as the database stores them, the forward-only cursor over their fields, and the four
    update operators the service sends: $push, $pull, positional $set and $inc. */
module Bson {
  import opened Common

  /** Field names, numbered in the order they are listed here; any other name is some other number. */
  type Key = int

  // stream documents
  const ID_FIELD: Key := 0
  const CLS_FIELD: Key := 1
  const CREATED_DATE_FIELD: Key := 2
  const NAME_FIELD: Key := 3
  const GROUPS_FIELD: Key := 4
  const TVG_ID_FIELD: Key := 5
  const TVG_NAME_FIELD: Key := 6
  const TVG_LOGO_FIELD: Key := 7
  const PRICE_FIELD: Key := 8
  const VISIBLE_FIELD: Key := 9
  const IARC_FIELD: Key := 10
  const VIEW_COUNT_FIELD: Key := 11
  const PARTS_FIELD: Key := 12
  const OUTPUT_FIELD: Key := 13
  const LOG_LEVEL_FIELD: Key := 14
  const INPUT_FIELD: Key := 15
  const HAVE_VIDEO_FIELD: Key := 16
  const HAVE_AUDIO_FIELD: Key := 17
  const LOOP_FIELD: Key := 18
  const RESTART_ATTEMPTS_FIELD: Key := 19
  const AUTO_EXIT_FIELD: Key := 20
  const EXTRA_CONFIG_FIELD: Key := 21
  const VIDEO_PARSER_FIELD: Key := 22
  const AUDIO_PARSER_FIELD: Key := 23
  const CHUNK_DURATION_FIELD: Key := 24
  const CHUNK_LIFE_TIME_FIELD: Key := 25
  const START_FIELD: Key := 26
  const STOP_FIELD: Key := 27
  const META_FIELD: Key := 28
  // vods, series, content requests
  const DESCRIPTION_FIELD: Key := 29
  const VOD_TYPE_FIELD: Key := 30
  const TRAILER_URL_FIELD: Key := 31
  const USER_SCORE_FIELD: Key := 32
  const PRIME_DATE_FIELD: Key := 33
  const COUNTRY_FIELD: Key := 34
  const DURATION_FIELD: Key := 35
  const ICON_FIELD: Key := 36
  const SEASON_FIELD: Key := 37
  const EPISODES_FIELD: Key := 38
  const TITLE_FIELD: Key := 39
  const TYPE_FIELD: Key := 40
  const STATUS_FIELD: Key := 41
  // subscribers and their entries
  const EMAIL_FIELD: Key := 42
  const PASSWORD_FIELD: Key := 43
  const EXP_DATE_FIELD: Key := 44
  const DEVICES_FIELD: Key := 45
  const STREAMS_FIELD: Key := 46
  const VODS_FIELD: Key := 47
  const CATCHUPS_FIELD: Key := 48
  const SERIES_FIELD: Key := 49
  const REQUESTS_FIELD: Key := 50
  const SID_FIELD: Key := 51
  const FAVORITE_FIELD: Key := 52
  const PRIVATE_FIELD: Key := 53
  const LOCKED_FIELD: Key := 54
  const RECENT_FIELD: Key := 55
  const INTERRUPTION_TIME_FIELD: Key := 56
  // url sub-documents
  const URL_ID_FIELD: Key := 57
  const URI_FIELD: Key := 58
  const HTTP_ROOT_FIELD: Key := 59
  const HLS_TYPE_FIELD: Key := 60
  const URL_FIELD: Key := 61

  datatype Value =
    | Oid(id: string)
    | Utf8(text: string)
    | I32(i: int32)
    | I64(l: int)
    | Boolean(b: bool)
    | Double(d: real)
    | DateTime(ms: int)
    | Array(items: seq<Value>)
    | Document(fields: seq<Field>)
    | Null

  datatype Field = Field(key: Key, value: Value)

  type Doc = seq<Field>

  // ---- reading -------------------------------------------------------------------------------

  /** Where a cursor standing before position `from` stops when asked for key `k`; |d| when it runs
      off the end, from where it finds nothing any more. */
  function NextAt(d: Doc, k: Key, from: nat): (at: nat)
    requires from <= |d|
    ensures from <= at <= |d|
    ensures at < |d| ==> d[at].key == k
    decreases |d| - from
  {
    if from == |d| || d[from].key == k then from else NextAt(d, k, from + 1)
  }

  /** What the cursor skips does not carry the key. */
  lemma {:induction false} NextAtSkips(d: Doc, k: Key, from: nat)
    requires from <= |d|
    ensures forall j :: from <= j < NextAt(d, k, from) ==> d[j].key != k
    decreases |d| - from
  {
    if from < |d| && d[from].key != k {
      NextAtSkips(d, k, from + 1);
    }
  }

  lemma NextAtIs(d: Doc, k: Key, from: nat, at: nat)
    requires from <= at <= |d|
    requires at < |d| ==> d[at].key == k
    requires forall j :: from <= j < at ==> d[j].key != k
    ensures NextAt(d, k, from) == at
    decreases |d| - from
  {
    if from < at {
      NextAtIs(d, k, from + 1, at);
    }
  }

  /** The cursor loop itself. */
  method IterFind(d: Doc, k: Key, from: nat) returns (at: nat)
    requires from <= |d|
    ensures at == NextAt(d, k, from)
  {
    at := from;
    while at < |d| && d[at].key != k
      invariant from <= at <= |d|
      invariant NextAt(d, k, from) == NextAt(d, k, at)
    {
      at := at + 1;
    }
  }

  /** A fresh cursor asked for `k`. */
  function First(d: Doc, k: Key): Option<Value> {
    var at := NextAt(d, k, 0);
    if at < |d| then Some(d[at].value) else None
  }

  lemma FirstIs(d: Doc, k: Key, at: nat)
    requires at <= |d| && forall j :: 0 <= j < at ==> d[j].key != k
    requires at < |d| ==> d[at].key == k
    ensures First(d, k) == if at < |d| then Some(d[at].value) else None
  {
    NextAtIs(d, k, 0, at);
  }

  lemma FirstConcat(d: Doc, e: Doc, k: Key)
    ensures First(d + e, k) == if First(d, k).Some? then First(d, k) else First(e, k)
  {
    NextAtSkips(d, k, 0);
    NextAtSkips(e, k, 0);
    var a, b := NextAt(d, k, 0), NextAt(e, k, 0);
    NextAtIs(d + e, k, 0, if a < |d| then a else |d| + b);
  }

  function Keys(d: Doc): set<Key> {
    set i | 0 <= i < |d| :: d[i].key
  }

  predicate Distinct(d: Doc) {
    forall i, j :: 0 <= i < j < |d| ==> d[i].key != d[j].key
  }

  /** A document as a table; a later field with the same key wins, as in a loop over the fields. */
  function Index(d: Doc): map<Key, Value> {
    if d == [] then map[]
    else Index(d[..|d| - 1])[d[|d| - 1].key := d[|d| - 1].value]
  }

  lemma IndexStep(d: Doc, i: nat)
    requires i < |d|
    ensures Index(d[..i + 1]) == Index(d[..i])[d[i].key := d[i].value]
  {
    assert d[..i + 1][..i] == d[..i];
  }

  lemma KeysSplit(d: Doc)
    requires d != []
    ensures Keys(d) == Keys(d[..|d| - 1]) + {d[|d| - 1].key}
  {
  }

  /** With distinct keys the table holds exactly the fields, whatever their order. */
  lemma {:induction false} IndexHoldsFields(d: Doc)
    ensures Index(d).Keys == Keys(d)
    ensures Distinct(d) ==> forall i :: 0 <= i < |d| ==> Index(d)[d[i].key] == d[i].value
  {
    if d != [] {
      var n := |d| - 1;
      IndexHoldsFields(d[..n]);
      KeysSplit(d);
      if Distinct(d) {
        forall i | 0 <= i < |d| ensures d[i].key in Index(d) && Index(d)[d[i].key] == d[i].value {
          assert i < n ==> d[..n][i] == d[i];
        }
      }
    }
  }

  lemma IndexIsFirst(d: Doc, k: Key)
    requires Distinct(d)
    ensures First(d, k) == if k in Index(d) then Some(Index(d)[k]) else None
  {
    IndexHoldsFields(d);
    NextAtSkips(d, k, 0);
    var at := NextAt(d, k, 0);
    if at < |d| {
      assert d[at].key in Keys(d);
    } else {
      assert forall i :: 0 <= i < |d| ==> d[i].key != k;
    }
  }

  // ---- reordering ----------------------------------------------------------------------------

  lemma {:induction false} KeyCount(d: Doc)
    ensures |Keys(d)| <= |d|
    ensures |Keys(d)| == |d| <==> Distinct(d)
  {
    if d != [] {
      var n := |d| - 1;
      var p := d[..n];
      KeyCount(p);
      var k := d[n].key;
      KeysSplit(d);
      if k in Keys(p) {
        var i :| 0 <= i < n && p[i].key == k;
        assert d[i].key == d[n].key;
        assert Keys(d) == Keys(p);
      } else {
        assert |Keys(d)| == |Keys(p)| + 1;
        DistinctSplit(d);
      }
    } else {
      assert Keys(d) == {};
    }
  }

  lemma DistinctSplit(d: Doc)
    requires d != [] && d[|d| - 1].key !in Keys(d[..|d| - 1])
    ensures Distinct(d) <==> Distinct(d[..|d| - 1])
  {
  }

  /** A reordering of a document with distinct keys has distinct keys and the same table. */
  lemma PermutedIndex(d: Doc, e: Doc)
    requires Distinct(d) && multiset(d) == multiset(e)
    ensures Distinct(e) && Index(d) == Index(e)
  {
    SameFields(d, e);
    SameFields(e, d);
    assert Keys(d) == Keys(e);
    assert |d| == |multiset(d)| == |multiset(e)| == |e|;
    KeyCount(d);
    KeyCount(e);
    SameTable(d, e);
  }

  lemma SameTable(d: Doc, e: Doc)
    requires Distinct(d) && Distinct(e) && Keys(d) == Keys(e) && forall i :: 0 <= i < |d| ==> d[i] in e
    ensures Index(d) == Index(e)
  {
    IndexHoldsFields(d);
    IndexHoldsFields(e);
    forall k | k in Index(d) ensures Index(d)[k] == Index(e)[k] {
      var i :| 0 <= i < |d| && d[i].key == k;
      var j :| 0 <= j < |e| && e[j] == d[i];
    }
  }

  lemma SameFields(d: Doc, e: Doc)
    requires multiset(d) == multiset(e)
    ensures forall i :: 0 <= i < |d| ==> d[i] in e
    ensures Keys(d) <= Keys(e)
  {
    forall i | 0 <= i < |d| ensures d[i] in e && d[i].key in Keys(e) {
      assert d[i] in multiset(d);
      var j :| 0 <= j < |e| && e[j] == d[i];
    }
  }

  // ---- update operators ----------------------------------------------------------------------

  /** Replaces the field in place, or appends it. */
  function SetField(d: Doc, k: Key, v: Value): (e: Doc)
    ensures First(e, k) == Some(v)
    ensures |d| <= |e| <= |d| + 1
    ensures forall j :: 0 <= j < |d| && d[j].key != k ==> e[j] == d[j]
    ensures forall j :: 0 <= j < |d| ==> e[j].key == d[j].key
    ensures |e| == |d| + 1 ==> e[|d|] == Field(k, v) && forall j :: 0 <= j < |d| ==> d[j].key != k
  {
    NextAtSkips(d, k, 0);
    var at := NextAt(d, k, 0);
    var e := if at < |d| then d[at := Field(k, v)] else d + [Field(k, v)];
    NextAtIs(e, k, 0, at);
    e
  }

  lemma SetFieldFrame(d: Doc, k: Key, v: Value)
    ensures forall q :: q != k ==> First(SetField(d, k, v), q) == First(d, q)
    ensures Keys(SetField(d, k, v)) == Keys(d) + {k}
    ensures Distinct(d) ==> Distinct(SetField(d, k, v))
    ensures Distinct(d) ==> Index(SetField(d, k, v)) == Index(d)[k := v]
  {
    var e := SetField(d, k, v);
    forall q | q != k ensures First(e, q) == First(d, q) {
      SetFieldOther(d, k, v, q);
    }
    SetFieldKeys(d, k, v);
    if Distinct(d) {
      SetFieldDistinct(d, k, v);
      IndexHoldsFields(d);
      IndexHoldsFields(e);
      forall q | q in Index(e) ensures Index(e)[q] == Index(d)[k := v][q] {
        IndexIsFirst(e, q);
        IndexIsFirst(d, q);
      }
    }
  }

  lemma SetFieldOther(d: Doc, k: Key, v: Value, q: Key)
    requires q != k
    ensures First(SetField(d, k, v), q) == First(d, q)
  {
    var e := SetField(d, k, v);
    var a := NextAt(d, q, 0);
    NextAtSkips(d, q, 0);
    if a < |d| {
      NextAtIs(e, q, 0, a);
    } else {
      NextAtIs(e, q, 0, |e|);
    }
  }

  lemma SetFieldKeys(d: Doc, k: Key, v: Value)
    ensures Keys(SetField(d, k, v)) == Keys(d) + {k}
  {
  }

  lemma SetFieldDistinct(d: Doc, k: Key, v: Value)
    requires Distinct(d)
    ensures Distinct(SetField(d, k, v))
  {
  }

  /** $push: appends to the array, creates it when absent, is refused on anything else. */
  function Push(d: Doc, k: Key, v: Value): Option<Doc> {
    match First(d, k)
    case None => Some(SetField(d, k, Array([v])))
    case Some(Array(items)) => Some(SetField(d, k, Array(items + [v])))
    case Some(_) => None
  }

  /** An array element that is a sub-document whose field `k` is the object id `id`. */
  predicate Refers(v: Value, k: Key, id: string) {
    v.Document? && First(v.fields, k) == Some(Oid(id))
  }

  function Without(items: seq<Value>, k: Key, id: string): seq<Value> {
    Collect((v: Value) => if Refers(v, k, id) then None else Some(v), items)
  }

  /** $pull of every element whose `sid` is `id`. */
  function Pull(d: Doc, k: Key, id: string): Option<Doc> {
    match First(d, k)
    case None => Some(d)
    case Some(Array(items)) => Some(SetField(d, k, Array(Without(items, SID_FIELD, id))))
    case Some(_) => None
  }

  /** The element the positional operator `$` denotes: the first that matches the query. */
  function PosOf(items: seq<Value>, k: Key, id: string): (at: nat)
    ensures at <= |items|
    ensures at < |items| ==> Refers(items[at], k, id)
    ensures forall j :: 0 <= j < at ==> !Refers(items[j], k, id)
  {
    if items == [] || Refers(items[0], k, id) then 0 else 1 + PosOf(items[1..], k, id)
  }

  /** positional $set `arr.$.k := v` under the query `arr.idKey == id`; no match changes nothing. */
  function SetPositional(d: Doc, arr: Key, idKey: Key, id: string, k: Key, v: Value): Doc {
    match First(d, arr)
    case Some(Array(items)) =>
      var at := PosOf(items, idKey, id);
      if at < |items|
      then SetField(d, arr, Array(items[at := Document(SetField(items[at].fields, k, v))]))
      else d
    case _ => d
  }

  /** $inc by one: a 32-bit counter that overflows becomes a 64-bit one; other types are refused. */
  function Inc(d: Doc, k: Key): Option<Doc> {
    match First(d, k)
    case None => Some(SetField(d, k, I32(1)))
    case Some(I32(n)) => Some(SetField(d, k, if n < 0x7fff_ffff then I32(n + 1) else I64(n as int + 1)))
    case Some(I64(n)) => if n < 0x7fff_ffff_ffff_ffff then Some(SetField(d, k, I64(n + 1))) else None
    case Some(Double(x)) => Some(SetField(d, k, Double(x + 1.0)))
    case Some(_) => None
  }

  function Items(d: Doc, k: Key): seq<Value> {
    match First(d, k)
    case Some(Array(items)) => items
    case _ => []
  }
}
