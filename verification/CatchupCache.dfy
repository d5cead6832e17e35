/** Catchups as a cache: the `parts` of a stream, searched by title and dates, filled by three writes any
    of which may fail. */
module CatchupCache {
  import opened Common
  import opened Bson
  import opened Infos
  import opened Urls
  import opened Schemas
  import opened FieldValues
  import opened UserEntries
  import opened Store
  import opened UserUpdates
  import opened CatchupDocs

  type Streams = map<string, Doc>

  // ---- searching the cache -------------------------------------------------------------------

  function Parts(d: Doc): seq<string> {
    Ids(Items(d, PARTS_FIELD))
  }

  predicate KeyMatches(d: Doc, key: CatKey) {
    && First(d, NAME_FIELD) == Some(Utf8(key.title))
    && First(d, START_FIELD) == Some(DateTime(key.start))
    && First(d, STOP_FIELD) == Some(DateTime(key.stop))
  }

  /** A part that serves a request: it exists, matches, and the catchup reader accepts it. */
  predicate Hit(streams: Streams, p: string, key: CatKey) {
    p in streams && KeyMatches(streams[p], key) && Accepts(Catchup, CATCHUP, streams[p])
  }

  function FirstHit(streams: Streams, parts: seq<string>, key: CatKey): (r: Option<string>)
    ensures r.Some? ==> Hit(streams, r.value, key)
  {
    if parts == [] then None
    else if Hit(streams, parts[0], key) then Some(parts[0])
    else FirstHit(streams, parts[1..], key)
  }

  lemma {:induction false} FirstHitNone(streams: Streams, parts: seq<string>, key: CatKey)
    ensures FirstHit(streams, parts, key) == None <==> forall p :: p in parts ==> !Hit(streams, p, key)
  {
    if parts != [] {
      FirstHitNone(streams, parts[1..], key);
      assert parts == [parts[0]] + parts[1..];
    }
  }

  /** A hit stays the first one while parts are appended and the parts before it do not change. */
  lemma {:induction false} FirstHitStays(a: Streams, b: Streams, parts: seq<string>, more: seq<string>, key: CatKey)
    requires FirstHit(a, parts, key).Some? && forall p :: p in parts ==> (Hit(a, p, key) <==> Hit(b, p, key))
    ensures FirstHit(b, parts + more, key) == FirstHit(a, parts, key)
  {
    assert (parts + more)[0] == parts[0] && (parts + more)[1..] == parts[1..] + more;
    assert parts[0] in parts;
    if !Hit(a, parts[0], key) {
      FirstHitStays(a, b, parts[1..], more, key);
    }
  }

  lemma {:induction false} FirstHitAppended(a: Streams, parts: seq<string>, p: string, key: CatKey)
    requires FirstHit(a, parts, key) == None && Hit(a, p, key)
    ensures FirstHit(a, parts + [p], key) == Some(p)
  {
    assert (parts + [p])[0] == if parts == [] then p else parts[0];
    if parts != [] {
      assert (parts + [p])[1..] == parts[1..] + [p];
      FirstHitAppended(a, parts[1..], p, key);
    }
  }

  // ---- appending to the parts of a stream ----------------------------------------------------

  /** No reader needs `parts`, so appending to it changes nothing about acceptance. */
  lemma PushPartsTyped(s: Shape, d: Doc, v: Value)
    requires Distinct(d) && Push(d, PARTS_FIELD, v).Some?
    ensures WellTyped(s, Push(d, PARTS_FIELD, v).value) <==> WellTyped(s, d)
  {
  }

  lemma PartsKind(s: Shape)
    ensures KindOf(s, PARTS_FIELD) == OfArray || KindOf(s, PARTS_FIELD) == Any
    ensures PARTS_FIELD !in Required(s)
  {
  }

  lemma PushPartsAccepted(s: Shape, st: StreamType, d: Doc, v: Value)
    requires Distinct(d) && Push(d, PARTS_FIELD, v).Some?
    ensures Accepts(s, st, Push(d, PARTS_FIELD, v).value) <==> Accepts(s, st, d)
  {
    var e := Push(d, PARTS_FIELD, v).value;
    PushPartsTyped(s, d, v);
    PartsKind(s);
    SetFieldDistinct(d, PARTS_FIELD, Array(Items(d, PARTS_FIELD) + [v]));
    SetFieldKeys(d, PARTS_FIELD, Array(Items(d, PARTS_FIELD) + [v]));
    assert [] + [v] == [v];
    assert Required(s) - Keys(e) == Required(s) - Keys(d);
    assert Required(s) <= Keys(e) <==> Required(s) <= Keys(d);
    AcceptsIff(s, st, d);
    AcceptsIff(s, st, e);
  }

  lemma PushedParts(d: Doc, cid: string)
    requires Push(d, PARTS_FIELD, Oid(cid)).Some?
    ensures Parts(Push(d, PARTS_FIELD, Oid(cid)).value) == Parts(d) + [cid]
  {
  }

  lemma PushedValid(id: string, d: Doc, cid: string)
    requires ValidStream(id, d) && Push(d, PARTS_FIELD, Oid(cid)).Some?
    ensures ValidStream(id, Push(d, PARTS_FIELD, Oid(cid)).value)
  {
    var e, items := Push(d, PARTS_FIELD, Oid(cid)).value, Items(d, PARTS_FIELD) + [Oid(cid)];
    assert [] + [Oid(cid)] == [Oid(cid)];
    assert e == SetField(d, PARTS_FIELD, Array(items));
    SetFieldDistinct(d, PARTS_FIELD, Array(items));
    SetFieldOther(d, PARTS_FIELD, Array(items), ID_FIELD);
    var at := NextAt(d, PARTS_FIELD, 0);
    NextAtSkips(d, PARTS_FIELD, 0);
    forall i | 0 <= i < |e| && (e[i].key == PARTS_FIELD || e[i].key == EPISODES_FIELD) && e[i].value.Array?
      ensures forall v :: v in e[i].value.items ==> v.Oid?
    {
      if e[i].key == PARTS_FIELD {
        assert i == NextAt(e, PARTS_FIELD, 0) by { NextAtSkips(e, PARTS_FIELD, 0); }
        assert e[i].value == Array(items);
        assert at < |d| ==> d[at].value.Array? ==> items == d[at].value.items + [Oid(cid)];
      } else {
        assert i < |d| && e[i] == d[i];
      }
    }
  }

  lemma PushedMatches(d: Doc, v: Value, key: CatKey)
    requires Push(d, PARTS_FIELD, v).Some?
    ensures KeyMatches(Push(d, PARTS_FIELD, v).value, key) <==> KeyMatches(d, key)
  {
    var items := Array(Items(d, PARTS_FIELD) + [v]);
    assert [] + [v] == [v];
    SetFieldOther(d, PARTS_FIELD, items, NAME_FIELD);
    SetFieldOther(d, PARTS_FIELD, items, START_FIELD);
    SetFieldOther(d, PARTS_FIELD, items, STOP_FIELD);
  }

  // ---- what every state keeps ----------------------------------------------------------------

  /** No two parts of the list serve the same request. */
  ghost predicate NoTwoIn(streams: Streams, parts: seq<string>) {
    forall i, j, key :: 0 <= i < j < |parts| && Hit(streams, parts[i], key) ==> !Hit(streams, parts[j], key)
  }

  ghost predicate Good(streams: Streams) {
    ValidStreams(streams) && forall s :: s in streams ==> NoTwoIn(streams, Parts(streams[s]))
  }

  /** An id the driver just made up: no document and no list of parts has it. */
  predicate Fresh(streams: Streams, cid: string) {
    cid != "" && cid !in streams && forall s :: s in streams ==> cid !in Parts(streams[s])
  }

  /** `b` may follow `a`: streams stay, parts are only appended, and what is in a list of parts serves the
      same requests. */
  ghost predicate Later(a: Streams, b: Streams) {
    forall s :: s in a ==>
      && s in b && Parts(a[s]) <= Parts(b[s])
      && forall p, key :: p in Parts(a[s]) ==> (Hit(a, p, key) <==> Hit(b, p, key))
  }

  lemma LaterTrans(a: Streams, b: Streams, c: Streams)
    requires Later(a, b) && Later(b, c)
    ensures Later(a, c)
  {
  }

  lemma LaterHit(a: Streams, b: Streams, s: string, key: CatKey)
    requires Later(a, b) && s in a && FirstHit(a, Parts(a[s]), key).Some?
    ensures s in b && FirstHit(b, Parts(b[s]), key) == FirstHit(a, Parts(a[s]), key)
  {
    var n := |Parts(a[s])|;
    assert Parts(b[s]) == Parts(a[s]) + Parts(b[s])[n..];
    FirstHitStays(a, b, Parts(a[s]), Parts(b[s])[n..], key);
  }

  /** A new stream without parts, under an id nobody mentions. */
  lemma InsertStage(streams: Streams, cid: string, doc: Doc)
    requires Good(streams) && Fresh(streams, cid) && ValidStream(cid, doc) && Parts(doc) == []
    ensures Good(streams[cid := doc]) && Later(streams, streams[cid := doc])
  {
    var after := streams[cid := doc];
    forall s | s in after ensures NoTwoIn(after, Parts(after[s])) {
      if s != cid {
        assert NoTwoIn(streams, Parts(streams[s]));
        NoTwoSame(streams, after, Parts(streams[s]));
      }
    }
  }

  lemma NoTwoSame(a: Streams, b: Streams, parts: seq<string>)
    requires NoTwoIn(a, parts) && forall p, key :: p in parts ==> (Hit(a, p, key) <==> Hit(b, p, key))
    ensures NoTwoIn(b, parts)
  {
  }

  lemma NoTwoAppend(streams: Streams, parts: seq<string>, cid: string)
    requires NoTwoIn(streams, parts)
    requires forall key :: Hit(streams, cid, key) ==> FirstHit(streams, parts, key) == None
    ensures NoTwoIn(streams, parts + [cid])
  {
    var more := parts + [cid];
    forall i, j, key | 0 <= i < j < |more| && Hit(streams, more[i], key) ensures !Hit(streams, more[j], key) {
      FirstHitNone(streams, parts, key);
      if j == |parts| {
        assert parts[i] in parts;
      } else {
        assert Hit(streams, parts[i], key);
      }
    }
  }

  lemma PushedHits(streams: Streams, sid: string, cid: string)
    requires ValidStreams(streams) && sid in streams && Push(streams[sid], PARTS_FIELD, Oid(cid)).Some?
    ensures var after := streams[sid := Push(streams[sid], PARTS_FIELD, Oid(cid)).value];
            forall p, key :: Hit(after, p, key) <==> Hit(streams, p, key)
  {
    var e := Push(streams[sid], PARTS_FIELD, Oid(cid)).value;
    assert ValidStream(sid, streams[sid]);
    PushPartsAccepted(Catchup, CATCHUP, streams[sid], Oid(cid));
    forall key ensures KeyMatches(e, key) <==> KeyMatches(streams[sid], key) {
      PushedMatches(streams[sid], Oid(cid), key);
    }
  }

  /** A catchup is linked to a stream none of whose parts serves what it serves. */
  lemma LinkStage(streams: Streams, sid: string, cid: string)
    requires Good(streams) && sid in streams && Push(streams[sid], PARTS_FIELD, Oid(cid)).Some?
    requires forall key :: Hit(streams, cid, key) ==> FirstHit(streams, Parts(streams[sid]), key) == None
    ensures var after := streams[sid := Push(streams[sid], PARTS_FIELD, Oid(cid)).value];
            && Good(after) && Later(streams, after) && Parts(after[sid]) == Parts(streams[sid]) + [cid]
            && forall p, key :: Hit(after, p, key) <==> Hit(streams, p, key)
  {
    var after := streams[sid := Push(streams[sid], PARTS_FIELD, Oid(cid)).value];
    assert ValidStream(sid, streams[sid]);
    PushedValid(sid, streams[sid], cid);
    PushedParts(streams[sid], cid);
    PushedHits(streams, sid, cid);
    forall s | s in after ensures NoTwoIn(after, Parts(after[s])) {
      assert NoTwoIn(streams, Parts(streams[s]));
      if s == sid {
        NoTwoAppend(streams, Parts(streams[s]), cid);
      }
      NoTwoSame(streams, after, Parts(after[s]));
    }
  }
}
