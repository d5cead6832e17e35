/** The entries of a user's streams, vods and catchups: documents read by one cursor that only moves
    forward, and the entries this service pushes. */
module UserEntries {
  import opened Common
  import opened Bson
  import opened Infos

  // ---- the forward-only reader ---------------------------------------------------------------

  /** The values one cursor finds when asked for `keys` one after the other. */
  function Walk(d: Doc, from: nat, keys: seq<Key>): (found: seq<Option<Value>>)
    requires from <= |d|
    ensures |found| == |keys|
    decreases |keys|
  {
    if keys == [] then []
    else
      var at := NextAt(d, keys[0], from);
      if at < |d| then [Some(d[at].value)] + Walk(d, at + 1, keys[1..])
      else [None] + Walk(d, |d|, keys[1..])
  }

  /** The keys occur in the document in the order asked for, from position `from` on. */
  predicate InOrder(d: Doc, from: nat, keys: seq<Key>)
    requires from <= |d|
    decreases |keys|
  {
    keys == [] || (NextAt(d, keys[0], from) < |d| && InOrder(d, NextAt(d, keys[0], from) + 1, keys[1..]))
  }

  lemma {:induction false} WalkExhausted(d: Doc, keys: seq<Key>, i: nat)
    requires i < |keys|
    ensures Walk(d, |d|, keys)[i] == None
  {
    if i > 0 {
      WalkExhausted(d, keys[1..], i - 1);
    }
  }

  /** A value is found exactly when it and everything asked for before it occur in that order; otherwise
      nothing is found from the first miss on. */
  lemma {:induction false} WalkFinds(d: Doc, from: nat, keys: seq<Key>, i: nat)
    requires from <= |d| && i < |keys| && Distinct(d)
    ensures Walk(d, from, keys)[i] == if InOrder(d, from, keys[..i + 1]) then First(d, keys[i]) else None
    ensures InOrder(d, from, keys[..i + 1]) ==> First(d, keys[i]).Some?
    decreases |keys|
  {
    var at := NextAt(d, keys[0], from);
    assert keys[..i + 1][0] == keys[0] && keys[..i + 1][1..] == keys[1..][..i];
    if at < |d| {
      if i == 0 {
        assert InOrder(d, at + 1, keys[1..][..0]);
        NextAtIs(d, keys[0], 0, at) by {
          assert forall j :: 0 <= j < at ==> d[j].key != d[at].key;
        }
      } else {
        WalkFinds(d, at + 1, keys[1..], i - 1);
      }
    } else if i > 0 {
      WalkExhausted(d, keys[1..], i - 1);
    }
  }

  function AsBool(v: Option<Value>): bool { v.Some? && v.value.Boolean? && v.value.b }

  function AsDate(v: Option<Value>): int { if v.Some? && v.value.DateTime? then v.value.ms else 0 }

  function AsInt32(v: Option<Value>): int { if v.Some? && v.value.I32? then v.value.i else 0 }

  /** The order in which the five fields are asked for. */
  const ASKED: seq<Key> := [FAVORITE_FIELD, PRIVATE_FIELD, LOCKED_FIELD, RECENT_FIELD, INTERRUPTION_TIME_FIELD]

  function UserInfo(d: Doc, from: nat): UserStreamInfo
    requires from <= |d|
  {
    var w := Walk(d, from, ASKED);
    UserStreamInfo(AsBool(w[0]), AsDate(w[3]), AsInt32(w[4]), AsBool(w[1]), AsBool(w[2]))
  }

  function After(d: Doc, k: Key, from: nat): (pos: nat)
    requires from <= |d|
    ensures pos <= |d|
  {
    var at := NextAt(d, k, from);
    if at < |d| then at + 1 else |d|
  }

  function Value1(d: Doc, k: Key, from: nat): Option<Value>
    requires from <= |d|
  {
    var at := NextAt(d, k, from);
    if at < |d| then Some(d[at].value) else None
  }

  lemma WalkUnfold(d: Doc, from: nat)
    requires from <= |d|
    ensures var p1 := After(d, FAVORITE_FIELD, from);
            var p2 := After(d, PRIVATE_FIELD, p1);
            var p3 := After(d, LOCKED_FIELD, p2);
            var p4 := After(d, RECENT_FIELD, p3);
            Walk(d, from, ASKED) == [Value1(d, FAVORITE_FIELD, from), Value1(d, PRIVATE_FIELD, p1),
                                     Value1(d, LOCKED_FIELD, p2), Value1(d, RECENT_FIELD, p3),
                                     Value1(d, INTERRUPTION_TIME_FIELD, p4)]
  {
    WalkStep(d, from, ASKED);
    var p1 := After(d, FAVORITE_FIELD, from);
    assert ASKED[1..] == [PRIVATE_FIELD] + LAST_ASKED;
    WalkStep(d, p1, [PRIVATE_FIELD] + LAST_ASKED);
    assert ([PRIVATE_FIELD] + LAST_ASKED)[1..] == LAST_ASKED;
    WalkLast(d, After(d, PRIVATE_FIELD, p1));
  }

  const LAST_ASKED: seq<Key> := [LOCKED_FIELD, RECENT_FIELD, INTERRUPTION_TIME_FIELD]

  lemma WalkLast(d: Doc, from: nat)
    requires from <= |d|
    ensures var p3 := After(d, LOCKED_FIELD, from);
            var p4 := After(d, RECENT_FIELD, p3);
            Walk(d, from, LAST_ASKED) == [Value1(d, LOCKED_FIELD, from), Value1(d, RECENT_FIELD, p3),
                                          Value1(d, INTERRUPTION_TIME_FIELD, p4)]
  {
    WalkStep(d, from, LAST_ASKED);
    var p3 := After(d, LOCKED_FIELD, from);
    assert LAST_ASKED[1..] == [RECENT_FIELD, INTERRUPTION_TIME_FIELD];
    WalkStep(d, p3, [RECENT_FIELD, INTERRUPTION_TIME_FIELD]);
    assert [RECENT_FIELD, INTERRUPTION_TIME_FIELD][1..] == [INTERRUPTION_TIME_FIELD];
    WalkStep(d, After(d, RECENT_FIELD, p3), [INTERRUPTION_TIME_FIELD]);
    assert [INTERRUPTION_TIME_FIELD][1..] == [];
  }

  lemma WalkStep(d: Doc, from: nat, keys: seq<Key>)
    requires from <= |d| && keys != []
    ensures Walk(d, from, keys) == [Value1(d, keys[0], from)] + Walk(d, After(d, keys[0], from), keys[1..])
  {
  }

  /** One bson_iter_find: the value found, and where the cursor stands afterwards. */
  method Seek(d: Doc, k: Key, from: nat) returns (found: Option<Value>, pos: nat)
    requires from <= |d|
    ensures found == Value1(d, k, from) && pos == After(d, k, from)
  {
    var at := IterFind(d, k, from);
    if at < |d| {
      return Some(d[at].value), at + 1;
    }
    return None, |d|;
  }

  method MakeUserStreamInfo(d: Doc, from: nat) returns (u: UserStreamInfo)
    requires from <= |d|
    ensures u == UserInfo(d, from)
  {
    WalkUnfold(d, from);
    u := NO_USER_INFO;
    var found, pos := Seek(d, FAVORITE_FIELD, from);
    if found.Some? {
      u := u.(favorite := AsBool(found));
    }
    found, pos := Seek(d, PRIVATE_FIELD, pos);
    if found.Some? {
      u := u.(priv := AsBool(found));
    }
    found, pos := Seek(d, LOCKED_FIELD, pos);
    if found.Some? {
      u := u.(locked := AsBool(found));
    }
    found, pos := Seek(d, RECENT_FIELD, pos);
    if found.Some? {
      u := u.(recent := AsDate(found));
    }
    found, pos := Seek(d, INTERRUPTION_TIME_FIELD, pos);
    if found.Some? {
      u := u.(interruption := AsInt32(found));
    }
  }

  /** Each of the five results is the stored value if it and the fields asked for before it stand in the
      order asked for, and the default otherwise. */
  lemma UserInfoMeaning(d: Doc, from: nat)
    requires from <= |d| && Distinct(d)
    ensures var u := UserInfo(d, from);
            && u.favorite == (InOrder(d, from, ASKED[..1]) && AsBool(First(d, FAVORITE_FIELD)))
            && u.priv == (InOrder(d, from, ASKED[..2]) && AsBool(First(d, PRIVATE_FIELD)))
            && u.locked == (InOrder(d, from, ASKED[..3]) && AsBool(First(d, LOCKED_FIELD)))
            && u.recent == (if InOrder(d, from, ASKED[..4]) then AsDate(First(d, RECENT_FIELD)) else 0)
            && u.interruption == (if InOrder(d, from, ASKED) then AsInt32(First(d, INTERRUPTION_TIME_FIELD)) else 0)
  {
    WalkFinds(d, from, ASKED, 0);
    WalkFinds(d, from, ASKED, 1);
    WalkFinds(d, from, ASKED, 2);
    WalkFinds(d, from, ASKED, 3);
    WalkFinds(d, from, ASKED, 4);
    assert ASKED[..5] == ASKED;
  }

  /** With all five in the order asked for, the cursor agrees with lookup by key. */
  lemma UserInfoByKey(d: Doc, from: nat)
    requires from <= |d| && Distinct(d) && InOrder(d, from, ASKED)
    ensures UserInfo(d, from)
         == UserStreamInfo(AsBool(First(d, FAVORITE_FIELD)), AsDate(First(d, RECENT_FIELD)),
                           AsInt32(First(d, INTERRUPTION_TIME_FIELD)), AsBool(First(d, PRIVATE_FIELD)),
                           AsBool(First(d, LOCKED_FIELD)))
  {
    UserInfoMeaning(d, from);
    InOrderPrefix(d, from, ASKED, 1);
    InOrderPrefix(d, from, ASKED, 2);
    InOrderPrefix(d, from, ASKED, 3);
    InOrderPrefix(d, from, ASKED, 4);
  }

  /** A longer in-order list needs every shorter one. */
  lemma {:induction false} InOrderPrefix(d: Doc, from: nat, keys: seq<Key>, n: nat)
    requires from <= |d| && n <= |keys| && InOrder(d, from, keys)
    ensures InOrder(d, from, keys[..n])
    decreases |keys|
  {
    if n > 0 {
      InOrderPrefix(d, NextAt(d, keys[0], from) + 1, keys[1..], n - 1);
      assert keys[..n][0] == keys[0] && keys[..n][1..] == keys[1..][..n - 1];
    }
  }

  /** An absent field hides everything asked for after it. */
  lemma {:induction false} AbsentBreaksOrder(d: Doc, from: nat, keys: seq<Key>, k: Key)
    requires from <= |d| && k in keys && First(d, k) == None
    ensures !InOrder(d, from, keys)
    decreases |keys|
  {
    NextAtSkips(d, k, 0);
    if keys[0] != k && NextAt(d, keys[0], from) < |d| {
      AbsentBreaksOrder(d, NextAt(d, keys[0], from) + 1, keys[1..], k);
    }
  }

  /** Without `locked`, the last two fields are never shown, whatever is stored in them. */
  lemma WithoutLocked(d: Doc, from: nat)
    requires from <= |d| && Distinct(d) && First(d, LOCKED_FIELD) == None
    ensures var u := UserInfo(d, from); !u.locked && u.recent == 0 && u.interruption == 0
  {
    UserInfoMeaning(d, from);
    assert ASKED[..4][2] == LOCKED_FIELD;
    AbsentBreaksOrder(d, from, ASKED[..4], LOCKED_FIELD);
    AbsentBreaksOrder(d, from, ASKED, LOCKED_FIELD);
  }

  // ---- entries pushed by the service ---------------------------------------------------------

  /** The entry for a new stream, vod or catchup; only the last kind carries a class. */
  function NewEntry(sid: string, cls: Option<string>): Doc {
    [Field(SID_FIELD, Oid(sid)), Field(FAVORITE_FIELD, Boolean(false)), Field(PRIVATE_FIELD, Boolean(false)),
     Field(RECENT_FIELD, DateTime(0)), Field(INTERRUPTION_TIME_FIELD, I32(0))]
    + if cls.Some? then [Field(CLS_FIELD, Utf8(cls.value))] else []
  }

  lemma NewEntryShape(sid: string, cls: Option<string>)
    ensures var e := NewEntry(sid, cls);
            && Distinct(e) && First(e, SID_FIELD) == Some(Oid(sid)) && NextAt(e, SID_FIELD, 0) == 0
            && First(e, LOCKED_FIELD) == None && NextAt(e, FAVORITE_FIELD, 0) == 1
  {
  }

  /** A new entry is for the stream, with all flags off and no times; only a catchup carries a class. */
  lemma NewEntryFields(sid: string, cls: Option<string>)
    ensures var e := NewEntry(sid, cls);
            && First(e, SID_FIELD) == Some(Oid(sid))
            && First(e, FAVORITE_FIELD) == Some(Boolean(false)) && First(e, PRIVATE_FIELD) == Some(Boolean(false))
            && First(e, RECENT_FIELD) == Some(DateTime(0)) && First(e, INTERRUPTION_TIME_FIELD) == Some(I32(0))
            && First(e, CLS_FIELD) == (match cls case None => None case Some(s) => Some(Utf8(s)))
  {
    var e := NewEntry(sid, cls);
    FirstIs(e, FAVORITE_FIELD, 1);
    FirstIs(e, PRIVATE_FIELD, 2);
    FirstIs(e, RECENT_FIELD, 3);
    FirstIs(e, INTERRUPTION_TIME_FIELD, 4);
    FirstIs(e, CLS_FIELD, 5);
  }

  // ---- setting a field and reading it back ---------------------------------------------------

  /** After `k` is set, it stands in order behind `before` exactly when it was absent (and is appended)
      or already stood there, provided `before` itself is in order. */
  lemma {:induction false} SetKeepsOrder(e: Doc, from: nat, before: seq<Key>, k: Key, v: Value)
    requires from <= |e| && k !in before
    ensures InOrder(SetField(e, k, v), from, before + [k]) <==>
            InOrder(e, from, before) && (First(e, k) == None || InOrder(e, from, before + [k]))
    decreases |before|
  {
    var e' := SetField(e, k, v);
    if before == [] {
      assert before + [k] == [k];
      assert [k][1..] == [];
      SetMovesNothing(e, k, v, k, from);
    } else {
      var q := before[0];
      SetMovesNothing(e, k, v, q, from);
      assert (before + [k])[1..] == before[1..] + [k];
      var at := NextAt(e, q, from);
      if at < |e| {
        SetKeepsOrder(e, at + 1, before[1..], k, v);
      }
    }
  }

  /** Where a cursor stops after `k` is set. */
  lemma SetMovesNothing(e: Doc, k: Key, v: Value, q: Key, from: nat)
    requires from <= |e|
    ensures var a, b := NextAt(e, q, from), NextAt(SetField(e, k, v), q, from);
            if a < |e| then b == a
            else if q == k && First(e, k) == None then b == |e|
            else b == |SetField(e, k, v)|
  {
    var e' := SetField(e, k, v);
    var a := NextAt(e, q, from);
    NextAtSkips(e, q, from);
    NextAtSkips(e, k, 0);
    if a < |e| {
      NextAtIs(e', q, from, a);
    } else if q == k && First(e, k) == None {
      NextAtIs(e', q, from, |e|);
    } else {
      NextAtIs(e', q, from, |e'|);
    }
  }
}
