/** The five readers' requirements, field by field. */
module SchemaFields {
  import opened Common
  import opened Bson
  import opened Infos
  import opened Schemas

  predicate IsOid(d: Doc, k: Key) { First(d, k).Some? && First(d, k).value.Oid? }

  predicate IsText(d: Doc, k: Key) { First(d, k).Some? && First(d, k).value.Utf8? }

  predicate IsInt32(d: Doc, k: Key) { First(d, k).Some? && First(d, k).value.I32? }

  predicate IsBool(d: Doc, k: Key) { First(d, k).Some? && First(d, k).value.Boolean? }

  predicate IsDouble(d: Doc, k: Key) { First(d, k).Some? && First(d, k).value.Double? }

  predicate IsDate(d: Doc, k: Key) { First(d, k).Some? && First(d, k).value.DateTime? }

  predicate IsArray(d: Doc, k: Key) { First(d, k).Some? && First(d, k).value.Array? }

  predicate Absent(d: Doc, k: Key) { First(d, k) == None }

  /** With distinct keys a document is well typed if what stands under each key is. */
  lemma TypedByKey(s: Shape, d: Doc)
    requires Distinct(d)
    ensures WellTyped(s, d) <==> forall k :: First(d, k).Some? ==> Holds(KindOf(s, k), First(d, k).value)
  {
    if WellTyped(s, d) {
      forall k | First(d, k).Some? ensures Holds(KindOf(s, k), First(d, k).value) {
        var at := NextAt(d, k, 0);
        assert d[at] in d && Typed(s)(d[at]);
      }
    }
    if forall k :: First(d, k).Some? ==> Holds(KindOf(s, k), First(d, k).value) {
      forall f | f in d ensures Typed(s)(f) {
        var i :| 0 <= i < |d| && d[i] == f;
        FirstIs(d, f.key, i);
      }
    }
  }

  lemma PresentIff(d: Doc, k: Key)
    ensures k in Keys(d) <==> First(d, k).Some?
  {
    NextAtSkips(d, k, 0);
    var at := NextAt(d, k, 0);
    if at < |d| {
      assert d[at].key in Keys(d);
    }
  }

  /** A field is right if it has its type when it is there, and is there when it is required. */
  predicate FieldOk(s: Shape, d: Doc, k: Key) {
    match First(d, k)
    case None => k !in Required(s)
    case Some(v) => Holds(KindOf(s, k), v)
  }

  /** A reader that makes no exception accepts a document exactly if every field is right. */
  lemma AcceptedByKey(s: Shape, st: StreamType, d: Doc)
    requires Distinct(d) && !ProxyExempt(s, st)
    ensures Accepts(s, st, d) <==> forall k :: FieldOk(s, d, k)
  {
    AcceptsIff(s, st, d);
    TypedByKey(s, d);
    forall k ensures k in Keys(d) <==> First(d, k).Some? {
      PresentIff(d, k);
    }
    if forall k :: FieldOk(s, d, k) {
      forall k | First(d, k).Some? ensures Holds(KindOf(s, k), First(d, k).value) {
        assert FieldOk(s, d, k);
      }
      forall k | k in Required(s) ensures k in Keys(d) {
        assert FieldOk(s, d, k);
      }
    }
  }

  /** A proxy may lack exactly two required fields: a channel of class proxy, and a vod of class vod proxy. */
  lemma ProxyAccepted(d: Doc)
    requires Distinct(d)
    ensures Accepts(Channel, PROXY, d) <==>
            WellTyped(Channel, d) && (Required(Channel) <= Keys(d) || |Required(Channel) - Keys(d)| == 2)
    ensures Accepts(Vod, VOD_PROXY, d) <==>
            WellTyped(Vod, d) && (Required(Vod) <= Keys(d) || |Required(Vod) - Keys(d)| == 2)
  {
    AcceptsIff(Channel, PROXY, d);
    AcceptsIff(Vod, VOD_PROXY, d);
  }

  // ---- the five shapes -----------------------------------------------------------------------

  /** What every stream document must have under a key. */
  predicate StreamKey(d: Doc, k: Key) {
    && (k == ID_FIELD ==> IsOid(d, k))
    && (k == GROUPS_FIELD || k == OUTPUT_FIELD ==> IsArray(d, k))
    && (k == IARC_FIELD || k == VIEW_COUNT_FIELD ==> IsInt32(d, k))
    && (k == NAME_FIELD || k == TVG_LOGO_FIELD ==> IsText(d, k))
    && (k == HAVE_AUDIO_FIELD || k == HAVE_VIDEO_FIELD ==> IsBool(d, k))
    && (k == VISIBLE_FIELD ==> Absent(d, k) || IsBool(d, k))
    && (k == PARTS_FIELD || k == META_FIELD ==> Absent(d, k) || IsArray(d, k))
  }

  lemma CatchupKey(d: Doc, k: Key)
    ensures FieldOk(Catchup, d, k) <==>
            StreamKey(d, k) && (k == TVG_ID_FIELD ==> IsText(d, k)) && (k == START_FIELD || k == STOP_FIELD ==> IsDate(d, k))
  {
  }

  /** The catchup reader: every field of a stream, the tvg id, and two dates. */
  lemma CatchupFields(st: StreamType, d: Doc)
    requires Distinct(d)
    ensures Accepts(Catchup, st, d) <==>
            && (forall k :: StreamKey(d, k))
            && IsText(d, TVG_ID_FIELD) && IsDate(d, START_FIELD) && IsDate(d, STOP_FIELD)
  {
    AcceptedByKey(Catchup, st, d);
    forall k ensures FieldOk(Catchup, d, k) <==>
      StreamKey(d, k) && (k == TVG_ID_FIELD ==> IsText(d, k)) && (k == START_FIELD || k == STOP_FIELD ==> IsDate(d, k))
    {
      CatchupKey(d, k);
    }
    if forall k :: FieldOk(Catchup, d, k) {
      assert FieldOk(Catchup, d, TVG_ID_FIELD) && FieldOk(Catchup, d, START_FIELD) && FieldOk(Catchup, d, STOP_FIELD);
      forall k ensures StreamKey(d, k) {
        assert FieldOk(Catchup, d, k);
      }
    }
  }

  lemma ChannelKey(d: Doc, k: Key)
    ensures FieldOk(Channel, d, k) <==> StreamKey(d, k) && (k == TVG_ID_FIELD ==> IsText(d, k))
  {
  }

  /** The channel reader, except for proxies: every field of a stream and the tvg id. */
  lemma ChannelFields(st: StreamType, d: Doc)
    requires Distinct(d) && st != PROXY
    ensures Accepts(Channel, st, d) <==> (forall k :: StreamKey(d, k)) && IsText(d, TVG_ID_FIELD)
  {
    AcceptedByKey(Channel, st, d);
    forall k ensures FieldOk(Channel, d, k) <==> StreamKey(d, k) && (k == TVG_ID_FIELD ==> IsText(d, k)) {
      ChannelKey(d, k);
    }
    if forall k :: FieldOk(Channel, d, k) {
      assert FieldOk(Channel, d, TVG_ID_FIELD);
      forall k ensures StreamKey(d, k) {
        assert FieldOk(Channel, d, k);
      }
    }
  }

  /** What a vod must have besides. */
  predicate MovieKey(d: Doc, k: Key) {
    && (k == DESCRIPTION_FIELD || k == TRAILER_URL_FIELD || k == COUNTRY_FIELD ==> IsText(d, k))
    && (k == USER_SCORE_FIELD ==> IsDouble(d, k))
    && (k == PRIME_DATE_FIELD ==> IsDate(d, k))
    && (k == DURATION_FIELD || k == VOD_TYPE_FIELD ==> IsInt32(d, k))
  }

  lemma VodKey(d: Doc, k: Key)
    ensures FieldOk(Vod, d, k) <==> StreamKey(d, k) && MovieKey(d, k)
  {
  }

  /** The vod reader, except for vod proxies: every field of a stream and of a movie. */
  lemma VodFields(st: StreamType, d: Doc)
    requires Distinct(d) && st != VOD_PROXY
    ensures Accepts(Vod, st, d) <==> forall k :: StreamKey(d, k) && MovieKey(d, k)
  {
    AcceptedByKey(Vod, st, d);
    forall k ensures FieldOk(Vod, d, k) <==> StreamKey(d, k) && MovieKey(d, k) {
      VodKey(d, k);
    }
  }

  predicate SerialKey(d: Doc, k: Key) {
    && (k == ID_FIELD ==> IsOid(d, k))
    && (k == GROUPS_FIELD ==> IsArray(d, k))
    && (k == SEASON_FIELD ==> IsInt32(d, k))
    && (k == NAME_FIELD || k == ICON_FIELD || k == DESCRIPTION_FIELD ==> IsText(d, k))
    && (k == VISIBLE_FIELD ==> Absent(d, k) || IsBool(d, k))
    && (k == EPISODES_FIELD ==> Absent(d, k) || IsArray(d, k))
  }

  lemma SerialFields(st: StreamType, d: Doc)
    requires Distinct(d)
    ensures Accepts(Serial, st, d) <==> forall k :: SerialKey(d, k)
  {
    AcceptedByKey(Serial, st, d);
    forall k ensures FieldOk(Serial, d, k) <==> SerialKey(d, k) {
    }
  }

  predicate RequestKey(d: Doc, k: Key) {
    && (k == ID_FIELD ==> IsOid(d, k)) && (k == TITLE_FIELD ==> IsText(d, k))
    && (k == TYPE_FIELD || k == STATUS_FIELD ==> IsInt32(d, k))
  }

  lemma RequestFields(st: StreamType, d: Doc)
    requires Distinct(d)
    ensures Accepts(Request, st, d) <==> forall k :: RequestKey(d, k)
  {
    AcceptedByKey(Request, st, d);
    forall k ensures FieldOk(Request, d, k) <==> RequestKey(d, k) {
    }
  }
}
