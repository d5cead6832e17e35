/** The five document readers: a loop over the fields that rejects a wrong type, counts the required
    fields and updates the values read so far; the readers differ in what they count and collect. */
module Readers {
  import opened Common
  import opened Bson
  import opened Infos
  import opened Schemas
  import opened FieldValues

  /** The loop of every reader. The result is None as soon as a field has a type its reader refuses. */
  method ReadFields<S>(typed: Field -> bool, counted: set<Key>, step: (S, Field) -> S, init: S, sdoc: Doc)
    returns (checkSum: Option<nat>, s: S)
    ensures checkSum == ScanBy(typed, counted, sdoc)
    ensures checkSum.Some? ==> s == Fold(step, init, sdoc)
  {
    s := init;
    var sum: nat := 0;
    var i := 0;
    while i < |sdoc|
      invariant 0 <= i <= |sdoc|
      invariant ScanBy(typed, counted, sdoc[..i]) == Some(sum)
      invariant s == Fold(step, init, sdoc[..i])
    {
      assert sdoc[..i + 1][..i] == sdoc[..i];
      if !typed(sdoc[i]) {
        ScanTyped(typed, counted, sdoc);
        return None, s;
      }
      if sdoc[i].key in counted {
        sum := sum + 1;
      }
      s := step(s, sdoc[i]);
      i := i + 1;
    }
    assert sdoc[..i] == sdoc;
    checkSum := Some(sum);
  }

  /** Sixteen required fields; a proxy vod may lack two. */
  method MakeVodInfo(lib: Library, sdoc: Doc, st: StreamType, u: UserStreamInfo, visible0: bool)
    returns (ok: bool, info: VodInfo, visible: bool)
    requires OidLists(sdoc)
    ensures ok <==> Accepts(Vod, st, sdoc)
    ensures ok && Distinct(sdoc) ==> info == VodOf(lib, Index(sdoc), u)
    ensures ok && Distinct(sdoc) ==> visible == BoolAt(Index(sdoc), VISIBLE_FIELD, visible0)
  {
    var init := VodState(NewBase(lib, u), lib.defaultMovie, visible0);
    var checkSum, s := ReadFields(Typed(Vod), Required(Vod), VodStep(lib), init, sdoc);
    if checkSum.None? {
      return false, *, *;
    }
    if checkSum.value != 16 {
      var isProxyValid := st == VOD_PROXY && checkSum.value == 16 - 2;
      if !isProxyValid {
        return false, *, *;
      }
    }
    if Distinct(sdoc) {
      VodFold(lib, u, visible0, sdoc);
    }
    ok, info, visible := true, VodInfo(s.base, s.mov), s.visible;
  }

  /** The uninitialised dates are overwritten when both fields are there. */
  lemma CatchupRead(lib: Library, u: UserStreamInfo, start: int, stop: int, visible: bool, d: Doc)
    requires Distinct(d) && HasDates(Index(d))
    ensures Fold(CatchupStep(lib), CatchupState(ChannelState(NewBase(lib, u), NO_EPG, visible), start, stop), d)
         == CatchupState(ChannelTable(lib, u, visible, Index(d)),
                         DateAt(Index(d), START_FIELD, 0), DateAt(Index(d), STOP_FIELD, 0))
  {
    CatchupFold(lib, u, start, stop, visible, d);
  }

  /** Twelve required fields, no exception. The two dates start with no value at all. */
  method MakeCatchupInfo(lib: Library, sdoc: Doc, st: StreamType, u: UserStreamInfo, visible0: bool)
    returns (ok: bool, info: CatchupInfo, visible: bool)
    requires OidLists(sdoc)
    ensures ok <==> Accepts(Catchup, st, sdoc)
    ensures ok && Distinct(sdoc) ==> info == CatchupOf(lib, Index(sdoc), u)
    ensures ok && Distinct(sdoc) ==> visible == BoolAt(Index(sdoc), VISIBLE_FIELD, visible0)
  {
    var start: int := *;
    var stop: int := *;
    var init := CatchupState(ChannelState(NewBase(lib, u), NO_EPG, visible0), start, stop);
    var checkSum, s := ReadFields(Typed(Catchup), Required(Catchup), CatchupStep(lib), init, sdoc);
    if checkSum.None? || checkSum.value != 12 {
      return false, *, *;
    }
    if Distinct(sdoc) {
      AcceptedDates(st, sdoc);
      CatchupRead(lib, u, start, stop, visible0, sdoc);
    }
    ok, info, visible := true, CatchupInfo(s.chan.base, s.chan.epg, s.start, s.stop), s.chan.visible;
  }

  /** Ten required fields; a proxy stream may lack two. */
  method MakeChannelInfo(lib: Library, sdoc: Doc, st: StreamType, u: UserStreamInfo, visible0: bool)
    returns (ok: bool, info: ChannelInfo, visible: bool)
    requires OidLists(sdoc)
    ensures ok <==> Accepts(Channel, st, sdoc)
    ensures ok && Distinct(sdoc) ==> info == ChannelOf(lib, Index(sdoc), u)
    ensures ok && Distinct(sdoc) ==> visible == BoolAt(Index(sdoc), VISIBLE_FIELD, visible0)
  {
    var init := ChannelState(NewBase(lib, u), NO_EPG, visible0);
    var checkSum, s := ReadFields(Typed(Channel), Required(Channel), ChannelStep(lib), init, sdoc);
    if checkSum.None? {
      return false, *, *;
    }
    if checkSum.value != 10 {
      var isProxyValid := st == PROXY && checkSum.value == 10 - 2;
      if !isProxyValid {
        return false, *, *;
      }
    }
    if Distinct(sdoc) {
      ChannelFold(lib, u, visible0, sdoc);
    }
    ok, info, visible := true, ChannelInfo(s.base, s.epg), s.visible;
  }

  /** Six required fields; the episodes are optional. The season starts with no value at all. */
  method MakeSerialInfo(lib: Library, sdoc: Doc, visible0: bool)
    returns (ok: bool, info: SerialInfo, visible: bool)
    requires OidLists(sdoc)
    ensures ok <==> Accepts(Serial, PROXY, sdoc)
    ensures ok && Distinct(sdoc) ==> info == SerialOf(lib, Index(sdoc))
    ensures ok && Distinct(sdoc) ==> visible == BoolAt(Index(sdoc), VISIBLE_FIELD, visible0)
  {
    var season: nat := *;
    var init := SerialState(SerialInfo("", "", "", [], "", season, [], 0), visible0);
    var checkSum, s := ReadFields(Typed(Serial), Required(Serial), SerialStep(lib), init, sdoc);
    if checkSum.None? || checkSum.value != 6 {
      return false, *, *;
    }
    if Distinct(sdoc) {
      SerialFold(lib, season, visible0, sdoc);
      RequiredTyped(Serial, PROXY, sdoc, SEASON_FIELD);
    }
    ok, info, visible := true, s.info, s.visible;
  }

  /** Four required fields. The two numbers start with no value at all. */
  method MakeContentRequestInfo(sdoc: Doc) returns (ok: bool, info: ContentRequestInfo)
    ensures ok <==> Accepts(Request, PROXY, sdoc)
    ensures ok && Distinct(sdoc) ==> info == RequestOf(Index(sdoc))
  {
    var kind: int := *;
    var status: int := *;
    var init := ContentRequestInfo("", "", kind, status);
    var checkSum, s := ReadFields(Typed(Request), Required(Request), RequestStep(), init, sdoc);
    if checkSum.None? || checkSum.value != 4 {
      return false, *;
    }
    if Distinct(sdoc) {
      RequestFold(kind, status, sdoc);
      RequiredTyped(Request, PROXY, sdoc, TYPE_FIELD);
      RequiredTyped(Request, PROXY, sdoc, STATUS_FIELD);
    }
    ok, info := true, s;
  }
}
