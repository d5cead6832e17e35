/** The devices of a user: which ones can be activated, which may log in, and how their status moves. */
module Devices {
  import opened Common
  import opened Bson
  import opened Urls
  import opened Store

  const NOT_ACTIVE: int32 := 0
  const ACTIVE: int32 := 1
  const USER_DELETED: int32 := 2
  const BANNED: int32 := 2

  datatype DeviceInfo = DeviceInfo(id: string, name: string)

  // ---- the two calls -------------------------------------------------------------------------

  /** The account checks both calls start with. */
  function AccountError(d: Doc, password: string): Option<Error> {
    var status, hash := Int32At(d, STATUS_FIELD), TextAt(d, PASSWORD_FIELD);
    if status == None then Some(NoStatusField)
    else if status.value == NOT_ACTIVE then Some(UserNotActive)
    else if status.value == USER_DELETED then Some(UserRemoved)
    else if hash == None then Some(NoPasswordField)
    else if hash.value != password then Some(InvalidPassword)
    else None
  }

  /** An element that has an object id at all. */
  predicate IsDevice(v: Value) {
    v.Document? && First(v.fields, ID_FIELD).Some? && First(v.fields, ID_FIELD).value.Oid?
  }

  /** A device as ClientActivate lists it: not active yet, and named. */
  function Listed(v: Value): Option<DeviceInfo> {
    if !IsDevice(v) || Int32At(v.fields, STATUS_FIELD) != Some(NOT_ACTIVE) || TextAt(v.fields, NAME_FIELD) == None then None
    else Some(DeviceInfo(First(v.fields, ID_FIELD).value.id, TextAt(v.fields, NAME_FIELD).value))
  }

  function ActivateList(d: Doc, password: string): Result<seq<DeviceInfo>> {
    var e := AccountError(d, password);
    if e.Some? then Err(e.value)
    else
      var devices := Collect(Listed, Items(d, DEVICES_FIELD));
      if devices == [] then Err(CreateDevice) else Ok(devices)
  }

  /** The element that decides a login: the first with the id of the device and a status. */
  predicate Decides(v: Value, device: string) {
    Refers(v, ID_FIELD, device) && Int32At(v.fields, STATUS_FIELD).Some?
  }

  function DecidingAt(items: seq<Value>, device: string): (at: nat)
    ensures at <= |items|
    ensures at < |items| ==> Decides(items[at], device)
    ensures forall j :: 0 <= j < at ==> !Decides(items[j], device)
  {
    if items == [] || Decides(items[0], device) then 0 else 1 + DecidingAt(items[1..], device)
  }

  datatype Login = Login(password: string, device: string, expDate: int)

  /** What a login decides; on success, whether the device is to be activated. */
  function LoginDecision(d: Doc, who: Login, now: int, busy: bool): Result<bool> {
    var e := AccountError(d, who.password);
    if e.Some? then Err(e.value)
    else if now > who.expDate then Err(ExpiredAccount)
    else
      var items := Items(d, DEVICES_FIELD);
      var at := DecidingAt(items, who.device);
      if at < |items| then
        var status := Int32At(items[at].fields, STATUS_FIELD).value;
        if status == BANNED then Err(DeviceBanned)
        else if busy then Err(LimitConnection)
        else Ok(status == NOT_ACTIVE)
      else if exists v :: v in items && IsDevice(v) then Err(DeviceNotFound)
      else Err(CreateDevice)
  }

  /** The write that activates a device. */
  function Activated(d: Doc, device: string): Doc {
    SetPositional(d, DEVICES_FIELD, ID_FIELD, device, STATUS_FIELD, I32(ACTIVE))
  }

  /** The loop of ClientActivate. */
  method ListDevices(items: seq<Value>) returns (devices: seq<DeviceInfo>)
    ensures devices == Collect(Listed, items)
  {
    devices := [];
    var i := 0;
    while i < |items|
      invariant 0 <= i <= |items|
      invariant devices == Collect(Listed, items[..i])
    {
      CollectStep(Listed, items, i);
      if items[i].Document? {
        var fields := items[i].fields;
        var did := First(fields, ID_FIELD);
        if did.Some? && did.value.Oid? {
          var status := First(fields, STATUS_FIELD);
          if status.Some? && status.value.I32? && status.value.i == NOT_ACTIVE {
            var name := First(fields, NAME_FIELD);
            if name.Some? && name.value.Utf8? {
              devices := devices + [DeviceInfo(did.value.id, name.value.text)];
            }
          }
        }
      }
      i := i + 1;
    }
    assert items[..i] == items;
  }

  /** The loop of ClientLoginImpl up to the element that decides: its status, or else whether there was any
      device at all. */
  method FindDevice(items: seq<Value>, device: string) returns (status: Option<int32>, haveDevices: bool)
    ensures var at := DecidingAt(items, device);
            status == if at < |items| then Int32At(items[at].fields, STATUS_FIELD) else None
    ensures status == None ==> (haveDevices <==> exists v :: v in items && IsDevice(v))
  {
    haveDevices := false;
    var i := 0;
    while i < |items|
      invariant 0 <= i <= |items|
      invariant forall j :: 0 <= j < i ==> !Decides(items[j], device)
      invariant haveDevices <==> exists j :: 0 <= j < i && IsDevice(items[j])
    {
      if items[i].Document? {
        var fields := items[i].fields;
        var did := First(fields, ID_FIELD);
        if did.Some? && did.value.Oid? {
          assert IsDevice(items[i]);
          haveDevices := true;
          if did.value.id == device {
            var bstatus := First(fields, STATUS_FIELD);
            if bstatus.Some? && bstatus.value.I32? {
              assert Decides(items[i], device);
              return Some(bstatus.value.i), true;
            }
          }
        }
      }
      i := i + 1;
    }
    status := None;
  }

  // ---- device statuses -----------------------------------------------------------------------

  predicate UniqueDevices(d: Doc) {
    var items := Items(d, DEVICES_FIELD);
    forall i, j :: 0 <= i < j < |items| && IsDevice(items[i]) && IsDevice(items[j]) ==>
      First(items[i].fields, ID_FIELD) != First(items[j].fields, ID_FIELD)
  }

  function StatusOf(d: Doc, device: string): Option<int32> {
    var items := Items(d, DEVICES_FIELD);
    var at := PosOf(items, ID_FIELD, device);
    if at < |items| then Int32At(items[at].fields, STATUS_FIELD) else None
  }

  /** What may happen to the status of a device: nothing, or its activation. */
  predicate Moves(before: Option<int32>, after: Option<int32>) {
    after == before || (before == Some(NOT_ACTIVE) && after == Some(ACTIVE))
  }

  lemma OnePosition(d: Doc, device: string, i: nat)
    requires UniqueDevices(d) && i < |Items(d, DEVICES_FIELD)| && Refers(Items(d, DEVICES_FIELD)[i], ID_FIELD, device)
    ensures PosOf(Items(d, DEVICES_FIELD), ID_FIELD, device) == i
  {
  }

  /** With unique ids, the deciding element is the one a write to the device touches. */
  lemma DecisionIsStatus(d: Doc, who: Login, now: int, busy: bool)
    requires UniqueDevices(d) && LoginDecision(d, who, now, busy).Ok?
    ensures StatusOf(d, who.device).Some? && StatusOf(d, who.device) != Some(BANNED)
    ensures LoginDecision(d, who, now, busy).value <==> StatusOf(d, who.device) == Some(NOT_ACTIVE)
  {
    var items := Items(d, DEVICES_FIELD);
    OnePosition(d, who.device, DecidingAt(items, who.device));
  }

  /** A login is accepted exactly when the account is active with that password and has not expired, the
      device is known with a status other than banned, and nobody is connected from it. */
  lemma AcceptedIff(d: Doc, who: Login, now: int, busy: bool)
    requires UniqueDevices(d)
    ensures LoginDecision(d, who, now, busy).Ok? <==>
            && Int32At(d, STATUS_FIELD).Some? && Int32At(d, STATUS_FIELD).value !in {NOT_ACTIVE, USER_DELETED}
            && First(d, PASSWORD_FIELD) == Some(Utf8(who.password))
            && now <= who.expDate
            && StatusOf(d, who.device).Some? && StatusOf(d, who.device) != Some(BANNED)
            && !busy
  {
    var items := Items(d, DEVICES_FIELD);
    var at, pos := DecidingAt(items, who.device), PosOf(items, ID_FIELD, who.device);
    if at < |items| {
      OnePosition(d, who.device, at);
    } else if pos < |items| {
      assert !Decides(items[pos], who.device);
    }
  }

  /** Every device ClientActivate lists can log in with the same password while the account lasts and the
      device is free, and that login activates it. */
  lemma ListedCanLogin(d: Doc, password: string, dev: DeviceInfo, expDate: int, now: int)
    requires UniqueDevices(d) && ActivateList(d, password).Ok? && dev in ActivateList(d, password).value
    requires now <= expDate
    ensures LoginDecision(d, Login(password, dev.id, expDate), now, false) == Ok(true)
  {
    var items := Items(d, DEVICES_FIELD);
    var i := ListedFrom(items, dev);
    OnePosition(d, dev.id, i);
    var at := DecidingAt(items, dev.id);
    if at < |items| {
      OnePosition(d, dev.id, at);
    }
  }

  lemma {:induction false} ListedFrom(items: seq<Value>, dev: DeviceInfo) returns (i: nat)
    requires dev in Collect(Listed, items)
    ensures i < |items| && Listed(items[i]) == Some(dev)
    decreases |items|
  {
    i := |items| - 1;
    if Listed(items[i]) != Some(dev) {
      i := ListedFrom(items[..i], dev);
    }
  }

  /** An element a device can be activated from: an object id, the status "not active" and a name. */
  predicate Activatable(v: Value) {
    && v.Document?
    && First(v.fields, ID_FIELD).Some? && First(v.fields, ID_FIELD).value.Oid?
    && First(v.fields, STATUS_FIELD) == Some(I32(0))
    && First(v.fields, NAME_FIELD).Some? && First(v.fields, NAME_FIELD).value.Utf8?
  }

  /** The list holds exactly the activatable elements, each as often as it occurs and in their order. */
  lemma ListedExactly(items: seq<Value>) returns (at: seq<nat>)
    ensures |at| == |Collect(Listed, items)| && forall k, l :: 0 <= k < l < |at| ==> at[k] < at[l]
    ensures forall i :: i in at <==> 0 <= i < |items| && Activatable(items[i])
    ensures forall k :: 0 <= k < |at| ==>
              && at[k] < |items| && Activatable(items[at[k]])
              && var f := items[at[k]].fields;
                 Collect(Listed, items)[k] == DeviceInfo(First(f, ID_FIELD).value.id, First(f, NAME_FIELD).value.text)
  {
    at := CollectPositions(Listed, items);
    forall i | 0 <= i < |items| ensures Listed(items[i]).Some? <==> Activatable(items[i]) {
    }
    forall i ensures i in at <==> 0 <= i < |items| && Activatable(items[i]) {
      if i in at {
        var k :| 0 <= k < |at| && at[k] == i;
      }
    }
  }

  /** The devices of an account are listed exactly when it is active with that password and has a device to
      activate. */
  lemma ActivateIff(d: Doc, password: string)
    ensures ActivateList(d, password).Ok? <==>
            && First(d, STATUS_FIELD).Some? && First(d, STATUS_FIELD).value.I32?
            && First(d, STATUS_FIELD) != Some(I32(0)) && First(d, STATUS_FIELD) != Some(I32(2))
            && First(d, PASSWORD_FIELD) == Some(Utf8(password))
            && exists v :: v in Items(d, DEVICES_FIELD) && Activatable(v)
    ensures ActivateList(d, password).Ok? ==> ActivateList(d, password).value == Collect(Listed, Items(d, DEVICES_FIELD))
  {
    var items := Items(d, DEVICES_FIELD);
    var at := ListedExactly(items);
    if v :| v in items && Activatable(v) {
      var i :| 0 <= i < |items| && items[i] == v;
      assert i in at;
    }
    if at != [] {
      assert at[0] in at && Activatable(items[at[0]]);
    }
  }

  /** The checks of a login in their order, each with the error it answers. */
  function Checks(d: Doc, who: Login, now: int, busy: bool): seq<(bool, Error)> {
    [(First(d, STATUS_FIELD).Some? && First(d, STATUS_FIELD).value.I32?, NoStatusField),
     (First(d, STATUS_FIELD) != Some(I32(0)), UserNotActive),
     (First(d, STATUS_FIELD) != Some(I32(2)), UserRemoved),
     (First(d, PASSWORD_FIELD).Some? && First(d, PASSWORD_FIELD).value.Utf8?, NoPasswordField),
     (First(d, PASSWORD_FIELD) == Some(Utf8(who.password)), InvalidPassword),
     (now <= who.expDate, ExpiredAccount),
     (exists v :: v in Items(d, DEVICES_FIELD) && IsDevice(v), CreateDevice),
     (StatusOf(d, who.device).Some?, DeviceNotFound),
     (StatusOf(d, who.device) != Some(2), DeviceBanned),
     (!busy, LimitConnection)]
  }

  /** A rejected login is answered with the error of the first check that fails, and accepted when none
      does. */
  lemma FirstFailure(d: Doc, who: Login, now: int, busy: bool) returns (i: nat)
    requires UniqueDevices(d)
    ensures var checks, decision := Checks(d, who, now, busy), LoginDecision(d, who, now, busy);
            && i <= |checks| && (forall j :: 0 <= j < i ==> checks[j].0)
            && (if i == |checks| then decision == Ok(StatusOf(d, who.device) == Some(0))
                else !checks[i].0 && decision == Err(checks[i].1))
  {
    DecidedDevice(d, who.device);
    var c := Checks(d, who, now, busy);
    assert |c| == 10;
    i := if !c[0].0 then 0 else if !c[1].0 then 1 else if !c[2].0 then 2 else if !c[3].0 then 3 else if !c[4].0 then 4
         else if !c[5].0 then 5 else if !c[6].0 then 6 else if !c[7].0 then 7 else if !c[8].0 then 8
         else if !c[9].0 then 9 else 10;
  }

  /** The deciding element is there exactly if the device has a status, and it is that one. */
  lemma DecidedDevice(d: Doc, device: string)
    requires UniqueDevices(d)
    ensures var items, at := Items(d, DEVICES_FIELD), DecidingAt(Items(d, DEVICES_FIELD), device);
            && (at < |items| <==> StatusOf(d, device).Some?)
            && (at < |items| ==> Int32At(items[at].fields, STATUS_FIELD) == StatusOf(d, device) && IsDevice(items[at]))
  {
    var items := Items(d, DEVICES_FIELD);
    var at, pos := DecidingAt(items, device), PosOf(items, ID_FIELD, device);
    if at < |items| {
      OnePosition(d, device, at);
    } else if pos < |items| {
      assert !Decides(items[pos], device);
    }
  }

  lemma ActivatedItems(d: Doc, device: string)
    ensures var items, at := Items(d, DEVICES_FIELD), PosOf(Items(d, DEVICES_FIELD), ID_FIELD, device);
            Items(Activated(d, device), DEVICES_FIELD) ==
              if at < |items| then items[at := Document(SetField(items[at].fields, STATUS_FIELD, I32(ACTIVE)))] else items
  {
  }

  /** The write changes the status of that device to active, and no id and no other status. */
  lemma ActivatedStatus(d: Doc, device: string, other: string)
    requires UniqueDevices(d)
    ensures UniqueDevices(Activated(d, device))
    ensures StatusOf(Activated(d, device), other) ==
            if other == device && PosOf(Items(d, DEVICES_FIELD), ID_FIELD, device) < |Items(d, DEVICES_FIELD)|
            then Some(ACTIVE) else StatusOf(d, other)
  {
    var items, items' := Items(d, DEVICES_FIELD), Items(Activated(d, device), DEVICES_FIELD);
    ActivatedItems(d, device);
    var at := PosOf(items, ID_FIELD, device);
    if at < |items| {
      SetFieldOther(items[at].fields, STATUS_FIELD, I32(ACTIVE), ID_FIELD);
    }
    assert forall i :: 0 <= i < |items| ==> (IsDevice(items'[i]) <==> IsDevice(items[i]));
    assert forall i :: 0 <= i < |items| && IsDevice(items[i]) ==>
      First(items'[i].fields, ID_FIELD) == First(items[i].fields, ID_FIELD);
    SamePosition(items, items', other);
  }

  lemma SamePosition(items: seq<Value>, items': seq<Value>, device: string)
    requires |items| == |items'|
    requires forall i :: 0 <= i < |items| ==> (Refers(items'[i], ID_FIELD, device) <==> Refers(items[i], ID_FIELD, device))
    ensures PosOf(items', ID_FIELD, device) == PosOf(items, ID_FIELD, device)
  {
  }

  // ---- runs ----------------------------------------------------------------------------------

  /** A login reads the user, decides, and only then writes; another loop may move in between. */
  datatype State = State(users: map<string, Doc>, pending: seq<(string, string)>)

  datatype Step =
    | ReadUser(uid: string, who: Login, now: int, busy: bool)
    | Write(i: nat, o: Outcome)

  predicate Enabled(s: State, step: Step) {
    match step
    case ReadUser(uid, _, _, _) => uid in s.users
    case Write(i, _) => i < |s.pending|
  }

  function Next(s: State, step: Step): State
    requires Enabled(s, step)
  {
    match step
    case ReadUser(uid, who, now, busy) =>
      (match LoginDecision(s.users[uid], who, now, busy)
       case Ok(true) => s.(pending := s.pending + [(uid, who.device)])
       case _ => s)
    case Write(i, o) =>
      var (uid, device) := s.pending[i];
      var rest := s.pending[..i] + s.pending[i + 1..];
      if uid in s.users
      then State(s.users[uid := Written(o, s.users[uid], Some(Activated(s.users[uid], device)))], rest)
      else s.(pending := rest)
  }

  function Run(s: State, steps: seq<Step>): Option<State> {
    if steps == [] then Some(s)
    else
      var before, step := Run(s, steps[..|steps| - 1]), steps[|steps| - 1];
      if before.Some? && Enabled(before.value, step) then Some(Next(before.value, step)) else None
  }

  /** A pending write is about a device that was not banned. */
  predicate PendingOk(s: State, p: (string, string)) {
    p.0 in s.users && (StatusOf(s.users[p.0], p.1) == Some(NOT_ACTIVE) || StatusOf(s.users[p.0], p.1) == Some(ACTIVE))
  }

  predicate Inv(s: State) {
    && (forall uid :: uid in s.users ==> UniqueDevices(s.users[uid]))
    && (forall p :: p in s.pending ==> PendingOk(s, p))
  }

  /** Every status of every device makes only allowed moves between two states. */
  ghost predicate AllMove(s: State, t: State) {
    && s.users.Keys == t.users.Keys
    && forall uid, device :: uid in s.users ==> Moves(StatusOf(s.users[uid], device), StatusOf(t.users[uid], device))
  }

  lemma WriteStep(s: State, i: nat, o: Outcome)
    requires Inv(s) && i < |s.pending|
    ensures AllMove(s, Next(s, Write(i, o)))
    ensures forall uid :: uid in Next(s, Write(i, o)).users ==> UniqueDevices(Next(s, Write(i, o)).users[uid])
    ensures var (uid, device), t := s.pending[i], Next(s, Write(i, o));
            uid in t.users && (o != Refused ==> StatusOf(t.users[uid], device) == Some(ACTIVE))
  {
    var (uid, device) := s.pending[i];
    assert PendingOk(s, s.pending[i]);
    forall other ensures StatusOf(Activated(s.users[uid], device), other) ==
                         if other == device then Some(ACTIVE) else StatusOf(s.users[uid], other) {
      ActivatedStatus(s.users[uid], device, other);
    }
    ActivatedStatus(s.users[uid], device, device);
  }

  lemma InvStep(s: State, step: Step)
    requires Inv(s) && Enabled(s, step)
    ensures Inv(Next(s, step)) && AllMove(s, Next(s, step))
  {
    var s' := Next(s, step);
    match step
    case ReadUser(uid, who, now, busy) =>
      if LoginDecision(s.users[uid], who, now, busy).Ok? {
        DecisionIsStatus(s.users[uid], who, now, busy);
      }
    case Write(i, o) =>
      WriteStep(s, i, o);
      forall p | p in s'.pending ensures PendingOk(s', p) {
        assert PendingOk(s, p);
        assert Moves(StatusOf(s.users[p.0], p.1), StatusOf(s'.users[p.0], p.1));
      }
  }

  /** In every interleaving of logins, with every write failing or not, statuses only move from not active
      to active; in particular a banned device stays banned. */
  lemma {:induction false} StatusesOnlyActivate(s: State, steps: seq<Step>)
    requires Inv(s) && Run(s, steps).Some?
    ensures Inv(Run(s, steps).value) && AllMove(s, Run(s, steps).value)
  {
    if steps != [] {
      var n := |steps| - 1;
      StatusesOnlyActivate(s, steps[..n]);
      var before := Run(s, steps[..n]).value;
      InvStep(before, steps[n]);
      MovesCompose(s, before, Next(before, steps[n]));
    }
  }

  lemma MovesCompose(s: State, t: State, r: State)
    requires AllMove(s, t) && AllMove(t, r)
    ensures AllMove(s, r)
  {
  }

  /** Step `i` of the run is a login of this user from this device that was accepted. */
  predicate AcceptedAt(s: State, steps: seq<Step>, i: nat, uid: string, device: string) {
    && i < |steps| && steps[i].ReadUser? && steps[i].uid == uid && steps[i].who.device == device
    && Run(s, steps[..i]).Some? && uid in Run(s, steps[..i]).value.users
    && LoginDecision(Run(s, steps[..i]).value.users[uid], steps[i].who, steps[i].now, steps[i].busy).Ok?
  }

  lemma AcceptedEarlier(s: State, steps: seq<Step>, k: nat, i: nat, uid: string, device: string)
    requires k <= |steps| && AcceptedAt(s, steps[..k], i, uid, device)
    ensures AcceptedAt(s, steps, i, uid, device)
  {
    assert steps[..k][..i] == steps[..i];
  }

  lemma {:induction false} PendingHasLogin(s: State, steps: seq<Step>, p: (string, string)) returns (i: nat)
    requires s.pending == [] && Run(s, steps).Some? && p in Run(s, steps).value.pending
    ensures AcceptedAt(s, steps, i, p.0, p.1)
  {
    var k := |steps| - 1;
    if p in Run(s, steps[..k]).value.pending {
      i := PendingHasLogin(s, steps[..k], p);
      AcceptedEarlier(s, steps, k, i, p.0, p.1);
    } else {
      i := k;
    }
  }

  /** The one status a write changes is that of its own device. */
  lemma WriteChanges(s: State, i: nat, o: Outcome, uid: string, device: string)
    requires Inv(s) && i < |s.pending| && uid in s.users
    requires StatusOf(Next(s, Write(i, o)).users[uid], device) != StatusOf(s.users[uid], device)
    ensures s.pending[i] == (uid, device)
  {
    ActivatedStatus(s.users[uid], s.pending[i].1, device);
  }

  /** A status that changed over a run was changed on behalf of an accepted login of that user from that
      device: no other login, and no rejected one, changes it. */
  lemma {:induction false} ChangeHasLogin(s: State, steps: seq<Step>, uid: string, device: string) returns (i: nat)
    requires Inv(s) && s.pending == [] && Run(s, steps).Some? && uid in s.users
    requires uid !in Run(s, steps).value.users
             || StatusOf(Run(s, steps).value.users[uid], device) != StatusOf(s.users[uid], device)
    ensures AcceptedAt(s, steps, i, uid, device)
  {
    StatusesOnlyActivate(s, steps);
    var k := |steps| - 1;
    StatusesOnlyActivate(s, steps[..k]);
    var before := Run(s, steps[..k]).value;
    if StatusOf(before.users[uid], device) != StatusOf(s.users[uid], device) {
      i := ChangeHasLogin(s, steps[..k], uid, device);
    } else {
      WriteChanges(before, steps[k].i, steps[k].o, uid, device);
      i := PendingHasLogin(s, steps[..k], (uid, device));
    }
    AcceptedEarlier(s, steps, k, i, uid, device);
  }

  /** A run in which every login is rejected leaves everything as it was. */
  lemma {:induction false} RejectedRun(s: State, steps: seq<Step>)
    requires s.pending == [] && Run(s, steps).Some?
    requires forall i, uid, device :: !AcceptedAt(s, steps, i, uid, device)
    ensures Run(s, steps).value == s
  {
    if steps != [] {
      var k := |steps| - 1;
      forall i, uid, device ensures !AcceptedAt(s, steps[..k], i, uid, device) {
        if AcceptedAt(s, steps[..k], i, uid, device) {
          AcceptedEarlier(s, steps, k, i, uid, device);
        }
      }
      RejectedRun(s, steps[..k]);
      if steps[k].ReadUser? {
        assert !AcceptedAt(s, steps, k, steps[k].uid, steps[k].who.device);
      }
    }
  }

  /** Once an activation was written, the device is never listed again, whatever follows. */
  lemma NeverListedAgain(s: State, i: nat, o: Outcome, steps: seq<Step>, password: string)
    requires Inv(s) && i < |s.pending| && o != Refused
    requires Run(Next(s, Write(i, o)), steps).Some?
    ensures var (uid, device) := s.pending[i];
            var t := Run(Next(s, Write(i, o)), steps).value;
            && uid in t.users
            && (ActivateList(t.users[uid], password).Ok? ==>
                forall dev :: dev in ActivateList(t.users[uid], password).value ==> dev.id != device)
  {
    var (uid, device) := s.pending[i];
    assert PendingOk(s, s.pending[i]);
    var s' := Next(s, Write(i, o));
    InvStep(s, Write(i, o));
    WriteStep(s, i, o);
    StatusesOnlyActivate(s', steps);
    var t := Run(s', steps).value;
    assert Moves(StatusOf(s'.users[uid], device), StatusOf(t.users[uid], device));
    if ActivateList(t.users[uid], password).Ok? {
      ActiveNotListed(t.users[uid], device);
    }
  }

  lemma ActiveNotListed(d: Doc, device: string)
    requires UniqueDevices(d) && StatusOf(d, device) == Some(ACTIVE)
    ensures forall dev :: dev in Collect(Listed, Items(d, DEVICES_FIELD)) ==> dev.id != device
  {
    forall dev | dev in Collect(Listed, Items(d, DEVICES_FIELD)) ensures dev.id != device {
      var i := ListedFrom(Items(d, DEVICES_FIELD), dev);
      if dev.id == device {
        OnePosition(d, device, i);
      }
    }
  }
}
