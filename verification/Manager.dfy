/** The subscribers manager: the table of live connections, the observer it informs, and the calls over the
    database. */
module Manager {
  import opened Common
  import opened Bson
  import opened Infos
  import opened Urls
  import opened Schemas
  import opened FieldValues
  import opened Readers
  import opened UserEntries
  import opened Store
  import opened UserUpdates
  import opened Registry
  import opened Subscribers
  import opened Catalogue
  import opened Resolver
  import opened CatchupDocs
  import opened CatchupCache
  import opened CatchupCalls
  import opened CatchupRequests
  import opened Logins
  import D = Devices

  /** What the catalogue of a user with that email is read from has distinct keys and links to object ids
      only. */
  predicate CatalogueOk(db: Db, email: string) {
    && ValidStreams(db.streams) && ValidSeries(db.series)
    && (forall id :: id in db.requests ==> Distinct(db.requests[id]))
    && (forall u :: u in db.subscribers && HasEmail(db.subscribers[u], email) ==> LinksOk(db.subscribers[u]))
  }

  /** The user with that email can be searched for the stream. */
  predicate Searchable(subscribers: map<string, Doc>, email: string, sid: string) {
    forall u :: u in subscribers && HasEmail(subscribers[u], email) ==> ScansOk(subscribers[u], sid)
  }

  lemma StaysSearchable(a: map<string, Doc>, b: map<string, Doc>, email: string, sid: string)
    requires SameAccounts(a, b)
    ensures Searchable(a, email, sid) <==> Searchable(b, email, sid)
    ensures UniqueEmails(a) ==> UniqueEmails(b)
  {
    forall u | u in a ensures HasEmail(b[u], email) <==> HasEmail(a[u], email) {
      assert SameAccount(a[u], b[u]);
    }
    forall u | u in a ensures ScansOk(b[u], sid) <==> ScansOk(a[u], sid) {
      assert SameAccount(a[u], b[u]);
      assert Items(b[u], STREAMS_FIELD) == Items(a[u], STREAMS_FIELD) && Items(b[u], VODS_FIELD) == Items(a[u], VODS_FIELD);
      assert Items(b[u], CATCHUPS_FIELD) == Items(a[u], CATCHUPS_FIELD);
    }
    assert UniqueEmails(a) ==> UniqueEmails(b) by {
      forall u | u in b ensures u in a && First(b[u], EMAIL_FIELD) == First(a[u], EMAIL_FIELD) {
        assert SameAccount(a[u], b[u]);
      }
    }
  }

  class SubscribersManager {
    const lib: Library
    var connections: Buckets<SubscriberInfo>
    var events: seq<Event>
    var db: Db
    var catchupEndpoint: Endpoint

    constructor (lib: Library, db: Db)
      ensures connections == map[] && events == [] && this.db == db && Consistent()
    {
      this.lib, this.db, catchupEndpoint := lib, db, Endpoint(false, "", "");
      connections, events := map[], [];
      new;
      ViewEmpty(FrontBy(Logins()));
    }

    ghost function Logins(): map<SubscriberInfo, Option<Auth>>
      reads `connections, Members(connections)`login
    {
      map c | c in Members(connections) :: c.login
    }

    ghost function Streams(): map<SubscriberInfo, string>
      reads `connections, Members(connections)`currentStreamId
    {
      map c | c in Members(connections) :: c.currentStreamId
    }

    /** The current stream of every connection. */
    ghost function Watched(): multiset<string>
      reads `connections, Members(connections)`currentStreamId
    {
      View(connections, StreamBy(Streams()))
    }

    ghost predicate Consistent()
      reads `connections, `events, Members(connections)`login
    {
      TableOk(connections, Logins(), events)
    }

    /** No device of a user is connected twice. */
    ghost predicate AtMostOne()
      reads `connections, Members(connections)`login
    {
      OnePerDevice(connections, Logins())
    }

    /** First the login is stamped on the connection, then, under the lock, the connection is entered and
        the observer told. */
    method RegisterInnerConnectionByHost(client: SubscriberInfo, info: Auth)
      modifies `connections, `events, client`login
      ensures client.login == Some(info)
      ensures connections == Add(old(connections), info.uid, client)
      ensures events == old(events) + [Connected(FrontOf(info))]
      ensures old(Consistent()) && old(client.login) == None ==> Consistent()
      ensures old(Consistent()) && old(client.login) == None && old(AtMostOne()) && !old(InUse(info.uid, info.device)) ==>
                AtMostOne()
    {
      ghost var m, logins, log := connections, Logins(), events;
      ghost var was := client.login;
      Enter(client, info);
      if TableOk(m, logins, log) && was == None {
        assert client !in logins;
        ghost var now := Logins();
        TableAdded(m, logins, log, client, info, now);
        if OnePerDevice(m, logins) && !Busy(Bucket(m, info.uid), DeviceBy(logins), info.device) {
          OnePerDeviceAdd(m, logins, client, info, now);
        }
      }
    }

    method Enter(client: SubscriberInfo, info: Auth)
      modifies `connections, `events, client`login
      ensures client.login == Some(info)
      ensures connections == Add(old(connections), info.uid, client)
      ensures events == old(events) + [Connected(FrontOf(info))]
    {
      client.SetLogin(info);
      connections := connections[info.uid := (if info.uid in connections then connections[info.uid] else []) + [client]];
      var front := client.MakeFrontSubscriberInfo();
      if front.Some? {
        events := events + [Connected(front.value)];
      }
    }

    /** The vector of the user is searched and the first occurrence erased; an empty vector is dropped. The
        observer is told either way. */
    method UnRegisterInnerConnectionByHost(client: SubscriberInfo) returns (err: Option<Error>)
      modifies `connections, `events
      ensures err.None? <==> client.login.Some?
      ensures client.login == None ==> connections == old(connections) && events == old(events)
      ensures client.login.Some? ==> connections == Remove(old(connections), client.login.value.uid, client)
      ensures client.login.Some? ==> events == old(events) + [Disconnected(FrontOf(client.login.value))]
      ensures old(Consistent()) && client in Members(old(connections)) ==> Consistent() && client !in Members(connections)
    {
      var sinf := client.login;
      if sinf.None? {
        return Some(InvalidArgument);
      }
      ghost var m, logins, log := connections, Logins(), events;
      EraseClient(sinf.value.uid, client);
      events := events + [Disconnected(FrontOf(sinf.value))];
      err := None;
      if TableOk(m, logins, log) && client in Members(m) {
        TableRemoved(m, logins, log, client, sinf.value, Logins());
      }
    }

    method EraseClient(uid: string, client: SubscriberInfo)
      modifies `connections
      ensures connections == Remove(old(connections), uid, client)
    {
      if uid !in connections {
        return;
      }
      var hs := connections[uid];
      var i := 0;
      while i < |hs| && hs[i] != client
        invariant 0 <= i <= |hs| && client !in hs[..i]
      {
        i := i + 1;
      }
      EraseAt(hs, client, i);
      if i < |hs| {
        hs := hs[..i] + hs[i + 1..];
      }
      connections := if hs == [] then connections - {uid} else connections[uid := hs];
    }

    /** Everyone who is logged in, once for each connection. */
    method GetOnlineSubscribers() returns (result: seq<Front>)
      ensures multiset(result) == View(connections, FrontBy(Logins()))
    {
      ghost var f := FrontBy(Logins());
      ghost var all := View(connections, f);
      var rest := connections;
      result := [];
      while rest != map[]
        invariant forall u, c :: u in rest && c in rest[u] ==> f(c) == c.MakeFrontSubscriberInfo()
        invariant multiset(result) + View(rest, f) == all
        decreases |rest|
      {
        var u :| u in rest;
        var fronts := FrontsOf(rest[u], f);
        ViewCollected(rest, u, f, result, all);
        result := result + fronts;
        rest := rest - {u};
      }
      ViewEmpty(f);
    }

    /** The inner loop: the clients of one user. */
    method FrontsOf(clients: seq<SubscriberInfo>, ghost f: SubscriberInfo -> Option<Front>) returns (fronts: seq<Front>)
      requires forall c :: c in clients ==> f(c) == c.MakeFrontSubscriberInfo()
      ensures fronts == Collect(f, clients)
    {
      fronts := [];
      var i := 0;
      while i < |clients|
        invariant 0 <= i <= |clients|
        invariant fronts == Collect(f, clients[..i])
      {
        CollectStep(f, clients, i);
        var front := clients[i].MakeFrontSubscriberInfo();
        if front.Some? {
          fronts := fronts + [front.value];
        }
        i := i + 1;
      }
      assert clients[..i] == clients;
    }

    /** The number of connections whose current stream is this one; nothing is updated, despite the name. */
    method GetAndUpdateOnlineUserByStreamID(sid: string) returns (total: nat)
      ensures total == Watched()[sid]
    {
      ghost var f := StreamBy(Streams());
      ghost var all := View(connections, f);
      var rest := connections;
      total := 0;
      while rest != map[]
        invariant forall u, c :: u in rest && c in rest[u] ==> f(c) == Some(c.currentStreamId)
        invariant total + View(rest, f)[sid] == all[sid]
        decreases |rest|
      {
        var u :| u in rest;
        var watching := WatchingOf(rest[u], sid, f);
        ViewCounted(rest, u, f, sid);
        total := total + watching;
        rest := rest - {u};
      }
      ViewEmpty(f);
    }

    method WatchingOf(clients: seq<SubscriberInfo>, sid: string, ghost f: SubscriberInfo -> Option<string>)
      returns (total: nat)
      requires forall c :: c in clients ==> f(c) == Some(c.currentStreamId)
      ensures total == multiset(Collect(f, clients))[sid]
    {
      total := 0;
      var i := 0;
      while i < |clients|
        invariant 0 <= i <= |clients|
        invariant total == multiset(Collect(f, clients[..i]))[sid]
      {
        CollectStep(f, clients, i);
        if clients[i].currentStreamId == sid {
          total := total + 1;
        }
        i := i + 1;
      }
      assert clients[..i] == clients;
    }

    method CheckIsLoginClient(client: SubscriberInfo) returns (r: Result<Auth>)
      ensures r == if client.login.Some? then Ok(client.login.value) else Err(UserNotLogged)
    {
      if client.login.None? {
        return Err(UserNotLogged);
      }
      r := Ok(client.login.value);
    }

    ghost predicate InUse(uid: string, device: string)
      reads `connections, Members(connections)`login
    {
      Busy(Bucket(connections, uid), DeviceBy(Logins()), device)
    }

    /** Whether the user is connected from this device. */
    method DeviceInUse(uid: string, device: string) returns (busy: bool)
      ensures busy <==> InUse(uid, device)
    {
      if uid !in connections {
        return false;
      }
      var hs := connections[uid];
      var i := 0;
      while i < |hs|
        invariant 0 <= i <= |hs|
        invariant forall j :: 0 <= j < i ==> DeviceBy(Logins())(hs[j]) != Some(device)
      {
        assert hs[i] in connections[uid];
        var login := hs[i].login;
        if login.Some? && login.value.device == device {
          assert DeviceBy(Logins())(hs[i]) == Some(device);
          return true;
        }
        i := i + 1;
      }
      busy := false;
    }

    // ---- accounts and devices ----------------------------------------------------------------

    method ClientActivate(email: string, password: string) returns (r: Result<seq<D.DeviceInfo>>)
      requires UniqueEmails(db.subscribers)
      ensures forall u :: u in db.subscribers && HasEmail(db.subscribers[u], email) ==>
                r == D.ActivateList(db.subscribers[u], password)
      ensures (forall u :: u in db.subscribers ==> !HasEmail(db.subscribers[u], email)) ==> r == Err(UserNotFound)
    {
      var uid := FindByEmail(db.subscribers, email);
      if uid.None? {
        return Err(UserNotFound);
      }
      var doc := db.subscribers[uid.value];
      var failed := CheckAccount(doc, password);
      if failed.Some? {
        return Err(failed.value);
      }
      var bdevices := First(doc, DEVICES_FIELD);
      if bdevices.None? || !bdevices.value.Array? {
        return Err(CreateDevice);
      }
      var devices := D.ListDevices(bdevices.value.items);
      if devices == [] {
        return Err(CreateDevice);
      }
      r := Ok(devices);
    }

    /** The checks ClientActivate and ClientLoginImpl begin with, in their order. */
    method CheckAccount(doc: Doc, password: string) returns (failed: Option<Error>)
      ensures failed == D.AccountError(doc, password)
    {
      var bstatus := First(doc, STATUS_FIELD);
      if bstatus.None? || !bstatus.value.I32? {
        return Some(NoStatusField);
      }
      if bstatus.value.i == D.NOT_ACTIVE {
        return Some(UserNotActive);
      }
      if bstatus.value.i == D.USER_DELETED {
        return Some(UserRemoved);
      }
      var bpassword := First(doc, PASSWORD_FIELD);
      if bpassword.None? || !bpassword.value.Utf8? {
        return Some(NoPasswordField);
      }
      failed := if bpassword.value.text != password then Some(InvalidPassword) else None;
    }

    method ClientLoginImpl(uid: string, email: string, who: D.Login, now: int, o: Outcome) returns (err: Option<Error>)
      requires UniqueEmails(db.subscribers) && uid in db.subscribers && HasEmail(db.subscribers[uid], email)
      modifies `db
      ensures var decision := D.LoginDecision(old(db).subscribers[uid], who, now, InUse(uid, who.device));
              && err == (if decision.Ok? then None else Some(decision.error))
              && db == AfterDecision(old(db), uid, who, decision, o)
      ensures err == None ==> !InUse(uid, who.device)
      ensures SameAccounts(old(db).subscribers, db.subscribers)
    {
      var decision := Decide(uid, db.subscribers[uid], who, now);
      if decision.Err? {
        return Some(decision.error);
      }
      if decision.value {
        ActivateDevice(uid, email, who.device, o);
      }
      err := None;
    }

    /** All checks of a login, in their order; on success, whether the device is to be activated. */
    method Decide(uid: string, doc: Doc, who: D.Login, now: int) returns (decision: Result<bool>)
      ensures decision == D.LoginDecision(doc, who, now, InUse(uid, who.device))
      ensures decision.Ok? ==> !InUse(uid, who.device)
    {
      var failed := CheckAccount(doc, who.password);
      if failed.Some? {
        return Err(failed.value);
      }
      if now > who.expDate {
        return Err(ExpiredAccount);
      }
      var bdevices := First(doc, DEVICES_FIELD);
      if bdevices.None? || !bdevices.value.Array? {
        return Err(CreateDevice);
      }
      var status, haveDevices := D.FindDevice(bdevices.value.items, who.device);
      if status.None? {
        return Err(if haveDevices then DeviceNotFound else CreateDevice);
      }
      if status.value == D.BANNED {
        return Err(DeviceBanned);
      }
      var busy := DeviceInUse(uid, who.device);
      if busy {
        return Err(LimitConnection);
      }
      decision := Ok(status.value == D.NOT_ACTIVE);
    }

    /** The update is addressed by email, which leads back to the same user. */
    method ActivateDevice(ghost uid: string, email: string, device: string, o: Outcome)
      requires UniqueEmails(db.subscribers) && uid in db.subscribers && HasEmail(db.subscribers[uid], email)
      modifies `db
      ensures db == old(db).(subscribers := old(db).subscribers[uid :=
                      Written(o, old(db).subscribers[uid], Some(D.Activated(old(db).subscribers[uid], device)))])
      ensures SameAccounts(old(db).subscribers, db.subscribers)
    {
      var found := FindByEmail(db.subscribers, email);
      OneUser(db.subscribers, uid, found.value, email);
      var doc := db.subscribers[found.value];
      ActivationKeeps(doc, device);
      ReplacedAccount(db.subscribers, found.value, Written(o, doc, Some(D.Activated(doc, device))));
      db := db.(subscribers := db.subscribers[found.value := Written(o, doc, Some(D.Activated(doc, device)))]);
    }

    /** The login of the subscribers handler: by email. */
    method ClientLogin(email: string, password: string, device: string, now: int, o: Outcome) returns (r: Result<Auth>)
      requires UniqueEmails(db.subscribers)
      requires forall u :: u in db.subscribers ==> First(db.subscribers[u], ID_FIELD) == Some(Oid(u))
      modifies `db
      ensures (forall u :: u in old(db).subscribers ==> !HasEmail(old(db).subscribers[u], email)) ==>
                r == Err(UserNotFound) && db == old(db)
      ensures forall u :: u in old(db).subscribers && HasEmail(old(db).subscribers[u], email) ==>
                && r == LoginBy(u, email, old(db).subscribers[u], password, device, now, InUse(u, device))
                && db == AfterLogin(old(db), u, password, device, now, InUse(u, device), o)
      ensures r.Ok? ==> r.value.device == device && !InUse(r.value.uid, device)
    {
      var found := FindByEmail(db.subscribers, email);
      if found.None? {
        return Err(UserNotFound);
      }
      var uid := found.value;
      var doc := db.subscribers[uid];
      forall u | u in db.subscribers && HasEmail(db.subscribers[u], email) ensures u == uid {
        OneUser(db.subscribers, u, uid, email);
      }
      var buid := First(doc, ID_FIELD);
      if buid.None? || !buid.value.Oid? {
        return Err(NoIdField);
      }
      var exp := ExpDate(doc);
      if exp.None? {
        return Err(NoExpDateField);
      }
      var who := D.Login(password, device, exp.value);
      var err := ClientLoginImpl(buid.value.id, email, who, now, o);
      r := if err.Some? then Err(err.value) else Ok(Auth(buid.value.id, email, password, device, exp.value));
    }

    /** The login of the HTTP handler: by user id. */
    method ClientLoginById(uid: string, password: string, device: string, now: int, o: Outcome) returns (r: Result<Auth>)
      requires UniqueEmails(db.subscribers)
      modifies `db
      ensures r == LoginById(old(db).subscribers, uid, password, device, now, InUse(uid, device))
      ensures db == if r.Ok? then AfterLogin(old(db), uid, password, device, now, InUse(uid, device), o) else old(db)
      ensures r.Ok? ==> r.value.uid == uid && r.value.device == device && !InUse(uid, device)
      ensures SameAccounts(old(db).subscribers, db.subscribers)
    {
      if uid == "" || password == "" || device == "" {
        return Err(InvalidArgument);
      }
      if uid !in db.subscribers {
        return Err(UserNotFound);
      }
      var doc := db.subscribers[uid];
      var blogin := First(doc, EMAIL_FIELD);
      if blogin.None? || !blogin.value.Utf8? {
        return Err(NoEmailField);
      }
      var exp := ExpDate(doc);
      if exp.None? {
        return Err(NoExpDateField);
      }
      var who := D.Login(password, device, exp.value);
      var err := ClientLoginImpl(uid, blogin.value.text, who, now, o);
      r := if err.Some? then Err(err.value) else Ok(Auth(uid, blogin.value.text, password, device, exp.value));
    }

    // ---- the catalogue and the resolver ------------------------------------------------------

    method ClientGetChannels(email: string) returns (r: Result<Lists>)
      requires UniqueEmails(db.subscribers) && CatalogueOk(db, email)
      ensures forall u :: u in db.subscribers && HasEmail(db.subscribers[u], email) ==> r == Ok(ListsOf(lib, db, db.subscribers[u]))
      ensures (forall u :: u in db.subscribers ==> !HasEmail(db.subscribers[u], email)) ==> r == Err(UserNotFound)
    {
      var found := FindByEmail(db.subscribers, email);
      if found.None? {
        return Err(UserNotFound);
      }
      forall u | u in db.subscribers && HasEmail(db.subscribers[u], email) ensures u == found.value {
        OneUser(db.subscribers, u, found.value, email);
      }
      var lchannels := ReadCatalogue(db.subscribers[found.value]);
      r := Ok(lchannels);
    }

    /** The five loops, in their order; the series count the views of the public vods. */
    method ReadCatalogue(doc: Doc) returns (lists: Lists)
      requires ValidStreams(db.streams) && ValidSeries(db.series) && LinksOk(doc)
      requires forall id :: id in db.requests ==> Distinct(db.requests[id])
      ensures lists == ListsOf(lib, db, doc)
    {
      var lchans, lpchans := ReadChannels(lib, db.streams, Items(doc, STREAMS_FIELD));
      var lvods, lpvods := ReadVods(lib, db.streams, Items(doc, VODS_FIELD));
      var lcatchups := ReadCatchups(lib, db.streams, Items(doc, CATCHUPS_FIELD));
      var lseries := ReadSeries(lib, db.series, lvods, Items(doc, SERIES_FIELD));
      var lcreq := ReadRequests(db.requests, Items(doc, REQUESTS_FIELD));
      lists := Lists(lvods, lchans, lpchans, lpvods, lcatchups, lseries, lcreq);
    }

    method ClientFindHttpDirectoryOrUrlForChannel(email: string, sid: string, cid: int32, onDisk: string -> bool)
      returns (a: Answer)
      requires UniqueEmails(db.subscribers) && Searchable(db.subscribers, email, sid)
      ensures a.error.None? <==> (a.directory.Some? <==> a.url.None?)
      ensures forall u :: u in db.subscribers && HasEmail(db.subscribers[u], email) && sid != "" ==>
                a == Answered(Lookup(lib, db.streams, onDisk, db.subscribers[u], sid, cid))
      ensures sid != "" && (forall u :: u in db.subscribers ==> !HasEmail(db.subscribers[u], email)) ==>
                a == Answer(Some(UserNotFound), None, None)
      ensures sid == "" ==> a == Answer(Some(InvalidArgument), None, None)
    {
      if sid == "" {
        return Answer(Some(InvalidArgument), None, None);
      }
      var found := FindByEmail(db.subscribers, email);
      if found.None? {
        return Answer(Some(UserNotFound), None, None);
      }
      forall u | u in db.subscribers && HasEmail(db.subscribers[u], email) ensures u == found.value {
        OneUser(db.subscribers, u, found.value, email);
      }
      a := FindDirectoryOrUrl(lib, db.streams, onDisk, db.subscribers[found.value], sid, cid);
    }

    // ---- updates of user entries -------------------------------------------------------------

    /** The checks of the three setters, in their order. */
    method CheckTarget(uid: string, sid: string) returns (r: Result<StreamType>)
      ensures Target(lib, db, uid, sid) == (match r case Err(e) => Err(e) case Ok(st) => Ok(ArrayFor(st)))
      ensures r.Ok? ==> sid in db.streams
    {
      if sid == "" {
        return Err(InvalidStreamId);
      }
      if sid !in db.streams {
        return Err(StreamNotFound);
      }
      var bcls := First(db.streams[sid], CLS_FIELD);
      if bcls.None? || !bcls.value.Utf8? {
        return Err(InvalidStream);
      }
      if uid == "" {
        return Err(InvalidUserId);
      }
      r := Ok(lib.streamType(bcls.value.text));
    }

    method SetFavorite(uid: string, sid: string, favorite: bool, o: Outcome) returns (err: Option<Error>)
      modifies `db
      ensures match SetEntry(lib, old(db), uid, sid, FAVORITE_FIELD, Boolean(favorite), o)
              case Err(e) => err == Some(e) && db == old(db)
              case Ok(after) => err == None && db == after
    {
      var st := CheckTarget(uid, sid);
      if st.Err? {
        return Some(st.error);
      }
      if IsVod(st.value) {
        db := SetOnUser(db, uid, VODS_FIELD, sid, FAVORITE_FIELD, Boolean(favorite), o);
      } else if st.value == CATCHUP {
        db := SetOnUser(db, uid, CATCHUPS_FIELD, sid, FAVORITE_FIELD, Boolean(favorite), o);
      } else {
        db := SetOnUser(db, uid, STREAMS_FIELD, sid, FAVORITE_FIELD, Boolean(favorite), o);
      }
      err := None;
    }

    method SetRecent(uid: string, sid: string, timestamp: int, o1: Outcome, o2: Outcome) returns (err: Option<Error>)
      modifies `db
      ensures match SetRecentEntry(lib, old(db), uid, sid, timestamp, o1, o2)
              case Err(e) => err == Some(e) && db == old(db)
              case Ok(after) => err == None && db == after
    {
      var st := CheckTarget(uid, sid);
      if st.Err? {
        return Some(st.error);
      }
      if IsVod(st.value) {
        db := SetOnUser(db, uid, VODS_FIELD, sid, RECENT_FIELD, DateTime(timestamp), o1);
      } else if st.value == CATCHUP {
        db := SetOnUser(db, uid, CATCHUPS_FIELD, sid, RECENT_FIELD, DateTime(timestamp), o1);
      } else {
        db := SetOnUser(db, uid, STREAMS_FIELD, sid, RECENT_FIELD, DateTime(timestamp), o1);
      }
      db := CountView(db, sid, o2);
      err := None;
    }

    method SetInterruptTime(uid: string, sid: string, time: int32, o: Outcome) returns (err: Option<Error>)
      modifies `db
      ensures match SetEntry(lib, old(db), uid, sid, INTERRUPTION_TIME_FIELD, I32(time), o)
              case Err(e) => err == Some(e) && db == old(db)
              case Ok(after) => err == None && db == after
    {
      var st := CheckTarget(uid, sid);
      if st.Err? {
        return Some(st.error);
      }
      if IsVod(st.value) {
        db := SetOnUser(db, uid, VODS_FIELD, sid, INTERRUPTION_TIME_FIELD, I32(time), o);
      } else if st.value == CATCHUP {
        db := SetOnUser(db, uid, CATCHUPS_FIELD, sid, INTERRUPTION_TIME_FIELD, I32(time), o);
      } else {
        db := SetOnUser(db, uid, STREAMS_FIELD, sid, INTERRUPTION_TIME_FIELD, I32(time), o);
      }
      err := None;
    }

    // ---- catchups ----------------------------------------------------------------------------

    method FindStream(uid: string, sid: string) returns (r: Result<ChannelInfo>)
      requires ValidStreams(db.streams)
      ensures r == CatchupCalls.FindStream(lib, db, uid, sid)
    {
      if uid == "" || sid == "" {
        return Err(InvalidArgument);
      }
      if uid !in db.subscribers || !HasStream(db.subscribers[uid], sid) {
        return Err(StreamNotFound);
      }
      var uinf := MakeUserStreamInfo(db.subscribers[uid], 0);
      if sid !in db.streams {
        return Err(StreamNotFound);
      }
      var sdoc := db.streams[sid];
      var bcls := First(sdoc, CLS_FIELD);
      if bcls.None? || !bcls.value.Utf8? {
        return Err(InvalidStream);
      }
      var st := lib.streamType(bcls.value.text);
      if !IsVod(st) {
        assert ValidStream(sid, sdoc);
        var ok, ch, _ := MakeChannelInfo(lib, sdoc, st, uinf, false);
        if ok {
          return Ok(ch);
        }
      }
      r := Err(StreamNotFound);
    }

    /** The search through the parts. */
    method FindCached(parts: seq<string>, key: CatKey) returns (found: Option<CatchupInfo>)
      requires ValidStreams(db.streams)
      ensures found == match FirstHit(db.streams, parts, key)
                       case None => None
                       case Some(p) => Some(CatchupOf(lib, Index(db.streams[p]), NO_USER_INFO))
    {
      var i := 0;
      while i < |parts|
        invariant 0 <= i <= |parts|
        invariant FirstHit(db.streams, parts, key) == FirstHit(db.streams, parts[i..], key)
      {
        if parts[i] in db.streams {
          var sdoc := db.streams[parts[i]];
          assert ValidStream(parts[i], sdoc);
          var matches := MatchesKey(sdoc, key);
          if matches {
            var ok, orig, _ := MakeCatchupInfo(lib, sdoc, CATCHUP, NO_USER_INFO, false);
            if ok {
              return Some(orig);
            }
          }
        }
        i := i + 1;
      }
      found := None;
    }

    method MatchesKey(sdoc: Doc, key: CatKey) returns (matches: bool)
      ensures matches <==> KeyMatches(sdoc, key)
    {
      var bname := First(sdoc, NAME_FIELD);
      if bname.None? || !bname.value.Utf8? {
        return false;
      }
      var bstart := First(sdoc, START_FIELD);
      if bstart.None? || !bstart.value.DateTime? {
        return false;
      }
      var bstop := First(sdoc, STOP_FIELD);
      if bstop.None? || !bstop.value.DateTime? {
        return false;
      }
      matches := bname.value.text == key.title && bstart.value.ms == key.start && key.stop == bstop.value.ms;
    }

    /** The query for the server that runs a stream. */
    method FindServer(sid: string) returns (at: nat)
      ensures at == ServerOf(db.servers, sid)
    {
      at := 0;
      while at < |db.servers| && Oid(sid) !in Items(db.servers[at], STREAMS_FIELD)
        invariant at <= |db.servers|
        invariant ServerOf(db.servers, sid) == at + ServerOf(db.servers[at..], sid)
      {
        at := at + 1;
      }
    }

    method PrepareCatchup(sid: string) returns (r: Result<Plan>)
      ensures r == Prepare(db, catchupEndpoint, sid)
    {
      if !catchupEndpoint.valid {
        return Err(NotPrepared);
      }
      if sid == "" {
        return Err(InvalidStreamId);
      }
      if sid !in db.streams {
        return Err(StreamNotFound);
      }
      var sdoc := db.streams[sid];
      var at := FindServer(sid);
      if at == |db.servers| {
        return Err(ServerNotFound);
      }
      var serverId := First(db.servers[at], ID_FIELD);
      if serverId.None? || !serverId.value.Oid? {
        return Err(InvalidStream);
      }
      var bcls := First(sdoc, CLS_FIELD);
      if bcls.None? || !bcls.value.Utf8? {
        return Err(InvalidStream);
      }
      var output := First(sdoc, OUTPUT_FIELD);
      if output.None? || !output.value.Array? {
        return Err(InvalidStream);
      }
      r := Ok(Plan(at, serverId.value.id, output.value.items));
    }

    method CreateOrFindCatchup(base: ChannelInfo, key: CatKey, fate: Fate) returns (r: Result<Reply>)
      requires ValidStreams(db.streams)
      modifies `db
      ensures (db, r) == CreateOrFind(lib, old(db), catchupEndpoint, base, key, fate)
    {
      var found := FindCached(base.base.parts, key);
      if found.Some? {
        return Ok(Reply(found.value, None, false));
      }
      var plan := PrepareCatchup(base.base.id);
      if plan.Err? {
        return Err(plan.error);
      }
      var _, urls := GetOutputUrlData(lib, Array(plan.value.outputs));
      var doc, caturls := BuildDoc(lib, catchupEndpoint, fate.cid, fate.now, key, base, urls);
      var done := WriteCatchup(plan.value.server, base.base.id, fate.cid, doc, fate);
      if !done {
        return Err(WriteFailed);
      }
      var epg := base.epg.(name := key.title, urls := UrlsOf(caturls));
      var copy := CatchupInfo(base.base.(haveVideo := base.base.haveAudio, haveAudio := base.base.haveVideo,
                                         viewCount := 0, locked := false), epg, key.start, key.stop);
      r := Ok(Reply(copy.(base := copy.base.(id := fate.cid)), Some(plan.value.serverId), true));
    }

    /** The insert and the two pushes, each only after the one before it was reported. */
    method WriteCatchup(at: nat, sid: string, cid: string, doc: Doc, fate: Fate) returns (done: bool)
      requires sid in db.streams && at < |db.servers|
      modifies `db
      ensures (db, done) == Writes(old(db), at, sid, cid, doc, fate)
    {
      db := Inserted(db, cid, doc, fate.insert);
      if fate.insert != Done {
        return false;
      }
      var reported := Reported(fate.part, Push(db.streams[sid], PARTS_FIELD, Oid(cid)));
      db := PartLinked(db, sid, cid, fate.part);
      if !reported {
        return false;
      }
      done := Reported(fate.server, Push(db.servers[at], STREAMS_FIELD, Oid(cid)));
      db := ServerLinked(db, at, cid, fate.server);
    }

    method CreateCatchup(uid: string, sid: string, key: CatKey, fate: Fate) returns (r: Result<Reply>)
      requires ValidStreams(db.streams)
      modifies `db
      ensures (db, r) == CatchupCalls.CreateCatchup(lib, old(db), catchupEndpoint, uid, sid, key, fate)
    {
      var ch := FindStream(uid, sid);
      if ch.Err? {
        return Err(ch.error);
      }
      r := CreateOrFindCatchup(ch.value, key, fate);
    }

    method AddUserCatchup(uid: string, cid: string, o: Outcome) returns (err: Option<Error>)
      modifies `db
      ensures (db, err) == CatchupCalls.AddUserCatchup(lib, old(db), uid, cid, o)
    {
      if uid == "" || cid == "" {
        return Some(InvalidArgument);
      }
      var entry := NewEntry(cid, Some(lib.classes.userStream));
      var done := o == Done && (uid in db.subscribers ==> Push(db.subscribers[uid], CATCHUPS_FIELD, Document(entry)).Some?);
      db := PushEntry(db, uid, CATCHUPS_FIELD, entry, o);
      err := if done then None else Some(WriteFailed);
    }

    /** A pull by id that meets no document is not an error. */
    method RemoveUserCatchup(uid: string, cid: string, o: Outcome) returns (err: Option<Error>)
      modifies `db
      ensures uid == "" || cid == "" ==> err == Some(InvalidArgument) && db == old(db)
      ensures uid != "" && cid != "" ==> db == PullEntry(old(db), uid, CATCHUPS_FIELD, cid, o)
      ensures uid != "" && cid != "" ==>
                (err == None <==> o == Done && (uid in old(db).subscribers ==> TakesPull(old(db).subscribers[uid])))
    {
      if uid == "" || cid == "" {
        return Some(InvalidArgument);
      }
      var done := o == Done && (uid in db.subscribers ==> Pull(db.subscribers[uid], CATCHUPS_FIELD, cid).Some?);
      db := PullEntry(db, uid, CATCHUPS_FIELD, cid, o);
      err := if done then None else Some(WriteFailed);
    }

    method CreateRequestContent(uid: string, title: string, kind: int32, status: int32, fate: RequestFate)
      returns (r: Result<ContentRequestInfo>)
      modifies `db
      ensures (db, r) == CreateRequest(lib, old(db), uid, title, kind, status, fate)
    {
      if uid == "" {
        return Err(InvalidArgument);
      }
      var doc := [Field(ID_FIELD, Oid(fate.rid))];
      doc := doc + [Field(TITLE_FIELD, Utf8(title))];
      doc := doc + [Field(CLS_FIELD, Utf8(lib.classes.request))];
      doc := doc + [Field(STATUS_FIELD, I32(status))];
      doc := doc + [Field(TYPE_FIELD, I32(kind))];
      assert doc == RequestDoc(lib, fate.rid, title, kind, status);
      db := db.(requests := Written(fate.insert, db.requests, Some(db.requests[fate.rid := doc])));
      if fate.insert != Done {
        return Err(WriteFailed);
      }
      var done := fate.user == Done
                  && (uid in db.subscribers ==> Push(db.subscribers[uid], REQUESTS_FIELD, Oid(fate.rid)).Some?);
      db := PushRequest(db, uid, fate.rid, fate.user);
      r := if done then Ok(ContentRequestInfo(fate.rid, title, kind, status)) else Err(WriteFailed);
    }
  }
}
