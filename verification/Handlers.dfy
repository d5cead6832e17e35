/** The handlers that fix the order of the calls of the manager: one for the subscribers' own connections,
    one for http clients. */
module Handlers {
  import opened Common
  import opened Bson
  import opened Infos
  import opened Urls
  import opened Store
  import opened UserUpdates
  import opened Registry
  import opened Subscribers
  import opened Catalogue
  import opened Resolver
  import opened CatchupDocs
  import opened CatchupCache
  import opened CatchupCalls
  import opened Logins
  import opened Manager
  import W = Watchers
  import D = Devices

  class SubscribersHandler {
    const manager: SubscribersManager
    var announced: seq<Note>

    constructor (manager: SubscribersManager)
      ensures this.manager == manager && announced == []
    {
      this.manager, announced := manager, [];
    }

    /** Login, answer, register. Nothing here asks whether the connection is logged in already. */
    method HandleRequestClientLogin(client: SubscriberInfo, email: string, password: string, device: string, now: int,
                                    o: Outcome, answered: bool) returns (err: Option<Error>)
      requires UniqueEmails(manager.db.subscribers)
      requires forall u :: u in manager.db.subscribers ==> First(manager.db.subscribers[u], ID_FIELD) == Some(Oid(u))
      modifies manager`db, manager`connections, manager`events, client`login
      ensures (forall u :: u in old(manager.db).subscribers ==> !HasEmail(old(manager.db).subscribers[u], email)) ==>
                err == Some(UserNotFound)
      ensures forall u :: u in old(manager.db).subscribers && HasEmail(old(manager.db).subscribers[u], email) ==>
                var d, busy := old(manager.db).subscribers[u], old(manager.InUse(u, device));
                && err == LoginReply(u, email, d, password, device, now, busy, answered)
                && (err == None ==> client.login == Some(LoginBy(u, email, d, password, device, now, busy).value))
                && manager.db == AfterLogin(old(manager.db), u, password, device, now, busy, o)
      ensures err == None ==>
                && client.login.Some?
                && var auth := client.login.value;
                   && manager.connections == Add(old(manager.connections), auth.uid, client)
                   && manager.events == old(manager.events) + [Connected(Front(auth.uid, auth.login, auth.device, auth.expDate))]
      ensures err.Some? ==> manager.connections == old(manager.connections) && client.login == old(client.login)
                            && manager.events == old(manager.events)
      ensures old(manager.Consistent()) && old(client.login) == None ==> manager.Consistent()
      ensures old(manager.Consistent()) && old(manager.AtMostOne()) && old(client.login) == None ==> manager.AtMostOne()
    {
      ghost var one := manager.AtMostOne();
      var ser := manager.ClientLogin(email, password, device, now, o);
      assert manager.AtMostOne() == one;
      if ser.Err? {
        return Some(ser.error);
      }
      if !answered {
        return Some(NotSent);
      }
      manager.RegisterInnerConnectionByHost(client, ser.value);
      err := None;
    }

    /** Closing a connection takes it out of the table, once. */
    method Closed(client: SubscriberInfo)
      modifies manager`connections, manager`events
      ensures client.login.Some? ==> manager.connections == Remove(old(manager.connections), client.login.value.uid, client)
      ensures client.login.Some? ==>
                var auth := client.login.value;
                manager.events == old(manager.events) + [Disconnected(Front(auth.uid, auth.login, auth.device, auth.expDate))]
      ensures client.login == None ==> manager.connections == old(manager.connections) && manager.events == old(manager.events)
      ensures old(manager.Consistent()) && (client.login.Some? ==> client in Members(old(manager.connections))) ==>
                manager.Consistent()
    {
      var _ := manager.UnRegisterInnerConnectionByHost(client);
    }

    /** The client stops watching its old stream and watches the new one; nobody else moves. */
    method MoveTo(client: SubscriberInfo, sid: string)
      modifies client`currentStreamId
      ensures client.currentStreamId == sid
      ensures manager.Consistent() && client in Members(manager.connections) ==>
                manager.Watched() + multiset{old(client.currentStreamId)} == old(manager.Watched()) + multiset{sid}
    {
      ghost var streams := manager.Streams();
      client.SetCurrentStreamID(sid);
      if manager.Consistent() && client in Members(manager.connections) {
        W.StreamMoves(manager.connections, OwnersOf(manager.Logins()), client, streams, manager.Streams());
      }
    }

    /** The watchers are counted before the client itself moves. */
    method HandleRequestClientGetRuntimeChannelInfo(client: SubscriberInfo, sid: string) returns (watchers: Option<nat>)
      modifies client`currentStreamId
      ensures client.login == None ==> watchers == None && client.currentStreamId == old(client.currentStreamId)
      ensures client.login.Some? ==> watchers == Some(old(manager.Watched())[sid]) && client.currentStreamId == sid
      ensures client.login.Some? && manager.Consistent() && client in Members(manager.connections) ==>
                manager.Watched() + multiset{old(client.currentStreamId)} == old(manager.Watched()) + multiset{sid}
    {
      var auth := manager.CheckIsLoginClient(client);
      if auth.Err? {
        return None;
      }
      var total := manager.GetAndUpdateOnlineUserByStreamID(sid);
      watchers := Some(total);
      MoveTo(client, sid);
    }

    /** Find or create, add to the user, announce what was created. */
    method HandleRequestGenerateCatchup(client: SubscriberInfo, sid: string, key: CatKey, fate: Fate)
      returns (r: Result<CatchupInfo>)
      requires ValidStreams(manager.db.streams)
      modifies manager`db, `announced
      ensures client.login == None ==> r == Err(UserNotLogged) && manager.db == old(manager.db) && announced == old(announced)
      ensures client.login.Some? ==>
                var (db, answer, notes) :=
                  Generate(manager.lib, old(manager.db), manager.catchupEndpoint, client.login.value.uid, sid, key, fate);
                manager.db == db && r == answer && announced == old(announced) + notes
    {
      var auth := manager.CheckIsLoginClient(client);
      if auth.Err? {
        return Err(auth.error);
      }
      var reply := manager.CreateCatchup(auth.value.uid, sid, key, fate);
      if reply.Err? {
        return Err(reply.error);
      }
      var err := manager.AddUserCatchup(auth.value.uid, reply.value.cat.base.id, fate.user);
      if err.Some? {
        return Err(err.value);
      }
      if reply.value.isCreated {
        announced := announced + [Note(sid, key, reply.value.serverId, reply.value.cat)];
      }
      r := Ok(reply.value.cat);
    }

    method HandleRequestUndoCatchup(client: SubscriberInfo, cid: string, o: Outcome) returns (err: Option<Error>)
      modifies manager`db
      ensures client.login == None ==> err == Some(UserNotLogged) && manager.db == old(manager.db)
      ensures client.login.Some? && (client.login.value.uid == "" || cid == "") ==>
                err == Some(InvalidArgument) && manager.db == old(manager.db)
      ensures client.login.Some? && client.login.value.uid != "" && cid != "" ==>
                var uid := client.login.value.uid;
                && (err == None <==> o == Done && (uid in old(manager.db).subscribers ==> TakesPull(old(manager.db).subscribers[uid])))
                && manager.db == PullEntry(old(manager.db), uid, CATCHUPS_FIELD, cid, o)
                && (err == None && uid in manager.db.subscribers ==>
                    && Items(manager.db.subscribers[uid], CATCHUPS_FIELD)
                       == Without(Items(old(manager.db).subscribers[uid], CATCHUPS_FIELD), SID_FIELD, cid)
                    && forall v :: v in Items(manager.db.subscribers[uid], CATCHUPS_FIELD) ==> !Refers(v, SID_FIELD, cid))
    {
      var auth := manager.CheckIsLoginClient(client);
      if auth.Err? {
        return Some(auth.error);
      }
      var uid := auth.value.uid;
      if uid in manager.db.subscribers {
        PulledOnce(manager.db.subscribers[uid], cid);
      }
      err := manager.RemoveUserCatchup(uid, cid, o);
    }
  }

  class HttpHandler {
    const manager: SubscribersManager

    constructor (manager: SubscribersManager)
      ensures this.manager == manager
    {
      this.manager := manager;
    }

    /** The account a request is served for: that of the connection, or else that of the user it names. */
    function ServedEmail(hclient: SubscriberInfo, uid: string): Option<string>
      reads manager`db, hclient`login
    {
      if hclient.login.Some? then Some(hclient.login.value.login)
      else if uid in manager.db.subscribers then TextAt(manager.db.subscribers[uid], EMAIL_FIELD)
      else None
    }

    /** A login over http: the device was found free, the connection is entered. */
    method LoginAndRegister(hclient: SubscriberInfo, uid: string, password: string, device: string, now: int,
                            o: Outcome)
      returns (r: Result<Auth>)
      requires UniqueEmails(manager.db.subscribers) && hclient.login == None
      modifies manager`db, manager`connections, manager`events, hclient`login
      ensures r == LoginById(old(manager.db).subscribers, uid, password, device, now, old(manager.InUse(uid, device)))
      ensures manager.db == if r.Ok? then AfterLogin(old(manager.db), uid, password, device, now,
                                                     old(manager.InUse(uid, device)), o) else old(manager.db)
      ensures SameAccounts(old(manager.db).subscribers, manager.db.subscribers)
      ensures r.Ok? ==>
                && hclient.login == Some(r.value) && r.value.uid == uid
                && manager.connections == Add(old(manager.connections), uid, hclient)
                && manager.events == old(manager.events) + [Connected(Front(uid, r.value.login, device, r.value.expDate))]
      ensures r.Err? ==> hclient.login == None && manager.connections == old(manager.connections)
                         && manager.events == old(manager.events)
      ensures old(manager.Consistent()) ==> manager.Consistent()
      ensures old(manager.Consistent()) && old(manager.AtMostOne()) ==> manager.AtMostOne()
    {
      ghost var one := manager.AtMostOne();
      r := manager.ClientLoginById(uid, password, device, now, o);
      assert manager.AtMostOne() == one;
      if r.Ok? {
        assert !manager.InUse(r.value.uid, r.value.device);
        manager.RegisterInnerConnectionByHost(hclient, r.value);
      }
    }

    /** The login guard: only a connection without a login logs in. */
    method EnsureLogin(hclient: SubscriberInfo, uid: string, password: string, device: string, now: int, o: Outcome)
      returns (r: Result<Auth>)
      requires UniqueEmails(manager.db.subscribers)
      modifies manager`db, manager`connections, manager`events, hclient`login
      ensures old(hclient.login).Some? ==>
                && r == Ok(old(hclient.login).value) && hclient.login == old(hclient.login) && manager.db == old(manager.db)
                && manager.connections == old(manager.connections) && manager.events == old(manager.events)
      ensures old(hclient.login) == None ==>
                r == LoginById(old(manager.db).subscribers, uid, password, device, now, old(manager.InUse(uid, device)))
      ensures old(hclient.login) == None && r.Ok? ==>
                && hclient.login == Some(r.value)
                && manager.db == AfterLogin(old(manager.db), uid, password, device, now, old(manager.InUse(uid, device)), o)
                && manager.connections == Add(old(manager.connections), uid, hclient)
                && manager.events == old(manager.events) + [Connected(Front(uid, r.value.login, device, r.value.expDate))]
      ensures r.Ok? ==> old(ServedEmail(hclient, uid)) == Some(r.value.login)
      ensures r.Err? ==> hclient.login == None && manager.db == old(manager.db)
                         && manager.connections == old(manager.connections) && manager.events == old(manager.events)
      ensures SameAccounts(old(manager.db).subscribers, manager.db.subscribers)
      ensures old(manager.Consistent()) ==> manager.Consistent()
      ensures old(manager.Consistent()) && old(manager.AtMostOne()) ==> manager.AtMostOne()
    {
      r := manager.CheckIsLoginClient(hclient);
      if r.Err? {
        ghost var before, busy := manager.db.subscribers, manager.InUse(uid, device);
        r := LoginAndRegister(hclient, uid, password, device, now, o);
        if r.Ok? {
          LoginByIdEmail(before, uid, password, device, now, busy);
        }
      }
    }

    /** A request names user, password, device, stream, channel and file; `sent` says whether the answer, and
        the file if there is one to send, went out. Whatever the request, the table stays in order and no
        device is connected twice. A connection that only asked for the headers of a file is not counted as
        watching, one that was redirected is. */
    method ProcessReceived(hclient: SubscriberInfo, isGet: bool, tokens: seq<string>, toChannel: string -> Option<int32>,
                           now: int, o: Outcome, onDisk: string -> bool, sent: bool) returns (a: Answer)
      requires UniqueEmails(manager.db.subscribers)
      requires |tokens| >= 6 && ServedEmail(hclient, tokens[0]).Some? ==>
                 Searchable(manager.db.subscribers, ServedEmail(hclient, tokens[0]).value, tokens[3])
      modifies manager`db, manager`connections, manager`events, hclient
      ensures |tokens| < 6 ==> a == Answer(Some(InvalidRequest), None, None) && manager.db == old(manager.db)
                               && manager.connections == old(manager.connections) && hclient.login == old(hclient.login)
      ensures |tokens| >= 6 && old(hclient.login) == None ==>
                var r := LoginById(old(manager.db).subscribers, tokens[0], tokens[1], tokens[2], now,
                                   old(manager.InUse(tokens[0], tokens[2])));
                match r
                case Err(e) => a == Answer(Some(e), None, None) && hclient.login == None
                               && manager.connections == old(manager.connections)
                case Ok(auth) => hclient.login == Some(auth)
                                 && manager.connections == Add(old(manager.connections), tokens[0], hclient)
      ensures old(hclient.login).Some? ==> manager.connections == old(manager.connections) && hclient.login == old(hclient.login)
      ensures |tokens| >= 6 && hclient.login.Some? ==>
                match toChannel(tokens[4])
                case None => a == Answer(Some(InvalidChannelId), None, None)
                case Some(cid) =>
                  if tokens[3] == "" then a == Answer(Some(InvalidArgument), None, None)
                  else forall u :: u in manager.db.subscribers && HasEmail(manager.db.subscribers[u], hclient.login.value.login) ==>
                    a == Answered(Lookup(manager.lib, manager.db.streams, onDisk, manager.db.subscribers[u], tokens[3], cid))
      ensures a.error.None? <==> (a.directory.Some? <==> a.url.None?)
      ensures a.error.None? ==> |tokens| >= 6 && hclient.login.Some?
      ensures hclient.currentStreamId ==
              if a.error.None? && sent && (a.url.Some? || isGet) then tokens[3] else old(hclient.currentStreamId)
      ensures old(manager.Consistent()) ==> manager.Consistent()
      ensures old(manager.Consistent()) && old(manager.AtMostOne()) ==> manager.AtMostOne()
    {
      if |tokens| < 6 {
        return Answer(Some(InvalidRequest), None, None);
      }
      ghost var before := manager.db.subscribers;
      var auth := EnsureLogin(hclient, tokens[0], tokens[1], tokens[2], now, o);
      if auth.Err? {
        return Answer(Some(auth.error), None, None);
      }
      StaysSearchable(before, manager.db.subscribers, auth.value.login, tokens[3]);
      a := Serve(hclient, auth.value.login, tokens[3], toChannel(tokens[4]), onDisk, isGet, sent);
    }

    /** The answer, and what is sent of it. */
    method Serve(hclient: SubscriberInfo, email: string, sid: string, cid: Option<int32>, onDisk: string -> bool,
                 isGet: bool, sent: bool)
      returns (a: Answer)
      requires UniqueEmails(manager.db.subscribers) && Searchable(manager.db.subscribers, email, sid)
      modifies hclient`currentStreamId
      ensures a.error.None? <==> (a.directory.Some? <==> a.url.None?)
      ensures match cid
              case None => a == Answer(Some(InvalidChannelId), None, None)
              case Some(n) =>
                if sid == "" then a == Answer(Some(InvalidArgument), None, None)
                else forall u :: u in manager.db.subscribers && HasEmail(manager.db.subscribers[u], email) ==>
                  a == Answered(Lookup(manager.lib, manager.db.streams, onDisk, manager.db.subscribers[u], sid, n))
      ensures hclient.currentStreamId ==
              if a.error.None? && sent && (a.url.Some? || isGet) then sid else old(hclient.currentStreamId)
      ensures manager.Consistent() == old(manager.Consistent()) && manager.AtMostOne() == old(manager.AtMostOne())
    {
      if cid.None? {
        return Answer(Some(InvalidChannelId), None, None);
      }
      a := manager.ClientFindHttpDirectoryOrUrlForChannel(email, sid, cid.value, onDisk);
      if a.error.Some? {
        return;
      }
      if a.directory.None? {
        if sent {
          hclient.SetCurrentStreamID(sid);
        }
      } else if isGet && sent {
        hclient.SetCurrentStreamID(sid);
      }
    }
  }
}
