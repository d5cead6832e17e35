/** A login as a whole: who is logged in, what is answered otherwise, and what is written. */
module Logins {
  import opened Common
  import opened Bson
  import opened Urls
  import opened Store
  import opened Registry
  import D = Devices

  function ExpDate(d: Doc): Option<int> {
    match First(d, EXP_DATE_FIELD) case Some(DateTime(ms)) => Some(ms) case _ => None
  }

  /** The answer to a login of the user whose document is `d`. */
  function LoginBy(uid: string, email: string, d: Doc, password: string, device: string, now: int, busy: bool): Result<Auth> {
    match ExpDate(d)
    case None => Err(NoExpDateField)
    case Some(exp) =>
      match D.LoginDecision(d, D.Login(password, device, exp), now, busy)
      case Err(e) => Err(e)
      case Ok(_) => Ok(Auth(uid, email, password, device, exp))
  }

  /** The http login names the user by id. */
  function LoginById(subscribers: map<string, Doc>, uid: string, password: string, device: string, now: int,
                     busy: bool): Result<Auth> {
    if uid == "" || password == "" || device == "" then Err(InvalidArgument)
    else if uid !in subscribers then Err(UserNotFound)
    else
      match TextAt(subscribers[uid], EMAIL_FIELD)
      case None => Err(NoEmailField)
      case Some(email) => LoginBy(uid, email, subscribers[uid], password, device, now, busy)
  }

  /** A login activates the device, or writes nothing. A failed write is ignored. */
  function AfterDecision(before: Db, uid: string, who: D.Login, decision: Result<bool>, o: Outcome): Db {
    if decision == Ok(true) && uid in before.subscribers
    then before.(subscribers := before.subscribers[uid :=
                   Written(o, before.subscribers[uid], Some(D.Activated(before.subscribers[uid], who.device)))])
    else before
  }

  function AfterLogin(before: Db, uid: string, password: string, device: string, now: int, busy: bool, o: Outcome): Db {
    if uid !in before.subscribers || ExpDate(before.subscribers[uid]) == None then before
    else
      var who := D.Login(password, device, ExpDate(before.subscribers[uid]).value);
      AfterDecision(before, uid, who, D.LoginDecision(before.subscribers[uid], who, now, busy), o)
  }

  // ---- when it is accepted -------------------------------------------------------------------

  /** The account is active, has that password and has not expired; the device is known with a status other
      than banned, and nobody is connected from it. */
  predicate MayLogin(d: Doc, password: string, device: string, now: int, busy: bool) {
    && First(d, EXP_DATE_FIELD).Some? && First(d, EXP_DATE_FIELD).value.DateTime?
    && now <= First(d, EXP_DATE_FIELD).value.ms
    && First(d, STATUS_FIELD).Some? && First(d, STATUS_FIELD).value.I32?
    && First(d, STATUS_FIELD) != Some(I32(0)) && First(d, STATUS_FIELD) != Some(I32(2))
    && First(d, PASSWORD_FIELD) == Some(Utf8(password))
    && D.StatusOf(d, device).Some? && D.StatusOf(d, device) != Some(2)
    && !busy
  }

  /** Who may log in is logged in, with his own id, email and expiry date and the password and device he
      named. */
  lemma LoginByIff(uid: string, email: string, d: Doc, password: string, device: string, now: int, busy: bool)
    requires D.UniqueDevices(d)
    ensures var r := LoginBy(uid, email, d, password, device, now, busy);
            && (r.Ok? <==> MayLogin(d, password, device, now, busy))
            && (r.Ok? ==> r.value == Auth(uid, email, password, device, First(d, EXP_DATE_FIELD).value.ms))
  {
    if ExpDate(d).Some? {
      D.AcceptedIff(d, D.Login(password, device, ExpDate(d).value), now, busy);
    }
  }

  /** What the subscribers handler makes of a login: its error, or that the answer was not sent. */
  function LoginReply(uid: string, email: string, d: Doc, password: string, device: string, now: int, busy: bool,
                      answered: bool): Option<Error> {
    match LoginBy(uid, email, d, password, device, now, busy)
    case Err(e) => Some(e)
    case Ok(_) => if answered then None else Some(NotSent)
  }

  /** The handler succeeds, and registers the connection with that login, exactly when the user may log in
      and was told so. */
  lemma LoginReplyIff(uid: string, email: string, d: Doc, password: string, device: string, now: int, busy: bool,
                      answered: bool)
    requires D.UniqueDevices(d)
    ensures var r := LoginReply(uid, email, d, password, device, now, busy, answered);
            && (r == None <==> MayLogin(d, password, device, now, busy) && answered)
            && (r == Some(NotSent) <==> MayLogin(d, password, device, now, busy) && !answered)
            && (r == None ==> LoginBy(uid, email, d, password, device, now, busy)
                              == Ok(Auth(uid, email, password, device, First(d, EXP_DATE_FIELD).value.ms)))
  {
    LoginByIff(uid, email, d, password, device, now, busy);
    if LoginBy(uid, email, d, password, device, now, busy).Err? {
      var i := LoginError(uid, email, d, password, device, now, busy);
    }
  }

  lemma LoginByIdIff(subscribers: map<string, Doc>, uid: string, password: string, device: string, now: int, busy: bool)
    requires uid in subscribers ==> D.UniqueDevices(subscribers[uid])
    ensures var r := LoginById(subscribers, uid, password, device, now, busy);
            && (r.Ok? <==>
                && uid != "" && password != "" && device != "" && uid in subscribers
                && First(subscribers[uid], EMAIL_FIELD).Some? && First(subscribers[uid], EMAIL_FIELD).value.Utf8?
                && MayLogin(subscribers[uid], password, device, now, busy))
            && (r.Ok? ==>
                && First(subscribers[uid], EMAIL_FIELD) == Some(Utf8(r.value.login))
                && First(subscribers[uid], EXP_DATE_FIELD) == Some(DateTime(r.value.expDate))
                && r.value.uid == uid && r.value.password == password && r.value.device == device)
  {
    if uid in subscribers && TextAt(subscribers[uid], EMAIL_FIELD).Some? {
      LoginByIff(uid, TextAt(subscribers[uid], EMAIL_FIELD).value, subscribers[uid], password, device, now, busy);
    }
  }

  lemma LoginByIdEmail(subscribers: map<string, Doc>, uid: string, password: string, device: string, now: int, busy: bool)
    requires LoginById(subscribers, uid, password, device, now, busy).Ok?
    ensures uid in subscribers
    ensures TextAt(subscribers[uid], EMAIL_FIELD) == Some(LoginById(subscribers, uid, password, device, now, busy).value.login)
  {
  }

  /** A rejected login is answered with the error of the first of the checks that fails. */
  lemma LoginError(uid: string, email: string, d: Doc, password: string, device: string, now: int, busy: bool)
    returns (i: nat)
    requires D.UniqueDevices(d) && LoginBy(uid, email, d, password, device, now, busy).Err?
    ensures var e, exp := LoginBy(uid, email, d, password, device, now, busy).error, First(d, EXP_DATE_FIELD);
            if exp.Some? && exp.value.DateTime? then
              var checks := D.Checks(d, D.Login(password, device, exp.value.ms), now, busy);
              i < |checks| && e == checks[i].1 && !checks[i].0 && forall j :: 0 <= j < i ==> checks[j].0
            else e == NoExpDateField
  {
    i := 0;
    if ExpDate(d).Some? {
      i := D.FirstFailure(d, D.Login(password, device, ExpDate(d).value), now, busy);
    }
  }

  lemma ActivatedMoves(d: Doc, device: string)
    requires D.UniqueDevices(d) && D.StatusOf(d, device).Some?
    ensures forall other :: D.StatusOf(D.Activated(d, device), other) ==
                            if other == device then Some(D.ACTIVE) else D.StatusOf(d, other)
  {
    forall other ensures D.StatusOf(D.Activated(d, device), other) ==
                         if other == device then Some(D.ACTIVE) else D.StatusOf(d, other) {
      D.ActivatedStatus(d, device, other);
    }
  }

  /** An accepted login activates exactly the devices that are not active yet. */
  lemma AfterLoginIs(before: Db, uid: string, password: string, device: string, now: int, busy: bool, o: Outcome)
    requires uid in before.subscribers && D.UniqueDevices(before.subscribers[uid])
    ensures var d := before.subscribers[uid];
            AfterLogin(before, uid, password, device, now, busy, o) ==
            if MayLogin(d, password, device, now, busy) && D.StatusOf(d, device) == Some(0)
            then before.(subscribers := before.subscribers[uid := Written(o, d, Some(D.Activated(d, device)))])
            else before
  {
    var d := before.subscribers[uid];
    if ExpDate(d).Some? {
      var who := D.Login(password, device, ExpDate(d).value);
      D.AcceptedIff(d, who, now, busy);
      if D.LoginDecision(d, who, now, busy).Ok? {
        D.DecisionIsStatus(d, who, now, busy);
      }
    }
  }

  /** An accepted login leaves the device active, unless the write is refused; no other device, user or
      collection changes, and a rejected login writes nothing. */
  lemma LoginWrites(before: Db, uid: string, password: string, device: string, now: int, busy: bool, o: Outcome)
    requires uid in before.subscribers && D.UniqueDevices(before.subscribers[uid])
    ensures var d, after := before.subscribers[uid], AfterLogin(before, uid, password, device, now, busy, o);
            && (!MayLogin(d, password, device, now, busy) ==> after == before)
            && (MayLogin(d, password, device, now, busy) ==>
                && uid in after.subscribers
                && after == before.(subscribers := before.subscribers[uid := after.subscribers[uid]])
                && D.StatusOf(after.subscribers[uid], device)
                   == (if D.StatusOf(d, device) == Some(0) && o != Refused then Some(1) else D.StatusOf(d, device))
                && forall other :: other != device ==> D.StatusOf(after.subscribers[uid], other) == D.StatusOf(d, other))
  {
    var d := before.subscribers[uid];
    assert before.subscribers[uid := d] == before.subscribers;
    AfterLoginIs(before, uid, password, device, now, busy, o);
    if MayLogin(d, password, device, now, busy) {
      ActivatedMoves(d, device);
    }
  }

  // ---- what it leaves alone ------------------------------------------------------------------

  predicate SameAccount(d: Doc, e: Doc) {
    && First(e, EMAIL_FIELD) == First(d, EMAIL_FIELD) && First(e, STREAMS_FIELD) == First(d, STREAMS_FIELD)
    && First(e, VODS_FIELD) == First(d, VODS_FIELD) && First(e, CATCHUPS_FIELD) == First(d, CATCHUPS_FIELD)
  }

  /** The same users with the same emails and entries. */
  predicate SameAccounts(a: map<string, Doc>, b: map<string, Doc>) {
    a.Keys == b.Keys && forall u :: u in a ==> SameAccount(a[u], b[u])
  }

  lemma ActivationKeeps(d: Doc, device: string)
    ensures SameAccount(d, D.Activated(d, device))
  {
    var items := Items(d, DEVICES_FIELD);
    var at := PosOf(items, ID_FIELD, device);
    if at < |items| {
      var after := Array(items[at := Document(SetField(items[at].fields, STATUS_FIELD, I32(D.ACTIVE)))]);
      assert D.Activated(d, device) == SetField(d, DEVICES_FIELD, after);
      SetFieldFrame(d, DEVICES_FIELD, after);
    }
  }

  lemma ReplacedAccount(a: map<string, Doc>, uid: string, d: Doc)
    requires uid in a && SameAccount(a[uid], d)
    ensures SameAccounts(a, a[uid := d])
  {
  }
}
