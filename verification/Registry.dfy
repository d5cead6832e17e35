/** The table of live connections as a value: user id -> connections of that user. Generic in the
    identity of a connection. */
module Registry {
  import opened Common

  /** What a login leaves on a connection. */
  datatype Auth = Auth(uid: string, login: string, password: string, device: string, expDate: int)

  /** What the daemons are told about a subscriber. */
  datatype Front = Front(uid: string, login: string, device: string, expDate: int)

  datatype Event = Connected(who: Front) | Disconnected(who: Front)

  function FrontOf(a: Auth): Front {
    Front(a.uid, a.login, a.device, a.expDate)
  }

  type Buckets<C> = map<string, seq<C>>

  function Bucket<C>(m: Buckets<C>, uid: string): seq<C> {
    if uid in m then m[uid] else []
  }

  function Add<C>(m: Buckets<C>, uid: string, c: C): Buckets<C> {
    m[uid := Bucket(m, uid) + [c]]
  }

  function EraseFirst<C(==)>(s: seq<C>, c: C): (t: seq<C>)
    ensures c !in s ==> t == s
    ensures c in s ==> |t| == |s| - 1
  {
    if s == [] then []
    else if s[0] == c then s[1..]
    else [s[0]] + EraseFirst(s[1..], c)
  }

  lemma {:induction false} EraseAt<C>(s: seq<C>, c: C, i: nat)
    requires i <= |s| && c !in s[..i] && (i < |s| ==> s[i] == c)
    ensures EraseFirst(s, c) == if i < |s| then s[..i] + s[i + 1..] else s
  {
    if i > 0 {
      assert s[..i][0] == s[0] && s[1..][..i - 1] == s[..i][1..];
      EraseAt(s[1..], c, i - 1);
      if i < |s| {
        assert s[1..][i..] == s[i + 1..];
        assert [s[0]] + (s[1..][..i - 1] + s[i + 1..]) == s[..i] + s[i + 1..];
      } else {
        assert [s[0]] + s[1..] == s;
      }
    } else if i < |s| {
      assert s[..0] + s[1..] == s[1..];
    }
  }

  function Remove<C(==)>(m: Buckets<C>, uid: string, c: C): Buckets<C> {
    if uid !in m then m
    else if EraseFirst(m[uid], c) == [] then m - {uid}
    else m[uid := EraseFirst(m[uid], c)]
  }

  // ---- everything in a table -----------------------------------------------------------------

  ghost function AnyKey<C>(m: Buckets<C>): (u: string)
    requires m != map[]
    ensures u in m
  {
    assert exists u :: u in m by {
      assert m.Keys != {};
    }
    var u :| u in m; u
  }

  /** All elements of all buckets. */
  ghost function Flatten<C>(m: Buckets<C>): multiset<C>
    decreases |m|
  {
    if m == map[] then multiset{} else var u := AnyKey(m); multiset(m[u]) + Flatten(m - {u})
  }

  lemma {:induction false} FlattenSplit<C>(m: Buckets<C>, u: string)
    requires u in m
    ensures Flatten(m) == multiset(m[u]) + Flatten(m - {u})
    decreases |m|
  {
    var k := AnyKey(m);
    if k != u {
      FlattenSplit(m - {k}, u);
      assert m - {k} - {u} == m - {u} - {k};
      FlattenSplit(m - {u}, k);
    }
  }

  lemma FlattenUpdate<C>(m: Buckets<C>, u: string, s: seq<C>)
    ensures Flatten(m[u := s]) + multiset(Bucket(m, u)) == Flatten(m) + multiset(s)
  {
    FlattenSplit(m[u := s], u);
    assert m[u := s] - {u} == m - {u};
    if u in m {
      FlattenSplit(m, u);
    } else {
      assert m - {u} == m;
    }
  }

  ghost function Mapped<C, T>(m: Buckets<C>, f: C -> Option<T>): Buckets<T> {
    map u | u in m :: Collect(f, m[u])
  }

  /** What `f` shows of every connection in the table. */
  ghost function View<C, T>(m: Buckets<C>, f: C -> Option<T>): multiset<T> {
    Flatten(Mapped(m, f))
  }

  ghost function One<T>(x: Option<T>): multiset<T> {
    match x case None => multiset{} case Some(v) => multiset{v}
  }

  lemma ViewUpdate<C, T>(m: Buckets<C>, u: string, s: seq<C>, f: C -> Option<T>)
    ensures View(m[u := s], f) + multiset(Collect(f, Bucket(m, u))) == View(m, f) + multiset(Collect(f, s))
  {
    MappedUpdate(m, u, s, f);
    FlattenUpdate(Mapped(m, f), u, Collect(f, s));
    MappedBucket(m, u, f);
  }

  lemma MappedUpdate<C, T>(m: Buckets<C>, u: string, s: seq<C>, f: C -> Option<T>)
    ensures Mapped(m[u := s], f) == Mapped(m, f)[u := Collect(f, s)]
  {
  }

  lemma MappedBucket<C, T>(m: Buckets<C>, u: string, f: C -> Option<T>)
    ensures Bucket(Mapped(m, f), u) == Collect(f, Bucket(m, u))
  {
  }

  lemma CollectLast<C, T>(s: seq<C>, c: C, f: C -> Option<T>)
    ensures multiset(Collect(f, s + [c])) == multiset(Collect(f, s)) + One(f(c))
  {
  }

  lemma Cancel<T>(a: multiset<T>, b: multiset<T>, c: multiset<T>)
    requires a + b == c + b
    ensures a == c
  {
    assert a == (a + b) - b;
    assert c == (c + b) - b;
  }

  lemma ViewAdd<C, T>(m: Buckets<C>, u: string, c: C, f: C -> Option<T>)
    ensures View(Add(m, u, c), f) == View(m, f) + One(f(c))
  {
    ViewUpdate(m, u, Bucket(m, u) + [c], f);
    CollectLast(Bucket(m, u), c, f);
    var rest := multiset(Collect(f, Bucket(m, u)));
    assert View(Add(m, u, c), f) + rest == View(m, f) + One(f(c)) + rest;
    Cancel(View(Add(m, u, c), f), rest, View(m, f) + One(f(c)));
  }

  lemma {:induction false} CollectErase<C, T>(s: seq<C>, c: C, f: C -> Option<T>)
    requires c in s
    ensures multiset(Collect(f, EraseFirst(s, c))) + One(f(c)) == multiset(Collect(f, s))
  {
    CollectConcat(f, [s[0]], s[1..]);
    assert [s[0]] + s[1..] == s;
    assert [s[0]][..0] == [];
    assert multiset(Collect(f, [s[0]])) == One(f(s[0]));
    if s[0] != c {
      CollectErase(s[1..], c, f);
      CollectConcat(f, [s[0]], EraseFirst(s[1..], c));
    }
  }

  lemma ViewDrop<C, T>(m: Buckets<C>, u: string, f: C -> Option<T>)
    requires u in m && m[u] == []
    ensures View(m - {u}, f) == View(m, f)
  {
    ViewPick(m, u, f);
  }

  lemma ViewPick<C, T>(m: Buckets<C>, u: string, f: C -> Option<T>)
    requires u in m
    ensures View(m, f) == multiset(Collect(f, m[u])) + View(m - {u}, f)
  {
    assert Mapped(m - {u}, f) == Mapped(m, f) - {u};
    FlattenSplit(Mapped(m, f), u);
  }

  lemma DropShrinks<C>(m: Buckets<C>, u: string)
    requires u in m
    ensures |m - {u}| < |m|
  {
  }

  /** Moving one bucket from what is left to what was collected. */
  lemma ViewCollected<C, T>(m: Buckets<C>, u: string, f: C -> Option<T>, done: seq<T>, all: multiset<T>)
    requires u in m && multiset(done) + View(m, f) == all
    ensures multiset(done + Collect(f, m[u])) + View(m - {u}, f) == all
    ensures |m - {u}| < |m|
  {
    DropShrinks(m, u);
    ViewPick(m, u, f);
    var a, b, rest := multiset(done), multiset(Collect(f, m[u])), View(m - {u}, f);
    assert multiset(done + Collect(f, m[u])) == a + b;
    assert (a + b) + rest == a + (b + rest);
  }

  lemma ViewCounted<C, T>(m: Buckets<C>, u: string, f: C -> Option<T>, x: T)
    requires u in m
    ensures View(m, f)[x] == multiset(Collect(f, m[u]))[x] + View(m - {u}, f)[x]
    ensures |m - {u}| < |m|
  {
    DropShrinks(m, u);
    ViewPick(m, u, f);
  }

  lemma ViewEmpty<C, T>(f: C -> Option<T>)
    ensures View<C, T>(map[], f) == multiset{}
  {
  }

  lemma ViewRemove<C, T>(m: Buckets<C>, u: string, c: C, f: C -> Option<T>)
    requires u in m && c in m[u]
    ensures View(Remove(m, u, c), f) + One(f(c)) == View(m, f)
  {
    var erased := EraseFirst(m[u], c);
    CollectErase(m[u], c, f);
    ViewUpdate(m, u, erased, f);
    var kept, mid := multiset(Collect(f, erased)), View(m[u := erased], f);
    assert mid + One(f(c)) + kept == View(m, f) + kept;
    Cancel(mid + One(f(c)), kept, View(m, f));
    if erased == [] {
      ViewDrop(m[u := erased], u, f);
      assert m[u := erased] - {u} == m - {u};
    }
  }

  /** Only what `f` says about the connections in the table matters. */
  lemma ViewFrame<C, T>(m: Buckets<C>, f: C -> Option<T>, g: C -> Option<T>)
    requires forall u, c :: u in m && c in m[u] ==> f(c) == g(c)
    ensures View(m, f) == View(m, g)
  {
    forall u | u in m ensures Collect(f, m[u]) == Collect(g, m[u]) {
      CollectFrame(m[u], f, g);
    }
    assert Mapped(m, f) == Mapped(m, g);
  }

  lemma {:induction false} CollectFrame<C, T>(s: seq<C>, f: C -> Option<T>, g: C -> Option<T>)
    requires forall c :: c in s ==> f(c) == g(c)
    ensures Collect(f, s) == Collect(g, s)
  {
    if s != [] {
      CollectFrame(s[..|s| - 1], f, g);
      assert s[|s| - 1] in s;
    }
  }

  // ---- well-formed tables --------------------------------------------------------------------

  predicate NoDup<C(==)>(s: seq<C>) {
    forall i, j :: 0 <= i < j < |s| ==> s[i] != s[j]
  }

  /** No bucket is empty, and `owner` says for exactly the connections in the table in which bucket each
      of them occurs, once. */
  ghost predicate Valid<C>(m: Buckets<C>, owner: map<C, string>) {
    && (forall u :: u in m ==> m[u] != [] && NoDup(m[u]))
    && (forall u, c :: u in m && c in m[u] ==> c in owner && owner[c] == u)
    && (forall c :: c in owner ==> owner[c] in m && c in m[owner[c]])
  }

  lemma {:induction false} EraseMember<C>(s: seq<C>, c: C, x: C)
    requires NoDup(s)
    ensures x in EraseFirst(s, c) <==> x in s && x != c
  {
    if s != [] {
      assert s == [s[0]] + s[1..];
      assert s[0] !in s[1..];
      if s[0] != c {
        EraseMember(s[1..], c, x);
      }
    }
  }

  lemma {:induction false} EraseNoDup<C>(s: seq<C>, c: C)
    requires NoDup(s)
    ensures NoDup(EraseFirst(s, c))
  {
    if s != [] && s[0] != c {
      EraseNoDup(s[1..], c);
      EraseMember(s[1..], c, s[0]);
      assert s[0] !in s[1..];
    }
  }

  /** Registering keeps the table well formed exactly when the connection was not registered: this is
      what the guard of the HTTP handler ensures. */
  lemma RegisterKeepsValid<C>(m: Buckets<C>, owner: map<C, string>, u: string, c: C)
    requires Valid(m, owner)
    ensures Valid(Add(m, u, c), owner[c := u]) <==> c !in owner
  {
    var m' := Add(m, u, c);
    if c !in owner {
      assert c !in Bucket(m, u);
    } else {
      var o := owner[c];
      if o != u {
        assert m'[o] == m[o] && c in m'[o];
        assert owner[c := u][c] != o;
      } else {
        var i :| 0 <= i < |m[u]| && m[u][i] == c;
        assert m'[u][i] == m'[u][|m[u]|];
      }
    }
  }

  lemma UnregisterKeepsValid<C>(m: Buckets<C>, owner: map<C, string>, c: C)
    requires Valid(m, owner) && c in owner
    ensures Valid(Remove(m, owner[c], c), owner - {c})
  {
    var u := owner[c];
    EraseNoDup(m[u], c);
    var erased, m' := EraseFirst(m[u], c), Remove(m, u, c);
    forall x | x in owner && x != c ensures owner[x] in m' && x in m'[owner[x]] {
      EraseMember(m[u], c, x);
    }
    forall v, x | v in m' && x in m'[v] ensures x in owner && x != c && owner[x] == v {
      EraseMember(m[u], c, x);
      assert if v == u then x in erased else x in m[v];
    }
  }

  // ---- devices -------------------------------------------------------------------------------

  /** The check of a login: is some connection of this user logged in from this device? */
  predicate Busy<C>(s: seq<C>, device: C -> Option<string>, d: string) {
    exists i :: 0 <= i < |s| && device(s[i]) == Some(d)
  }

  function CountDevice<C>(s: seq<C>, device: C -> Option<string>, d: string): nat {
    if s == [] then 0
    else CountDevice(s[..|s| - 1], device, d) + if device(s[|s| - 1]) == Some(d) then 1 else 0
  }

  lemma {:induction false} NotBusyCountsZero<C>(s: seq<C>, device: C -> Option<string>, d: string)
    ensures Busy(s, device, d) <==> CountDevice(s, device, d) > 0
  {
    if s != [] {
      var p := s[..|s| - 1];
      NotBusyCountsZero(p, device, d);
      assert forall i :: 0 <= i < |p| ==> p[i] == s[i];
      if Busy(s, device, d) {
        var i :| 0 <= i < |s| && device(s[i]) == Some(d);
        assert i < |p| ==> device(p[i]) == Some(d);
      }
    }
  }

  lemma {:induction false} CountConcat<C>(s: seq<C>, t: seq<C>, device: C -> Option<string>, d: string)
    ensures CountDevice(s + t, device, d) == CountDevice(s, device, d) + CountDevice(t, device, d)
  {
    if t == [] {
      assert s + t == s;
    } else {
      var n := |t| - 1;
      assert (s + t)[..|s| + n] == s + t[..n];
      CountConcat(s, t[..n], device, d);
    }
  }

  lemma {:induction false} CountErase<C>(s: seq<C>, c: C, device: C -> Option<string>, d: string)
    ensures CountDevice(EraseFirst(s, c), device, d) <= CountDevice(s, device, d)
  {
    if s != [] {
      assert s == [s[0]] + s[1..];
      CountConcat([s[0]], s[1..], device, d);
      if s[0] != c {
        CountErase(s[1..], c, device, d);
        CountConcat([s[0]], EraseFirst(s[1..], c), device, d);
      }
    }
  }

  lemma {:induction false} CountFrame<C>(s: seq<C>, f: C -> Option<string>, g: C -> Option<string>, d: string)
    requires forall c :: c in s ==> f(c) == g(c)
    ensures CountDevice(s, f, d) == CountDevice(s, g, d)
  {
    if s != [] {
      CountFrame(s[..|s| - 1], f, g, d);
      assert s[|s| - 1] in s;
    }
  }

  // ---- what connections show, and what the observer is told ----------------------------------

  function DeviceBy<C(==)>(login: map<C, Option<Auth>>): C -> Option<string> {
    (c: C) => if c in login && login[c].Some? then Some(login[c].value.device) else None
  }

  function FrontBy<C(==)>(login: map<C, Option<Auth>>): C -> Option<Front> {
    (c: C) => if c in login && login[c].Some? then Some(FrontOf(login[c].value)) else None
  }

  function StreamBy<C(==)>(stream: map<C, string>): C -> Option<string> {
    (c: C) => Some(if c in stream then stream[c] else "")
  }

  /** What the daemons know after a log of events: None if someone left who was not there. */
  function Replay(log: seq<Event>): Option<multiset<Front>> {
    if log == [] then Some(multiset{})
    else
      match Replay(log[..|log| - 1])
      case None => None
      case Some(m) =>
        match log[|log| - 1]
        case Connected(f) => Some(m + multiset{f})
        case Disconnected(f) => if f in m then Some(m - multiset{f}) else None
  }

  lemma ReplayLast(log: seq<Event>, e: Event)
    ensures (log + [e])[..|log|] == log
  {
  }

  lemma LogAdd<C>(m: Buckets<C>, log: seq<Event>, f: C -> Option<Front>, u: string, c: C, who: Front)
    requires Replay(log) == Some(View(m, f)) && f(c) == Some(who)
    ensures Replay(log + [Connected(who)]) == Some(View(Add(m, u, c), f))
  {
    ViewAdd(m, u, c, f);
    ReplayLast(log, Connected(who));
  }

  lemma LogRemove<C>(m: Buckets<C>, log: seq<Event>, f: C -> Option<Front>, u: string, c: C, who: Front)
    requires Replay(log) == Some(View(m, f)) && f(c) == Some(who) && u in m && c in m[u]
    ensures Replay(log + [Disconnected(who)]) == Some(View(Remove(m, u, c), f))
  {
    ViewRemove(m, u, c, f);
    ReplayLast(log, Disconnected(who));
    MultisetMinus(View(Remove(m, u, c), f), who);
  }

  lemma MultisetMinus(m: multiset<Front>, x: Front)
    ensures (m + multiset{x}) - multiset{x} == m && x in m + multiset{x}
  {
  }

  // ---- tables and logs that belong together --------------------------------------------------

  /** Everyone in a table. */
  function Members<C(==)>(m: Buckets<C>): set<C> {
    set u, c | u in m && c in m[u] :: c
  }

  function OwnersOf<C(==)>(login: map<C, Option<Auth>>): map<C, string> {
    map c | c in login && login[c].Some? :: login[c].value.uid
  }

  /** `login` covers exactly the members and each is logged in; each stands once in the bucket of its user,
      no bucket is empty, and what the observer was told adds up to who is there. */
  ghost predicate TableOk<C>(m: Buckets<C>, login: map<C, Option<Auth>>, log: seq<Event>) {
    && (forall c :: c in login ==> login[c].Some?)
    && Valid(m, OwnersOf(login))
    && Replay(log) == Some(View(m, FrontBy(login)))
  }

  lemma AddedMembers<C>(m: Buckets<C>, u: string, c: C)
    ensures Members(Add(m, u, c)) == Members(m) + {c}
  {
    var m' := Add(m, u, c);
    assert c in m'[u];
    forall x | x in Members(m) ensures x in Members(m') {
      var v :| v in m && x in m[v];
      assert v in m' && x in m'[v];
    }
  }

  lemma ValidMembers<C>(m: Buckets<C>, owner: map<C, string>)
    requires Valid(m, owner)
    ensures Members(m) == owner.Keys
  {
  }

  lemma RemovedMembers<C>(m: Buckets<C>, owner: map<C, string>, c: C)
    requires Valid(m, owner) && c in owner
    ensures Members(Remove(m, owner[c], c)) == Members(m) - {c}
  {
    UnregisterKeepsValid(m, owner, c);
    ValidMembers(m, owner);
    ValidMembers(Remove(m, owner[c], c), owner - {c});
  }

  lemma TableAdd<C>(m: Buckets<C>, login: map<C, Option<Auth>>, log: seq<Event>, c: C, a: Auth)
    requires TableOk(m, login, log) && c !in login
    ensures TableOk(Add(m, a.uid, c), login[c := Some(a)], log + [Connected(FrontOf(a))])
  {
    var login' := login[c := Some(a)];
    RegisterKeepsValid(m, OwnersOf(login), a.uid, c);
    assert OwnersOf(login') == OwnersOf(login)[c := a.uid];
    AddedFronts(m, login, c, a);
    LogAdd(m, log, FrontBy(login'), a.uid, c, FrontOf(a));
  }

  lemma AddedFronts<C>(m: Buckets<C>, login: map<C, Option<Auth>>, c: C, a: Auth)
    requires Valid(m, OwnersOf(login)) && c !in login
    ensures View(m, FrontBy(login)) == View(m, FrontBy(login[c := Some(a)]))
  {
    forall u, x | u in m && x in m[u] ensures FrontBy(login)(x) == FrontBy(login[c := Some(a)])(x) {
      assert x in OwnersOf(login);
    }
    ViewFrame(m, FrontBy(login), FrontBy(login[c := Some(a)]));
  }

  lemma TableRemove<C>(m: Buckets<C>, login: map<C, Option<Auth>>, log: seq<Event>, c: C)
    requires TableOk(m, login, log) && c in login
    ensures TableOk(Remove(m, login[c].value.uid, c), login - {c}, log + [Disconnected(FrontOf(login[c].value))])
  {
    var a, owner := login[c].value, OwnersOf(login);
    var m' := Remove(m, a.uid, c);
    assert owner[c] == a.uid;
    UnregisterKeepsValid(m, owner, c);
    assert OwnersOf(login - {c}) == owner - {c};
    LogRemove(m, log, FrontBy(login), a.uid, c, FrontOf(a));
    RemovedFronts(m', login, c);
  }

  lemma RemovedFronts<C>(m: Buckets<C>, login: map<C, Option<Auth>>, c: C)
    requires Valid(m, OwnersOf(login - {c}))
    ensures View(m, FrontBy(login)) == View(m, FrontBy(login - {c}))
  {
    forall u, x | u in m && x in m[u] ensures FrontBy(login)(x) == FrontBy(login - {c})(x) {
      assert x in OwnersOf(login - {c});
    }
    ViewFrame(m, FrontBy(login), FrontBy(login - {c}));
  }

  /** The table after an entry, given what the logins of its members are then. */
  lemma TableAdded<C>(m: Buckets<C>, before: map<C, Option<Auth>>, log: seq<Event>, c: C, a: Auth,
                      now: map<C, Option<Auth>>)
    requires TableOk(m, before, log) && before.Keys == Members(m) && c !in before
    requires now.Keys == Members(Add(m, a.uid, c))
    requires forall x :: x in now ==> now[x] == if x == c then Some(a) else if x in before then before[x] else None
    ensures TableOk(Add(m, a.uid, c), now, log + [Connected(FrontOf(a))])
  {
    AddedMembers(m, a.uid, c);
    assert now == before[c := Some(a)];
    TableAdd(m, before, log, c, a);
  }

  lemma TableRemoved<C>(m: Buckets<C>, before: map<C, Option<Auth>>, log: seq<Event>, c: C, a: Auth,
                        now: map<C, Option<Auth>>)
    requires TableOk(m, before, log) && before.Keys == Members(m) && c in before && before[c] == Some(a)
    requires now.Keys == Members(Remove(m, a.uid, c))
    requires forall x :: x in now && x in before ==> now[x] == before[x]
    ensures TableOk(Remove(m, a.uid, c), now, log + [Disconnected(FrontOf(a))]) && c !in now
  {
    RemovedMembers(m, OwnersOf(before), c);
    assert now == before - {c};
    TableRemove(m, before, log, c);
  }

  /** No device of a user is connected twice. */
  ghost predicate OnePerDevice<C>(m: Buckets<C>, login: map<C, Option<Auth>>) {
    forall u, d :: CountDevice(Bucket(m, u), DeviceBy(login), d) <= 1
  }

  lemma CountSingle<C>(c: C, f: C -> Option<string>, d: string)
    ensures CountDevice([c], f, d) == if f(c) == Some(d) then 1 else 0
  {
  }

  /** A login that found the device free keeps it so. */
  lemma OnePerDeviceAdd<C>(m: Buckets<C>, before: map<C, Option<Auth>>, c: C, a: Auth, now: map<C, Option<Auth>>)
    requires OnePerDevice(m, before) && !Busy(Bucket(m, a.uid), DeviceBy(before), a.device)
    requires before.Keys == Members(m) && c !in before && now.Keys == Members(Add(m, a.uid, c))
    requires forall x :: x in now ==> now[x] == if x == c then Some(a) else if x in before then before[x] else None
    ensures OnePerDevice(Add(m, a.uid, c), now)
  {
    AddedMembers(m, a.uid, c);
    forall u, d ensures CountDevice(Bucket(Add(m, a.uid, c), u), DeviceBy(now), d) <= 1 {
      assert CountDevice(Bucket(m, u), DeviceBy(before), d) <= 1;
      forall x | x in Bucket(m, u) ensures DeviceBy(before)(x) == DeviceBy(now)(x) {
        assert x in Members(m);
      }
      CountFrame(Bucket(m, u), DeviceBy(before), DeviceBy(now), d);
      NotBusyCountsZero(Bucket(m, u), DeviceBy(before), d);
      if u == a.uid {
        CountSingle(c, DeviceBy(now), d);
        CountConcat(Bucket(m, u), [c], DeviceBy(now), d);
      }
    }
  }
}
