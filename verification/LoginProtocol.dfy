/** Several event loops over one registry. Each critical section of the registry is one step. A loop that
    passed the device check still has to stamp the login on its connection and to register it, and a loop
    that counted the watchers of a stream still has to move its client there; other loops may step in
    between. */
module LoginProtocol {
  import opened Common
  import opened Registry

  /** Where a loop stands inside a login or a request for the runtime info. */
  datatype Pc =
    | Idle
    | Passed(c: nat, auth: Auth)
    | Stamped(c: nat, auth: Auth)
    | Counted(c: nat, sid: string, reply: nat)

  /** Open connections are the keys of `login`, `stream` and `home`; `home` is the loop a connection
      belongs to; `log` is what the observer was told. */
  datatype State = State(
    buckets: Buckets<nat>, login: map<nat, Option<Auth>>, stream: map<nat, string>, home: map<nat, nat>,
    pcs: seq<Pc>, log: seq<Event>)

  datatype Step =
    | Accept(loop: nat, c: nat)
    | Check(loop: nat, c: nat, auth: Auth)
    | Abort(loop: nat)
    | Stamp(loop: nat)
    | Push(loop: nat)
    | Count(loop: nat, c: nat, sid: string)
    | Move(loop: nat)
    | Watch(loop: nat, c: nat, sid: string)
    | Close(loop: nat, c: nat)

  function Init(n: nat): State {
    State(map[], map[], map[], map[], seq(n, i => Idle), [])
  }

  /** The current streams of the registered connections; a connection that watches nothing has the
      stream id "". */
  ghost function Watched(s: State): multiset<string> {
    View(s.buckets, StreamBy(s.stream))
  }

  /** The number GetAndUpdateOnlineUserByStreamID counts. */
  ghost function Watching(s: State, sid: string): nat {
    Watched(s)[sid]
  }

  predicate Owns(s: State, loop: nat, c: nat) {
    c in s.login && c in s.stream && c in s.home && s.home[c] == loop
  }

  predicate Enabled(s: State, step: Step) {
    step.loop < |s.pcs| &&
    match step
    case Accept(l, c) => s.pcs[l].Idle? && c !in s.login
    case Check(l, c, auth) => s.pcs[l].Idle? && Owns(s, l, c)
    case Abort(l) => s.pcs[l].Passed?
    case Stamp(l) => s.pcs[l].Passed?
    case Push(l) => s.pcs[l].Stamped?
    case Count(l, c, sid) => s.pcs[l].Idle? && Owns(s, l, c) && s.login[c].Some?
    case Move(l) => s.pcs[l].Counted?
    case Watch(l, c, sid) => s.pcs[l].Idle? && Owns(s, l, c) && s.login[c].Some?
    case Close(l, c) => s.pcs[l].Idle? && Owns(s, l, c)
  }

  /** A connection logs in only while it has no login. */
  predicate Guarded(s: State, step: Step)
    requires Enabled(s, step)
  {
    step.Check? ==> s.login[step.c] == None
  }

  /** The http handler moves a client without counting (Watch); the subscribers handler counts under the
      lock (Count) and moves the client afterwards, outside of it (Move). */
  ghost function Next(s: State, step: Step): State
    requires Enabled(s, step)
  {
    match step
    case Accept(l, c) => s.(login := s.login[c := None], stream := s.stream[c := ""], home := s.home[c := l])
    case Check(l, c, a) =>
      if Busy(Bucket(s.buckets, a.uid), DeviceBy(s.login), a.device) then s else s.(pcs := s.pcs[l := Passed(c, a)])
    case Abort(l) => s.(pcs := s.pcs[l := Idle])
    case Stamp(l) =>
      var Passed(c, a) := s.pcs[l];
      s.(login := s.login[c := Some(a)], pcs := s.pcs[l := Stamped(c, a)])
    case Push(l) =>
      var Stamped(c, a) := s.pcs[l];
      s.(buckets := Add(s.buckets, a.uid, c), pcs := s.pcs[l := Idle], log := s.log + [Connected(FrontOf(a))])
    case Count(l, c, sid) => s.(pcs := s.pcs[l := Counted(c, sid, Watching(s, sid))])
    case Move(l) => s.(stream := s.stream[s.pcs[l].c := s.pcs[l].sid], pcs := s.pcs[l := Idle])
    case Watch(l, c, sid) => s.(stream := s.stream[c := sid])
    case Close(l, c) =>
      var gone := s.(login := s.login - {c}, stream := s.stream - {c}, home := s.home - {c});
      match s.login[c]
      case None => gone
      case Some(a) =>
        gone.(buckets := Remove(s.buckets, a.uid, c), log := s.log + [Disconnected(FrontOf(a))])
  }

  /** Runs of n loops in which connections log in only once. */
  ghost function Run(n: nat, steps: seq<Step>): Option<State> {
    if steps == [] then Some(Init(n))
    else
      var before, step := Run(n, steps[..|steps| - 1]), steps[|steps| - 1];
      if before.Some? && Enabled(before.value, step) && Guarded(before.value, step)
      then Some(Next(before.value, step))
      else None
  }

  // ---- what is registered --------------------------------------------------------------------

  /** A connection with a login is registered unless its loop is just about to register it. */
  predicate Registered(s: State, c: nat) {
    c in s.login && s.login[c].Some? && c in s.home && s.home[c] < |s.pcs|
    && !(s.pcs[s.home[c]].Stamped? && s.pcs[s.home[c]].c == c)
  }

  function Owner(s: State): map<nat, string> {
    map c | c in s.login && Registered(s, c) :: s.login[c].value.uid
  }

  predicate PcOk(s: State, l: nat)
    requires l < |s.pcs|
  {
    match s.pcs[l]
    case Idle => true
    case Passed(c, a) => Owns(s, l, c) && s.login[c] == None
    case Stamped(c, a) => Owns(s, l, c) && s.login[c] == Some(a)
    case Counted(c, _, _) => Owns(s, l, c) && s.login[c].Some?
  }

  predicate LoopsOk(s: State) {
    && s.login.Keys == s.stream.Keys == s.home.Keys
    && (forall l :: 0 <= l < |s.pcs| ==> PcOk(s, l))
    && (forall c :: c in s.home ==> s.home[c] < |s.pcs|)
  }

  /** The loop is about to register this user from this device. */
  predicate IsWaiting(pc: Pc, u: string, d: string) {
    (pc.Passed? || pc.Stamped?) && pc.auth.uid == u && pc.auth.device == d
  }

  /** Logins of a user from a device that passed the check and are not registered yet. */
  function Waiting(pcs: seq<Pc>, u: string, d: string): nat {
    if pcs == [] then 0
    else
      var pc := pcs[|pcs| - 1];
      Waiting(pcs[..|pcs| - 1], u, d) + if IsWaiting(pc, u, d) then 1 else 0
  }

  function Connections(s: State, u: string, d: string): nat {
    CountDevice(Bucket(s.buckets, u), DeviceBy(s.login), d)
  }

  ghost predicate Bounded(s: State) {
    forall u, d :: Connections(s, u, d) + Waiting(s.pcs, u, d) <= |s.pcs|
  }

  ghost predicate Inv(s: State) {
    && LoopsOk(s)
    && Valid(s.buckets, Owner(s))
    && Replay(s.log) == Some(View(s.buckets, FrontBy(s.login)))
    && Bounded(s)
  }

  // ---- the steps keep it ---------------------------------------------------------------------

  lemma LoopsStep(s: State, step: Step)
    requires LoopsOk(s) && Enabled(s, step) && Guarded(s, step)
    ensures LoopsOk(Next(s, step))
  {
    var s' := Next(s, step);
    forall l | 0 <= l < |s'.pcs| ensures PcOk(s', l) {
      assert PcOk(s, l) && PcOk(s, step.loop);
    }
    if step.Accept? {
      assert s'.login.Keys == s.login.Keys + {step.c} == s'.home.Keys == s'.stream.Keys;
    } else if step.Close? {
      assert s'.login.Keys == s.login.Keys - {step.c} == s'.home.Keys == s'.stream.Keys;
    } else {
      assert PcOk(s, step.loop);
      assert s'.login.Keys == s.login.Keys && s'.stream.Keys == s.stream.Keys;
    }
  }

  lemma RegisteredStep(s: State, step: Step, c: nat)
    requires LoopsOk(s) && Enabled(s, step) && Guarded(s, step)
    ensures Registered(Next(s, step), c) <==>
            (Registered(s, c) && !(step.Close? && step.c == c)) || (step.Push? && s.pcs[step.loop].c == c)
    ensures Registered(s, c) && Registered(Next(s, step), c) ==> Next(s, step).login[c] == s.login[c]
    ensures step.Push? && s.pcs[step.loop].c == c ==>
              !Registered(s, c) && s.login[c] == Some(s.pcs[step.loop].auth)
    ensures step.Close? && step.c == c && s.login[c].Some? ==> Registered(s, c)
  {
    assert PcOk(s, step.loop);
    if c in s.home {
      assert PcOk(s, s.home[c]);
    }
  }

  lemma OwnerPush(s: State, step: Step)
    requires LoopsOk(s) && Enabled(s, step) && Guarded(s, step) && step.Push?
    ensures Owner(Next(s, step)) == Owner(s)[s.pcs[step.loop].c := s.pcs[step.loop].auth.uid]
    ensures s.pcs[step.loop].c !in Owner(s)
  {
    forall c: nat
      ensures Registered(Next(s, step), c) <==> Registered(s, c) || s.pcs[step.loop].c == c
      ensures s.pcs[step.loop].c == c ==> !Registered(s, c) && s.login[c] == Some(s.pcs[step.loop].auth)
    {
      RegisteredStep(s, step, c);
    }
    assert Registered(Next(s, step), s.pcs[step.loop].c);
  }

  lemma OwnerClose(s: State, step: Step)
    requires LoopsOk(s) && Enabled(s, step) && Guarded(s, step) && step.Close?
    ensures Owner(Next(s, step)) == Owner(s) - {step.c}
    ensures s.login[step.c].Some? ==> step.c in Owner(s) && Owner(s)[step.c] == s.login[step.c].value.uid
  {
  }

  lemma OwnerOther(s: State, step: Step)
    requires LoopsOk(s) && Enabled(s, step) && Guarded(s, step) && !step.Push? && !step.Close?
    ensures Owner(Next(s, step)) == Owner(s)
  {
    forall c: nat
      ensures Registered(Next(s, step), c) <==> Registered(s, c)
      ensures Registered(s, c) ==> Next(s, step).login[c] == s.login[c]
    {
      RegisteredStep(s, step, c);
    }
  }

  /** Only the last step of a login and a close change who is registered. */
  lemma OwnerStep(s: State, step: Step)
    requires LoopsOk(s) && Enabled(s, step) && Guarded(s, step)
    ensures Owner(Next(s, step)) ==
            (if step.Push? then Owner(s)[s.pcs[step.loop].c := s.pcs[step.loop].auth.uid]
             else if step.Close? then Owner(s) - {step.c} else Owner(s))
    ensures step.Push? ==> s.pcs[step.loop].c !in Owner(s)
    ensures step.Close? && s.login[step.c].Some? ==>
              step.c in Owner(s) && Owner(s)[step.c] == s.login[step.c].value.uid
  {
    if step.Push? {
      OwnerPush(s, step);
    } else if step.Close? {
      OwnerClose(s, step);
    } else {
      OwnerOther(s, step);
    }
  }

  lemma ValidStep(s: State, step: Step)
    requires LoopsOk(s) && Valid(s.buckets, Owner(s)) && Enabled(s, step) && Guarded(s, step)
    ensures Valid(Next(s, step).buckets, Owner(Next(s, step)))
  {
    OwnerStep(s, step);
    if step.Push? {
      RegisterKeepsValid(s.buckets, Owner(s), s.pcs[step.loop].auth.uid, s.pcs[step.loop].c);
    } else if step.Close? && s.login[step.c].Some? {
      UnregisterKeepsValid(s.buckets, Owner(s), step.c);
    } else if step.Close? {
      assert Owner(s) - {step.c} == Owner(s);
    }
  }

  /** Connections in the table keep their login while other connections get or lose theirs. */
  lemma LoginsStay(s: State, step: Step, u: string, c: nat)
    requires LoopsOk(s) && Valid(s.buckets, Owner(s)) && Enabled(s, step) && Guarded(s, step)
    requires u in Next(s, step).buckets && c in Next(s, step).buckets[u]
    ensures c in s.login && c in Next(s, step).login && Next(s, step).login[c] == s.login[c]
  {
    ValidStep(s, step);
    OwnerStep(s, step);
    assert c in Owner(Next(s, step));
    assert PcOk(s, step.loop);
  }

  lemma LogStep(s: State, step: Step)
    requires LoopsOk(s) && Valid(s.buckets, Owner(s)) && Enabled(s, step) && Guarded(s, step)
    requires Replay(s.log) == Some(View(s.buckets, FrontBy(s.login)))
    ensures Replay(Next(s, step).log) == Some(View(Next(s, step).buckets, FrontBy(Next(s, step).login)))
  {
    var s', f := Next(s, step), FrontBy(s.login);
    forall u, c | u in s'.buckets && c in s'.buckets[u] ensures f(c) == FrontBy(s'.login)(c) {
      LoginsStay(s, step, u, c);
    }
    ViewFrame(s'.buckets, f, FrontBy(s'.login));
    LogKept(s, step);
  }

  /** The event of a step is exactly the change in who is online. */
  lemma LogKept(s: State, step: Step)
    requires LoopsOk(s) && Valid(s.buckets, Owner(s)) && Enabled(s, step) && Guarded(s, step)
    requires Replay(s.log) == Some(View(s.buckets, FrontBy(s.login)))
    ensures Replay(Next(s, step).log) == Some(View(Next(s, step).buckets, FrontBy(s.login)))
  {
    var f := FrontBy(s.login);
    if step.Push? {
      assert PcOk(s, step.loop);
      LogAdd(s.buckets, s.log, f, s.pcs[step.loop].auth.uid, s.pcs[step.loop].c, FrontOf(s.pcs[step.loop].auth));
    } else if step.Close? && s.login[step.c].Some? {
      OwnerStep(s, step);
      LogRemove(s.buckets, s.log, f, s.login[step.c].value.uid, step.c, FrontOf(s.login[step.c].value));
    }
  }

  // ---- the bound on connections of one device ------------------------------------------------

  lemma {:induction false} WaitingUpdate(pcs: seq<Pc>, l: nat, pc: Pc, u: string, d: string)
    requires l < |pcs|
    ensures Waiting(pcs[l := pc], u, d) + Waiting([pcs[l]], u, d) == Waiting(pcs, u, d) + Waiting([pc], u, d)
  {
    var n := |pcs| - 1;
    assert [pcs[l]][..0] == [] && [pc][..0] == [];
    if l == n {
      assert pcs[l := pc][..n] == pcs[..n];
    } else {
      WaitingUpdate(pcs[..n], l, pc, u, d);
      assert pcs[l := pc][..n] == pcs[..n][l := pc];
    }
  }

  lemma {:induction false} WaitingAtMostAll(pcs: seq<Pc>, u: string, d: string)
    ensures Waiting(pcs, u, d) <= |pcs|
  {
    if pcs != [] {
      WaitingAtMostAll(pcs[..|pcs| - 1], u, d);
    }
  }

  lemma BoundStep(s: State, step: Step, u: string, d: string)
    requires LoopsOk(s) && Valid(s.buckets, Owner(s)) && Enabled(s, step) && Guarded(s, step)
    requires Connections(s, u, d) + Waiting(s.pcs, u, d) <= |s.pcs|
    ensures var s' := Next(s, step); Connections(s', u, d) + Waiting(s'.pcs, u, d) <= |s'.pcs|
  {
    var s', f := Next(s, step), DeviceBy(s.login);
    forall c | c in Bucket(s'.buckets, u) ensures f(c) == DeviceBy(s'.login)(c) {
      LoginsStay(s, step, u, c);
    }
    CountFrame(Bucket(s'.buckets, u), f, DeviceBy(s'.login), d);
    BoundKept(s, step, u, d);
  }

  /** The bound with the logins before the step: a check that passes found nobody registered; after that
      the login only moves from waiting to registered. */
  lemma BoundKept(s: State, step: Step, u: string, d: string)
    requires LoopsOk(s) && Enabled(s, step)
    requires Connections(s, u, d) + Waiting(s.pcs, u, d) <= |s.pcs|
    ensures var s' := Next(s, step);
            CountDevice(Bucket(s'.buckets, u), DeviceBy(s.login), d) + Waiting(s'.pcs, u, d) <= |s'.pcs|
  {
    var s', f, l := Next(s, step), DeviceBy(s.login), step.loop;
    WaitingUpdate(s.pcs, l, s'.pcs[l], u, d);
    WaitingOne(s.pcs[l], u, d);
    WaitingOne(s'.pcs[l], u, d);
    assert s'.pcs == s.pcs[l := s'.pcs[l]];
    match step
    case Check(_, c, a) =>
      if s' != s && a.uid == u && a.device == d {
        NotBusyCountsZero(Bucket(s.buckets, u), f, d);
        WaitingAtMostAll(s'.pcs, u, d);
      }
    case Push(_) =>
      assert PcOk(s, l);
      CountSingle(s.pcs[l].c, f, d);
      CountConcat(Bucket(s.buckets, s.pcs[l].auth.uid), [s.pcs[l].c], f, d);
    case Close(_, c) =>
      CountErase(Bucket(s.buckets, u), c, f, d);
    case _ =>
  }

  lemma WaitingOne(pc: Pc, u: string, d: string)
    ensures Waiting([pc], u, d) == if IsWaiting(pc, u, d) then 1 else 0
  {
  }

  lemma InvStep(s: State, step: Step)
    requires Inv(s) && Enabled(s, step) && Guarded(s, step)
    ensures Inv(Next(s, step))
  {
    LoopsStep(s, step);
    ValidStep(s, step);
    LogStep(s, step);
    forall u, d ensures Connections(Next(s, step), u, d) + Waiting(Next(s, step).pcs, u, d) <= |Next(s, step).pcs| {
      assert Connections(s, u, d) + Waiting(s.pcs, u, d) <= |s.pcs|;
      BoundStep(s, step, u, d);
    }
  }

  lemma InvInit(n: nat)
    ensures Inv(Init(n))
  {
    var s := Init(n);
    assert Owner(s) == map[];
    assert Mapped(s.buckets, FrontBy(s.login)) == map[];
    forall u, d ensures Connections(s, u, d) + Waiting(s.pcs, u, d) <= |s.pcs| {
      WaitingAtMostAll(s.pcs, u, d);
    }
  }

  /** Every run of n loops: the table is well formed, the event log replays to exactly who is online, and
      no device of a user has more than n connections registered or on their way. */
  lemma {:induction false} RunSafe(n: nat, steps: seq<Step>)
    requires Run(n, steps).Some?
    ensures Inv(Run(n, steps).value) && |Run(n, steps).value.pcs| == n
  {
    if steps == [] {
      InvInit(n);
    } else {
      RunSafe(n, steps[..|steps| - 1]);
      InvStep(Run(n, steps[..|steps| - 1]).value, steps[|steps| - 1]);
    }
  }

  /** With a single loop a device is never logged in twice. */
  lemma OneLoopOneConnection(steps: seq<Step>, u: string, d: string)
    requires Run(1, steps).Some?
    ensures Connections(Run(1, steps).value, u, d) <= 1
  {
    RunSafe(1, steps);
    var s := Run(1, steps).value;
    assert Connections(s, u, d) + Waiting(s.pcs, u, d) <= |s.pcs|;
  }

  // ---- how sharp this is ---------------------------------------------------------------------

  lemma RunSnoc(n: nat, steps: seq<Step>, step: Step)
    ensures Run(n, steps + [step]) ==
            match Run(n, steps)
            case None => None
            case Some(s) => if Enabled(s, step) && Guarded(s, step) then Some(Next(s, step)) else None
  {
  }

  function UpTo(k: nat): (s: seq<nat>)
    ensures |s| == k && forall c: nat :: c in s <==> c < k
  {
    if k == 0 then [] else UpTo(k - 1) + [k - 1]
  }

  /** The first `k` of n loops have each accepted a connection and passed the check for it. */
  function PassedLoops(n: nat, k: nat, a: Auth): State {
    State(map[], map c | c in UpTo(k) :: None, map c | c in UpTo(k) :: "", map c | c in UpTo(k) :: c,
          seq(n, i requires 0 <= i < n => if i < k then Passed(i, a) else Idle), [])
  }

  lemma OneMorePasses(n: nat, k: nat, a: Auth)
    requires k < n
    ensures var s := PassedLoops(n, k, a);
            && Enabled(s, Accept(k, k)) && Enabled(Next(s, Accept(k, k)), Check(k, k, a))
            && Guarded(Next(s, Accept(k, k)), Check(k, k, a))
            && Next(Next(s, Accept(k, k)), Check(k, k, a)) == PassedLoops(n, k + 1, a)
  {
    var s, t := PassedLoops(n, k, a), PassedLoops(n, k + 1, a);
    assert t.login == s.login[k := None];
    assert t.stream == s.stream[k := ""];
    assert t.home == s.home[k := k];
    assert t.pcs == s.pcs[k := Passed(k, a)];
  }

  lemma PassRun(n: nat, run: seq<Step>, k: nat, a: Auth)
    requires k < n && Run(n, run) == Some(PassedLoops(n, k, a))
    ensures Run(n, run + [Accept(k, k)] + [Check(k, k, a)]) == Some(PassedLoops(n, k + 1, a))
  {
    OneMorePasses(n, k, a);
    RunSnoc(n, run, Accept(k, k));
    RunSnoc(n, run + [Accept(k, k)], Check(k, k, a));
  }

  lemma {:induction false} AllPass(n: nat, k: nat, a: Auth) returns (steps: seq<Step>)
    requires k <= n
    ensures Run(n, steps) == Some(PassedLoops(n, k, a))
  {
    if k == 0 {
      steps := [];
      assert PassedLoops(n, 0, a).pcs == Init(n).pcs;
    } else {
      var before := AllPass(n, k - 1, a);
      PassRun(n, before, k - 1, a);
      steps := before + [Accept(k - 1, k - 1)] + [Check(k - 1, k - 1, a)];
    }
  }

  /** What is left of a login once the check has passed. */
  ghost function Enter(s: State, l: nat): State
    requires l < |s.pcs| && s.pcs[l].Passed?
  {
    Next(Next(s, Stamp(l)), Push(l))
  }

  /** Each loop has one connection; the first `k` are logged in and their loops idle, the others have
      passed the check. */
  predicate Entering(s: State, n: nat, k: nat, a: Auth) {
    && |s.pcs| == n && k <= n
    && (forall c: nat :: c < n ==> Owns(s, c, c) && s.stream[c] == "")
    && (forall i: nat :: k <= i < n ==> s.pcs[i] == Passed(i, a))
    && (forall c: nat :: c < k ==> s.pcs[c].Idle? && c in s.login && s.login[c] == Some(a))
    && Bucket(s.buckets, a.uid) == UpTo(k)
  }

  lemma OneMoreEnters(s: State, n: nat, k: nat, a: Auth)
    requires k < n && Entering(s, n, k, a)
    ensures Entering(Enter(s, k), n, k + 1, a)
  {
    assert Owns(s, k, k);
    forall c: nat | c < n ensures Owns(Enter(s, k), c, c) && Enter(s, k).stream[c] == "" {
      assert Owns(s, c, c);
    }
  }

  lemma EnterRun(n: nat, run: seq<Step>, l: nat)
    requires Run(n, run).Some? && l < |Run(n, run).value.pcs| && Run(n, run).value.pcs[l].Passed?
    ensures Run(n, run + [Stamp(l)] + [Push(l)]) == Some(Enter(Run(n, run).value, l))
  {
  }

  lemma {:induction false} AllEnter(n: nat, k: nat, a: Auth, run: seq<Step>) returns (steps: seq<Step>)
    requires k <= n && Run(n, run) == Some(PassedLoops(n, n, a))
    ensures Run(n, steps).Some? && Entering(Run(n, steps).value, n, k, a)
  {
    if k == 0 {
      steps := run;
    } else {
      var before := AllEnter(n, k - 1, a, run);
      OneMoreEnters(Run(n, before).value, n, k - 1, a);
      EnterRun(n, before, k - 1);
      steps := before + [Stamp(k - 1)] + [Push(k - 1)];
    }
  }

  lemma {:induction false} AllCounted(s: seq<nat>, f: nat -> Option<string>, d: string)
    requires forall c :: c in s ==> f(c) == Some(d)
    ensures CountDevice(s, f, d) == |s|
  {
    if s != [] {
      AllCounted(s[..|s| - 1], f, d);
    }
  }

  /** The bound is reached: n loops can all pass the check before any of them registers. */
  lemma BoundReached(n: nat, a: Auth) returns (steps: seq<Step>)
    ensures Run(n, steps).Some? && Connections(Run(n, steps).value, a.uid, a.device) == n
  {
    var run := AllPass(n, n, a);
    steps := AllEnter(n, n, a, run);
    var s := Run(n, steps).value;
    AllCounted(Bucket(s.buckets, a.uid), DeviceBy(s.login), a.device);
  }

  /** The guard is needed even with one loop. Whenever a logged-in connection passes the check again (it
      does, from another device), the table breaks, and closing the connection leaves an entry for a
      connection that is gone. */
  lemma SecondLoginBreaksTable(s: State, l: nat, c: nat, b: Auth)
    requires Inv(s) && Enabled(s, Check(l, c, b)) && s.login[c].Some?
    requires !Busy(Bucket(s.buckets, b.uid), DeviceBy(s.login), b.device)
    ensures !Guarded(s, Check(l, c, b))
    ensures var t := Enter(Next(s, Check(l, c, b)), l);
            && !Valid(t.buckets, Owner(s)[c := b.uid])
            && Enabled(t, Close(l, c))
            && c !in Next(t, Close(l, c)).login
            && c in Bucket(Next(t, Close(l, c)).buckets, s.login[c].value.uid)
  {
    assert PcOk(s, l) && Registered(s, c) && c in Owner(s);
    RegisterKeepsValid(s.buckets, Owner(s), b.uid, c);
    EnteredTwice(s.buckets, s.login[c].value.uid, b.uid, c);
  }

  /** And it happens: one loop, one user, two devices. */
  lemma SecondLoginHappens(a: Auth, b: Auth) returns (steps: seq<Step>)
    requires a.uid == b.uid && a.device != b.device
    ensures Run(1, steps).Some? && Enabled(Run(1, steps).value, Check(0, 0, b))
    ensures var s := Run(1, steps).value;
            var t := Next(s, Check(0, 0, b));
            && |t.pcs| == 1 && t.pcs[0].Passed? && Enabled(Enter(t, 0), Close(0, 0))
            && 0 !in Next(Enter(t, 0), Close(0, 0)).login
            && 0 in Bucket(Next(Enter(t, 0), Close(0, 0)).buckets, a.uid)
  {
    var run := AllPass(1, 1, a);
    steps := AllEnter(1, 1, a, run);
    RunSafe(1, steps);
    var s := Run(1, steps).value;
    assert Owns(s, 0, 0) && s.login[0] == Some(a);
    assert UpTo(1) == [0];
    SecondLoginBreaksTable(s, 0, 0, b);
  }

  lemma EnteredTwice(m: Buckets<nat>, u: string, v: string, c: nat)
    requires c in Bucket(m, u)
    ensures c in Bucket(Remove(Add(m, v, c), v, c), u)
  {
    if u == v {
      EraseTwice(m[u], c);
    }
  }

  lemma {:induction false} EraseTwice(s: seq<nat>, c: nat)
    requires c in s
    ensures c in EraseFirst(s + [c], c)
  {
    assert (s + [c])[0] == s[0] && (s + [c])[1..] == s[1..] + [c];
    if s[0] != c {
      EraseTwice(s[1..], c);
    }
  }
}
