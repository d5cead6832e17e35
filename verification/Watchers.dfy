/** How many registered connections watch each stream, in every run of the event loops. */
module Watchers {
  import opened Common
  import opened Registry
  import opened LoginProtocol

  ghost function Total(m: multiset<string>, sids: seq<string>): nat {
    if sids == [] then 0 else Total(m, sids[..|sids| - 1]) + m[sids[|sids| - 1]]
  }

  // ---- the total -----------------------------------------------------------------------------

  function Elements<C>(s: seq<C>): set<C> {
    set x | x in s
  }

  lemma {:induction false} ElementsSize<C>(s: seq<C>)
    requires NoDup(s)
    ensures |Elements(s)| == |s|
  {
    if s != [] {
      var p, x := s[..|s| - 1], s[|s| - 1];
      ElementsSize(p);
      assert s == p + [x];
      assert Elements(s) == Elements(p) + {x};
    }
  }

  lemma {:induction false} CollectAll<C, T>(f: C -> Option<T>, s: seq<C>)
    requires forall c :: c in s ==> f(c).Some?
    ensures |Collect(f, s)| == |s|
  {
    if s != [] {
      CollectAll(f, s[..|s| - 1]);
      assert s[|s| - 1] in s;
    }
  }

  /** Dropping one bucket drops exactly its owners. */
  lemma ValidDrop<C>(m: Buckets<C>, owner: map<C, string>, u: string)
    requires Valid(m, owner) && u in m
    ensures Valid(m - {u}, owner - Elements(m[u]))
  {
    var gone, m', owner' := Elements(m[u]), m - {u}, owner - Elements(m[u]);
    forall v, c | v in m' && c in m'[v] ensures c in owner' && owner'[c] == v {
      assert v in m && c in m[v] && owner[c] == v;
      assert c !in m[u];
    }
    forall c | c in owner' ensures owner'[c] in m' && c in m'[owner'[c]] {
      assert c in owner && c !in gone;
    }
  }

  lemma OwnersDropped<C>(owner: map<C, string>, s: seq<C>)
    requires NoDup(s) && forall c :: c in s ==> c in owner
    ensures |owner| == |owner - Elements(s)| + |s|
  {
    ElementsSize(s);
    assert (owner - Elements(s)).Keys == owner.Keys - Elements(s);
    assert owner.Keys == (owner.Keys - Elements(s)) + Elements(s);
  }

  lemma ViewSplit<C, T>(m: Buckets<C>, u: string, f: C -> Option<T>)
    requires u in m && forall c :: c in m[u] ==> f(c).Some?
    ensures |View(m, f)| == |m[u]| + |View(m - {u}, f)|
  {
    CollectAll(f, m[u]);
    ViewPick(m, u, f);
  }

  /** Whatever a total function shows of the connections, it shows as much as there are owners. */
  lemma {:induction false} ViewSize<C, T>(m: Buckets<C>, owner: map<C, string>, f: C -> Option<T>)
    requires Valid(m, owner) && forall c :: f(c).Some?
    ensures |View(m, f)| == |owner|
    decreases |m|
  {
    if m == map[] {
      ViewEmpty(f);
      assert owner.Keys == {};
    } else {
      var u := AnyKey(m);
      ValidDrop(m, owner, u);
      OwnersDropped(owner, m[u]);
      ViewSplit(m, u, f);
      ViewSize(m - {u}, owner - Elements(m[u]), f);
    }
  }

  lemma {:induction false} TotalIsSize(m: multiset<string>, sids: seq<string>)
    requires NoDup(sids) && forall x :: x in m ==> x in sids
    ensures Total(m, sids) == |m|
  {
    if sids == [] {
      assert m == multiset{};
    } else {
      var p, x := sids[..|sids| - 1], sids[|sids| - 1];
      assert sids == p + [x];
      assert x !in p;
      TotalIsSize(m[x := 0], p);
      TotalElsewhere(m, p, x);
    }
  }

  lemma {:induction false} TotalElsewhere(m: multiset<string>, sids: seq<string>, x: string)
    requires x !in sids
    ensures Total(m[x := 0], sids) == Total(m, sids)
  {
    if sids != [] {
      TotalElsewhere(m, sids[..|sids| - 1], x);
    }
  }

  /** In every state of every run the watcher counts of all streams add up to the number of registered
      connections. */
  lemma WatchersAddUp(n: nat, steps: seq<Step>, sids: seq<string>)
    requires Run(n, steps).Some?
    requires NoDup(sids) && forall sid :: sid in Watched(Run(n, steps).value) ==> sid in sids
    ensures Total(Watched(Run(n, steps).value), sids) == |Owner(Run(n, steps).value)|
  {
    RunSafe(n, steps);
    var s := Run(n, steps).value;
    ViewSize(s.buckets, Owner(s), StreamBy(s.stream));
    TotalIsSize(Watched(s), sids);
  }

  // ---- a request for the runtime info --------------------------------------------------------

  lemma RestSame<C, T>(m: Buckets<C>, owner: map<C, string>, c: C, f: C -> Option<T>, g: C -> Option<T>)
    requires Valid(m, owner) && c in owner && forall x :: x != c ==> f(x) == g(x)
    ensures View(Remove(m, owner[c], c), f) == View(Remove(m, owner[c], c), g)
  {
    UnregisterKeepsValid(m, owner, c);
    var rest := Remove(m, owner[c], c);
    forall u, x | u in rest && x in rest[u] ensures f(x) == g(x) {
      assert x in owner - {c};
    }
    ViewFrame(rest, f, g);
  }

  /** If only what is seen of one connection changes, only that changes in the view. */
  lemma ViewChange<C, T>(m: Buckets<C>, owner: map<C, string>, c: C, f: C -> Option<T>, g: C -> Option<T>)
    requires Valid(m, owner) && c in owner && forall x :: x != c ==> f(x) == g(x)
    ensures View(m, g) + One(f(c)) == View(m, f) + One(g(c))
  {
    var rest := Remove(m, owner[c], c);
    ViewRemove(m, owner[c], c, f);
    ViewRemove(m, owner[c], c, g);
    RestSame(m, owner, c, f, g);
    Swap(View(rest, f), One(f(c)), One(g(c)));
  }

  lemma Swap<T>(rest: multiset<T>, a: multiset<T>, b: multiset<T>)
    ensures rest + b + a == rest + a + b
  {
  }

  /** The same for connections that keep their stream themselves. */
  lemma StreamMoves<C>(m: Buckets<C>, owner: map<C, string>, c: C, before: map<C, string>, now: map<C, string>)
    requires Valid(m, owner) && c in owner && c in before && before.Keys == now.Keys
    requires forall x :: x in before && x != c ==> now[x] == before[x]
    ensures View(m, StreamBy(now)) + multiset{before[c]} == View(m, StreamBy(before)) + multiset{now[c]}
  {
    ViewChange(m, owner, c, StreamBy(before), StreamBy(now));
  }

  lemma MovedCounts(a: multiset<string>, b: multiset<string>, x: string, y: string, z: string)
    requires b + multiset{x} == a + multiset{y}
    ensures b[z] + (if z == x then 1 else 0) == a[z] + if z == y then 1 else 0
  {
    assert (b + multiset{x})[z] == (a + multiset{y})[z];
  }

  /** What the stream id of one registered connection does to the counts. */
  lemma StreamSet(s: State, l: nat, c: nat, sid: string, other: string)
    requires Inv(s) && l < |s.pcs| && !s.pcs[l].Stamped? && Owns(s, l, c) && s.login[c].Some?
    ensures var now := View(s.buckets, StreamBy(s.stream[c := sid]));
            now[other] == Watching(s, other) + (if other == sid then 1 else 0) - if other == s.stream[c] then 1 else 0
  {
    assert PcOk(s, l) && Registered(s, c);
    StreamMoves(s.buckets, Owner(s), c, s.stream, s.stream[c := sid]);
    MovedCounts(Watched(s), View(s.buckets, StreamBy(s.stream[c := sid])), s.stream[c], sid, other);
  }

  /** The move of a request for the runtime info: the stream has one watcher more and the stream the client
      came from one less, unless the client was already there; no other count changes. */
  lemma RuntimeInfo(s: State, l: nat, other: string)
    requires Inv(s) && Enabled(s, Move(l))
    ensures var Counted(c, sid, _) := s.pcs[l];
            && Owns(s, l, c)
            && Watching(Next(s, Move(l)), other)
            == Watching(s, other) + (if other == sid then 1 else 0) - if other == s.stream[c] then 1 else 0
  {
    assert PcOk(s, l);
    StreamSet(s, l, s.pcs[l].c, s.pcs[l].sid, other);
  }

  /** The reply a loop is holding is the count at the time it counted. */
  lemma {:induction false} ReplyWasCounted(n: nat, steps: seq<Step>, l: nat) returns (i: nat)
    requires Run(n, steps).Some? && l < |Run(n, steps).value.pcs| && Run(n, steps).value.pcs[l].Counted?
    ensures var Counted(c, sid, reply) := Run(n, steps).value.pcs[l];
            && i < |steps| && steps[i] == Count(l, c, sid)
            && Run(n, steps[..i]).Some? && reply == Watching(Run(n, steps[..i]).value, sid)
  {
    var k := |steps| - 1;
    if steps[k].Count? && steps[k].loop == l {
      i := k;
    } else {
      i := ReplyWasCounted(n, steps[..k], l);
      assert steps[..k][..i] == steps[..i];
    }
  }

  lemma OneLoopFresh(steps: seq<Step>)
    requires Run(1, steps).Some? && |Run(1, steps).value.pcs| == 1 && Run(1, steps).value.pcs[0].Counted?
    ensures Run(1, steps).value.pcs[0].reply == Watching(Run(1, steps).value, Run(1, steps).value.pcs[0].sid)
  {
    var before, step := Run(1, steps[..|steps| - 1]).value, steps[|steps| - 1];
    assert step.Count? && |before.pcs| == 1;
    assert Watched(Next(before, step)) == Watched(before);
  }

  /** With one loop nothing comes between the count and the move: the reply is the count before the move,
      and after it the stream has one watcher more than the reply, unless the client was already there. */
  lemma OneLoopReply(steps: seq<Step>)
    requires Run(1, steps).Some? && |Run(1, steps).value.pcs| == 1 && Run(1, steps).value.pcs[0].Counted?
    ensures var s := Run(1, steps).value;
            var Counted(c, sid, reply) := s.pcs[0];
            && Owns(s, 0, c) && reply == Watching(s, sid)
            && Watching(Next(s, Move(0)), sid) == reply + if s.stream[c] == sid then 0 else 1
  {
    OneLoopFresh(steps);
    RunSafe(1, steps);
    RuntimeInfo(Run(1, steps).value, 0, Run(1, steps).value.pcs[0].sid);
  }

  /** Another client that moves to the stream in between makes the reply stale. */
  lemma StaleReply(s: State, l: nat, c: nat, l': nat, c': nat, sid: string)
    requires Inv(s) && l != l' && c != c' && Enabled(s, Count(l, c, sid)) && Enabled(s, Watch(l', c', sid))
    requires s.stream[c] != sid && s.stream[c'] != sid
    ensures var s1 := Next(s, Count(l, c, sid));
            && Enabled(s1, Watch(l', c', sid)) && Enabled(Next(s1, Watch(l', c', sid)), Move(l))
            && Watching(Next(Next(s1, Watch(l', c', sid)), Move(l)), sid) == s1.pcs[l].reply + 2
  {
    var s1 := Next(s, Count(l, c, sid));
    InvStep(s, Count(l, c, sid));
    var s2 := Next(s1, Watch(l', c', sid));
    InvStep(s1, Watch(l', c', sid));
    StreamSet(s1, l', c', sid, sid);
    RuntimeInfo(s2, l, sid);
    assert Watched(s1) == Watched(s) && s2.pcs[l] == s1.pcs[l] == Counted(c, sid, Watching(s, sid));
  }

  /** With two loops that happens: after the move the count is two above the reply. */
  lemma TwoLoopsStaleReply(a: Auth, sid: string) returns (steps: seq<Step>)
    requires sid != ""
    ensures Run(2, steps).Some? && Enabled(Run(2, steps).value, Move(0))
    ensures var s := Run(2, steps).value;
            s.pcs[0].sid == sid && Watching(Next(s, Move(0)), sid) == s.pcs[0].reply + 2
  {
    var run := AllPass(2, 2, a);
    var entered := AllEnter(2, 2, a, run);
    var s := Run(2, entered).value;
    RunSafe(2, entered);
    assert Owns(s, 0, 0) && Owns(s, 1, 1);
    StaleReply(s, 0, 0, 1, 1, sid);
    RunSnoc(2, entered, Count(0, 0, sid));
    RunSnoc(2, entered + [Count(0, 0, sid)], Watch(1, 1, sid));
    steps := entered + [Count(0, 0, sid)] + [Watch(1, 1, sid)];
  }
}
