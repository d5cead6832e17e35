/** How sharp the results about catchup runs are: which databases keep their caches under views, and which
    requests lose their announcement. */
module CatchupSurvival {
  import opened Common
  import opened Bson
  import opened Infos
  import opened Urls
  import opened Schemas
  import opened FieldValues
  import opened Store
  import opened UserUpdates
  import opened CatchupDocs
  import opened CatchupCache
  import opened CatchupCalls
  import opened CatchupViews
  import opened CatchupRequests
  import opened CatchupRuns

  // ---- views of one stream -------------------------------------------------------------------

  /** A document after one view; a view the server refuses changes nothing. */
  function Counted(d: Doc): Doc {
    Written(Done, d, Inc(d, VIEW_COUNT_FIELD))
  }

  function CountedUp(d: Doc, m: nat): Doc {
    if m == 0 then d else Counted(CountedUp(d, m - 1))
  }

  predicate SameKeys(d: Doc, e: Doc) {
    && TextAt(e, CLS_FIELD) == TextAt(d, CLS_FIELD) && First(e, NAME_FIELD) == First(d, NAME_FIELD)
    && First(e, START_FIELD) == First(d, START_FIELD) && First(e, STOP_FIELD) == First(d, STOP_FIELD)
    && (Distinct(d) ==> Distinct(e))
  }

  lemma SameKeysTrans(a: Doc, b: Doc, c: Doc)
    requires SameKeys(a, b) && SameKeys(b, c)
    ensures SameKeys(a, c)
  {
  }

  lemma OneView(d: Doc)
    ensures SameKeys(d, Counted(d))
  {
    var e := Inc(d, VIEW_COUNT_FIELD);
    if e.Some? {
      SetFieldFrame(d, VIEW_COUNT_FIELD, First(e.value, VIEW_COUNT_FIELD).value);
    }
  }

  /** Views change neither the class nor the title and dates. */
  lemma {:induction false} CountedUpFrame(d: Doc, m: nat)
    ensures SameKeys(d, CountedUp(d, m))
  {
    if m > 0 {
      var before := CountedUp(d, m - 1);
      CountedUpFrame(d, m - 1);
      OneView(before);
      SameKeysTrans(d, before, Counted(before));
    }
  }

  /** A document with that counter and that verdict of its reader. */
  predicate Standing(d: Doc, n: int, accepted: bool) {
    Distinct(d) && First(d, VIEW_COUNT_FIELD).Some? && First(d, VIEW_COUNT_FIELD).value.I32?
    && First(d, VIEW_COUNT_FIELD).value.i == n && Accepts(Catchup, CATCHUP, d) == accepted
  }

  lemma CounterStep(d: Doc, n: int, accepted: bool)
    requires Standing(d, n, accepted) && n < MAX_COUNT
    ensures Standing(Counted(d), n + 1, accepted)
  {
    OneView(d);
    CountedStaysReadable(Catchup, CATCHUP, d);
  }

  lemma CounterSpills(d: Doc, n: int)
    requires Standing(d, n, true) && n == MAX_COUNT
    ensures !Accepts(Catchup, CATCHUP, Counted(d))
  {
    CountedStaysReadable(Catchup, CATCHUP, d);
  }

  lemma FirstViewFlips(d: Doc)
    requires Distinct(d) && First(d, VIEW_COUNT_FIELD) == None && LacksCounter(d)
    ensures Accepts(Catchup, CATCHUP, Counted(d)) && !Accepts(Catchup, CATCHUP, d)
  {
    CountedStaysReadable(Catchup, CATCHUP, d);
    if Accepts(Catchup, CATCHUP, d) {
      CounterNeeded(d);
    }
  }

  /** A counter with room rises by one for each view, and the reader's verdict stays. */
  lemma {:induction false} CounterRises(d: Doc, n: int, accepted: bool, m: nat)
    requires Standing(d, n, accepted) && n + m <= MAX_COUNT
    ensures Standing(CountedUp(d, m), n + m, accepted)
  {
    if m > 0 {
      CounterRises(d, n, accepted, m - 1);
      CounterStep(CountedUp(d, m - 1), n + m - 1, accepted);
    }
  }

  lemma FirstViewVerdict(d: Doc)
    requires Distinct(d) && First(d, VIEW_COUNT_FIELD) == None && LacksCounter(d)
    ensures Accepts(Catchup, CATCHUP, CountedUp(d, 1)) && !Accepts(Catchup, CATCHUP, d)
  {
    assert CountedUp(d, 1) == Counted(CountedUp(d, 0));
    FirstViewFlips(d);
  }

  predicate Flips(d: Doc, m: nat) {
    Accepts(Catchup, CATCHUP, CountedUp(d, m)) <==> !Accepts(Catchup, CATCHUP, d)
  }

  lemma LastViewVerdict(d: Doc, n: int, m: nat)
    requires Standing(d, n, true) && n <= MAX_COUNT && n + m == MAX_COUNT + 1
    ensures Flips(d, m)
  {
    CounterRises(d, n, true, m - 1);
    OneMore(d, n + (m - 1), m);
  }

  lemma OneMore(d: Doc, n: int, m: nat)
    requires m > 0 && Standing(CountedUp(d, m - 1), n, true) && n == MAX_COUNT
    ensures !Accepts(Catchup, CATCHUP, CountedUp(d, m))
  {
    var e := CountedUp(d, m - 1);
    CounterSpills(e, n);
    assert CountedUp(d, m) == Counted(e);
  }

  lemma UnreadyStanding(d: Doc, k: nat) returns (n: int)
    requires Distinct(d) && !Ready(d, k) && First(d, VIEW_COUNT_FIELD) != None
    ensures Standing(d, n, true) && n <= MAX_COUNT < n + k
  {
    n := First(d, VIEW_COUNT_FIELD).value.i;
  }

  lemma UnreadyCounts(d: Doc, k: nat) returns (m: nat)
    requires Distinct(d) && !Ready(d, k) && First(d, VIEW_COUNT_FIELD) != None
    ensures m <= k && Flips(d, m)
  {
    var n := UnreadyStanding(d, k);
    m := MAX_COUNT + 1 - n;
    LastViewVerdict(d, n, m);
  }

  lemma UnreadyLacks(d: Doc, k: nat)
    requires Distinct(d) && !Ready(d, k) && First(d, VIEW_COUNT_FIELD) == None
    ensures k >= 1 && Flips(d, 1)
  {
    FirstViewVerdict(d);
  }

  /** A document that is not ready changes its reader's verdict after some number of views. */
  lemma VerdictFlips(d: Doc, k: nat) returns (m: nat)
    requires Distinct(d) && !Ready(d, k)
    ensures m <= k && Flips(d, m)
  {
    if First(d, VIEW_COUNT_FIELD) == None {
      UnreadyLacks(d, k);
      m := 1;
    } else {
      m := UnreadyCounts(d, k);
    }
  }

  /** A document that is accepted, or would be with a counter, serves some request. */
  lemma OwnKey(d: Doc) returns (key: CatKey)
    requires Distinct(d) && WellTyped(Catchup, d) && {NAME_FIELD, START_FIELD, STOP_FIELD} <= Keys(d)
    ensures KeyMatches(d, key)
  {
    IndexIsFirst(d, NAME_FIELD);
    IndexIsFirst(d, START_FIELD);
    IndexIsFirst(d, STOP_FIELD);
    IndexHoldsFields(d);
    FieldTyped(d, NAME_FIELD);
    FieldTyped(d, START_FIELD);
    FieldTyped(d, STOP_FIELD);
    key := CatKey(First(d, NAME_FIELD).value.text, First(d, START_FIELD).value.ms, First(d, STOP_FIELD).value.ms);
  }

  lemma FieldTyped(d: Doc, k: Key)
    requires WellTyped(Catchup, d) && First(d, k).Some?
    ensures Holds(KindOf(Catchup, k), First(d, k).value)
  {
    var at := NextAt(d, k, 0);
    assert d[at] in d && Typed(Catchup)(d[at]);
  }

  lemma UnreadyHasKey(d: Doc, k: nat) returns (key: CatKey)
    requires Distinct(d) && !Ready(d, k)
    ensures KeyMatches(d, key)
  {
    if !LacksCounter(d) {
      AcceptsIff(Catchup, CATCHUP, d);
    }
    KeyFieldsRequired();
    key := OwnKey(d);
  }

  lemma KeyFieldsRequired()
    ensures {NAME_FIELD, START_FIELD, STOP_FIELD} <= Required(Catchup) - {VIEW_COUNT_FIELD}
  {
  }

  // ---- runs of views -------------------------------------------------------------------------

  function ViewRun(x: string, m: nat): seq<Step> {
    if m == 0 then [] else ViewRun(x, m - 1) + [Viewed("viewer", x, 0, Done, Done)]
  }

  lemma {:induction false} ViewRunCounts(x: string, m: nat)
    ensures forall y :: Viewings(ViewRun(x, m))[y] == if y == x then m else 0
  {
    if m > 0 {
      ViewRunCounts(x, m - 1);
      assert ViewRun(x, m)[..|ViewRun(x, m)| - 1] == ViewRun(x, m - 1);
    }
  }

  lemma ViewerCounts(lib: Library, db: Db, x: string)
    requires x != "" && x in db.streams && TypeOf(lib, db.streams[x]).Some?
    ensures AfterRecent(lib, db, "viewer", x, 0, Done, Done).streams == db.streams[x := Counted(db.streams[x])]
  {
    RecentStreams(lib, db, "viewer", x, 0, Done, Done);
    assert db.streams[x := db.streams[x]] == db.streams;
  }

  lemma CountedAgain(streams: Streams, x: string, d: Doc, e: Doc)
    requires x in streams
    ensures streams[x := d][x] == d && streams[x := d][x := e] == streams[x := e]
  {
  }

  lemma ClassFramed(lib: Library, d: Doc, e: Doc)
    requires SameKeys(d, e)
    ensures TypeOf(lib, e) == TypeOf(lib, d)
  {
  }

  lemma ViewRunStep(lib: Library, s: State, x: string, m: nat)
    requires m > 0 && Run(lib, s, ViewRun(x, m - 1)).Some?
    ensures Run(lib, s, ViewRun(x, m))
         == Some(Next(lib, Run(lib, s, ViewRun(x, m - 1)).value, Viewed("viewer", x, 0, Done, Done)))
  {
    assert ViewRun(x, m)[..|ViewRun(x, m)| - 1] == ViewRun(x, m - 1);
  }

  lemma ViewRunExtends(lib: Library, s: State, x: string, m: nat, d: Doc)
    requires m > 0 && x != "" && x in s.db.streams && TypeOf(lib, s.db.streams[x]).Some? && SameKeys(s.db.streams[x], d)
    requires Run(lib, s, ViewRun(x, m - 1)).Some?
    requires Run(lib, s, ViewRun(x, m - 1)).value.db.streams == s.db.streams[x := d]
    ensures Run(lib, s, ViewRun(x, m)).Some?
    ensures Run(lib, s, ViewRun(x, m)).value.db.streams == s.db.streams[x := Counted(d)]
  {
    var before := Run(lib, s, ViewRun(x, m - 1)).value.db;
    ViewRunStep(lib, s, x, m);
    ClassFramed(lib, s.db.streams[x], d);
    CountedAgain(s.db.streams, x, d, Counted(d));
    ViewerCounts(lib, before, x);
  }

  lemma ViewRunStarts(lib: Library, db: Db, x: string)
    requires x in db.streams
    ensures Run(lib, State(db, []), ViewRun(x, 0)) == Some(State(db, []))
    ensures db.streams == db.streams[x := CountedUp(db.streams[x], 0)]
  {
  }

  lemma {:induction false} ViewRunReaches(lib: Library, db: Db, x: string, m: nat)
    requires x != "" && x in db.streams && TypeOf(lib, db.streams[x]).Some?
    ensures Run(lib, State(db, []), ViewRun(x, m)).Some?
    ensures Run(lib, State(db, []), ViewRun(x, m)).value.db.streams == db.streams[x := CountedUp(db.streams[x], m)]
  {
    if m == 0 {
      ViewRunStarts(lib, db, x);
    } else {
      ViewRunReaches(lib, db, x, m - 1);
      var d := CountedUp(db.streams[x], m - 1);
      CountedUpFrame(db.streams[x], m - 1);
      ViewRunExtends(lib, State(db, []), x, m, d);
      assert CountedUp(db.streams[x], m) == Counted(d);
    }
  }

  // ---- which databases keep their caches -----------------------------------------------------

  /** In no run with at most `k` views of each stream does a part start or stop serving a request. */
  ghost predicate Survives(lib: Library, db: Db, k: nat) {
    forall steps :: Run(lib, State(db, []), steps).Some? && Within(steps, k) ==>
      Later(db.streams, Run(lib, State(db, []), steps).value.db.streams)
  }

  lemma Flipped(streams: Streams, s: string, p: string, e: Doc, key: CatKey)
    requires s in streams && p in Parts(streams[s]) && p in streams && KeyMatches(streams[p], key)
    requires SameKeys(streams[p], e) && (Accepts(Catchup, CATCHUP, e) <==> !Accepts(Catchup, CATCHUP, streams[p]))
    ensures !Later(streams, streams[p := e])
  {
    assert Hit(streams[p := e], p, key) <==> !Hit(streams, p, key);
  }

  lemma ViewsDisturb(lib: Library, db: Db, s: string, p: string, m: nat, key: CatKey)
    requires p != "" && s in db.streams && p in Parts(db.streams[s]) && p in db.streams && TypeOf(lib, db.streams[p]).Some?
    requires KeyMatches(db.streams[p], key)
    requires Flips(db.streams[p], m)
    ensures Run(lib, State(db, []), ViewRun(p, m)).Some?
    ensures !Later(db.streams, Run(lib, State(db, []), ViewRun(p, m)).value.db.streams)
  {
    ViewRunReaches(lib, db, p, m);
    CountedUpFrame(db.streams[p], m);
    Flipped(db.streams, s, p, CountedUp(db.streams[p], m), key);
  }

  lemma UnreadyDisturbs(lib: Library, db: Db, s: string, p: string, k: nat) returns (m: nat)
    requires p != "" && s in db.streams && p in Parts(db.streams[s]) && p in db.streams && TypeOf(lib, db.streams[p]).Some?
    requires Distinct(db.streams[p]) && !Ready(db.streams[p], k)
    ensures m <= k && Run(lib, State(db, []), ViewRun(p, m)).Some?
    ensures !Later(db.streams, Run(lib, State(db, []), ViewRun(p, m)).value.db.streams)
  {
    m := VerdictFlips(db.streams[p], k);
    var key := UnreadyHasKey(db.streams[p], k);
    ViewsDisturb(lib, db, s, p, m, key);
  }

  lemma ViewRunWithin(x: string, m: nat, k: nat)
    requires m <= k
    ensures Within(ViewRun(x, m), k)
  {
    ViewRunCounts(x, m);
  }

  lemma SomeUnready(lib: Library, streams: Streams, k: nat) returns (s: string, p: string)
    requires !Steady(lib, streams, multiset{}, k)
    ensures s in streams && p in Parts(streams[s]) && p in streams && TypeOf(lib, streams[p]).Some? && !Ready(streams[p], k)
  {
    s, p :| s in streams && p in Parts(streams[s]) && p in streams && TypeOf(lib, streams[p]).Some?
            && !Ready(streams[p], k - multiset{}[p]);
  }

  lemma Disturbed(lib: Library, db: Db, k: nat) returns (steps: seq<Step>)
    requires ValidStreams(db.streams) && !Steady(lib, db.streams, multiset{}, k)
    ensures Run(lib, State(db, []), steps).Some? && Within(steps, k)
    ensures !Later(db.streams, Run(lib, State(db, []), steps).value.db.streams)
  {
    var s, p := SomeUnready(lib, db.streams, k);
    assert ValidStream(p, db.streams[p]);
    var m := UnreadyDisturbs(lib, db, s, p, k);
    ViewRunWithin(p, m, k);
    steps := ViewRun(p, m);
  }

  /** Exactly the databases in which no part that can be viewed lacks just its counter, or has one within
      `k` of leaving 32 bits, keep what their parts serve. */
  lemma SurvivesIff(lib: Library, db: Db, k: nat)
    requires Good(db.streams) && k <= MAX_COUNT
    ensures Survives(lib, db, k) <==> Steady(lib, db.streams, multiset{}, k)
  {
    if Steady(lib, db.streams, multiset{}, k) {
      forall steps | Run(lib, State(db, []), steps).Some? && Within(steps, k)
        ensures Later(db.streams, Run(lib, State(db, []), steps).value.db.streams)
      {
        NoTwoParts(lib, State(db, []), steps, k);
      }
    } else {
      var steps := Disturbed(lib, db, k);
    }
  }

  lemma PartsFramed(id: string, d: Doc)
    requires ValidStream(id, d)
    ensures Parts(Counted(d)) == Parts(d)
  {
    if Inc(d, VIEW_COUNT_FIELD).Some? {
      ViewedDoc(id, d);
    }
  }

  /** A part that lacks just its counter and stands before the one that is found intrudes with its first
      view: the stream then has two parts for one request, and the request finds the intruder. */
  lemma ViewedPartIntrudes(lib: Library, db: Db, s: string, i: nat, j: nat, key: CatKey)
    requires Good(db.streams) && s in db.streams && i < j < |Parts(db.streams[s])|
    requires Caches(db.streams, s, key, Parts(db.streams[s])[j])
    requires var p := Parts(db.streams[s])[i];
             && p in db.streams && TypeOf(lib, db.streams[p]).Some? && KeyMatches(db.streams[p], key)
             && First(db.streams[p], VIEW_COUNT_FIELD) == None && LacksCounter(db.streams[p])
    ensures var p := Parts(db.streams[s])[i];
            var after := AfterRecent(lib, db, "viewer", p, 0, Done, Done).streams;
            && s in after && Parts(after[s]) == Parts(db.streams[s])
            && Caches(after, s, key, p) && !NoTwoIn(after, Parts(after[s]))
  {
    var p := Parts(db.streams[s])[i];
    assert ValidStream(p, db.streams[p]);
    ViewerCounts(lib, db, p);
    OneView(db.streams[p]);
    FirstViewFlips(db.streams[p]);
    PartsFramed(p, db.streams[p]);
    Intruded(db.streams, s, i, j, Counted(db.streams[p]), key);
  }

  lemma {:induction false} FirstHitAt(streams: Streams, parts: seq<string>, i: nat, key: CatKey)
    requires i < |parts| && Hit(streams, parts[i], key)
    requires forall h :: 0 <= h < i && Hit(streams, parts[h], key) ==> parts[h] == parts[i]
    ensures FirstHit(streams, parts, key) == Some(parts[i])
  {
    if !Hit(streams, parts[0], key) {
      FirstHitAt(streams, parts[1..], i - 1, key);
    }
  }

  lemma Intruded(streams: Streams, s: string, i: nat, j: nat, e: Doc, key: CatKey)
    requires s in streams && NoTwoIn(streams, Parts(streams[s])) && i < j < |Parts(streams[s])|
    requires Hit(streams, Parts(streams[s])[j], key) && Parts(streams[s])[i] in streams
    requires var p := Parts(streams[s])[i];
             && KeyMatches(streams[p], key) && !Accepts(Catchup, CATCHUP, streams[p])
             && SameKeys(streams[p], e) && Accepts(Catchup, CATCHUP, e) && Parts(e) == Parts(streams[p])
    ensures var p := Parts(streams[s])[i];
            var after := streams[p := e];
            && s in after && Parts(after[s]) == Parts(streams[s])
            && Caches(after, s, key, p) && !NoTwoIn(after, Parts(after[s]))
  {
    var parts, p := Parts(streams[s]), Parts(streams[s])[i];
    var after := streams[p := e];
    assert Parts(after[s]) == parts;
    assert Hit(after, parts[i], key) && Hit(after, parts[j], key);
    forall h | 0 <= h < i && Hit(after, parts[h], key) ensures parts[h] == p {
      assert !Hit(streams, parts[h], key);
    }
    FirstHitAt(after, parts, i, key);
  }

  /** A catchup whose counter is at its maximum is forgotten with its next view: the request for it finds
      nothing any more. */
  lemma FullCounterForgets(lib: Library, db: Db, s: string, x: string, key: CatKey)
    requires Good(db.streams) && Caches(db.streams, s, key, x)
    requires First(db.streams[x], VIEW_COUNT_FIELD) == Some(I32(0x7fff_ffff)) && TypeOf(lib, db.streams[x]).Some?
    ensures var after := AfterRecent(lib, db, "viewer", x, 0, Done, Done).streams;
            s in after && FirstHit(after, Parts(after[s]), key) == None
  {
    assert ValidStream(x, db.streams[x]);
    ViewerCounts(lib, db, x);
    CounterSpills(db.streams[x], MAX_COUNT);
    PartsFramed(x, db.streams[x]);
    Forgotten(db.streams, s, x, Counted(db.streams[x]), key);
  }

  lemma Forgotten(streams: Streams, s: string, x: string, e: Doc, key: CatKey)
    requires Good(streams) && Caches(streams, s, key, x) && !Accepts(Catchup, CATCHUP, e) && Parts(e) == Parts(streams[x])
    ensures s in streams[x := e] && FirstHit(streams[x := e], Parts(streams[x := e][s]), key) == None
  {
    var parts, after := Parts(streams[s]), streams[x := e];
    CachedIsPart(streams, parts, key);
    FirstHitNone(after, parts, key);
    forall p | p in parts ensures !Hit(after, p, key) {
      if p != x && Hit(streams, p, key) {
        OnlyHit(streams, parts, p, x, key);
      }
    }
  }

  lemma {:induction false} CachedIsPart(streams: Streams, parts: seq<string>, key: CatKey)
    requires FirstHit(streams, parts, key).Some?
    ensures FirstHit(streams, parts, key).value in parts
  {
    if !Hit(streams, parts[0], key) {
      CachedIsPart(streams, parts[1..], key);
      assert parts == [parts[0]] + parts[1..];
    }
  }

  lemma OnlyHit(streams: Streams, parts: seq<string>, p: string, q: string, key: CatKey)
    requires NoTwoIn(streams, parts) && p in parts && q in parts && Hit(streams, p, key) && Hit(streams, q, key)
    ensures p == q
  {
    var i :| 0 <= i < |parts| && parts[i] == p;
    var j :| 0 <= j < |parts| && parts[j] == q;
  }
}
