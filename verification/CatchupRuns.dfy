/** Every run of catchup requests and of SetRecent calls, by any users and with any write failing at any
    time. */
module CatchupRuns {
  import opened Common
  import opened Bson
  import opened Infos
  import opened Urls
  import opened Schemas
  import opened FieldValues
  import opened UserEntries
  import opened Store
  import opened UserUpdates
  import opened CatchupDocs
  import opened CatchupCache
  import opened CatchupCalls
  import opened CatchupViews
  import opened CatchupRequests
  import D = Devices

  // ---- runs ----------------------------------------------------------------------------------

  datatype State = State(db: Db, notes: seq<Note>)

  /** Requests for catchups and for content, calls of SetRecent, and any change to the user documents that
      leaves their lists of content requests alone: logins, favorites, added and removed entries. */
  datatype Step =
    | Generated(ep: Endpoint, uid: string, sid: string, key: CatKey, fate: Fate)
    | Requested(uid: string, title: string, kind: int32, status: int32, rfate: RequestFate)
    | Viewed(uid: string, sid: string, timestamp: int, entry: Outcome, view: Outcome)
    | UsersChanged(subscribers: map<string, Doc>)

  predicate SameRequests(a: map<string, Doc>, b: map<string, Doc>) {
    forall u :: u in b ==> u in a && Items(b[u], REQUESTS_FIELD) == Items(a[u], REQUESTS_FIELD)
  }

  predicate Enabled(s: State, step: Step) {
    match step
    case Generated(_, _, _, _, fate) => Fresh(s.db.streams, fate.cid)
    case Requested(_, _, _, _, rfate) => rfate.rid !in s.db.requests
    case Viewed(_, _, _, _, _) => true
    case UsersChanged(subscribers) => SameRequests(s.db.subscribers, subscribers)
  }

  function Next(lib: Library, s: State, step: Step): State {
    match step
    case Generated(ep, uid, sid, key, fate) =>
      var (db, _, notes) := Generate(lib, s.db, ep, uid, sid, key, fate);
      State(db, s.notes + notes)
    case Requested(uid, title, kind, status, rfate) => s.(db := CreateRequest(lib, s.db, uid, title, kind, status, rfate).0)
    case Viewed(uid, sid, ts, entry, view) => s.(db := AfterRecent(lib, s.db, uid, sid, ts, entry, view))
    case UsersChanged(subscribers) => s.(db := s.db.(subscribers := subscribers))
  }

  function Run(lib: Library, s: State, steps: seq<Step>): Option<State> {
    if steps == [] then Some(s)
    else
      var before, step := Run(lib, s, steps[..|steps| - 1]), steps[|steps| - 1];
      if before.Some? && Enabled(before.value, step) then Some(Next(lib, before.value, step)) else None
  }

  /** How often each stream is viewed in a run. */
  ghost function Viewings(steps: seq<Step>): multiset<string> {
    if steps == [] then multiset{}
    else
      var last := steps[|steps| - 1];
      Viewings(steps[..|steps| - 1]) + if last.Viewed? then multiset{last.sid} else multiset{}
  }

  /** No stream is viewed more than `k` times. */
  ghost predicate Within(steps: seq<Step>, k: int) {
    forall x :: Viewings(steps)[x] <= k
  }

  lemma WithinPrefix(steps: seq<Step>, k: int)
    requires steps != [] && Within(steps, k)
    ensures Within(steps[..|steps| - 1], k)
    ensures steps[|steps| - 1].Viewed? ==> Viewings(steps[..|steps| - 1])[steps[|steps| - 1].sid] < k
  {
    var n := |steps| - 1;
    forall x ensures Viewings(steps[..n])[x] <= Viewings(steps)[x] {
    }
    if steps[n].Viewed? {
      assert Viewings(steps)[steps[n].sid] == Viewings(steps[..n])[steps[n].sid] + 1;
    }
  }

  lemma ReplacedAllowed(subscribers: map<string, Doc>, uid: string, d: Doc)
    requires uid in subscribers && First(d, REQUESTS_FIELD) == First(subscribers[uid], REQUESTS_FIELD)
    ensures SameRequests(subscribers, subscribers[uid := d])
  {
  }

  /** The setters of a user's entries and the activation of a device are such changes. */
  lemma SetsAllowed(db: Db, uid: string, arr: Key, id: string, k: Key, v: Value, device: string, o: Outcome)
    requires arr != REQUESTS_FIELD
    ensures SameRequests(db.subscribers, SetOnUser(db, uid, arr, id, k, v, o).subscribers)
    ensures uid in db.subscribers ==>
              SameRequests(db.subscribers, db.subscribers[uid :=
                Written(o, db.subscribers[uid], Some(D.Activated(db.subscribers[uid], device)))])
  {
    if uid in db.subscribers {
      var d := db.subscribers[uid];
      SetKeepsRequests(d, arr, SID_FIELD, id, k, v);
      ReplacedAllowed(db.subscribers, uid, Written(o, d, Some(SetPositional(d, arr, SID_FIELD, id, k, v))));
      SetKeepsRequests(d, DEVICES_FIELD, ID_FIELD, device, STATUS_FIELD, I32(D.ACTIVE));
      ReplacedAllowed(db.subscribers, uid, Written(o, d, Some(D.Activated(d, device))));
    }
  }

  /** So is adding or removing an entry. */
  lemma EntriesAllowed(db: Db, uid: string, arr: Key, id: string, entry: Doc, o: Outcome)
    requires arr != REQUESTS_FIELD
    ensures SameRequests(db.subscribers, PushEntry(db, uid, arr, entry, o).subscribers)
    ensures SameRequests(db.subscribers, PullEntry(db, uid, arr, id, o).subscribers)
  {
    if uid in db.subscribers {
      var d := db.subscribers[uid];
      SetFieldOther(d, arr, Array(Without(Items(d, arr), SID_FIELD, id)), REQUESTS_FIELD);
      ReplacedAllowed(db.subscribers, uid, Written(o, d, Pull(d, arr, id)));
      assert [] + [Document(entry)] == [Document(entry)];
      SetFieldOther(d, arr, Array(Items(d, arr) + [Document(entry)]), REQUESTS_FIELD);
      ReplacedAllowed(db.subscribers, uid, Written(o, d, Push(d, arr, Document(entry))));
    }
  }

  lemma SetKeepsRequests(d: Doc, arr: Key, idKey: Key, id: string, k: Key, v: Value)
    requires arr != REQUESTS_FIELD
    ensures First(SetPositional(d, arr, idKey, id, k, v), REQUESTS_FIELD) == First(d, REQUESTS_FIELD)
  {
    var items := Items(d, arr);
    var at := PosOf(items, idKey, id);
    if at < |items| {
      SetFieldOther(d, arr, Array(items[at := Document(SetField(items[at].fields, k, v))]), REQUESTS_FIELD);
    }
  }

  // ---- no request is served by two parts -----------------------------------------------------

  lemma StepKeeps(lib: Library, s: State, step: Step, used: multiset<string>, k: int)
    requires Good(s.db.streams) && Enabled(s, step) && Steady(lib, s.db.streams, used, k) && k <= MAX_COUNT
    requires step.Viewed? ==> used[step.sid] < k
    ensures var t := Next(lib, s, step).db.streams;
            && Good(t) && Later(s.db.streams, t)
            && Steady(lib, t, used + (if step.Viewed? then multiset{step.sid} else multiset{}), k)
  {
    match step
    case Generated(ep, uid, sid, key, fate) =>
      GenerateKeeps(lib, s.db, ep, uid, sid, key, fate);
      GenerateSteady(lib, s.db, ep, uid, sid, key, fate, used, k);
      assert used + multiset{} == used;
    case Viewed(uid, sid, ts, entry, view) => RecentKeeps(lib, s.db, uid, sid, ts, entry, view, used, k);
    case _ =>
      LaterSame(s.db.streams);
      assert Next(lib, s, step).db.streams == s.db.streams;
      assert used + multiset{} == used;
  }

  /** What a database must be like for the cache to survive `k` views of every stream: no stream has two
      parts for one request, no part lacks just its counter, and no counter can leave 32 bits. */
  ghost predicate Sound(lib: Library, streams: Streams, k: int) {
    Good(streams) && Steady(lib, streams, multiset{}, k) && 0 <= k <= MAX_COUNT
  }

  /** In every state of every run from a sound database no two parts of a stream serve one request, and no
      part goes away or starts or stops serving a request. */
  lemma {:induction false} NoTwoParts(lib: Library, s: State, steps: seq<Step>, k: int)
    requires Sound(lib, s.db.streams, k) && Run(lib, s, steps).Some? && Within(steps, k)
    ensures var t := Run(lib, s, steps).value.db.streams;
            Good(t) && Later(s.db.streams, t) && Steady(lib, t, Viewings(steps), k)
  {
    if steps == [] {
      LaterSame(s.db.streams);
    } else {
      var n := |steps| - 1;
      WithinPrefix(steps, k);
      NoTwoParts(lib, s, steps[..n], k);
      var before := Run(lib, s, steps[..n]).value;
      StepKeeps(lib, before, steps[n], Viewings(steps[..n]), k);
      LaterTrans(s.db.streams, before.db.streams, Next(lib, before, steps[n]).db.streams);
    }
  }

  // ---- the cache is not filled twice ---------------------------------------------------------

  /** The request for a stream, title and dates finds this catchup. */
  predicate Caches(streams: Streams, sid: string, key: CatKey, id: string) {
    sid in streams && FirstHit(streams, Parts(streams[sid]), key) == Some(id)
  }

  /** What a request finds it finds forever. */
  lemma CachedForever(lib: Library, s: State, steps: seq<Step>, k: int, sid: string, key: CatKey, id: string)
    requires Sound(lib, s.db.streams, k) && Run(lib, s, steps).Some? && Within(steps, k)
    requires Caches(s.db.streams, sid, key, id)
    ensures Caches(Run(lib, s, steps).value.db.streams, sid, key, id)
  {
    NoTwoParts(lib, s, steps, k);
    LaterHit(s.db.streams, Run(lib, s, steps).value.db.streams, sid, key);
  }

  /** A request that finds a catchup is answered with it; nothing is created and nothing written. */
  lemma ServedFromCache(lib: Library, db: Db, ep: Endpoint, uid: string, sid: string, key: CatKey, fate: Fate,
                        id: string)
    requires ValidStreams(db.streams) && Caches(db.streams, sid, key, id) && FindStream(lib, db, uid, sid).Ok?
    ensures var (db', r) := CreateCatchup(lib, db, ep, uid, sid, key, fate);
            db' == db && r.Ok? && !r.value.isCreated && r.value.cat.base.id == id
  {
    FoundBase(lib, db, uid, sid);
    HitId(lib, db.streams, id, key);
  }

  /** A request leaves the database sound. */
  lemma GeneratedSound(lib: Library, db: Db, ep: Endpoint, uid: string, sid: string, key: CatKey, fate: Fate, k: int)
    requires Sound(lib, db.streams, k) && Fresh(db.streams, fate.cid)
    ensures Sound(lib, Generate(lib, db, ep, uid, sid, key, fate).0.streams, k)
  {
    GenerateKeeps(lib, db, ep, uid, sid, key, fate);
    GenerateSteady(lib, db, ep, uid, sid, key, fate, multiset{}, k);
  }

  /** Once a request was answered with a catchup, the same request by any user who has the stream is
      answered with the same id and nothing is created or written to the streams or servers. */
  lemma AnsweredAgain(lib: Library, s: State, ep: Endpoint, uid: string, sid: string, key: CatKey, fate: Fate,
                      steps: seq<Step>, k: int, ep': Endpoint, uid': string, fate': Fate)
    requires Sound(lib, s.db.streams, k) && Enabled(s, Generated(ep, uid, sid, key, fate)) && Within(steps, k)
    requires Generate(lib, s.db, ep, uid, sid, key, fate).1.Ok?
    requires Run(lib, Next(lib, s, Generated(ep, uid, sid, key, fate)), steps).Some?
    requires FindStream(lib, Run(lib, Next(lib, s, Generated(ep, uid, sid, key, fate)), steps).value.db, uid', sid).Ok?
    ensures var first := Generate(lib, s.db, ep, uid, sid, key, fate).1.value;
            var t := Run(lib, Next(lib, s, Generated(ep, uid, sid, key, fate)), steps).value;
            var (db', again) := CreateCatchup(lib, t.db, ep', uid', sid, key, fate');
            db' == t.db && again.Ok? && !again.value.isCreated && again.value.cat.base.id == first.base.id
  {
    var s' := Next(lib, s, Generated(ep, uid, sid, key, fate));
    GenerateKeeps(lib, s.db, ep, uid, sid, key, fate);
    GeneratedSound(lib, s.db, ep, uid, sid, key, fate, k);
    var id := Generate(lib, s.db, ep, uid, sid, key, fate).1.value.base.id;
    NoTwoParts(lib, s', steps, k);
    CachedForever(lib, s', steps, k, sid, key, id);
    ServedFromCache(lib, Run(lib, s', steps).value.db, ep', uid', sid, key, fate', id);
  }

  /** What was announced is in the cache, and nothing was announced twice. */
  ghost predicate NotesOk(s: State) {
    && (forall i, j :: 0 <= i < j < |s.notes| ==> s.notes[i].sid != s.notes[j].sid || s.notes[i].key != s.notes[j].key)
    && forall n :: n in s.notes ==> Announced(s, n)
  }

  predicate Announced(s: State, n: Note) {
    n.sid in s.db.streams && FirstHit(s.db.streams, Parts(s.db.streams[n.sid]), n.key).Some?
  }

  lemma AnnouncedStays(s: State, t: State, n: Note)
    requires Announced(s, n) && Later(s.db.streams, t.db.streams)
    ensures Announced(t, n)
  {
    LaterHit(s.db.streams, t.db.streams, n.sid, n.key);
  }

  lemma NotesAppend(s: State, t: State, n: Note)
    requires NotesOk(s) && !Announced(s, n) && Announced(t, n) && t.notes == s.notes + [n]
    requires Later(s.db.streams, t.db.streams)
    ensures NotesOk(t)
  {
    forall m | m in t.notes ensures Announced(t, m) {
      if m in s.notes {
        AnnouncedStays(s, t, m);
      }
    }
    forall i | 0 <= i < |s.notes| ensures s.notes[i].sid != n.sid || s.notes[i].key != n.key {
      assert s.notes[i] in s.notes && Announced(s, s.notes[i]);
    }
  }

  lemma NotesSame(s: State, t: State)
    requires NotesOk(s) && t.notes == s.notes && Later(s.db.streams, t.db.streams)
    ensures NotesOk(t)
  {
    forall n | n in t.notes ensures Announced(t, n) {
      AnnouncedStays(s, t, n);
    }
  }

  lemma NotesStep(lib: Library, s: State, step: Step)
    requires Good(s.db.streams) && NotesOk(s) && Enabled(s, step)
    requires Later(s.db.streams, Next(lib, s, step).db.streams)
    ensures NotesOk(Next(lib, s, step))
  {
    var s' := Next(lib, s, step);
    if s'.notes == s.notes {
      NotesSame(s, s');
    } else {
      GenerateKeeps(lib, s.db, step.ep, step.uid, step.sid, step.key, step.fate);
      var added := Generate(lib, s.db, step.ep, step.uid, step.sid, step.key, step.fate).2;
      assert added == [added[0]];
      NotesAppend(s, s', added[0]);
    }
  }

  /** For each stream, title and dates at most one CatchupCreated is sent in a run. */
  lemma {:induction false} AnnouncedOnce(lib: Library, db: Db, steps: seq<Step>, k: int)
    requires Sound(lib, db.streams, k) && Run(lib, State(db, []), steps).Some? && Within(steps, k)
    ensures NotesOk(Run(lib, State(db, []), steps).value)
  {
    if steps != [] {
      var n := |steps| - 1;
      WithinPrefix(steps, k);
      AnnouncedOnce(lib, db, steps[..n], k);
      NoTwoParts(lib, State(db, []), steps[..n], k);
      StepKeeps(lib, Run(lib, State(db, []), steps[..n]).value, steps[n], Viewings(steps[..n]), k);
      NotesStep(lib, Run(lib, State(db, []), steps[..n]).value, steps[n]);
    }
  }

  lemma StepSilent(lib: Library, s: State, step: Step, sid: string, key: CatKey)
    requires Good(s.db.streams) && Enabled(s, step)
    requires sid in s.db.streams && FirstHit(s.db.streams, Parts(s.db.streams[sid]), key).Some?
    ensures forall n :: n in Next(lib, s, step).notes ==> n in s.notes || n.sid != sid || n.key != key
  {
    match step
    case Generated(ep, uid, sid', key', fate) =>
      GenerateKeeps(lib, s.db, ep, uid, sid', key', fate);
      NotesAdded(s.notes, Generate(lib, s.db, ep, uid, sid', key', fate).2, sid, key);
    case _ =>
      assert Next(lib, s, step).notes == s.notes;
  }

  lemma NotesAdded(notes: seq<Note>, added: seq<Note>, sid: string, key: CatKey)
    requires |added| <= 1 && (added != [] ==> added[0].sid != sid || added[0].key != key)
    ensures forall n :: n in notes + added ==> n in notes || n.sid != sid || n.key != key
  {
  }

  lemma {:induction false} CachedIsSilent(lib: Library, s: State, steps: seq<Step>, k: int, sid: string, key: CatKey)
    requires Sound(lib, s.db.streams, k) && Run(lib, s, steps).Some? && Within(steps, k)
    requires sid in s.db.streams && FirstHit(s.db.streams, Parts(s.db.streams[sid]), key).Some?
    ensures forall n :: n in Run(lib, s, steps).value.notes ==> n in s.notes || n.sid != sid || n.key != key
  {
    if steps != [] {
      var n := |steps| - 1;
      WithinPrefix(steps, k);
      CachedIsSilent(lib, s, steps[..n], k, sid, key);
      NoTwoParts(lib, s, steps[..n], k);
      LaterHit(s.db.streams, Run(lib, s, steps[..n]).value.db.streams, sid, key);
      StepSilent(lib, Run(lib, s, steps[..n]).value, steps[n], sid, key);
    }
  }
}
