/** Which requests link a catchup that no daemon is ever told about. */
module CatchupAnnouncements {
  import opened Common
  import opened Bson
  import opened Infos
  import opened Urls
  import opened Schemas
  import opened FieldValues
  import opened UserEntries
  import opened Store
  import opened UserUpdates
  import opened CatchupDocs
  import opened CatchupCache
  import opened CatchupCalls
  import opened CatchupViews
  import opened CatchupRequests
  import opened CatchupRuns

  /** No run from here with at most `k` views of each stream announces a catchup for this request. */
  ghost predicate NeverTold(lib: Library, db: Db, sid: string, key: CatKey, k: nat) {
    forall steps :: Run(lib, State(db, []), steps).Some? && Within(steps, k) ==>
      forall n :: n in Run(lib, State(db, []), steps).value.notes ==> n.sid != sid || n.key != key
  }

  // ---- a request that can still be served is announced in some run ---------------------------

  /** The same user with an empty list of catchups. */
  function Emptied(d: Doc): Doc {
    SetField(d, CATCHUPS_FIELD, Array([]))
  }

  lemma EmptiedUser(d: Doc)
    ensures TakesPull(Emptied(d)) && Items(Emptied(d), STREAMS_FIELD) == Items(d, STREAMS_FIELD)
    ensures First(Emptied(d), REQUESTS_FIELD) == First(d, REQUESTS_FIELD)
  {
    SetFieldFrame(d, CATCHUPS_FIELD, Array([]));
  }

  function WithEmptied(db: Db, uid: string): Db
    requires uid in db.subscribers
  {
    db.(subscribers := db.subscribers[uid := Emptied(db.subscribers[uid])])
  }

  lemma StillCreates(lib: Library, db: Db, ep: Endpoint, uid: string, sid: string, key: CatKey)
    requires Creates(lib, db, ep, uid, sid, key)
    ensures uid in db.subscribers && Creates(lib, WithEmptied(db, uid), ep, uid, sid, key)
  {
    EmptiedUser(db.subscribers[uid]);
    assert Prepare(WithEmptied(db, uid), ep, sid) == Prepare(db, ep, sid);
  }

  function Retry(db: Db, ep: Endpoint, uid: string, sid: string, key: CatKey, cid: string): seq<Step>
    requires uid in db.subscribers
  {
    [UsersChanged(WithEmptied(db, uid).subscribers), Generated(ep, uid, sid, key, Fate(cid, 0, Done, Done, Done, Done))]
  }

  lemma RetryRuns(lib: Library, db: Db, ep: Endpoint, uid: string, sid: string, key: CatKey, cid: string)
    requires Fresh(db.streams, cid) && uid in db.subscribers
    ensures var steps := Retry(db, ep, uid, sid, key, cid);
            var notes := Generate(lib, WithEmptied(db, uid), ep, uid, sid, key, Fate(cid, 0, Done, Done, Done, Done)).2;
            && Run(lib, State(db, []), steps).Some? && Run(lib, State(db, []), steps).value.notes == notes
            && Viewings(steps) == multiset{}
  {
    var steps, s := Retry(db, ep, uid, sid, key, cid), State(db, []);
    EmptiedUser(db.subscribers[uid]);
    ReplacedAllowed(db.subscribers, uid, Emptied(db.subscribers[uid]));
    assert steps[..1] == [steps[0]] && steps[..1][..0] == [];
    assert Run(lib, s, steps[..1][..0]) == Some(s);
    assert Run(lib, s, steps[..1]) == Some(Next(lib, s, steps[0]));
    assert Viewings(steps[..1][..0]) == multiset{} && Viewings(steps[..1]) == multiset{};
  }

  lemma CanBeTold(lib: Library, db: Db, ep: Endpoint, uid: string, sid: string, key: CatKey, cid: string, k: nat)
    requires Good(db.streams) && Fresh(db.streams, cid) && Creates(lib, db, ep, uid, sid, key)
    ensures !NeverTold(lib, db, sid, key, k)
  {
    StillCreates(lib, db, ep, uid, sid, key);
    var steps, then_ := Retry(db, ep, uid, sid, key, cid), WithEmptied(db, uid);
    RetryRuns(lib, db, ep, uid, sid, key, cid);
    var fate := Fate(cid, 0, Done, Done, Done, Done);
    EmptiedUser(db.subscribers[uid]);
    AnnouncedIff(lib, then_, ep, uid, sid, key, fate);
    GenerateKeeps(lib, then_, ep, uid, sid, key, fate);
    var note := Run(lib, State(db, []), steps).value.notes[0];
    assert note in Run(lib, State(db, []), steps).value.notes;
  }

  // ---- exactly when an announcement is lost --------------------------------------------------

  lemma LinkedIsNeverTold(lib: Library, db: Db, sid: string, key: CatKey, k: nat)
    requires Sound(lib, db.streams, k) && sid in db.streams && FirstHit(db.streams, Parts(db.streams[sid]), key).Some?
    ensures NeverTold(lib, db, sid, key, k)
  {
    forall steps | Run(lib, State(db, []), steps).Some? && Within(steps, k)
      ensures forall n :: n in Run(lib, State(db, []), steps).value.notes ==> n.sid != sid || n.key != key
    {
      CachedIsSilent(lib, State(db, []), steps, k, sid, key);
    }
  }

  lemma UnlinkedCreates(lib: Library, db: Db, ep: Endpoint, uid: string, sid: string, key: CatKey, fate: Fate)
    requires Good(db.streams) && Fresh(db.streams, fate.cid) && Creates(lib, db, ep, uid, sid, key) && !Links(fate)
    ensures Creates(lib, Generate(lib, db, ep, uid, sid, key, fate).0, ep, uid, sid, key)
  {
    LinkedIff(lib, db, ep, uid, sid, key, fate);
    var after := Generate(lib, db, ep, uid, sid, key, fate).0;
    assert Prepare(after, ep, sid) == Prepare(db, ep, sid);
  }

  /** A request that creates its catchup is not announced, and no later request of any user is either,
      exactly when the insert was reported and the push to the stream not refused, but then that push, the
      one to the server or the one to the user was not reported or met no list. `again` is any unused id. */
  lemma LostForGoodIff(lib: Library, db: Db, ep: Endpoint, uid: string, sid: string, key: CatKey, fate: Fate, k: nat,
                       again: string)
    requires Sound(lib, db.streams, k) && Fresh(db.streams, fate.cid) && Creates(lib, db, ep, uid, sid, key)
    requires Fresh(Generate(lib, db, ep, uid, sid, key, fate).0.streams, again)
    ensures var (after, r, notes) := Generate(lib, db, ep, uid, sid, key, fate);
            (notes == [] && NeverTold(lib, after, sid, key, k)) <==>
            Links(fate) && !(AllDone(fate) && fate.user == Done && TakesPull(db.subscribers[uid]))
  {
    var after := Generate(lib, db, ep, uid, sid, key, fate).0;
    AnnouncedIff(lib, db, ep, uid, sid, key, fate);
    LinkedIff(lib, db, ep, uid, sid, key, fate);
    GeneratedSound(lib, db, ep, uid, sid, key, fate, k);
    if Links(fate) {
      LinkedIsNeverTold(lib, after, sid, key, k);
    } else {
      UnlinkedCreates(lib, db, ep, uid, sid, key, fate);
      CanBeTold(lib, after, ep, uid, sid, key, again, k);
    }
  }

  // ---- one that happens ----------------------------------------------------------------------

  const BARE_CHANNEL := ChannelInfo(StreamBase("", [], 0, false, 0, 0, true, true, [], 0, false, []), NO_EPG)

  /** One stream "s" on one server, and one user "u" who has it. */
  function SmallDb(doc: Doc): Db {
    Db(map["u" := [Field(STREAMS_FIELD, Array([Document([Field(SID_FIELD, Oid("s"))])]))]],
       [[Field(ID_FIELD, Oid("v")), Field(STREAMS_FIELD, Array([Oid("s")]))]],
       map["s" := doc], map[], map[])
  }

  function SmallDoc(lib: Library, ep: Endpoint): Doc {
    NewDoc(lib, ep, "s", 0, CatKey("", 0, 0), BARE_CHANNEL, [])
  }

  /** The channel reader insists on nothing the catchup reader does not insist on. */
  lemma NewDocIsChannel(lib: Library, ep: Endpoint, cid: string, now: int, key: CatKey, base: ChannelInfo,
                        urls: seq<OutputUri>, st: StreamType)
    ensures Accepts(Channel, st, NewDoc(lib, ep, cid, now, key, base, urls))
  {
    var d := NewDoc(lib, ep, cid, now, key, base, urls);
    NewDocKeys(lib, ep, cid, now, key, base, urls);
    NewDocAccepted(lib, ep, cid, now, key, base, urls);
    AcceptsIff(Catchup, CATCHUP, d);
    ChannelNeedsLess();
    forall f | f in d ensures Typed(Channel)(f) {
      assert Typed(Catchup)(f);
    }
    AcceptsIff(Channel, st, d);
  }

  lemma ChannelNeedsLess()
    ensures Required(Channel) <= Required(Catchup)
    ensures forall k :: KindOf(Channel, k) == Any || KindOf(Channel, k) == KindOf(Catchup, k)
  {
  }

  lemma SmallFacts(lib: Library, ep: Endpoint)
    ensures var doc := SmallDoc(lib, ep);
            && ValidStream("s", doc) && Parts(doc) == [] && TextAt(doc, CLS_FIELD) == Some(lib.classes.catchup)
            && First(doc, OUTPUT_FIELD).Some? && First(doc, OUTPUT_FIELD).value.Array?
            && forall st :: Accepts(Channel, st, doc)
  {
    var doc := SmallDoc(lib, ep);
    NewDocServes(lib, ep, "s", 0, CatKey("", 0, 0), BARE_CHANNEL, []);
    NewDocValues(lib, ep, "s", 0, CatKey("", 0, 0), BARE_CHANNEL, []);
    IndexIsFirst(doc, OUTPUT_FIELD);
    forall st ensures Accepts(Channel, st, doc) {
      NewDocIsChannel(lib, ep, "s", 0, CatKey("", 0, 0), BARE_CHANNEL, [], st);
    }
  }

  lemma SmallSound(lib: Library, doc: Doc, k: nat)
    requires ValidStream("s", doc) && Parts(doc) == [] && k <= MAX_COUNT
    ensures Sound(lib, SmallDb(doc).streams, k)
  {
  }

  lemma SmallFound(lib: Library, doc: Doc)
    requires TextAt(doc, CLS_FIELD) == Some(lib.classes.catchup) && !IsVod(lib.streamType(lib.classes.catchup))
    requires forall st :: Accepts(Channel, st, doc)
    ensures FindStream(lib, SmallDb(doc), "u", "s").Ok?
  {
    var user := SmallDb(doc).subscribers["u"];
    assert Items(user, STREAMS_FIELD)[0] == Document([Field(SID_FIELD, Oid("s"))]);
    assert First([Field(SID_FIELD, Oid("s"))], SID_FIELD) == Some(Oid("s"));
    assert Refers(Items(user, STREAMS_FIELD)[0], SID_FIELD, "s");
    assert HasStream(user, "s");
  }

  lemma SmallPrepared(lib: Library, doc: Doc, ep: Endpoint)
    requires ep.valid && TextAt(doc, CLS_FIELD).Some? && First(doc, OUTPUT_FIELD).Some? && First(doc, OUTPUT_FIELD).value.Array?
    ensures Prepare(SmallDb(doc), ep, "s").Ok?
  {
    var server := SmallDb(doc).servers[0];
    assert NextAt(server, STREAMS_FIELD, 1) == 1;
    assert NextAt(server, STREAMS_FIELD, 0) == 1;
    assert Items(server, STREAMS_FIELD)[0] == Oid("s");
    assert ServerOf(SmallDb(doc).servers, "s") == 0;
  }

  lemma RefusalLoses(lib: Library, db: Db, ep: Endpoint, uid: string, sid: string, key: CatKey, cid: string, k: nat)
    requires Sound(lib, db.streams, k) && Fresh(db.streams, cid) && Creates(lib, db, ep, uid, sid, key)
    ensures var (after, r, notes) := Generate(lib, db, ep, uid, sid, key, Fate(cid, 0, Done, Done, Refused, Done));
            && r.Err? && notes == [] && sid in after.streams
            && FirstHit(after.streams, Parts(after.streams[sid]), key).Some? && NeverTold(lib, after, sid, key, k)
  {
    var fate := Fate(cid, 0, Done, Done, Refused, Done);
    AnnouncedIff(lib, db, ep, uid, sid, key, fate);
    RequestSucceedsIff(lib, db, ep, uid, sid, key, fate);
    LinkedIff(lib, db, ep, uid, sid, key, fate);
    GeneratedSound(lib, db, ep, uid, sid, key, fate, k);
    LinkedIsNeverTold(lib, Generate(lib, db, ep, uid, sid, key, fate).0, sid, key, k);
  }

  /** The push to the server is refused: the client gets an error, the catchup stays in the cache, and it is
      never announced. */
  lemma NoteLost(lib: Library, ep: Endpoint, key: CatKey, k: nat)
    requires ep.valid && !IsVod(lib.streamType(lib.classes.catchup)) && k <= MAX_COUNT
    ensures var db, fate := SmallDb(SmallDoc(lib, ep)), Fate("c", 0, Done, Done, Refused, Done);
            var (after, r, notes) := Generate(lib, db, ep, "u", "s", key, fate);
            && r.Err? && notes == [] && "s" in after.streams
            && FirstHit(after.streams, Parts(after.streams["s"]), key).Some? && NeverTold(lib, after, "s", key, k)
  {
    var doc := SmallDoc(lib, ep);
    SmallFacts(lib, ep);
    SmallSound(lib, doc, k);
    SmallFound(lib, doc);
    SmallPrepared(lib, doc, ep);
    SmallFresh(doc);
    RefusalLoses(lib, SmallDb(doc), ep, "u", "s", key, "c", k);
  }

  lemma SmallFresh(doc: Doc)
    requires Parts(doc) == []
    ensures Fresh(SmallDb(doc).streams, "c")
  {
    assert "c" != "s";
  }
}
