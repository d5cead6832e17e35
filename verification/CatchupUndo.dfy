/** What any run of requests adds to a user, and what he is left with after one undo. */
module CatchupUndo {
  import opened Common
  import opened Bson
  import opened Infos
  import opened Urls
  import opened Store
  import opened UserEntries
  import opened UserUpdates
  import opened CatchupDocs
  import opened CatchupCache
  import opened CatchupCalls
  import opened CatchupRequests
  import opened CatchupRuns

  /** The run holds requests for catchups and for content only. */
  predicate OnlyRequests(steps: seq<Step>) {
    forall i :: 0 <= i < |steps| ==> steps[i].Generated? || steps[i].Requested?
  }

  /** The catchup a request adds to the user: the one it found or created, if the push takes effect. */
  function AddedBy(lib: Library, db: Db, step: Step, uid: string): seq<string> {
    match step
    case Generated(ep, u, sid, key, fate) =>
      var reply := CreateCatchup(lib, db, ep, u, sid, key, fate).1;
      if u == uid && uid in db.subscribers && uid != "" && reply.Ok? && reply.value.cat.base.id != ""
         && fate.user != Refused && TakesPull(db.subscribers[uid])
      then [reply.value.cat.base.id] else []
    case _ => []
  }

  function Added(lib: Library, s: State, steps: seq<Step>, uid: string): seq<string>
    requires Run(lib, s, steps).Some?
  {
    if steps == [] then []
    else
      var n := |steps| - 1;
      Added(lib, s, steps[..n], uid) + AddedBy(lib, Run(lib, s, steps[..n]).value.db, steps[n], uid)
  }

  function EntriesFor(lib: Library, ids: seq<string>): seq<Value> {
    seq(|ids|, i requires 0 <= i < |ids| => Document(NewEntry(ids[i], Some(lib.classes.userStream))))
  }

  // ---- what a run of requests adds -----------------------------------------------------------

  lemma WritesUsers(db: Db, at: nat, sid: string, cid: string, doc: Doc, fate: Fate)
    requires sid in db.streams && at < |db.servers|
    ensures Writes(db, at, sid, cid, doc, fate).0.subscribers == db.subscribers
  {
  }

  lemma CreateUsers(lib: Library, db: Db, ep: Endpoint, base: ChannelInfo, key: CatKey, fate: Fate)
    ensures Create(lib, db, ep, base, key, fate).0.subscribers == db.subscribers
  {
    var plan := Prepare(db, ep, base.base.id);
    if plan.Ok? {
      var doc := NewDoc(lib, ep, fate.cid, fate.now, key, base, ReadOutputs(lib, plan.value.outputs));
      WritesUsers(db, plan.value.server, base.base.id, fate.cid, doc, fate);
    }
  }

  /** Only the last write of a request goes to the user. */
  lemma UsersUntouched(lib: Library, db: Db, ep: Endpoint, uid: string, sid: string, key: CatKey, fate: Fate)
    ensures CreateCatchup(lib, db, ep, uid, sid, key, fate).0.subscribers == db.subscribers
  {
    var base := FindStream(lib, db, uid, sid);
    if base.Ok? {
      CreateUsers(lib, db, ep, base.value, key, fate);
    }
  }

  lemma PushedEntry(d: Doc, entry: Value)
    requires Push(d, CATCHUPS_FIELD, entry).Some?
    ensures var e := Push(d, CATCHUPS_FIELD, entry).value;
            TakesPull(e) && Items(e, CATCHUPS_FIELD) == Items(d, CATCHUPS_FIELD) + [entry]
  {
  }

  lemma AddAdds(lib: Library, db: Db, u: string, cid: string, o: Outcome, uid: string)
    requires uid in db.subscribers
    ensures var after, d := AddUserCatchup(lib, db, u, cid, o).0, db.subscribers[uid];
            var ids := if u == uid && uid != "" && cid != "" && o != Refused && TakesPull(d) then [cid] else [];
            && uid in after.subscribers && (TakesPull(after.subscribers[uid]) <==> TakesPull(d))
            && Items(after.subscribers[uid], CATCHUPS_FIELD) == Items(d, CATCHUPS_FIELD) + EntriesFor(lib, ids)
  {
    var entry := Document(NewEntry(cid, Some(lib.classes.userStream)));
    assert EntriesFor(lib, [cid]) == [entry] && EntriesFor(lib, []) == [];
    if Push(db.subscribers[uid], CATCHUPS_FIELD, entry).Some? {
      PushedEntry(db.subscribers[uid], entry);
    }
  }

  lemma RequestedAdds(lib: Library, db: Db, u: string, title: string, kind: int32, status: int32, fate: RequestFate,
                      uid: string)
    requires uid in db.subscribers
    ensures var after := CreateRequest(lib, db, u, title, kind, status, fate).0;
            uid in after.subscribers && First(after.subscribers[uid], CATCHUPS_FIELD) == First(db.subscribers[uid], CATCHUPS_FIELD)
  {
    var d := db.subscribers[uid];
    assert [] + [Oid(fate.rid)] == [Oid(fate.rid)];
    SetFieldOther(d, REQUESTS_FIELD, Array(Items(d, REQUESTS_FIELD) + [Oid(fate.rid)]), CATCHUPS_FIELD);
  }

  lemma StepAdds(lib: Library, s: State, step: Step, uid: string)
    requires uid in s.db.subscribers && (step.Generated? || step.Requested?)
    ensures var t, d := Next(lib, s, step).db, s.db.subscribers[uid];
            && uid in t.subscribers && (TakesPull(t.subscribers[uid]) <==> TakesPull(d))
            && Items(t.subscribers[uid], CATCHUPS_FIELD)
               == Items(d, CATCHUPS_FIELD) + EntriesFor(lib, AddedBy(lib, s.db, step, uid))
  {
    assert EntriesFor(lib, []) == [];
    match step
    case Generated(ep, u, sid, key, fate) =>
      var (db1, r) := CreateCatchup(lib, s.db, ep, u, sid, key, fate);
      UsersUntouched(lib, s.db, ep, u, sid, key, fate);
      if r.Ok? {
        AddAdds(lib, db1, u, r.value.cat.base.id, fate.user, uid);
      }
    case Requested(u, title, kind, status, rfate) =>
      RequestedAdds(lib, s.db, u, title, kind, status, rfate, uid);
  }

  lemma EntriesConcat(lib: Library, a: seq<string>, b: seq<string>)
    ensures EntriesFor(lib, a + b) == EntriesFor(lib, a) + EntriesFor(lib, b)
  {
  }

  /** A run of requests by any users appends to the catchups of a user one entry for each request of his
      that was served and whose push took effect. */
  lemma {:induction false} RunAdds(lib: Library, s: State, steps: seq<Step>, uid: string)
    requires uid in s.db.subscribers && Run(lib, s, steps).Some? && OnlyRequests(steps)
    ensures var t, d := Run(lib, s, steps).value.db, s.db.subscribers[uid];
            && uid in t.subscribers && (TakesPull(t.subscribers[uid]) <==> TakesPull(d))
            && Items(t.subscribers[uid], CATCHUPS_FIELD)
               == Items(d, CATCHUPS_FIELD) + EntriesFor(lib, Added(lib, s, steps, uid))
  {
    if steps == [] {
      assert EntriesFor(lib, []) == [];
    } else {
      var n := |steps| - 1;
      RunAdds(lib, s, steps[..n], uid);
      var before := Run(lib, s, steps[..n]).value;
      StepAdds(lib, before, steps[n], uid);
      EntriesConcat(lib, Added(lib, s, steps[..n], uid), AddedBy(lib, before.db, steps[n], uid));
    }
  }

  // ---- and what one undo takes away ----------------------------------------------------------

  function Others(ids: seq<string>, id: string): seq<string> {
    Collect((x: string) => if x == id then None else Some(x), ids)
  }

  lemma {:induction false} WithoutEntries(lib: Library, ids: seq<string>, id: string)
    ensures Without(EntriesFor(lib, ids), SID_FIELD, id) == EntriesFor(lib, Others(ids, id))
  {
    if ids != [] {
      var n := |ids| - 1;
      WithoutEntries(lib, ids[..n], id);
      NewEntryRefers(lib, ids[n], id);
      var entries := EntriesFor(lib, ids);
      assert entries[..n] == EntriesFor(lib, ids[..n]);
      EntriesConcat(lib, Others(ids[..n], id), [ids[n]]);
      assert EntriesFor(lib, [ids[n]]) == [entries[n]];
    }
  }

  /** After any run of requests one undo that succeeds removes every entry for the catchup; the entries that
      were there before and those added for other catchups stay in their order. Repeated it changes
      nothing. */
  lemma UndoAfterRun(lib: Library, s: State, steps: seq<Step>, uid: string, id: string)
    requires uid in s.db.subscribers && Run(lib, s, steps).Some? && OnlyRequests(steps)
    ensures uid in Run(lib, s, steps).value.db.subscribers
    ensures var d, e := s.db.subscribers[uid], Run(lib, s, steps).value.db.subscribers[uid];
            var undone := Pull(e, CATCHUPS_FIELD, id);
            && (undone.Some? <==> TakesPull(d))
            && (undone.Some? ==>
                && Items(undone.value, CATCHUPS_FIELD)
                   == Without(Items(d, CATCHUPS_FIELD), SID_FIELD, id) + EntriesFor(lib, Others(Added(lib, s, steps, uid), id))
                && (forall v :: v in Items(undone.value, CATCHUPS_FIELD) ==> !Refers(v, SID_FIELD, id))
                && Pull(undone.value, CATCHUPS_FIELD, id) == undone)
  {
    RunAdds(lib, s, steps, uid);
    var e, added := Run(lib, s, steps).value.db.subscribers[uid], Added(lib, s, steps, uid);
    PulledOnce(e, id);
    CollectConcat((v: Value) => if Refers(v, SID_FIELD, id) then None else Some(v),
                  Items(s.db.subscribers[uid], CATCHUPS_FIELD), EntriesFor(lib, added));
    WithoutEntries(lib, added, id);
  }

  lemma {:induction false} NoOthers(ids: seq<string>, id: string)
    requires forall x :: x in ids ==> x == id
    ensures Others(ids, id) == []
  {
    if ids != [] {
      var n := |ids| - 1;
      assert forall x :: x in ids[..n] ==> x in ids;
      NoOthers(ids[..n], id);
      assert ids[n] in ids;
    }
  }

  /** Requests that all lead to one catchup the user did not have, and then one undo: the user has the list
      he had before. */
  lemma UndoRestores(lib: Library, s: State, steps: seq<Step>, uid: string, id: string)
    requires uid in s.db.subscribers && Run(lib, s, steps).Some? && OnlyRequests(steps) && TakesPull(s.db.subscribers[uid])
    requires forall v :: v in Items(s.db.subscribers[uid], CATCHUPS_FIELD) ==> !Refers(v, SID_FIELD, id)
    requires forall x :: x in Added(lib, s, steps, uid) ==> x == id
    ensures uid in Run(lib, s, steps).value.db.subscribers
    ensures var undone := Pull(Run(lib, s, steps).value.db.subscribers[uid], CATCHUPS_FIELD, id);
            undone.Some? && Items(undone.value, CATCHUPS_FIELD) == Items(s.db.subscribers[uid], CATCHUPS_FIELD)
  {
    UndoAfterRun(lib, s, steps, uid, id);
    WithoutMembers(Items(s.db.subscribers[uid], CATCHUPS_FIELD), SID_FIELD, id);
    NoOthers(Added(lib, s, steps, uid), id);
    assert EntriesFor(lib, []) == [];
  }

  // ---- the content requests of a run ---------------------------------------------------------

  /** The content request a step adds to the user: if it was stored and the push takes effect. */
  function RequestedBy(db: Db, step: Step, uid: string): seq<Value> {
    match step
    case Requested(u, _, _, _, rfate) =>
      if && u == uid && uid != "" && uid in db.subscribers && rfate.insert == Done && rfate.user != Refused
         && (First(db.subscribers[uid], REQUESTS_FIELD).Some? ==> First(db.subscribers[uid], REQUESTS_FIELD).value.Array?)
      then [Oid(rfate.rid)] else []
    case _ => []
  }

  function AllRequested(lib: Library, s: State, steps: seq<Step>, uid: string): seq<Value>
    requires Run(lib, s, steps).Some?
  {
    if steps == [] then []
    else
      var n := |steps| - 1;
      AllRequested(lib, s, steps[..n], uid) + RequestedBy(Run(lib, s, steps[..n]).value.db, steps[n], uid)
  }

  lemma AddKeepsRequests(lib: Library, db: Db, u: string, cid: string, o: Outcome, uid: string)
    requires uid in db.subscribers
    ensures var after := AddUserCatchup(lib, db, u, cid, o).0;
            uid in after.subscribers && Items(after.subscribers[uid], REQUESTS_FIELD) == Items(db.subscribers[uid], REQUESTS_FIELD)
  {
    var d, entry := db.subscribers[uid], Document(NewEntry(cid, Some(lib.classes.userStream)));
    assert [] + [entry] == [entry];
    SetFieldOther(d, CATCHUPS_FIELD, Array(Items(d, CATCHUPS_FIELD) + [entry]), REQUESTS_FIELD);
  }

  lemma StepRequests(lib: Library, s: State, step: Step, uid: string)
    requires uid in s.db.subscribers && (step.Generated? || step.Requested?)
    ensures var t, d := Next(lib, s, step).db, s.db.subscribers[uid];
            && uid in t.subscribers
            && Items(t.subscribers[uid], REQUESTS_FIELD) == Items(d, REQUESTS_FIELD) + RequestedBy(s.db, step, uid)
  {
    match step
    case Generated(ep, u, sid, key, fate) =>
      var (db1, r) := CreateCatchup(lib, s.db, ep, u, sid, key, fate);
      UsersUntouched(lib, s.db, ep, u, sid, key, fate);
      if r.Ok? {
        AddKeepsRequests(lib, db1, u, r.value.cat.base.id, fate.user, uid);
      }
    case Requested(u, title, kind, status, rfate) =>
  }

  /** A run of requests by any users appends to the content requests of a user the ids of those of his that
      were stored and linked, in order. */
  lemma {:induction false} RunRequests(lib: Library, s: State, steps: seq<Step>, uid: string)
    requires uid in s.db.subscribers && Run(lib, s, steps).Some? && OnlyRequests(steps)
    ensures var t := Run(lib, s, steps).value.db;
            && uid in t.subscribers
            && Items(t.subscribers[uid], REQUESTS_FIELD)
               == Items(s.db.subscribers[uid], REQUESTS_FIELD) + AllRequested(lib, s, steps, uid)
  {
    if steps != [] {
      var n := |steps| - 1;
      RunAdds(lib, s, steps[..n], uid);
      RunRequests(lib, s, steps[..n], uid);
      StepRequests(lib, Run(lib, s, steps[..n]).value, steps[n], uid);
    }
  }
}
