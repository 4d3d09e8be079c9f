/** Any number of server instances editing documents through rooms, relaying frames over a
    lossy bus, buffering what they observe and appending it to the shared log. */
module Cluster {
  import opened Wrappers
  import opened Yjs
  import opened DocStore
  import opened LogProtocol

  /** One instance's room. `captured` is the flush chain, `appending` the id its first batch
      was given. A room that crashed stays on record with `alive` false. */
  datatype Room = Room(
    docId: DocId, alive: bool, doc: Doc, buffered: seq<Doc>, captured: seq<seq<Doc>>, appending: Option<nat>)

  /** `frames` is everything ever published: a subscriber may get a frame late, twice or never. */
  datatype State = State(world: World, rooms: map<nat, Room>, frames: set<(DocId, Doc)>)

  datatype Event =
    | OpenFirst(room: nat, docId: DocId, content: Doc)
    | Open(room: nat, docId: DocId)
    | Edit(room: nat, ops: Doc)
    | Deliver(room: nat, ops: Doc)
    | Capture(room: nat)
    | SkipEmpty(room: nat)
    | BeginAppend(room: nat, createdAt: int)
    | Appended(room: nat)
    | AppendFailed(room: nat, committed: bool)
    | Die(room: nat, committed: bool)
    | Store(step: Step)

  function InitialState(now: int): State {
    State(InitialWorld(now), map[], {})
  }

  /** Observed and not known to be in the log. */
  function Pending(room: Room): Doc {
    Union(room.buffered) + Batches(room.captured)
  }

  function Batches(captured: seq<seq<Doc>>): Doc {
    if captured == [] then {} else Union(captured[0]) + Batches(captured[1..])
  }

  /** Everything any room of the document ever held. */
  ghost function Known(s: State, docId: DocId): (ops: Doc)
    ensures forall op :: op in ops <==>
      exists r :: r in s.rooms && s.rooms[r].docId == docId && op in s.rooms[r].doc
  {
    set r, op | r in s.rooms && s.rooms[r].docId == docId && op in s.rooms[r].doc :: op
  }

  ghost predicate Live(s: State, r: nat) {
    r in s.rooms && s.rooms[r].alive
  }

  ghost predicate Allowed(s: State, e: Event) {
    match e
    case OpenFirst(r, docId, _) => r !in s.rooms && Fresh(s.world, docId)
    case Open(r, docId) => r !in s.rooms && LoadFrom(s.world.db, docId).exists_
    case Edit(r, _) => Live(s, r)
    case Deliver(r, ops) => Live(s, r) && (s.rooms[r].docId, ops) in s.frames
    case Capture(r) => Live(s, r)
    case SkipEmpty(r) =>
      Live(s, r) && s.rooms[r].appending.None? && s.rooms[r].captured != [] && s.rooms[r].captured[0] == []
    case BeginAppend(r, createdAt) =>
      && Live(s, r) && s.rooms[r].appending.None? && s.rooms[r].captured != [] && s.rooms[r].captured[0] != []
      && Enabled(s.world, Alloc(s.rooms[r].docId, Union(s.rooms[r].captured[0]), createdAt))
    case Appended(r) => Live(s, r) && s.rooms[r].appending.Some?
    case AppendFailed(r, _) => Live(s, r) && s.rooms[r].appending.Some?
    case Die(r, _) => Live(s, r)
    case Store(step) => (step.Read? || step.Finish? || step.Crash? || step.Tick?) && Enabled(s.world, step)
  }

  /** Applying an update fires the observer with what it added, if it added anything. */
  function Applied(room: Room, ops: Doc): Room {
    if ops <= room.doc then room
    else room.(doc := room.doc + ops, buffered := room.buffered + [ops - room.doc])
  }

  /** The row of a room's append ends up in the log or it does not. */
  function Settle(w: World, room: Room, committed: bool): World {
    if room.appending.None? then w
    else if committed then AfterCommit(w, room.appending.value)
    else w.(issued := w.issued - {room.appending.value})
  }

  function Put(s: State, r: nat, room: Room): State {
    s.(rooms := s.rooms[r := room])
  }

  function After(s: State, e: Event): State
    requires Allowed(s, e)
  {
    match e
    case OpenFirst(r, docId, content) =>
      Put(s.(world := AfterSeed(s.world, docId, content)), r, Room(docId, true, content, [], [], None))
    case Open(r, docId) =>
      Put(s, r, Room(docId, true, Rebuilt(LoadFrom(s.world.db, docId)), [], [], None))
    case Edit(r, ops) =>
      var room := s.rooms[r];
      // The socket's update is published exactly when it changed the document.
      Put(s, r, Applied(room, ops)).(frames :=
        if ops <= room.doc then s.frames else s.frames + {(room.docId, ops - room.doc)})
    case Deliver(r, ops) => Put(s, r, Applied(s.rooms[r], ops))
    case Capture(r) =>
      var room := s.rooms[r];
      Put(s, r, room.(buffered := [], captured := room.captured + [room.buffered]))
    case SkipEmpty(r) => Put(s, r, s.rooms[r].(captured := s.rooms[r].captured[1..]))
    case BeginAppend(r, createdAt) =>
      var room := s.rooms[r];
      Put(s.(world := AfterAlloc(s.world, room.docId, Union(room.captured[0]), createdAt)), r,
          room.(appending := Some(s.world.db.lastId + 1)))
    case Appended(r) =>
      var room := s.rooms[r];
      Put(s.(world := Settle(s.world, room, true)), r,
          if room.captured == [] then room else room.(captured := room.captured[1..], appending := None))
    case AppendFailed(r, committed) =>
      // The merged batch goes back to the front of the buffer, even if the row did commit and
      // only its acknowledgement was lost.
      var room := s.rooms[r];
      Put(s.(world := Settle(s.world, room, committed)), r,
          if room.captured == [] then room
          else room.(
            buffered := [Union(room.captured[0])] + room.buffered,
            captured := room.captured[1..],
            appending := None))
    case Die(r, committed) =>
      Put(s.(world := Settle(s.world, s.rooms[r], committed)), r, s.rooms[r].(alive := false, appending := None))
    case Store(step) => s.(world := Next(s.world, step))
  }

  // ── The invariant ──────────────────────────────────────────────────────────

  /** What a live room observed is in the log or still pending, and its pending append is one
      row in flight. */
  ghost predicate RoomSound(w: World, room: Room) {
    && Pending(room) <= room.doc
    && (room.alive ==> room.doc <= History(w, room.docId) + Pending(room))
    && (room.appending.Some? ==>
          && room.captured != []
          && Uncommitted(w, room.appending.value)
          && w.issued[room.appending.value].docId == room.docId
          && w.issued[room.appending.value].update == Union(room.captured[0]))
  }

  ghost predicate RoomsSound(s: State) {
    && (forall r | r in s.rooms :: RoomSound(s.world, s.rooms[r]))
    && (forall q, r | q in s.rooms && r in s.rooms && q != r ::
          s.rooms[q].appending.Some? ==> s.rooms[q].appending != s.rooms[r].appending)
  }

  /** Nothing is invented: rows, seeds and frames only carry what some room held. */
  ghost predicate NothingInvented(s: State) {
    && (forall id | id in s.world.issued :: s.world.issued[id].update <= Known(s, s.world.issued[id].docId))
    && (forall d | d in s.world.seeds :: s.world.seeds[d] <= Known(s, d))
    && (forall f | f in s.frames :: f.1 <= Known(s, f.0))
  }

  ghost predicate ClusterInv(s: State) {
    Inv(s.world) && RoomsSound(s) && NothingInvented(s)
  }

  // ── How the history moves ──────────────────────────────────────────────────

  lemma {:induction false} HistoryOnlyGrows(w: World, v: World, docId: DocId)
    requires Extends(w, v) && IdsIssued(w) && SeedOf(w, docId) <= SeedOf(v, docId)
    ensures History(w, docId) <= History(v, docId)
  {
  }

  lemma {:induction false} SeedsOnlyGrow(w: World, v: World, docId: DocId)
    requires Inv(w) && Extends(w, v)
    ensures SeedOf(w, docId) <= SeedOf(v, docId)
  {
    assert docId in w.seeds ==> docId in w.db.snapshots;
  }

  lemma {:induction false} HistoryAfterCommit(w: World, id: nat)
    requires IdsIssued(w) && Uncommitted(w, id)
    ensures w.issued[id].update <= History(AfterCommit(w, id), w.issued[id].docId)
  {
    assert AfterCommit(w, id).archive[id] == w.issued[id];
  }

  /** The history is made of the seed and of rows that were issued. */
  lemma {:induction false} HistoryIsKnown(s: State, docId: DocId)
    requires IdsIssued(s.world) && NothingInvented(s)
    ensures History(s.world, docId) <= Known(s, docId) + SeedOf(s.world, docId)
    ensures SeedOf(s.world, docId) <= Known(s, docId)
  {
  }

  // ── Every event keeps it ───────────────────────────────────────────────────

  /** A room untouched by an event stays sound if the history did not shrink and its append is
      still in flight. */
  lemma {:induction false} RoomFrame(w: World, v: World, room: Room)
    requires RoomSound(w, room) && History(w, room.docId) <= History(v, room.docId)
    requires room.appending.Some? ==>
      var id := room.appending.value; Uncommitted(v, id) && w.issued[id] == v.issued[id]
    ensures RoomSound(v, room)
  {
  }

  /** Replacing one room and keeping or extending the world. */
  lemma {:induction false} PutKeeps(s: State, v: World, r: nat, room: Room)
    requires RoomsSound(s) && RoomSound(v, room)
    requires forall q | q in s.rooms && q != r :: room.appending.Some? ==> s.rooms[q].appending != room.appending
    requires forall q | q in s.rooms && q != r :: RoomSound(v, s.rooms[q])
    ensures RoomsSound(Put(s.(world := v), r, room))
  {
    hide RoomSound;
  }

  lemma {:induction false} OthersKeep(s: State, v: World, r: nat)
    requires RoomsSound(s) && Inv(s.world) && Extends(s.world, v)
    requires forall q | q in s.rooms && q != r && s.rooms[q].appending.Some? ::
      var id := s.rooms[q].appending.value; Uncommitted(v, id) && v.issued[id] == s.world.issued[id]
    ensures forall q | q in s.rooms && q != r :: RoomSound(v, s.rooms[q])
  {
    assert IdsIssued(s.world);
    hide Inv, Extends, RoomSound, History;
    forall q | q in s.rooms && q != r
      ensures RoomSound(v, s.rooms[q])
    {
      SeedsOnlyGrow(s.world, v, s.rooms[q].docId);
      HistoryOnlyGrows(s.world, v, s.rooms[q].docId);
      RoomFrame(s.world, v, s.rooms[q]);
    }
  }

  lemma {:induction false} HeldIsKnown(s: State, r: nat)
    requires r in s.rooms
    ensures s.rooms[r].doc <= Known(s, s.rooms[r].docId)
  {
  }

  /** Documents only grow, so what was known stays known. */
  lemma {:induction false} KnownGrows(s: State, t: State, docId: DocId)
    requires forall r | r in s.rooms ::
        r in t.rooms && t.rooms[r].docId == s.rooms[r].docId && s.rooms[r].doc <= t.rooms[r].doc
    ensures Known(s, docId) <= Known(t, docId)
  {
  }

  lemma {:induction false} NothingNew(s: State, t: State)
    requires NothingInvented(s)
    requires forall r | r in s.rooms ::
        r in t.rooms && t.rooms[r].docId == s.rooms[r].docId && s.rooms[r].doc <= t.rooms[r].doc
    requires forall id | id in t.world.issued ::
      ((id in s.world.issued && t.world.issued[id] == s.world.issued[id])
       || t.world.issued[id].update <= Known(t, t.world.issued[id].docId))
    requires forall d | d in t.world.seeds ::
      ((d in s.world.seeds && t.world.seeds[d] == s.world.seeds[d]) || t.world.seeds[d] <= Known(t, d))
    requires forall f | f in t.frames :: (f in s.frames || f.1 <= Known(t, f.0))
    ensures NothingInvented(t)
  {
    hide Known;
    forall d
      ensures Known(s, d) <= Known(t, d)
    {
      KnownGrows(s, t, d);
    }
  }

  lemma {:induction false} OpenKeeps(s: State, r: nat, v: World, room: Room)
    requires ClusterInv(s) && r !in s.rooms && Inv(v) && Extends(s.world, v) && v.issued == s.world.issued
    requires v.archive == s.world.archive
    requires forall d | d in v.seeds ::
      ((d in s.world.seeds && v.seeds[d] == s.world.seeds[d]) || (d == room.docId && v.seeds[d] == room.doc))
    requires room == Room(room.docId, true, room.doc, [], [], None) && room.doc <= History(v, room.docId)
    ensures ClusterInv(Put(s.(world := v), r, room))
  {
    var t := Put(s.(world := v), r, room);
    assert RoomSound(v, room) by {
      assert Union([]) == {};
      hide Inv, Extends, RoomsSound, NothingInvented, History;
    }
    hide Inv, Extends, RoomSound;
    OthersKeep(s, v, r);
    assert room.doc <= Known(t, room.docId) by { HeldIsKnown(t, r); }
    hide Known;
    NothingNew(s, t);
    hide NothingInvented;
    PutKeeps(s, v, r, room);
  }

  lemma {:induction false} ApplySound(w: World, room: Room, ops: Doc)
    requires RoomSound(w, room)
    ensures RoomSound(w, Applied(room, ops)) && room.doc + ops == Applied(room, ops).doc
  {
    UnionOfConcat(room.buffered, [ops - room.doc]);
    UnionOfOne(ops - room.doc);
    hide Union, Batches, History, Uncommitted;
  }

  lemma {:induction false} ApplyKeeps(s: State, r: nat, ops: Doc, frames: set<(DocId, Doc)>)
    requires ClusterInv(s) && Live(s, r)
    requires frames == s.frames || (frames == s.frames + {(s.rooms[r].docId, ops - s.rooms[r].doc)})
    ensures ClusterInv(Put(s, r, Applied(s.rooms[r], ops)).(frames := frames))
  {
    var room := Applied(s.rooms[r], ops);
    var t := Put(s, r, room).(frames := frames);
    assert room == s.rooms[r].(doc := room.doc, buffered := room.buffered);
    ApplySound(s.world, s.rooms[r], ops);
    hide Inv, RoomSound, Applied;
    assert room.doc <= Known(t, room.docId) by { HeldIsKnown(t, r); }
    hide Known;
    NothingNew(s, t);
    hide NothingInvented;
    PutKeeps(s, s.world, r, room);
  }

  lemma {:induction false} BatchesOfConcat(a: seq<seq<Doc>>, batch: seq<Doc>)
    ensures Batches(a + [batch]) == Batches(a) + Union(batch)
    decreases |a|
  {
    if a == [] {
      assert Batches([batch]) == Union(batch) + Batches([]);
    } else {
      assert (a + [batch])[1..] == a[1..] + [batch];
      BatchesOfConcat(a[1..], batch);
    }
  }

  /** Moving observed updates along the chain, without touching the log. */
  lemma {:induction false} ShuffleKeeps(s: State, r: nat, room: Room)
    requires ClusterInv(s) && r in s.rooms
    requires room.docId == s.rooms[r].docId && room.doc == s.rooms[r].doc && room.alive == s.rooms[r].alive
    requires Pending(room) == Pending(s.rooms[r])
    requires room.appending == s.rooms[r].appending
    requires room.appending.Some? ==> room.captured != [] && room.captured[0] == s.rooms[r].captured[0]
    ensures ClusterInv(Put(s, r, room))
  {
    assert RoomSound(s.world, room);
    NothingNew(s, Put(s, r, room));
    hide Inv, RoomSound, NothingInvented, Pending;
    PutKeeps(s, s.world, r, room);
  }

  lemma {:induction false} BeginSound(w: World, room: Room, createdAt: int)
    requires Inv(w) && RoomSound(w, room) && room.captured != []
    requires Inv(AfterAlloc(w, room.docId, Union(room.captured[0]), createdAt))
    requires Extends(w, AfterAlloc(w, room.docId, Union(room.captured[0]), createdAt))
    ensures var v := AfterAlloc(w, room.docId, Union(room.captured[0]), createdAt);
            RoomSound(v, room.(appending := Some(w.db.lastId + 1)))
  {
    var v := AfterAlloc(w, room.docId, Union(room.captured[0]), createdAt);
    InvIssued(w);
    InvIssued(v);
    assert w.db.lastId + 1 !in w.issued;
    SeedsOnlyGrow(w, v, room.docId);
    HistoryOnlyGrows(w, v, room.docId);
    hide Inv, Extends, History, Union;
  }

  lemma {:induction false} BeginKeeps(s: State, r: nat, createdAt: int)
    requires ClusterInv(s) && Live(s, r) && s.rooms[r].appending.None? && s.rooms[r].captured != []
    requires Enabled(s.world, Alloc(s.rooms[r].docId, Union(s.rooms[r].captured[0]), createdAt))
    ensures var room := s.rooms[r];
            ClusterInv(Put(s.(world := AfterAlloc(s.world, room.docId, Union(room.captured[0]), createdAt)), r,
                           room.(appending := Some(s.world.db.lastId + 1))))
  {
    var room, id := s.rooms[r], s.world.db.lastId + 1;
    var v := AfterAlloc(s.world, room.docId, Union(room.captured[0]), createdAt);
    AllocKeeps(s.world, room.docId, Union(room.captured[0]), createdAt);
    BeginSound(s.world, room, createdAt);
    InvIssued(s.world);
    assert id !in s.world.issued;
    assert Union(room.captured[0]) <= room.doc by { assert RoomSound(s.world, room); }
    hide Inv, Extends, Union;
    var t := Put(s.(world := v), r, room.(appending := Some(id)));
    assert RoomsSound(t) by {
      OthersKeep(s, v, r);
      hide NothingInvented;
      forall q | q in s.rooms && q != r
        ensures s.rooms[q].appending != Some(id)
      {
        assert RoomSound(s.world, s.rooms[q]);
      }
      hide RoomSound;
      PutKeeps(s, v, r, room.(appending := Some(id)));
    }
    hide RoomsSound, RoomSound;
    assert NothingInvented(t) by {
      HeldIsKnown(t, r);
      hide Known;
      NothingNew(s, t);
    }
    hide NothingInvented;
  }

  /** An append settles: its row is in the log for good, or it never will be. */
  lemma {:induction false} SettleKeeps(s: State, r: nat, committed: bool)
    requires ClusterInv(s) && r in s.rooms
    ensures var v := Settle(s.world, s.rooms[r], committed);
            && Inv(v)
            && (forall q | q in s.rooms && q != r :: RoomSound(v, s.rooms[q]))
            && History(s.world, s.rooms[r].docId) <= History(v, s.rooms[r].docId)
            && (s.rooms[r].appending.Some? && committed ==>
                  Union(s.rooms[r].captured[0]) <= History(v, s.rooms[r].docId))
            && (forall id | id in v.issued :: id in s.world.issued && v.issued[id] == s.world.issued[id])
            && v.seeds == s.world.seeds
  {
    var room := s.rooms[r];
    var v := Settle(s.world, room, committed);
    hide History;
    if room.appending.Some? {
      var id := room.appending.value;
      if committed { CommitKeeps(s.world, id); HistoryAfterCommit(s.world, id); } else { AbortKeeps(s.world, id); }
      hide Inv, Extends;
      OthersKeep(s, v, r);
      SeedsOnlyGrow(s.world, v, room.docId);
      assert IdsIssued(s.world) by { InvIssued(s.world); }
      HistoryOnlyGrows(s.world, v, room.docId);
    }
  }

  lemma {:induction false} InvIssued(w: World)
    requires Inv(w)
    ensures IdsIssued(w)
  {
  }

  lemma {:induction false} SettledRoomKeeps(s: State, r: nat, committed: bool, room: Room)
    requires ClusterInv(s) && r in s.rooms
    requires room.docId == s.rooms[r].docId && room.doc == s.rooms[r].doc && room.appending == None
    requires Pending(room) <= room.doc
    requires room.alive ==> room.doc <= History(Settle(s.world, s.rooms[r], committed), room.docId) + Pending(room)
    ensures ClusterInv(Put(s.(world := Settle(s.world, s.rooms[r], committed)), r, room))
  {
    var v := Settle(s.world, s.rooms[r], committed);
    SettleKeeps(s, r, committed);
    hide Settle, Inv;
    assert RoomSound(v, room);
    NothingNew(s, Put(s.(world := v), r, room));
    hide RoomSound, NothingInvented, Pending;
    PutKeeps(s, v, r, room);
  }

  lemma {:induction false} AppendedKeeps(s: State, r: nat)
    requires ClusterInv(s) && Allowed(s, Appended(r))
    ensures ClusterInv(After(s, Appended(r)))
  {
    SettleKeeps(s, r, true);
    var room := s.rooms[r];
    assert RoomSound(s.world, room);
    hide Settle, Inv, History, NothingInvented;
    SettledRoomKeeps(s, r, true, room.(captured := room.captured[1..], appending := None));
  }

  lemma {:induction false} FailedKeeps(s: State, r: nat, committed: bool)
    requires ClusterInv(s) && Allowed(s, AppendFailed(r, committed))
    ensures ClusterInv(After(s, AppendFailed(r, committed)))
  {
    SettleKeeps(s, r, committed);
    var room := s.rooms[r];
    assert RoomSound(s.world, room);
    UnionOfConcat([Union(room.captured[0])], room.buffered);
    UnionOfOne(Union(room.captured[0]));
    hide Settle, Inv, History, NothingInvented, Union;
    SettledRoomKeeps(s, r, committed,
      room.(buffered := [Union(room.captured[0])] + room.buffered, captured := room.captured[1..], appending := None));
  }

  lemma {:induction false} DieKeeps(s: State, r: nat, committed: bool)
    requires ClusterInv(s) && Allowed(s, Die(r, committed))
    ensures ClusterInv(After(s, Die(r, committed)))
  {
    assert RoomSound(s.world, s.rooms[r]);
    hide Settle, Inv, History, NothingInvented;
    SettledRoomKeeps(s, r, committed, s.rooms[r].(alive := false, appending := None));
  }

  lemma {:induction false} StoreStepsIssueNothing(w: World, step: Step)
    requires step.Read? || step.Finish? || step.Crash? || step.Tick?
    ensures var v := Next(w, step); v.issued == w.issued && v.archive == w.archive && v.seeds == w.seeds
  {
    hide FinishResult, CandidateFrom, SelectIds;
  }

  lemma {:induction false} StoreKeeps(s: State, step: Step)
    requires ClusterInv(s) && (step.Read? || step.Finish? || step.Crash? || step.Tick?) && Enabled(s.world, step)
    ensures ClusterInv(s.(world := Next(s.world, step)))
  {
    var v := Next(s.world, step);
    StoreStepsIssueNothing(s.world, step);
    NextKeeps(s.world, step);
    hide Next, Enabled, Inv, Extends;
    RoomsKeep(s, v);
    hide RoomsSound;
    NothingNew(s, s.(world := v));
  }

  lemma {:induction false} RoomsKeep(s: State, v: World)
    requires RoomsSound(s) && Inv(s.world) && Extends(s.world, v)
    requires v.issued == s.world.issued && v.archive == s.world.archive
    ensures RoomsSound(s.(world := v))
  {
    InvIssued(s.world);
    forall r | r in s.rooms
      ensures RoomSound(v, s.rooms[r])
    {
      assert RoomSound(s.world, s.rooms[r]);
      hide Inv, Extends, History, Pending;
      SeedsOnlyGrow(s.world, v, s.rooms[r].docId);
      HistoryOnlyGrows(s.world, v, s.rooms[r].docId);
      RoomFrame(s.world, v, s.rooms[r]);
    }
    hide RoomSound, Inv, Extends;
  }

  lemma {:induction false} OpenFirstKeeps(s: State, r: nat, docId: DocId, content: Doc)
    requires ClusterInv(s) && Allowed(s, OpenFirst(r, docId, content))
    ensures ClusterInv(After(s, OpenFirst(r, docId, content)))
  {
    SeedKeeps(s.world, docId, content);
    hide Inv, Extends, RoomsSound, NothingInvented;
    OpenKeeps(s, r, AfterSeed(s.world, docId, content), Room(docId, true, content, [], [], None));
  }

  lemma {:induction false} ReopenKeeps(s: State, r: nat, docId: DocId)
    requires ClusterInv(s) && Allowed(s, Open(r, docId))
    ensures ClusterInv(After(s, Open(r, docId)))
  {
    LoadIsHistory(s.world, docId);
    SameWorldExtends(s.world);
    hide Inv, Extends, RoomsSound, NothingInvented, LoadFrom;
    OpenKeeps(s, r, s.world, Room(docId, true, Rebuilt(LoadFrom(s.world.db, docId)), [], [], None));
  }

  lemma {:induction false} SameWorldExtends(w: World)
    requires Inv(w)
    ensures Extends(w, w)
  {
    InvIssued(w);
  }

  lemma {:induction false} CaptureKeeps(s: State, r: nat)
    requires ClusterInv(s) && Allowed(s, Capture(r))
    ensures ClusterInv(After(s, Capture(r)))
  {
    var room := s.rooms[r];
    BatchesOfConcat(room.captured, room.buffered);
    UnionOfNothing();
    AppendingHasBatch(s, r);
    hide ClusterInv, Union, Batches;
    ShuffleKeeps(s, r, room.(buffered := [], captured := room.captured + [room.buffered]));
  }

  lemma {:induction false} UnionOfNothing()
    ensures Union([]) == {}
  {
  }

  lemma {:induction false} AppendingHasBatch(s: State, r: nat)
    requires RoomsSound(s) && r in s.rooms
    ensures s.rooms[r].appending.Some? ==> s.rooms[r].captured != []
  {
    hide History, Pending;
  }

  lemma {:induction false} SkipKeeps(s: State, r: nat)
    requires ClusterInv(s) && Allowed(s, SkipEmpty(r))
    ensures ClusterInv(After(s, SkipEmpty(r)))
  {
    UnionOfNothing();
    hide ClusterInv, Union;
    ShuffleKeeps(s, r, s.rooms[r].(captured := s.rooms[r].captured[1..]));
  }

  lemma {:induction false} AppliedEventKeeps(s: State, e: Event)
    requires ClusterInv(s) && Allowed(s, e) && (e.Edit? || e.Deliver?)
    ensures ClusterInv(After(s, e))
  {
    hide ClusterInv, Applied;
    ApplyKeeps(s, e.room, e.ops, After(s, e).frames);
  }

  lemma {:induction false} BeginEventKeeps(s: State, r: nat, createdAt: int)
    requires ClusterInv(s) && Allowed(s, BeginAppend(r, createdAt))
    ensures ClusterInv(After(s, BeginAppend(r, createdAt)))
  {
    hide ClusterInv, Enabled;
    BeginKeeps(s, r, createdAt);
  }

  lemma {:induction false} StoreEventKeeps(s: State, step: Step)
    requires ClusterInv(s) && Allowed(s, Store(step))
    ensures ClusterInv(After(s, Store(step)))
  {
    hide ClusterInv, Enabled;
    StoreKeeps(s, step);
  }

  lemma {:induction false} EventKeeps(s: State, e: Event)
    requires ClusterInv(s) && Allowed(s, e)
    ensures ClusterInv(After(s, e))
  {
    hide ClusterInv, After, Allowed;
    match e
    case OpenFirst(r, docId, content) => OpenFirstKeeps(s, r, docId, content);
    case Open(r, docId) => ReopenKeeps(s, r, docId);
    case Edit(_, _) => AppliedEventKeeps(s, e);
    case Deliver(_, _) => AppliedEventKeeps(s, e);
    case Capture(r) => CaptureKeeps(s, r);
    case SkipEmpty(r) => SkipKeeps(s, r);
    case BeginAppend(r, createdAt) => BeginEventKeeps(s, r, createdAt);
    case Appended(r) => AppendedKeeps(s, r);
    case AppendFailed(r, committed) => FailedKeeps(s, r, committed);
    case Die(r, committed) => DieKeeps(s, r, committed);
    case Store(step) => StoreEventKeeps(s, step);
  }

  // ── Runs and the main result ───────────────────────────────────────────────

  ghost predicate IsRun(states: seq<State>, events: seq<Event>) {
    && |states| == |events| + 1
    && states[0] == InitialState(states[0].world.now)
    && forall i | 0 <= i < |events| :: Allowed(states[i], events[i]) && states[i + 1] == After(states[i], events[i])
  }

  lemma {:induction false} InitialKeeps(now: int)
    ensures ClusterInv(InitialState(now))
  {
    InitKeeps(now);
    hide Inv;
  }

  lemma {:induction false} ClusterRunKeeps(states: seq<State>, events: seq<Event>, n: nat)
    requires IsRun(states, events) && n <= |events|
    ensures ClusterInv(states[n])
  {
    hide ClusterInv, Allowed, After, InitialState;
    if n == 0 {
      InitialKeeps(states[0].world.now);
    } else {
      ClusterRunKeeps(states, events, n - 1);
      assert Allowed(states[n - 1], events[n - 1]) && states[n - 1 + 1] == After(states[n - 1], events[n - 1]);
      EventKeeps(states[n - 1], events[n - 1]);
    }
  }

  ghost predicate Flushed(room: Room) {
    room.captured == [] && room.buffered == []
  }

  lemma {:induction false} FlushedRoomsAreStored(s: State, docId: DocId)
    requires ClusterInv(s)
    requires forall r | r in s.rooms && s.rooms[r].docId == docId && s.rooms[r].alive :: Flushed(s.rooms[r])
    ensures var stored := Rebuilt(LoadFrom(s.world.db, docId));
            && stored <= SeedOf(s.world, docId) + Known(s, docId)
            && (forall r | r in s.rooms && s.rooms[r].docId == docId && s.rooms[r].alive :: s.rooms[r].doc <= stored)
            && ((forall r | r in s.rooms && s.rooms[r].docId == docId :: s.rooms[r].alive) ==>
                  stored == SeedOf(s.world, docId) + Known(s, docId))
  {
    LoadIsHistory(s.world, docId);
    InvIssued(s.world);
    HistoryIsKnown(s, docId);
    hide Inv, LoadFrom;
    var stored := History(s.world, docId);
    assert SeedOf(s.world, docId) <= stored;
    hide History, NothingInvented;
    forall r | r in s.rooms && s.rooms[r].docId == docId && s.rooms[r].alive
      ensures s.rooms[r].doc <= stored
    {
      assert RoomSound(s.world, s.rooms[r]) && Flushed(s.rooms[r]);
      assert Union([]) == {};
    }
    hide RoomSound, RoomsSound;
  }

  /** Whatever the bus lost or repeated, whatever appends failed on the way and whatever
      compactions ran: when every live room of a document has nothing left to write, an atomic
      load holds each of their documents, and nothing that no room and no seed ever held. If no
      room of it crashed, the load is exactly the seed and every room's document. */
  lemma {:induction false} LogHoldsEveryDocument(states: seq<State>, events: seq<Event>, n: nat, docId: DocId)
    requires IsRun(states, events) && n <= |events|
    requires forall r | r in states[n].rooms && states[n].rooms[r].docId == docId && states[n].rooms[r].alive ::
      Flushed(states[n].rooms[r])
    ensures var s := states[n];
            var stored := Rebuilt(LoadFrom(s.world.db, docId));
            && stored <= SeedOf(s.world, docId) + Known(s, docId)
            && (forall r | r in s.rooms && s.rooms[r].docId == docId && s.rooms[r].alive :: s.rooms[r].doc <= stored)
            && ((forall r | r in s.rooms && s.rooms[r].docId == docId :: s.rooms[r].alive) ==>
                  stored == SeedOf(s.world, docId) + Known(s, docId))
  {
    ClusterRunKeeps(states, events, n);
    hide ClusterInv, LoadFrom, Known, IsRun;
    FlushedRoomsAreStored(states[n], docId);
  }

  // ── What each room holds ───────────────────────────────────────────────────

  /** What an event gives a room: the file's content, all that was ever seeded or committed, an edit on one
      of its connections, or a frame of another instance. */
  ghost function Gained(s: State, e: Event, r: nat): Doc {
    match e
    case OpenFirst(q, _, content) => if q == r then content else {}
    case Open(q, docId) => if q == r then History(s.world, docId) else {}
    case Edit(q, ops) => if q == r then ops else {}
    case Deliver(q, ops) => if q == r then ops else {}
    case _ => {}
  }

  ghost function HeldBy(states: seq<State>, events: seq<Event>, n: nat, r: nat): Doc
    requires |states| == |events| + 1 && n <= |events|
  {
    if n == 0 then {} else HeldBy(states, events, n - 1, r) + Gained(states[n - 1], events[n - 1], r)
  }

  /** What an edit changed in its room, if anything: that is what goes out on the bus. */
  ghost function Outgoing(s: State, t: State, e: Event): set<(DocId, Doc)> {
    if e.Edit? && e.room in s.rooms && e.room in t.rooms && t.rooms[e.room].doc != s.rooms[e.room].doc
    then {(s.rooms[e.room].docId, t.rooms[e.room].doc - s.rooms[e.room].doc)}
    else {}
  }

  ghost function Published(states: seq<State>, events: seq<Event>, n: nat): set<(DocId, Doc)>
    requires |states| == |events| + 1 && n <= |events|
  {
    if n == 0 then {} else Published(states, events, n - 1) + Outgoing(states[n - 1], states[n], events[n - 1])
  }

  predicate Opens(e: Event, r: nat) {
    (e.OpenFirst? || e.Open?) && e.room == r
  }

  lemma {:induction false} OpenHolds(s: State, r: nat, docId: DocId)
    requires ClusterInv(s) && Allowed(s, Open(r, docId))
    ensures var t := After(s, Open(r, docId));
            t.rooms == s.rooms[r := Room(docId, true, History(s.world, docId), [], [], None)] && t.frames == s.frames
  {
    LoadIsHistory(s.world, docId);
    hide Inv, RoomsSound, NothingInvented, LoadFrom, History;
  }

  lemma {:induction false} AppliedHolds(s: State, r: nat, ops: Doc)
    requires r in s.rooms
    ensures Applied(s.rooms[r], ops) ==
      s.rooms[r].(doc := s.rooms[r].doc + ops, buffered := Applied(s.rooms[r], ops).buffered)
  {
  }

  ghost predicate Takes(s: State, t: State, e: Event, r: nat) {
    && (r in t.rooms <==> r in s.rooms || Opens(e, r))
    && (r in t.rooms ==> t.rooms[r].doc == (if r in s.rooms then s.rooms[r].doc else {}) + Gained(s, e, r))
    && (r in s.rooms && r in t.rooms ==> t.rooms[r].docId == s.rooms[r].docId)
    && (r in s.rooms && r in t.rooms && (e.Edit? || e.Deliver?) && t.rooms[r].doc == s.rooms[r].doc ==>
          t.rooms[r] == s.rooms[r])
    && t.frames == s.frames + Outgoing(s, t, e)
  }

  lemma {:induction false} EditTakes(s: State, q: nat, ops: Doc, r: nat)
    requires Allowed(s, Edit(q, ops))
    ensures Takes(s, After(s, Edit(q, ops)), Edit(q, ops), r)
  {
    var room := s.rooms[q];
    AppliedHolds(s, q, ops);
    assert ops <= room.doc <==> room.doc + ops == room.doc;
    if ops <= room.doc { assert Applied(room, ops) == room; }
    assert room.doc + ops - room.doc == ops - room.doc;
    hide Applied, History;
  }

  lemma {:induction false} DeliverTakes(s: State, q: nat, ops: Doc, r: nat)
    requires Allowed(s, Deliver(q, ops))
    ensures Takes(s, After(s, Deliver(q, ops)), Deliver(q, ops), r)
  {
    AppliedHolds(s, q, ops);
    if ops <= s.rooms[q].doc { assert Applied(s.rooms[q], ops) == s.rooms[q]; }
    hide Applied, History;
  }

  lemma {:induction false} OpenFirstTakes(s: State, e: Event, r: nat)
    requires Allowed(s, e) && e.OpenFirst?
    ensures Takes(s, After(s, e), e, r)
  {
    hide History, AfterSeed;
  }

  lemma {:induction false} OtherTakes(s: State, e: Event, r: nat)
    requires Allowed(s, e) && !e.OpenFirst? && !e.Open? && !e.Edit? && !e.Deliver?
    ensures Takes(s, After(s, e), e, r)
  {
    hide History, AfterAlloc, Settle, Next, Enabled, Union;
  }

  lemma {:induction false} EventTakes(s: State, e: Event, r: nat)
    requires ClusterInv(s) && Allowed(s, e)
    ensures Takes(s, After(s, e), e, r)
  {
    hide ClusterInv, After, History;
    match e
    case OpenFirst(_, _, _) => hide Takes; OpenFirstTakes(s, e, r);
    case Open(q, docId) => OpenHolds(s, q, docId);
    case Edit(q, ops) => hide Takes; EditTakes(s, q, ops, r);
    case Deliver(q, ops) => hide Takes; DeliverTakes(s, q, ops, r);
    case _ => hide Takes; OtherTakes(s, e, r);
  }

  /** A room holds exactly what it was opened with, which for a stored document is all that was seeded or
      committed by then, every edit on its connections, and every frame delivered to it; and the bus was
      given exactly what edits changed. */
  lemma {:induction false} RoomsHoldTheirRun(states: seq<State>, events: seq<Event>, n: nat, r: nat)
    requires IsRun(states, events) && n <= |events|
    ensures r in states[n].rooms ==> states[n].rooms[r].doc == HeldBy(states, events, n, r)
    ensures r !in states[n].rooms ==> HeldBy(states, events, n, r) == {}
    ensures states[n].frames == Published(states, events, n)
  {
    hide ClusterInv, Allowed, After, Gained, Outgoing;
    if n > 0 {
      RoomsHoldTheirRun(states, events, n - 1, r);
      ClusterRunKeeps(states, events, n - 1);
      assert Allowed(states[n - 1], events[n - 1]) && states[n - 1 + 1] == After(states[n - 1], events[n - 1]);
      EventTakes(states[n - 1], events[n - 1], r);
      if r !in states[n].rooms { GainsNothing(states[n - 1], events[n - 1], r); }
    }
  }

  lemma {:induction false} GainsNothing(s: State, e: Event, r: nat)
    requires Allowed(s, e) && r !in s.rooms && !Opens(e, r)
    ensures Gained(s, e, r) == {}
  {
  }

  /** A room opened over what is stored holds, from then on, all that was seeded and committed by then. */
  lemma {:induction false} OpenedRoomHoldsTheHistory(
    states: seq<State>, events: seq<Event>, k: nat, n: nat, r: nat, docId: DocId)
    requires IsRun(states, events) && k < n <= |events| && events[k] == Open(r, docId)
    ensures r in states[k + 1].rooms && states[k + 1].rooms[r].doc == History(states[k].world, docId)
    ensures r in states[n].rooms && History(states[k].world, docId) <= states[n].rooms[r].doc
    decreases n
  {
    hide ClusterInv, After, History, Gained, Outgoing;
    ClusterRunKeeps(states, events, k);
    assert Allowed(states[k], events[k]) && states[k + 1] == After(states[k], events[k]);
    OpenHolds(states[k], r, docId);
    hide Allowed;
    if k + 1 < n {
      OpenedRoomHoldsTheHistory(states, events, k, n - 1, r, docId);
      ClusterRunKeeps(states, events, n - 1);
      assert Allowed(states[n - 1], events[n - 1]) && states[n - 1 + 1] == After(states[n - 1], events[n - 1]);
      EventTakes(states[n - 1], events[n - 1], r);
    }
  }

  // ── Appends under way ──────────────────────────────────────────────────────

  /** A row that has its id and is not in the log yet is some live room's append. */
  ghost predicate Pends(s: State, id: nat) {
    exists r :: Live(s, r) && s.rooms[r].appending == Some(id)
  }

  ghost predicate NothingLingers(s: State) {
    forall id: nat | Uncommitted(s.world, id) :: Pends(s, id)
  }

  lemma {:induction false} PutLingers(s: State, v: World, r: nat, room: Room)
    requires NothingLingers(s)
    requires forall id: nat | Uncommitted(v, id) ::
      (Uncommitted(s.world, id) && (Live(s, r) ==> s.rooms[r].appending != Some(id)))
      || (room.alive && room.appending == Some(id))
    ensures NothingLingers(Put(s.(world := v), r, room))
  {
    var t := Put(s.(world := v), r, room);
    forall id: nat | Uncommitted(v, id)
      ensures Pends(t, id)
    {
      if room.alive && room.appending == Some(id) {
        assert Live(t, r) && t.rooms[r].appending == Some(id);
      } else {
        var q :| Live(s, q) && s.rooms[q].appending == Some(id);
        assert Live(t, q) && t.rooms[q].appending == Some(id);
      }
    }
  }

  lemma {:induction false} SettleLingers(s: State, r: nat, committed: bool, room: Room)
    requires RoomsSound(s) && NothingLingers(s) && Live(s, r) && room.appending.None?
    ensures NothingLingers(Put(s.(world := Settle(s.world, s.rooms[r], committed)), r, room))
  {
    var v := Settle(s.world, s.rooms[r], committed);
    assert RoomSound(s.world, s.rooms[r]);
    hide RoomsSound, NothingLingers, History, Pending;
    PutLingers(s, v, r, room);
  }

  lemma {:induction false} BeginLingers(s: State, r: nat, createdAt: int)
    requires ClusterInv(s) && NothingLingers(s) && Allowed(s, BeginAppend(r, createdAt))
    ensures NothingLingers(After(s, BeginAppend(r, createdAt)))
  {
    var room := s.rooms[r];
    hide ClusterInv, NothingLingers, Enabled, Union;
    PutLingers(s, AfterAlloc(s.world, room.docId, Union(room.captured[0]), createdAt), r,
      room.(appending := Some(s.world.db.lastId + 1)));
  }

  lemma {:induction false} OpeningLingers(s: State, e: Event)
    requires NothingLingers(s) && Allowed(s, e) && (e.OpenFirst? || e.Open?)
    ensures NothingLingers(After(s, e))
  {
    var t := After(s, e);
    hide NothingLingers, Fresh, LoadFrom;
    PutLingers(s, t.world, e.room, t.rooms[e.room]);
  }

  lemma {:induction false} InsideLingers(s: State, e: Event)
    requires NothingLingers(s) && Allowed(s, e) && (e.Edit? || e.Deliver? || e.Capture? || e.SkipEmpty?)
    ensures NothingLingers(After(s, e))
  {
    var t := After(s, e);
    forall id: nat | Uncommitted(t.world, id)
      ensures Pends(t, id)
    {
      assert Uncommitted(s.world, id);
      var r :| Live(s, r) && s.rooms[r].appending == Some(id);
      assert Live(t, r) && t.rooms[r].appending == Some(id);
    }
  }

  lemma {:induction false} StoreLingers(s: State, step: Step)
    requires NothingLingers(s) && Allowed(s, Store(step))
    ensures NothingLingers(After(s, Store(step)))
  {
    StoreStepsIssueNothing(s.world, step);
    var t := After(s, Store(step));
    hide Next, Enabled;
    forall id: nat | Uncommitted(t.world, id)
      ensures Pends(t, id)
    {
      assert Uncommitted(s.world, id);
      var r :| Live(s, r) && s.rooms[r].appending == Some(id);
      assert Live(t, r) && t.rooms[r].appending == Some(id);
    }
  }

  lemma {:induction false} SettleEventLingers(s: State, e: Event)
    requires ClusterInv(s) && NothingLingers(s) && Allowed(s, e) && (e.Appended? || e.AppendFailed? || e.Die?)
    ensures NothingLingers(After(s, e))
  {
    AppendingHasBatch(s, e.room);
    var t := After(s, e);
    hide Inv, NothingInvented, NothingLingers, Settle, RoomsSound, Union;
    SettleLingers(s, e.room, e.Appended? || e.committed, t.rooms[e.room]);
  }

  lemma {:induction false} EventLingers(s: State, e: Event)
    requires ClusterInv(s) && NothingLingers(s) && Allowed(s, e)
    ensures NothingLingers(After(s, e))
  {
    hide ClusterInv, NothingLingers, After, Allowed;
    match e
    case OpenFirst(_, _, _) => OpeningLingers(s, e);
    case Open(_, _) => OpeningLingers(s, e);
    case BeginAppend(r, createdAt) => BeginLingers(s, r, createdAt);
    case Appended(_) => SettleEventLingers(s, e);
    case AppendFailed(_, _) => SettleEventLingers(s, e);
    case Die(_, _) => SettleEventLingers(s, e);
    case Store(step) => StoreLingers(s, step);
    case _ => InsideLingers(s, e);
  }

  /** An append that is over has its row in the log or nowhere: what has an id and is not committed is the
      append that a live room is waiting for. */
  lemma {:induction false} UncommittedIsUnderWay(states: seq<State>, events: seq<Event>, n: nat)
    requires IsRun(states, events) && n <= |events|
    ensures NothingLingers(states[n])
  {
    hide ClusterInv, Allowed, After, InitialState, NothingLingers;
    if n == 0 {
      NothingIssuedYet(states[0].world.now);
    } else {
      UncommittedIsUnderWay(states, events, n - 1);
      ClusterRunKeeps(states, events, n - 1);
      assert Allowed(states[n - 1], events[n - 1]) && states[n - 1 + 1] == After(states[n - 1], events[n - 1]);
      EventLingers(states[n - 1], events[n - 1]);
    }
  }

  lemma {:induction false} NothingIssuedYet(now: int)
    ensures NothingLingers(InitialState(now))
  {
  }
}
