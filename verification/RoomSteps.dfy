/** Every event of the room registry keeps its invariant. */
module RoomSteps {
  import opened Yjs
  import opened DocStore
  import opened DocBus
  import opened Rooms

  // ── Every event keeps it ───────────────────────────────────────────────────

  ghost predicate RoomSound(s: State, r: nat, room: Room) {
    OpenSound(s, r, room) && EvictedSound(s, r, room) && LogSound(s, room)
  }

  /** An event inside one room: its connections and every map of the registry stay as they are. */
  ghost predicate RoomStep(s: State, t: State, r: nat) {
    && r in s.all && r in t.all && t.all == s.all[r := t.all[r]]
    && t.rooms == s.rooms && t.pendingWrites == s.pendingWrites && t.conns == s.conns && t.nextRoom == s.nextRoom
    && t.all[r].docId == s.all[r].docId && t.all[r].conns == s.all[r].conns
    && (s.all[r].phase.Live? ==> t.all[r].phase.Live?)
    && (s.all[r].phase.Flushing? <==> t.all[r].phase.Flushing?)
    && (s.all[r].phase.Settled? <==> t.all[r].phase.Settled?)
    && (Evicted(s.all[r].phase) <==> Evicted(t.all[r].phase))
    && (s.all[r].observed ==> t.all[r].observed)
  }

  ghost predicate StoreGrows(s: State, t: State, docId: DocId, stored: bool) {
    && (forall d | d in s.log :: d in t.log && s.log[d] <= t.log[d])
    && (forall d | d in t.log :: d in s.log || (stored && d == docId))
  }

  ghost predicate HandlersKeep(s: State, t: State, docId: DocId, r: nat) {
    && (forall d | d != docId :: d in t.bus.handlers <==> d in s.bus.handlers)
    && (forall d | d != docId && d in s.bus.handlers :: t.bus.handlers[d] == s.bus.handlers[d])
    && (docId in t.bus.handlers ==>
          t.bus.handlers[docId] == r || (docId in s.bus.handlers && s.bus.handlers[docId] == t.bus.handlers[docId]))
    && (docId in s.bus.handlers ==> docId in t.bus.handlers)
  }

  lemma {:induction false} RoomStepRooms(s: State, t: State, r: nat)
    requires RoomsSound(s) && RoomStep(s, t, r) && RoomSound(t, r, t.all[r])
    requires StoreGrows(s, t, s.all[r].docId, t.all[r].phase.Live?) && HandlersKeep(s, t, s.all[r].docId, r)
    ensures RoomsSound(t)
  {
  }

  lemma {:induction false} RoomStepConns(s: State, t: State, r: nat)
    requires ConnsSound(s) && RoomStep(s, t, r)
    ensures ConnsSound(t)
  {
  }

  lemma {:induction false} RoomStepMaps(s: State, t: State, r: nat)
    requires MapsSound(s) && RoomStep(s, t, r) && HandlersKeep(s, t, s.all[r].docId, r)
    ensures MapsSound(t)
  {
  }

  lemma {:induction false} RoomStepKeeps(s: State, t: State, r: nat)
    requires Inv(s) && RoomStep(s, t, r) && RoomSound(t, r, t.all[r])
    requires StoreGrows(s, t, s.all[r].docId, t.all[r].phase.Live?) && HandlersKeep(s, t, s.all[r].docId, r)
    requires CountsSound(t) && BusInv(t.bus)
    ensures Inv(t)
  {
    hide RoomsSound, ConnsSound, MapsSound, CountsSound, BusInv, RoomStep, RoomSound, StoreGrows, HandlersKeep;
    RoomStepRooms(s, t, r);
    RoomStepConns(s, t, r);
    RoomStepMaps(s, t, r);
  }

  lemma {:induction false} RoomIsSound(s: State, r: nat)
    requires RoomsSound(s) && r in s.all
    ensures r < s.nextRoom && RoomSound(s, r, s.all[r])
  {
  }

  /** A step of the registry's own room that leaves the maps, the bus and the store alone. */
  lemma {:induction false} InsideKeeps(s: State, r: nat, room: Room)
    requires Inv(s) && r in s.all && RoomStep(s, PutRoom(s, r, room), r) && RoomSound(PutRoom(s, r, room), r, room)
    requires s.all[r].phase.Seeding? ==> room.phase.Seeding?
    ensures Inv(PutRoom(s, r, room))
  {
    var t := PutRoom(s, r, room);
    assert CountsSound(t) by { hide RoomStep, RoomSound, RoomsSound, ConnsSound, BusInv; }
    hide RoomStep, RoomSound, RoomsSound, ConnsSound, MapsSound, CountsSound, BusInv;
    RoomStepKeeps(s, t, r);
  }

  ghost predicate Advances(s: State, r: nat, phase: Phase) {
    && r in s.all
    && ((s.all[r].phase.Waiting? && phase == Looking && s.all[r].docId !in s.pendingWrites)
        || (s.all[r].phase.Looking? && (phase == Loading || phase == Missing)))
  }

  lemma {:induction false} AdvancedRoom(s: State, r: nat, phase: Phase)
    requires Advances(s, r, phase) && RoomSound(s, r, s.all[r])
    ensures var room := s.all[r].(phase := phase); RoomSound(PutRoom(s, r, room), r, room)
  {
  }

  lemma {:induction false} AdvanceKeeps(s: State, r: nat, phase: Phase)
    requires Inv(s) && Advances(s, r, phase)
    ensures Inv(PutRoom(s, r, s.all[r].(phase := phase)))
  {
    RoomIsSound(s, r);
    AdvancedRoom(s, r, phase);
    hide Inv, RoomSound;
    InsideKeeps(s, r, s.all[r].(phase := phase));
  }

  lemma {:induction false} CompactEndRoom(s: State, r: nat)
    requires r in s.all && RoomSound(s, r, s.all[r])
    ensures var room := s.all[r].(compacting := false); RoomSound(PutRoom(s, r, room), r, room)
  {
  }

  lemma {:induction false} CompactEndKeeps(s: State, r: nat)
    requires Inv(s) && r in s.all && s.all[r].compacting
    ensures Inv(PutRoom(s, r, s.all[r].(compacting := false)))
  {
    RoomIsSound(s, r);
    CompactEndRoom(s, r);
    hide Inv, RoomSound;
    InsideKeeps(s, r, s.all[r].(compacting := false));
  }

  lemma {:induction false} CapturedKeepsUnwritten(room: Room)
    ensures Unwritten(Captured(room)) == Unwritten(room)
  {
    UnionOfConcat(room.captured, [room.buffered]);
    UnionOfOne(room.buffered);
  }

  lemma {:induction false} CapturedRoom(s: State, r: nat)
    requires Allowed(s, Capture(r)) && RoomSound(s, r, s.all[r])
    ensures RoomSound(PutRoom(s, r, Captured(s.all[r])), r, Captured(s.all[r]))
  {
    CapturedKeepsUnwritten(s.all[r]);
    hide Unwritten;
  }

  lemma {:induction false} CaptureKeeps(s: State, r: nat)
    requires Inv(s) && Allowed(s, Capture(r))
    ensures Inv(PutRoom(s, r, Captured(s.all[r])))
  {
    RoomIsSound(s, r);
    CapturedRoom(s, r);
    hide Inv, RoomSound;
    InsideKeeps(s, r, Captured(s.all[r]));
  }

  lemma {:induction false} OpeningIsCurrent(s: State, r: nat)
    requires RoomsSound(s) && r in s.all && Opening(s.all[r].phase)
    ensures Current(s, s.all[r].docId, r)
  {
    hide EvictedSound, LogSound;
  }

  lemma {:induction false} LoadCounts(s: State, r: nat, content: Doc)
    requires RoomsSound(s) && CountsSound(s) && r in s.all && s.all[r].phase.Loading?
    ensures CountsSound(AfterLoad(s, r, content))
  {
    OpeningIsCurrent(s, r);
    if s.all[r].docId in s.log {
      FoundCounts(s, r, content);
    } else {
      SeedingCounts(s, r, content);
    }
    hide RoomsSound, CountsSound;
  }

  lemma {:induction false} FoundCounts(s: State, r: nat, content: Doc)
    requires CountsSound(s) && r in s.all && s.all[r].phase.Loading? && s.all[r].docId in s.log
    ensures CountsSound(AfterLoad(s, r, content))
  {
  }

  lemma {:induction false} SeedingCounts(s: State, r: nat, content: Doc)
    requires CountsSound(s) && r in s.all && s.all[r].phase.Loading? && s.all[r].docId !in s.log
    requires Current(s, s.all[r].docId, r)
    ensures CountsSound(AfterLoad(s, r, content))
  {
    assert s.seeds[s.all[r].docId] == 0;
  }

  lemma {:induction false} LoadedRoom(s: State, r: nat, content: Doc)
    requires r in s.all && s.all[r].phase.Loading? && RoomSound(s, r, s.all[r])
    ensures RoomSound(AfterLoad(s, r, content), r, AfterLoad(s, r, content).all[r])
  {
  }

  lemma {:induction false} LoadKeeps(s: State, r: nat, content: Doc)
    requires Inv(s) && r in s.all && s.all[r].phase.Loading?
    ensures Inv(AfterLoad(s, r, content))
  {
    RoomIsSound(s, r);
    LoadedRoom(s, r, content);
    LoadCounts(s, r, content);
    LoadIsAStep(s, r, content);
    hide RoomSound, RoomsSound, ConnsSound, MapsSound, CountsSound, BusInv, RoomStep, StoreGrows, HandlersKeep,
         AfterLoad;
    RoomStepKeeps(s, AfterLoad(s, r, content), r);
  }

  lemma {:induction false} LoadIsAStep(s: State, r: nat, content: Doc)
    requires r in s.all && s.all[r].phase.Loading?
    ensures var t := AfterLoad(s, r, content);
            && RoomStep(s, t, r) && StoreGrows(s, t, s.all[r].docId, t.all[r].phase.Live?)
            && HandlersKeep(s, t, s.all[r].docId, r) && t.bus == s.bus
  {
  }

  lemma {:induction false} SeedCounts(s: State, r: nat)
    requires CountsSound(s) && MapsSound(s) && r in s.all && s.all[r].phase.Seeding?
    ensures CountsSound(AfterSeed(s, r))
  {
  }

  lemma {:induction false} SeededRoom(s: State, r: nat)
    requires r in s.all && s.all[r].phase.Seeding? && RoomSound(s, r, s.all[r])
    ensures RoomSound(AfterSeed(s, r), r, AfterSeed(s, r).all[r])
    ensures s.all[r].docId !in s.log
  {
  }

  lemma {:induction false} SeedKeeps(s: State, r: nat)
    requires Inv(s) && r in s.all && s.all[r].phase.Seeding?
    ensures Inv(AfterSeed(s, r))
  {
    RoomIsSound(s, r);
    SeededRoom(s, r);
    SeedCounts(s, r);
    hide RoomSound, RoomsSound, ConnsSound, MapsSound, CountsSound, BusInv;
    RoomStepKeeps(s, AfterSeed(s, r), r);
  }

  lemma {:induction false} UpdatedRoom(s: State, r: nat, ops: Doc)
    requires r in s.all && s.all[r].phase.Live? && RoomSound(s, r, s.all[r])
    ensures RoomSound(AfterUpdate(s, r, ops), r, AfterUpdate(s, r, ops).all[r])
  {
    hide Union;
  }

  lemma {:induction false} UpdateKeeps(s: State, r: nat, ops: Doc)
    requires Inv(s) && r in s.all && s.all[r].phase.Live?
    ensures Inv(AfterUpdate(s, r, ops))
  {
    if !(ops <= s.all[r].doc) {
      RoomIsSound(s, r);
      UpdatedRoom(s, r, ops);
      hide Inv, RoomSound;
      InsideKeeps(s, r, AfterUpdate(s, r, ops).all[r]);
    }
  }

  lemma {:induction false} UnionOfCons(batch: Doc, rest: seq<Doc>)
    ensures Union([batch] + rest) == batch + Union(rest)
  {
    UnionOfConcat([batch], rest);
    UnionOfOne(batch);
  }

  lemma {:induction false} AppendCounts(s: State, r: nat)
    requires CountsSound(s) && r in s.all && s.all[r].captured != []
    ensures CountsSound(AfterAppend(s, r))
  {
  }

  lemma {:induction false} HeadBatch(captured: seq<Doc>)
    requires captured != []
    ensures Union(captured) == captured[0] + Union(captured[1..])
  {
    UnionOfCons(captured[0], captured[1..]);
    assert captured == [captured[0]] + captured[1..];
  }

  lemma {:induction false} AppendedRoom(s: State, r: nat)
    requires Allowed(s, Append(r)) && RoomSound(s, r, s.all[r])
    ensures RoomSound(AfterAppend(s, r), r, AfterAppend(s, r).all[r])
    ensures s.all[r].docId in s.log
  {
    HeadBatch(s.all[r].captured);
    hide Union;
  }

  lemma {:induction false} AppendKeeps(s: State, r: nat)
    requires Inv(s) && Allowed(s, Append(r))
    ensures Inv(AfterAppend(s, r))
  {
    RoomIsSound(s, r);
    AppendedRoom(s, r);
    if s.all[r].captured[0] == {} {
      hide Inv, RoomSound;
      InsideKeeps(s, r, AfterAppend(s, r).all[r]);
    } else {
      AppendCounts(s, r);
      AppendIsAStep(s, r);
      hide RoomSound, RoomsSound, ConnsSound, MapsSound, CountsSound, BusInv, RoomStep, StoreGrows, HandlersKeep,
           AfterAppend;
      RoomStepKeeps(s, AfterAppend(s, r), r);
    }
  }

  lemma {:induction false} AppendIsAStep(s: State, r: nat)
    requires r in s.all && s.all[r].captured != [] && s.all[r].captured[0] != {} && s.all[r].docId in s.log
    ensures var t := AfterAppend(s, r);
            && RoomStep(s, t, r) && StoreGrows(s, t, s.all[r].docId, t.all[r].phase.Live?)
            && HandlersKeep(s, t, s.all[r].docId, r) && t.bus == s.bus
  {
  }

  lemma {:induction false} ObservedRoom(s: State, r: nat)
    requires r in s.all && s.all[r].phase.Live? && RoomSound(s, r, s.all[r])
    ensures RoomSound(AfterObserve(s, r), r, AfterObserve(s, r).all[r])
  {
  }

  lemma {:induction false} ObserveKeeps(s: State, r: nat)
    requires Inv(s) && r in s.all && s.all[r].phase.Live? && !s.all[r].observed
    ensures Inv(AfterObserve(s, r))
  {
    RoomIsSound(s, r);
    ObservedRoom(s, r);
    SubscribeKeeps(s.bus, s.all[r].docId, r);
    assert CountsSound(AfterObserve(s, r)) by { hide RoomSound, RoomsSound, ConnsSound, MapsSound, BusInv; }
    hide RoomSound, RoomsSound, ConnsSound, MapsSound, CountsSound, BusInv;
    RoomStepKeeps(s, AfterObserve(s, r), r);
  }

  /** An event that only moves one connection, to or from no eviction. */
  ghost predicate ConnStep(s: State, t: State, c: nat) {
    && c in t.conns && t == s.(conns := s.conns[c := t.conns[c]])
    && (c in s.conns ==> !s.conns[c].place.Evicting?) && !t.conns[c].place.Evicting?
    && ConnSound(t, c, t.conns[c])
    && (forall r | r in s.all && c in s.all[r].conns ::
          t.conns[c].place == Attached(r) || t.conns[c].place == Leaving(r))
  }

  lemma {:induction false} ConnStepRooms(s: State, t: State, c: nat)
    requires RoomsSound(s) && ConnStep(s, t, c)
    ensures RoomsSound(t)
  {
  }

  lemma {:induction false} ConnStepConns(s: State, t: State, c: nat)
    requires ConnsSound(s) && ConnStep(s, t, c)
    ensures ConnsSound(t)
  {
  }

  lemma {:induction false} ConnStepMaps(s: State, t: State, c: nat)
    requires MapsSound(s) && ConnStep(s, t, c)
    ensures MapsSound(t)
  {
    hide ConnSound;
  }

  lemma {:induction false} ConnStepKeeps(s: State, t: State, c: nat)
    requires Inv(s) && ConnStep(s, t, c)
    ensures Inv(t)
  {
    ConnStepRooms(s, t, c);
    ConnStepConns(s, t, c);
    ConnStepMaps(s, t, c);
    hide RoomsSound, ConnsSound, MapsSound, BusInv;
  }

  lemma {:induction false} AwaitKeeps(s: State, c: nat, docId: DocId)
    requires Inv(s) && docId in s.rooms && (c in s.conns ==> s.conns[c].place.Joining?)
    ensures Inv(PutConn(s, c, docId, Joining(s.rooms[docId])))
  {
    hide RoomsSound, CountsSound, BusInv;
    ConnStepKeeps(s, PutConn(s, c, docId, Joining(s.rooms[docId])), c);
  }

  lemma {:induction false} AttachedKeeps(s: State, c: nat, r: nat)
    requires Inv(s) && c in s.conns && s.conns[c].place == Joined(r) && r in s.all && s.all[r].observed
    ensures Inv(PutConn(s, c, s.conns[c].docId, Attached(r)))
  {
    hide RoomsSound, MapsSound, CountsSound, BusInv;
    ConnStepKeeps(s, PutConn(s, c, s.conns[c].docId, Attached(r)), c);
  }

  /** A connection that leaves awaits the room it joined: that room is still in the map. */
  lemma {:induction false} LeaveStartKeeps(s: State, c: nat)
    requires Inv(s) && c in s.conns && s.conns[c].place.Attached?
    ensures Inv(AfterLeaveStart(s, c))
    ensures AfterLeaveStart(s, c).conns[c].place == Leaving(s.conns[c].place.room)
  {
    hide MapsSound, CountsSound, BusInv;
    ConnStepKeeps(s, AfterLeaveStart(s, c), c);
  }

  lemma {:induction false} CreateRooms(s: State, c: nat, docId: DocId)
    requires Inv(s) && docId !in s.rooms && (c in s.conns ==> s.conns[c].place.Joining?)
    ensures RoomsSound(AfterCreate(s, c, docId))
  {
    hide ConnsSound, CountsSound, BusInv, MapsSound, OpenSound, EvictedSound, LogSound;
    var t := AfterCreate(s, c, docId);
    forall r | r in t.all
      ensures r < t.nextRoom && OpenSound(t, r, t.all[r]) && EvictedSound(t, r, t.all[r]) && LogSound(t, t.all[r])
    {
      if r == s.nextRoom { NewRoom(s, c, docId); } else { CreateOtherRoom(s, c, docId, r); }
    }
  }

  lemma {:induction false} CreateOtherRoom(s: State, c: nat, docId: DocId, r: nat)
    requires docId !in s.rooms && (c in s.conns ==> s.conns[c].place.Joining?)
    requires r in s.all && r < s.nextRoom && RoomSound(s, r, s.all[r])
    ensures RoomSound(AfterCreate(s, c, docId), r, s.all[r])
  {
  }

  lemma {:induction false} NewRoom(s: State, c: nat, docId: DocId)
    requires Inv(s) && docId !in s.rooms
    ensures var t := AfterCreate(s, c, docId); RoomSound(t, s.nextRoom, t.all[s.nextRoom])
  {
    NextRoomIsFresh(s);
    hide RoomsSound, ConnsSound, CountsSound, BusInv;
  }

  lemma {:induction false} CreateConns(s: State, c: nat, docId: DocId)
    requires Inv(s) && docId !in s.rooms && (c in s.conns ==> s.conns[c].place.Joining?)
    ensures ConnsSound(AfterCreate(s, c, docId))
  {
    hide MapsSound, CountsSound, BusInv;
  }

  lemma {:induction false} CreateMaps(s: State, c: nat, docId: DocId)
    requires Inv(s) && docId !in s.rooms && (c in s.conns ==> s.conns[c].place.Joining?)
    ensures MapsSound(AfterCreate(s, c, docId))
  {
    hide RoomsSound, ConnsSound, CountsSound, BusInv;
    NextRoomIsFresh(s);
  }

  lemma {:induction false} NextRoomIsFresh(s: State)
    requires RoomsSound(s)
    ensures s.nextRoom !in s.all
  {
  }

  lemma {:induction false} CreateCounts(s: State, c: nat, docId: DocId)
    requires Inv(s) && docId !in s.rooms && (c in s.conns ==> s.conns[c].place.Joining?)
    ensures CountsSound(AfterCreate(s, c, docId))
  {
    hide ConnsSound, MapsSound, BusInv;
  }

  lemma {:induction false} CreateKeeps(s: State, c: nat, docId: DocId)
    requires Inv(s) && docId !in s.rooms && (c in s.conns ==> s.conns[c].place.Joining?)
    ensures Inv(AfterCreate(s, c, docId))
  {
    hide RoomsSound, ConnsSound, MapsSound, CountsSound, BusInv;
    CreateRooms(s, c, docId);
    CreateConns(s, c, docId);
    CreateMaps(s, c, docId);
    CreateCounts(s, c, docId);
  }

  lemma {:induction false} MissRooms(s: State, c: nat, docId: DocId, r: nat)
    requires Inv(s) && c in s.conns && s.conns[c].place.Joining? && r in s.all && s.all[r].phase.Missing?
    ensures RoomsSound(AfterMiss(s, c, docId, r))
  {
    hide ConnsSound, MapsSound, CountsSound, BusInv;
  }

  lemma {:induction false} MissConns(s: State, c: nat, docId: DocId, r: nat)
    requires Inv(s) && c in s.conns && s.conns[c].place.Joining? && r in s.all && s.all[r].phase.Missing?
    ensures ConnsSound(AfterMiss(s, c, docId, r))
  {
    hide RoomsSound, MapsSound, CountsSound, BusInv;
  }

  lemma {:induction false} MissMaps(s: State, c: nat, docId: DocId, r: nat)
    requires Inv(s) && c in s.conns && s.conns[c].place.Joining? && r in s.all && s.all[r].phase.Missing?
    ensures MapsSound(AfterMiss(s, c, docId, r))
  {
    hide RoomsSound, ConnsSound, CountsSound, BusInv;
  }

  lemma {:induction false} MissCounts(s: State, c: nat, docId: DocId, r: nat)
    requires Inv(s) && c in s.conns && s.conns[c].place.Joining? && r in s.all && s.all[r].phase.Missing?
    ensures CountsSound(AfterMiss(s, c, docId, r))
  {
    hide RoomsSound, ConnsSound, MapsSound, BusInv;
  }

  lemma {:induction false} MissKeeps(s: State, c: nat, docId: DocId, r: nat)
    requires Inv(s) && c in s.conns && s.conns[c].place.Joining? && r in s.all && s.all[r].phase.Missing?
    ensures Inv(AfterMiss(s, c, docId, r))
  {
    hide RoomsSound, ConnsSound, MapsSound, CountsSound, BusInv;
    MissRooms(s, c, docId, r);
    MissConns(s, c, docId, r);
    MissMaps(s, c, docId, r);
    MissCounts(s, c, docId, r);
  }

  lemma {:induction false} AddRooms(s: State, c: nat, docId: DocId, r: nat)
    requires Inv(s) && c in s.conns && s.conns[c] == Conn(docId, Joining(r)) && Current(s, docId, r) && r in s.all
    requires s.all[r].phase.Live?
    ensures RoomsSound(AfterAdd(s, c, docId, r))
  {
    hide ConnsSound, MapsSound, CountsSound, BusInv;
  }

  lemma {:induction false} AddConns(s: State, c: nat, docId: DocId, r: nat)
    requires Inv(s) && c in s.conns && s.conns[c] == Conn(docId, Joining(r)) && Current(s, docId, r) && r in s.all
    requires s.all[r].phase.Live?
    ensures ConnsSound(AfterAdd(s, c, docId, r))
  {
    hide RoomsSound, MapsSound, CountsSound, BusInv;
  }

  lemma {:induction false} AddMaps(s: State, c: nat, docId: DocId, r: nat)
    requires Inv(s) && c in s.conns && s.conns[c] == Conn(docId, Joining(r)) && Current(s, docId, r) && r in s.all
    requires s.all[r].phase.Live?
    ensures MapsSound(AfterAdd(s, c, docId, r)) && CountsSound(AfterAdd(s, c, docId, r))
  {
    hide RoomsSound, ConnsSound, BusInv;
  }

  lemma {:induction false} AddKeeps(s: State, c: nat, docId: DocId, r: nat)
    requires Inv(s) && c in s.conns && s.conns[c] == Conn(docId, Joining(r)) && Current(s, docId, r) && r in s.all
    requires s.all[r].phase.Live?
    ensures Inv(AfterAdd(s, c, docId, r))
  {
    hide RoomsSound, ConnsSound, MapsSound, CountsSound, BusInv;
    AddRooms(s, c, docId, r);
    AddConns(s, c, docId, r);
    AddMaps(s, c, docId, r);
  }

  lemma {:induction false} DepartRooms(s: State, c: nat, docId: DocId, r: nat)
    requires Inv(s) && c in s.conns && s.conns[c] == Conn(docId, Leaving(r)) && r in s.all && s.all[r].phase.Live?
    ensures RoomsSound(AfterDepart(s, c, docId, r))
  {
    hide ConnsSound, MapsSound, CountsSound, BusInv;
  }

  lemma {:induction false} DepartConns(s: State, c: nat, docId: DocId, r: nat)
    requires Inv(s) && c in s.conns && s.conns[c] == Conn(docId, Leaving(r)) && r in s.all && s.all[r].phase.Live?
    ensures ConnsSound(AfterDepart(s, c, docId, r))
  {
    hide RoomsSound, MapsSound, CountsSound, BusInv;
  }

  lemma {:induction false} DepartMaps(s: State, c: nat, docId: DocId, r: nat)
    requires Inv(s) && c in s.conns && s.conns[c] == Conn(docId, Leaving(r)) && r in s.all && s.all[r].phase.Live?
    ensures MapsSound(AfterDepart(s, c, docId, r)) && CountsSound(AfterDepart(s, c, docId, r))
  {
    hide RoomsSound, ConnsSound, BusInv;
  }

  lemma {:induction false} DepartKeeps(s: State, c: nat, docId: DocId, r: nat)
    requires Inv(s) && c in s.conns && s.conns[c] == Conn(docId, Leaving(r)) && r in s.all && s.all[r].phase.Live?
    ensures Inv(AfterDepart(s, c, docId, r))
  {
    hide RoomsSound, ConnsSound, MapsSound, CountsSound, BusInv;
    DepartRooms(s, c, docId, r);
    DepartConns(s, c, docId, r);
    DepartMaps(s, c, docId, r);
  }

  lemma {:induction false} WriteSettlesRooms(s: State, c: nat)
    requires Inv(s) && Allowed(s, WriteSettles(c))
    ensures RoomsSound(AfterWriteSettles(s, c))
  {
    hide ConnsSound, MapsSound, CountsSound, BusInv;
  }

  lemma {:induction false} WriteSettlesConns(s: State, c: nat)
    requires Inv(s) && Allowed(s, WriteSettles(c))
    ensures ConnsSound(AfterWriteSettles(s, c))
  {
    hide RoomsSound, MapsSound, CountsSound, BusInv;
  }

  lemma {:induction false} WriteSettlesMaps(s: State, c: nat)
    requires Inv(s) && Allowed(s, WriteSettles(c))
    ensures MapsSound(AfterWriteSettles(s, c))
  {
    hide RoomsSound, CountsSound, BusInv;
  }

  lemma {:induction false} WriteSettlesCounts(s: State, c: nat)
    requires Inv(s) && Allowed(s, WriteSettles(c))
    ensures CountsSound(AfterWriteSettles(s, c))
  {
    hide RoomsSound, MapsSound, ConnsSound, BusInv;
  }

  lemma {:induction false} WriteSettlesKeeps(s: State, c: nat)
    requires Inv(s) && Allowed(s, WriteSettles(c))
    ensures Inv(AfterWriteSettles(s, c))
  {
    hide RoomsSound, ConnsSound, MapsSound, CountsSound, BusInv;
    WriteSettlesRooms(s, c);
    WriteSettlesConns(s, c);
    WriteSettlesMaps(s, c);
    WriteSettlesCounts(s, c);
  }

  lemma {:induction false} DestroyRooms(s: State, c: nat)
    requires Inv(s) && Allowed(s, Destroy(c))
    ensures RoomsSound(AfterDestroy(s, c))
  {
    hide ConnsSound, MapsSound, CountsSound, BusInv;
  }

  lemma {:induction false} DestroyConns(s: State, c: nat)
    requires Inv(s) && Allowed(s, Destroy(c))
    ensures ConnsSound(AfterDestroy(s, c))
  {
    hide RoomsSound, CountsSound, BusInv;
  }

  lemma {:induction false} DestroyMaps(s: State, c: nat)
    requires Inv(s) && Allowed(s, Destroy(c))
    ensures MapsSound(AfterDestroy(s, c)) && CountsSound(AfterDestroy(s, c))
  {
    hide RoomsSound, ConnsSound, BusInv;
  }

  lemma {:induction false} DestroyKeeps(s: State, c: nat)
    requires Inv(s) && Allowed(s, Destroy(c))
    ensures Inv(AfterDestroy(s, c))
  {
    hide RoomsSound, ConnsSound, MapsSound, CountsSound, BusInv;
    DestroyRooms(s, c);
    DestroyConns(s, c);
    DestroyMaps(s, c);
  }

  lemma {:induction false} LeaverIsMember(s: State, c: nat, docId: DocId, r: nat)
    requires ConnsSound(s) && c in s.conns && s.conns[c] == Conn(docId, Leaving(r))
    ensures r in s.all && s.all[r].phase.Live? && s.all[r].docId == docId && c in s.all[r].conns
  {
  }

  ghost predicate LastLeaver(s: State, c: nat, docId: DocId, r: nat) {
    && c in s.conns && s.conns[c] == Conn(docId, Leaving(r))
    && r in s.all && s.all[r].phase.Live? && s.all[r].docId == docId && s.all[r].conns == {c}
  }

  lemma {:induction false} EvictOtherRoom(s: State, c: nat, docId: DocId, r: nat, q: nat)
    requires RoomsSound(s) && MapsSound(s) && BusInv(s.bus) && LastLeaver(s, c, docId, r) && q in s.all && q != r
    ensures var t := AfterEvict(s, c, docId, r);
            q < t.nextRoom && OpenSound(t, q, s.all[q]) && EvictedSound(t, q, s.all[q]) && LogSound(t, s.all[q])
  {
    hide AfterUnsubscribe, ConnSound;
    UnsubscribeKeeps(s.bus, docId);
    assert OpenSound(s, q, s.all[q]) && EvictedSound(s, q, s.all[q]) && LogSound(s, s.all[q]);
    assert OpenSound(s, r, s.all[r]);
  }

  lemma {:induction false} EvictedRoomIsSound(s: State, c: nat, docId: DocId, r: nat)
    requires RoomsSound(s) && BusInv(s.bus) && LastLeaver(s, c, docId, r)
    ensures var t := AfterEvict(s, c, docId, r);
            r < t.nextRoom && OpenSound(t, r, t.all[r]) && EvictedSound(t, r, t.all[r]) && LogSound(t, t.all[r])
  {
    CapturedKeepsUnwritten(s.all[r]);
    hide AfterUnsubscribe, Unwritten;
    UnsubscribeKeeps(s.bus, docId);
  }

  lemma {:induction false} EvictRooms(s: State, c: nat, docId: DocId, r: nat)
    requires Inv(s) && LastLeaver(s, c, docId, r)
    ensures RoomsSound(AfterEvict(s, c, docId, r))
  {
    var t := AfterEvict(s, c, docId, r);
    EvictedRoomIsSound(s, c, docId, r);
    hide OpenSound, EvictedSound, LogSound, ConnsSound, CountsSound, MapsSound, AfterUnsubscribe;
    forall q | q in s.all && q != r
      ensures q < t.nextRoom && OpenSound(t, q, s.all[q]) && EvictedSound(t, q, s.all[q]) && LogSound(t, s.all[q])
    {
      EvictOtherRoom(s, c, docId, r, q);
    }
  }

  lemma {:induction false} OthersAreElsewhere(s: State, c: nat, docId: DocId, r: nat, k: nat)
    requires ConnsSound(s) && LastLeaver(s, c, docId, r) && k in s.conns && k != c && !s.conns[k].place.Gone?
    ensures s.conns[k].place.room == r ==> s.conns[k].place.Joining?
    ensures ConnSound(s, k, s.conns[k])
  {
  }

  lemma {:induction false} EvictOtherConn(s: State, c: nat, docId: DocId, r: nat, k: nat)
    requires Inv(s) && LastLeaver(s, c, docId, r) && k in s.conns && k != c
    ensures ConnSound(AfterEvict(s, c, docId, r), k, s.conns[k])
  {
    LiveHasNoWrite(s, r);
    if !s.conns[k].place.Gone? { OthersAreElsewhere(s, c, docId, r, k); }
    hide Inv, AfterUnsubscribe;
  }

  lemma {:induction false} EvictApart(s: State, c: nat, docId: DocId, r: nat)
    requires ConnsSound(s) && LastLeaver(s, c, docId, r)
    ensures var t := AfterEvict(s, c, docId, r);
            forall a, b | a in t.conns && b in t.conns && t.conns[a].place.Evicting? ::
              t.conns[a].place == t.conns[b].place ==> a == b
  {
    forall k | k in s.conns && k != c
      ensures s.conns[k].place != Evicting(r)
    {
      if !s.conns[k].place.Gone? { OthersAreElsewhere(s, c, docId, r, k); }
    }
    hide ConnSound, AfterUnsubscribe;
  }

  lemma {:induction false} EvictMembers(s: State, c: nat, docId: DocId, r: nat)
    requires ConnsSound(s) && LastLeaver(s, c, docId, r)
    ensures var t := AfterEvict(s, c, docId, r);
            forall q, k | q in t.all && k in t.all[q].conns ::
              && k in t.conns
              && (t.conns[k].place == Joined(q) || t.conns[k].place == Attached(q) || t.conns[k].place == Leaving(q))
  {
    hide ConnSound, AfterUnsubscribe;
  }

  lemma {:induction false} EvictSelf(s: State, c: nat, docId: DocId, r: nat)
    requires LastLeaver(s, c, docId, r)
    ensures var t := AfterEvict(s, c, docId, r);
            && t.conns.Keys == s.conns.Keys && ConnSound(t, c, t.conns[c])
            && forall k | k in s.conns && k != c :: t.conns[k] == s.conns[k]
  {
    hide AfterUnsubscribe;
  }

  lemma {:induction false} EvictEach(s: State, c: nat, docId: DocId, r: nat)
    requires Inv(s) && ConnsSound(s) && LastLeaver(s, c, docId, r)
    ensures var t := AfterEvict(s, c, docId, r); forall k | k in t.conns :: ConnSound(t, k, t.conns[k])
  {
    var t := AfterEvict(s, c, docId, r);
    EvictSelf(s, c, docId, r);
    hide Inv, RoomsSound, AfterEvict, ConnSound, ConnsSound, LastLeaver;
    forall k | k in t.conns
      ensures ConnSound(t, k, t.conns[k])
    {
      if k != c { EvictOtherConn(s, c, docId, r, k); }
    }
  }

  lemma {:induction false} EvictConns(s: State, c: nat, docId: DocId, r: nat)
    requires Inv(s) && ConnsSound(s) && LastLeaver(s, c, docId, r)
    ensures ConnsSound(AfterEvict(s, c, docId, r))
  {
    EvictEach(s, c, docId, r);
    EvictApart(s, c, docId, r);
    EvictMembers(s, c, docId, r);
    hide Inv, AfterEvict, ConnSound, LastLeaver;
  }

  lemma {:induction false} LiveHasNoWrite(s: State, r: nat)
    requires RoomsSound(s) && r in s.all && s.all[r].phase.Live?
    ensures s.all[r].docId !in s.pendingWrites && Current(s, s.all[r].docId, r)
  {
  }

  lemma {:induction false} EvictMaps(s: State, c: nat, docId: DocId, r: nat)
    requires Inv(s) && LastLeaver(s, c, docId, r)
    ensures MapsSound(AfterEvict(s, c, docId, r))
  {
    hide RoomsSound, ConnsSound, CountsSound, AfterUnsubscribe;
    LiveHasNoWrite(s, r);
    UnsubscribeKeeps(s.bus, docId);
  }

  lemma {:induction false} EvictCounts(s: State, c: nat, docId: DocId, r: nat)
    requires Inv(s) && LastLeaver(s, c, docId, r)
    ensures CountsSound(AfterEvict(s, c, docId, r)) && BusInv(AfterEvict(s, c, docId, r).bus)
  {
    hide RoomsSound, ConnsSound, MapsSound, AfterUnsubscribe;
    UnsubscribeKeeps(s.bus, docId);
    hide BusInv;
  }

  lemma {:induction false} EvictKeeps(s: State, c: nat, docId: DocId, r: nat)
    requires Inv(s) && LastLeaver(s, c, docId, r)
    ensures Inv(AfterEvict(s, c, docId, r))
  {
    hide RoomsSound, ConnsSound, MapsSound, CountsSound, BusInv, LastLeaver;
    EvictRooms(s, c, docId, r);
    EvictConns(s, c, docId, r);
    EvictMaps(s, c, docId, r);
    EvictCounts(s, c, docId, r);
  }

  lemma {:induction false} JoinStartKeeps(s: State, c: nat, docId: DocId)
    requires Inv(s) && (c in s.conns ==> s.conns[c].place.Joining?)
    ensures Inv(AfterJoinStart(s, c, docId))
  {
    hide Inv;
    if docId in s.rooms { AwaitKeeps(s, c, docId); } else { CreateKeeps(s, c, docId); }
  }

  lemma {:induction false} JoinResumeKeeps(s: State, c: nat)
    requires Inv(s) && Allowed(s, JoinResume(c))
    ensures Inv(AfterJoinResume(s, c))
  {
    var Conn(docId, place) := s.conns[c];
    if s.all[place.room].phase.Missing? {
      hide Inv, AfterMiss;
      MissKeeps(s, c, docId, place.room);
    } else if !Current(s, docId, place.room) {
      hide Inv, AfterJoinStart;
      JoinStartKeeps(s, c, docId);
    } else {
      CurrentIsOpen(s, docId, place.room);
      hide Inv, AfterAdd;
      AddKeeps(s, c, docId, place.room);
    }
  }

  lemma {:induction false} CurrentIsOpen(s: State, docId: DocId, r: nat)
    requires MapsSound(s) && Current(s, docId, r)
    ensures r in s.all && s.all[r].docId == docId && !Evicted(s.all[r].phase)
  {
  }

  lemma {:induction false} JoinedIsLive(s: State, c: nat)
    requires ConnsSound(s) && c in s.conns && s.conns[c].place.Joined?
    ensures var r := s.conns[c].place.room; r in s.all && s.all[r].phase.Live? && s.all[r].docId == s.conns[c].docId
  {
  }

  lemma {:induction false} AttachKeeps(s: State, c: nat)
    requires Inv(s) && Allowed(s, AttachObservers(c))
    ensures Inv(AfterAttach(s, c))
  {
    JoinedIsLive(s, c);
    hide Inv;
    var Conn(docId, place) := s.conns[c];
    if !s.all[place.room].observed {
      ObserveKeeps(s, place.room);
      AttachedKeeps(AfterObserve(s, place.room), c, place.room);
    } else {
      AttachedKeeps(s, c, place.room);
    }
  }

  lemma {:induction false} LeaveResumeKeeps(s: State, c: nat)
    requires Inv(s) && Allowed(s, LeaveResume(c))
    ensures Inv(AfterLeaveResume(s, c))
  {
    var Conn(docId, place) := s.conns[c];
    LeaverIsMember(s, c, docId, place.room);
    hide Inv;
    if s.all[place.room].conns - {c} != {} {
      DepartKeeps(s, c, docId, place.room);
    } else {
      EvictKeeps(s, c, docId, place.room);
    }
  }

  lemma {:induction false} FrameKeeps(s: State, frame: Frame, self: nat)
    requires Inv(s)
    ensures Inv(AfterFrame(s, frame, self))
    ensures forall r | r in Receiver(s.bus, self, frame) ::
      Current(s, frame.docId, r) && r in s.all && s.all[r].phase.Live? && s.all[r].docId == frame.docId
  {
    if Receiver(s.bus, self, frame) != {} {
      HandlerIsLive(s, frame.docId);
      hide Inv;
      UpdateKeeps(s, s.bus.handlers[frame.docId], frame.payload);
    }
  }

  lemma {:induction false} HandlerIsLive(s: State, docId: DocId)
    requires RoomsSound(s) && MapsSound(s) && docId in s.bus.handlers
    ensures var r := s.bus.handlers[docId];
            r in s.all && s.all[r].docId == docId && s.all[r].phase.Live? && s.all[r].observed && Current(s, docId, r)
  {
  }

  lemma {:induction false} WaitOverKeeps(s: State, r: nat)
    requires Inv(s) && Allowed(s, WaitOver(r))
    ensures Inv(PutRoom(s, r, s.all[r].(phase := Looking)))
  {
    WaitedWriteIsTheOnlyOne(s, r);
    hide Inv;
    AdvanceKeeps(s, r, Looking);
  }

  lemma {:induction false} WaitedWriteIsTheOnlyOne(s: State, r: nat)
    requires RoomsSound(s) && r in s.all && s.all[r].phase.Waiting?
    ensures s.all[r].docId in s.pendingWrites ==> s.pendingWrites[s.all[r].docId] == s.all[r].phase.write
  {
  }

  lemma {:induction false} BrokerStepKeeps(s: State)
    requires Inv(s)
    ensures Inv(s.(bus := BrokerStep(s.bus)))
  {
    hide BusInv, RoomsSound, ConnsSound, BrokerStep;
    BrokerKeeps(s.bus);
    BrokerKeepsHandlers(s.bus);
    SameHandlersRooms(s, BrokerStep(s.bus));
    SameHandlersConns(s, BrokerStep(s.bus));
  }

  lemma {:induction false} BrokerKeepsHandlers(bus: Bus)
    ensures BrokerStep(bus).handlers == bus.handlers
  {
  }

  lemma {:induction false} SameHandlersRooms(s: State, bus: Bus)
    requires RoomsSound(s) && bus.handlers == s.bus.handlers
    ensures RoomsSound(s.(bus := bus))
  {
    var t := s.(bus := bus);
    forall r | r in s.all
      ensures OpenSound(t, r, t.all[r]) && EvictedSound(t, r, t.all[r]) && LogSound(t, t.all[r])
    {
      assert OpenSound(s, r, s.all[r]) && EvictedSound(s, r, s.all[r]) && LogSound(s, s.all[r]);
    }
  }

  lemma {:induction false} SameHandlersConns(s: State, bus: Bus)
    requires ConnsSound(s)
    ensures ConnsSound(s.(bus := bus))
  {
  }

  lemma {:induction false} EditorIsMember(s: State, c: nat)
    requires Inv(s) && c in s.conns && s.conns[c].place.Attached?
    ensures var r := s.conns[c].place.room; r in s.all && s.all[r].phase.Live?
  {
  }

  lemma {:induction false} EventKeeps(s: State, e: Event)
    requires Inv(s) && Allowed(s, e)
    ensures Inv(After(s, e))
  {
    hide Inv, AfterJoinStart, AfterJoinResume, AfterAttach, AfterLeaveStart, AfterLeaveResume, AfterWriteSettles,
         AfterDestroy, AfterLoad, AfterSeed, AfterUpdate, AfterFrame, AfterAppend;
    match e
    case JoinStart(c, docId) => JoinStartKeeps(s, c, docId);
    case JoinResume(c) => JoinResumeKeeps(s, c);
    case AttachObservers(c) => AttachKeeps(s, c);
    case LeaveStart(c) => LeaveStartKeeps(s, c);
    case LeaveResume(c) => LeaveResumeKeeps(s, c);
    case WriteSettles(c) => WriteSettlesKeeps(s, c);
    case Destroy(c) => DestroyKeeps(s, c);
    case WaitOver(r) => WaitOverKeeps(s, r);
    case FileFound(r, isFile) => AdvanceKeeps(s, r, if isFile then Loading else Missing);
    case LoadDone(r, content) => LoadKeeps(s, r, content);
    case SeedDone(r) => SeedKeeps(s, r);
    case Edit(c, ops) => EditorIsMember(s, c); UpdateKeeps(s, s.conns[c].place.room, ops);
    case BusFrame(frame, self) => FrameKeeps(s, frame, self);
    case Capture(r) => CaptureKeeps(s, r);
    case Append(r) => AppendKeeps(s, r);
    case CompactEnd(r) => CompactEndKeeps(s, r);
    case Broker => BrokerStepKeeps(s);
  }

  lemma {:induction false} StartKeeps(log: map<DocId, Doc>)
    ensures Inv(Started(log))
  {
  }
}
