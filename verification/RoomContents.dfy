/** What rooms and the store hold over a run of the registry: everything a document was ever given, through
    every eviction and reopening, and nothing else. */
module RoomContents {
  import opened Yjs
  import opened DocStore
  import opened DocBus
  import opened Rooms
  import opened RoomSteps
  import opened RoomRegistry
  import opened RoomUse

  function LogOf(log: map<DocId, Doc>, docId: DocId): Doc {
    if docId in log then log[docId] else {}
  }

  // ── What one event gives a document ────────────────────────────────────────

  ghost predicate Listening(s: State, docId: DocId) {
    exists r :: r in s.all && s.all[r].docId == docId && s.all[r].phase.Live? && s.all[r].observed
  }

  /** An edit on one of its connections, another instance's frame while a room listens, or the file's
      content for a document that was never stored. */
  ghost function Contributed(s: State, e: Event, docId: DocId): Doc {
    match e
    case Edit(c, ops) => if c in s.conns && s.conns[c].docId == docId then ops else {}
    case BusFrame(frame, self) =>
      if frame.docId == docId && frame.instanceId != self && Listening(s, docId) then frame.payload else {}
    case LoadDone(r, content) =>
      if r in s.all && s.all[r].docId == docId && docId !in s.log then content else {}
    case _ => {}
  }

  /** All a document was given in the first `n` events, and what the store already held. */
  ghost function Given(log: map<DocId, Doc>, states: seq<State>, events: seq<Event>, n: nat, docId: DocId): Doc
    requires |states| == |events| + 1 && n <= |events|
  {
    if n == 0 then LogOf(log, docId)
    else Given(log, states, events, n - 1, docId) + Contributed(states[n - 1], events[n - 1], docId)
  }

  /** All that the store and the rooms of a document hold, dead ones included. */
  ghost function Whole(s: State, docId: DocId): (ops: Doc)
    ensures forall op :: op in ops <==>
      op in LogOf(s.log, docId) || exists r :: r in s.all && s.all[r].docId == docId && op in s.all[r].doc
  {
    LogOf(s.log, docId) + set r, op | r in s.all && s.all[r].docId == docId && op in s.all[r].doc :: op
  }

  // ── The invariant ──────────────────────────────────────────────────────────

  /** A live room holds all the store has of its document; what waits to be written is in the document;
      and a room that has not loaded is empty. */
  ghost predicate RoomHolds(s: State, room: Room) {
    && Unwritten(room) <= room.doc
    && (room.phase.Live? ==> LogOf(s.log, room.docId) <= room.doc)
    && (!Filled(room.phase) ==> room.doc == {})
  }

  ghost predicate Holds(s: State) {
    forall r | r in s.all :: RoomHolds(s, s.all[r])
  }

  // ── Events that move no content ────────────────────────────────────────────

  ghost predicate SameRoom(room: Room, after: Room) {
    && after.docId == room.docId && after.doc == room.doc && Unwritten(after) == Unwritten(room)
    && (after.phase.Live? ==> room.phase.Live?) && (room.phase.Seeding? ==> after.phase.Seeding?)
    && (Filled(after.phase) <==> Filled(room.phase))
  }

  ghost predicate Quiet(s: State, t: State) {
    && t.log == s.log
    && (forall r | r in s.all :: r in t.all && SameRoom(s.all[r], t.all[r]))
    && (forall r | r in t.all && r !in s.all ::
          t.all[r].doc == {} && Unwritten(t.all[r]) == {} && !Filled(t.all[r].phase))
  }

  lemma {:induction false} QuietKeeps(s: State, t: State, docId: DocId)
    requires Holds(s) && Quiet(s, t)
    ensures Holds(t) && Whole(t, docId) == Whole(s, docId)
  {
    hide Unwritten;
    assert Holds(t);
    hide Holds;
    forall op
      ensures op in Whole(t, docId) <==> op in Whole(s, docId)
    {
      if r :| r in s.all && s.all[r].docId == docId && op in s.all[r].doc {
        assert r in t.all && t.all[r].docId == docId && op in t.all[r].doc;
      }
      if r :| r in t.all && t.all[r].docId == docId && op in t.all[r].doc {
        assert r in s.all && s.all[r].docId == docId && op in s.all[r].doc;
      }
    }
  }

  lemma {:induction false} NewIsQuiet(s: State, t: State, r: nat, room: Room)
    requires r !in s.all && t.all == s.all[r := room] && t.log == s.log && !Filled(room.phase)
    requires room.doc == room.buffered == {} && room.captured == []
    ensures Quiet(s, t)
  {
  }

  lemma {:induction false} PutIsQuiet(s: State, t: State, r: nat, room: Room)
    requires r in s.all && SameRoom(s.all[r], room) && t.all == s.all[r := room] && t.log == s.log
    ensures Quiet(s, t)
  {
    hide Unwritten;
  }

  lemma {:induction false} SameAllIsQuiet(s: State, t: State)
    requires t.all == s.all && t.log == s.log
    ensures Quiet(s, t)
  {
  }

  lemma {:induction false} JoinStartIsQuiet(s: State, c: nat, docId: DocId)
    requires s.nextRoom !in s.all
    ensures Quiet(s, AfterJoinStart(s, c, docId))
  {
    hide Quiet;
    var t := AfterJoinStart(s, c, docId);
    if docId in s.rooms {
      SameAllIsQuiet(s, t);
    } else {
      NewIsQuiet(s, t, s.nextRoom, t.all[s.nextRoom]);
    }
  }

  lemma {:induction false} JoinResumeIsQuiet(s: State, c: nat)
    requires s.nextRoom !in s.all && Allowed(s, JoinResume(c))
    ensures Quiet(s, AfterJoinResume(s, c))
  {
    var t, docId, r := AfterJoinResume(s, c), s.conns[c].docId, s.conns[c].place.room;
    JoinStartIsQuiet(s, c, docId);
    hide AfterJoinStart, Quiet, Union;
    if s.all[r].phase.Missing? {
      SameAllIsQuiet(s, t);
    } else if Current(s, docId, r) {
      PutIsQuiet(s, t, r, t.all[r]);
    }
  }

  lemma {:induction false} AttachIsQuiet(s: State, c: nat)
    requires Allowed(s, AttachObservers(c))
    ensures Quiet(s, AfterAttach(s, c))
  {
    var t, r := AfterAttach(s, c), s.conns[c].place.room;
    hide AfterSubscribe, Quiet, Union;
    PutIsQuiet(s, t, r, t.all[r]);
  }

  lemma {:induction false} EvictIsQuiet(s: State, c: nat, docId: DocId, r: nat)
    requires r in s.all && s.all[r].phase.Live?
    ensures Quiet(s, AfterEvict(s, c, docId, r))
  {
    CapturedKeepsUnwritten(s.all[r]);
    hide AfterUnsubscribe, Quiet, Union;
    var t := AfterEvict(s, c, docId, r);
    PutIsQuiet(s, t, r, t.all[r]);
  }

  lemma {:induction false} DepartIsQuiet(s: State, c: nat, docId: DocId, r: nat)
    requires r in s.all
    ensures Quiet(s, AfterDepart(s, c, docId, r))
  {
    hide Quiet, Union;
    var t := AfterDepart(s, c, docId, r);
    PutIsQuiet(s, t, r, t.all[r]);
  }

  lemma {:induction false} LeaveIsQuiet(s: State, c: nat)
    requires Inv(s) && Allowed(s, Event.LeaveResume(c))
    ensures Quiet(s, AfterLeaveResume(s, c))
  {
    LeaverOwnsRoom(s, c);
    var docId, r := s.conns[c].docId, s.conns[c].place.room;
    hide Inv, Quiet, AfterEvict, AfterDepart;
    EvictIsQuiet(s, c, docId, r);
    DepartIsQuiet(s, c, docId, r);
  }

  /** Events that move one room along, or its buffer, and nothing else. */
  lemma {:induction false} RoomEventIsQuiet(s: State, e: Event)
    requires Allowed(s, e)
    requires e.WriteSettles? || e.Destroy? || e.WaitOver? || e.FileFound? || e.Capture? || e.CompactEnd?
    ensures Quiet(s, After(s, e))
  {
    var t := After(s, e);
    var r := if e.WriteSettles? || e.Destroy? then RoomOf(s, e.conn) else e.room;
    if e.Capture? { CapturedKeepsUnwritten(s.all[r]); }
    hide Quiet, Union;
    PutIsQuiet(s, t, r, t.all[r]);
  }

  lemma {:induction false} OtherEventIsQuiet(s: State, e: Event)
    requires Inv(s) && Allowed(s, e)
    requires !e.Edit? && !e.BusFrame? && !e.Append? && !e.LoadDone? && !e.SeedDone?
    ensures Quiet(s, After(s, e))
  {
    NextRoomIsFresh(s);
    hide Inv, Quiet, AfterJoinStart, AfterJoinResume, AfterAttach, AfterLeaveResume, BrokerStep;
    match e
    case JoinStart(c, docId) => JoinStartIsQuiet(s, c, docId);
    case JoinResume(c) => JoinResumeIsQuiet(s, c);
    case AttachObservers(c) => AttachIsQuiet(s, c);
    case LeaveStart(c) => SameAllIsQuiet(s, After(s, e));
    case LeaveResume(c) => LeaveIsQuiet(s, c);
    case Broker => SameAllIsQuiet(s, After(s, e));
    case _ => RoomEventIsQuiet(s, e);
  }

  // ── Events that do ─────────────────────────────────────────────────────────

  /** One room takes something in, and the store may take some of it. */
  ghost predicate Fills(s: State, t: State, r: nat) {
    && r in s.all && r in t.all && t.all == s.all[r := t.all[r]]
    && t.all[r].docId == s.all[r].docId && s.all[r].doc <= t.all[r].doc
    && LogOf(s.log, s.all[r].docId) <= LogOf(t.log, s.all[r].docId)
    && forall d | d != s.all[r].docId :: LogOf(t.log, d) == LogOf(s.log, d)
  }

  lemma {:induction false} FilledWhole(s: State, t: State, r: nat, docId: DocId)
    requires Fills(s, t, r)
    ensures Whole(t, docId) == Whole(s, docId)
      + (if s.all[r].docId == docId then t.all[r].doc + LogOf(t.log, docId) else {})
  {
    forall op
      ensures op in Whole(t, docId) <==>
        || op in Whole(s, docId)
        || (s.all[r].docId == docId && (op in t.all[r].doc || op in LogOf(t.log, docId)))
    {
      if q :| q in s.all && s.all[q].docId == docId && op in s.all[q].doc {
        assert q in t.all && t.all[q].docId == docId && op in t.all[q].doc;
      }
      if q :| q in t.all && t.all[q].docId == docId && op in t.all[q].doc {
        assert q == r || (q in s.all && s.all[q].docId == docId && op in s.all[q].doc);
      }
    }
  }

  lemma {:induction false} FilledHolds(s: State, t: State, r: nat)
    requires Holds(s) && Fills(s, t, r) && RoomHolds(t, t.all[r])
    requires forall q | q in s.all && q != r && s.all[q].phase.Live? && s.all[q].docId == s.all[r].docId ::
      LogOf(t.log, s.all[r].docId) <= s.all[q].doc
    ensures Holds(t)
  {
    hide Unwritten, Filled, LogOf;
    forall q | q in t.all
      ensures RoomHolds(t, t.all[q])
    {
      assert q != r ==> q in s.all && t.all[q] == s.all[q] && RoomHolds(s, s.all[q]);
    }
  }

  lemma {:induction false} NoOtherLive(s: State, r: nat)
    requires Inv(s) && r in s.all && Opening(s.all[r].phase)
    ensures forall q | q in s.all && q != r && s.all[q].docId == s.all[r].docId :: !s.all[q].phase.Live?
  {
    hide EvictedSound, LogSound, ConnsSound, MapsSound, CountsSound, BusInv;
  }

  lemma {:induction false} NoOtherLiveWhileWriting(s: State, r: nat)
    requires Inv(s) && r in s.all && s.all[r].captured != []
    ensures forall q | q in s.all && q != r && s.all[q].docId == s.all[r].docId :: !s.all[q].phase.Live?
  {
    forall q | q in s.all && q != r && s.all[q].docId == s.all[r].docId
      ensures !s.all[q].phase.Live?
    {
      if s.all[q].phase.Live? { OtherRoomIsDone(s, q, r); }
    }
    hide RoomsSound, ConnsSound, MapsSound, CountsSound, BusInv;
  }

  /** What its invariant says of a room that is still loading or seeding. */
  lemma {:induction false} OpeningIsEmpty(s: State, r: nat)
    requires RoomsSound(s) && r in s.all && Opening(s.all[r].phase)
    ensures Unwritten(s.all[r]) == {} && (s.all[r].phase.Seeding? ==> s.all[r].docId !in s.log)
  {
    assert Union([]) == {};
    hide EvictedSound, LogSound, Union;
  }

  lemma {:induction false} LoadedFills(s: State, r: nat, content: Doc)
    requires r in s.all && s.all[r].phase.Loading? && s.all[r].doc == {}
    ensures var t, docId := AfterLoad(s, r, content), s.all[r].docId;
            && Fills(s, t, r) && t.log == s.log
            && t.all[r].doc == if docId in s.log then s.log[docId] else content
  {
  }

  lemma {:induction false} LoadedHolds(s: State, r: nat, content: Doc)
    requires r in s.all && s.all[r].phase.Loading? && Unwritten(s.all[r]) == {} && s.all[r].doc == {}
    ensures var t := AfterLoad(s, r, content); r in t.all && RoomHolds(t, t.all[r])
  {
    hide Union;
  }

  lemma {:induction false} LoadFills(s: State, r: nat, content: Doc, docId: DocId)
    requires Inv(s) && Holds(s) && Allowed(s, LoadDone(r, content))
    ensures var t := AfterLoad(s, r, content);
            Holds(t) && Whole(t, docId) == Whole(s, docId) + Contributed(s, LoadDone(r, content), docId)
  {
    var t := AfterLoad(s, r, content);
    OpeningIsEmpty(s, r);
    assert RoomHolds(s, s.all[r]);
    hide Inv, Whole, Unwritten;
    LoadedHolds(s, r, content);
    LoadedFills(s, r, content);
    hide RoomHolds, AfterLoad;
    FilledIsLogged(s, t, r);
    FilledHolds(s, t, r);
    FilledWhole(s, t, r, docId);
    LogIsInWhole(s, docId);
    hide Holds, Fills;
  }

  lemma {:induction false} LogIsInWhole(s: State, docId: DocId)
    ensures LogOf(s.log, docId) <= Whole(s, docId)
    ensures forall r | r in s.all && s.all[r].docId == docId :: s.all[r].doc <= Whole(s, docId)
  {
  }

  /** Content that only moves between a room and the store. */
  lemma {:induction false} MovedWhole(s: State, t: State, r: nat, docId: DocId)
    requires Fills(s, t, r) && t.all[r].doc == s.all[r].doc
    requires LogOf(t.log, s.all[r].docId) <= LogOf(s.log, s.all[r].docId) + s.all[r].doc
    ensures Whole(t, docId) == Whole(s, docId)
  {
    hide Whole;
    FilledWhole(s, t, r, docId);
    LogIsInWhole(s, docId);
  }

  lemma {:induction false} SeededHolds(s: State, r: nat)
    requires r in s.all && s.all[r].docId !in s.log && Unwritten(s.all[r]) == {}
    ensures var t := AfterSeed(s, r);
            && RoomHolds(t, t.all[r]) && Fills(s, t, r)
            && t.all[r].doc == s.all[r].doc == LogOf(t.log, s.all[r].docId)
  {
    hide Union;
  }

  lemma {:induction false} SeedFills(s: State, r: nat, docId: DocId)
    requires Inv(s) && Holds(s) && Allowed(s, SeedDone(r))
    ensures var t := AfterSeed(s, r); Holds(t) && Whole(t, docId) == Whole(s, docId)
  {
    var t := AfterSeed(s, r);
    OpeningIsEmpty(s, r);
    NoOtherLive(s, r);
    hide Inv, Whole, Unwritten;
    SeededHolds(s, r);
    hide RoomHolds, AfterSeed, LogOf;
    FilledHolds(s, t, r);
    MovedWhole(s, t, r, docId);
    hide Holds, Fills;
  }

  lemma {:induction false} UpdatedHolds(s: State, r: nat, ops: Doc)
    requires r in s.all && s.all[r].phase.Live? && RoomHolds(s, s.all[r])
    ensures var t := AfterUpdate(s, r, ops);
            && RoomHolds(t, t.all[r]) && Fills(s, t, r)
            && t == s.(all := s.all[r := t.all[r]]) && t.all[r].doc == s.all[r].doc + ops
  {
    hide Union;
  }

  lemma {:induction false} UpdateFills(s: State, r: nat, ops: Doc, docId: DocId)
    requires Holds(s) && r in s.all && s.all[r].phase.Live?
    ensures var t := AfterUpdate(s, r, ops);
            Holds(t) && Whole(t, docId) == Whole(s, docId) + (if s.all[r].docId == docId then ops else {})
  {
    var t := AfterUpdate(s, r, ops);
    UpdatedHolds(s, r, ops);
    FilledIsLogged(s, t, r);
    hide Whole, AfterUpdate;
    FilledHolds(s, t, r);
    FilledWhole(s, t, r, docId);
    LogIsInWhole(s, docId);
    hide Holds, RoomHolds, Fills;
  }

  lemma {:induction false} FilledIsLogged(s: State, t: State, r: nat)
    requires Holds(s) && Fills(s, t, r) && t.log == s.log
    ensures forall q | q in s.all && q != r && s.all[q].phase.Live? && s.all[q].docId == s.all[r].docId ::
      LogOf(t.log, s.all[r].docId) <= s.all[q].doc
  {
    hide Unwritten, Filled;
  }

  lemma {:induction false} AppendedHolds(s: State, r: nat)
    requires r in s.all && s.all[r].captured != [] && RoomHolds(s, s.all[r])
    ensures var t := AfterAppend(s, r); r in t.all && RoomHolds(t, t.all[r])
    ensures s.all[r].captured[0] <= s.all[r].doc
  {
    HeadBatch(s.all[r].captured);
    hide Union;
  }

  lemma {:induction false} AppendedFills(s: State, r: nat)
    requires r in s.all && s.all[r].captured != [] && s.all[r].captured[0] <= s.all[r].doc
    ensures var t := AfterAppend(s, r); Fills(s, t, r) && t.all[r].doc == s.all[r].doc
    ensures LogOf(AfterAppend(s, r).log, s.all[r].docId) <= LogOf(s.log, s.all[r].docId) + s.all[r].doc
  {
  }

  lemma {:induction false} AppendFills(s: State, r: nat, docId: DocId)
    requires Inv(s) && Holds(s) && Allowed(s, Append(r))
    ensures var t := AfterAppend(s, r); Holds(t) && Whole(t, docId) == Whole(s, docId)
  {
    var t := AfterAppend(s, r);
    NoOtherLiveWhileWriting(s, r);
    hide Inv, Whole, AfterAppend, RoomHolds, Unwritten;
    AppendedHolds(s, r);
    AppendedFills(s, r);
    hide LogOf;
    FilledHolds(s, t, r);
    MovedWhole(s, t, r, docId);
    hide Holds, Fills;
  }

  lemma {:induction false} FrameFills(s: State, frame: Frame, self: nat, docId: DocId)
    requires Inv(s) && Holds(s)
    ensures var t := AfterFrame(s, frame, self);
            Holds(t) && Whole(t, docId) == Whole(s, docId) + Contributed(s, BusFrame(frame, self), docId)
  {
    hide Inv, Whole, Holds, AfterUpdate, AfterFrame, Listening;
    ListenerHasHandler(s, frame.docId);
    FrameIsAnUpdate(s, frame, self);
    if frame.docId in s.bus.handlers { UpdateFills(s, s.bus.handlers[frame.docId], frame.payload, docId); }
  }

  lemma {:induction false} FrameIsAnUpdate(s: State, frame: Frame, self: nat)
    requires Inv(s)
    ensures frame.docId in s.bus.handlers ==>
      var r := s.bus.handlers[frame.docId];
      r in s.all && s.all[r].docId == frame.docId && s.all[r].phase.Live?
    ensures AfterFrame(s, frame, self) ==
      if frame.docId in s.bus.handlers && frame.instanceId != self
      then AfterUpdate(s, s.bus.handlers[frame.docId], frame.payload)
      else s
  {
    if frame.docId in s.bus.handlers { HandlerIsLive(s, frame.docId); }
    hide Inv, AfterUpdate;
  }

  /** A room listens to a document exactly when the bus has a handler for it. */
  lemma {:induction false} ListenerHasHandler(s: State, docId: DocId)
    requires Inv(s)
    ensures Listening(s, docId) <==> docId in s.bus.handlers
  {
    if docId in s.bus.handlers { HandlerIsLive(s, docId); }
    hide EvictedSound, LogSound, ConnsSound, MapsSound, CountsSound, BusInv;
  }

  lemma {:induction false} EventFills(s: State, e: Event, docId: DocId)
    requires Inv(s) && Holds(s) && Allowed(s, e)
    ensures Holds(After(s, e)) && Whole(After(s, e), docId) == Whole(s, docId) + Contributed(s, e, docId)
  {
    hide Inv, Whole, Holds, Quiet, Listening, AfterJoinStart, AfterJoinResume, AfterAttach, AfterLeaveStart,
         AfterLeaveResume, AfterWriteSettles, AfterDestroy, AfterLoad, AfterSeed, AfterUpdate, AfterFrame, AfterAppend;
    if e.Edit? {
      EditorIsInLiveRoom(s, e.conn);
      UpdateFills(s, RoomOf(s, e.conn), e.ops, docId);
    } else if e.BusFrame? {
      FrameFills(s, e.frame, e.self, docId);
    } else if e.LoadDone? || e.SeedDone? || e.Append? {
      StoreEventFills(s, e, docId);
    } else {
      hide After;
      OtherEventIsQuiet(s, e);
      QuietKeeps(s, After(s, e), docId);
    }
  }

  lemma {:induction false} StoreEventFills(s: State, e: Event, docId: DocId)
    requires Inv(s) && Holds(s) && Allowed(s, e) && (e.LoadDone? || e.SeedDone? || e.Append?)
    ensures Holds(After(s, e)) && Whole(After(s, e), docId) == Whole(s, docId) + Contributed(s, e, docId)
  {
    hide Inv, Whole, Holds, AfterLoad, AfterSeed, AfterAppend;
    if e.LoadDone? {
      LoadFills(s, e.room, e.content, docId);
    } else if e.SeedDone? {
      SeedFills(s, e.room, docId);
    } else {
      AppendFills(s, e.room, docId);
    }
  }

  lemma {:induction false} EditorIsInLiveRoom(s: State, c: nat)
    requires Inv(s) && c in s.conns && s.conns[c].place.Attached?
    ensures var r := s.conns[c].place.room;
            r in s.all && s.all[r].phase.Live? && s.all[r].docId == s.conns[c].docId
  {
    hide RoomsSound, MapsSound, CountsSound, BusInv;
  }

  lemma {:induction false} RunFills(
    log: map<DocId, Doc>, states: seq<State>, events: seq<Event>, n: nat, docId: DocId)
    requires IsRun(log, states, events) && n <= |events|
    ensures Inv(states[n]) && Holds(states[n]) && Whole(states[n], docId) == Given(log, states, events, n, docId)
  {
    hide Inv, Holds, Whole, Contributed, Allowed, After, Started;
    RunKeeps(log, states, events, n);
    if n == 0 {
      StartHolds(log, docId);
    } else {
      RunFills(log, states, events, n - 1, docId);
      assert Allowed(states[n - 1], events[n - 1]) && states[n - 1 + 1] == After(states[n - 1], events[n - 1]);
      EventFills(states[n - 1], events[n - 1], docId);
    }
  }

  lemma {:induction false} StartHolds(log: map<DocId, Doc>, docId: DocId)
    ensures Holds(Started(log)) && Whole(Started(log), docId) == LogOf(log, docId)
  {
  }

  // ── Main results, over every run ───────────────────────────────────────────

  lemma {:induction false} LiveRoomIsWhole(s: State, r: nat)
    requires Inv(s) && Holds(s) && r in s.all && s.all[r].phase.Live?
    ensures s.all[r].doc == Whole(s, s.all[r].docId)
    ensures s.all[r].docId in s.log && s.all[r].doc == s.log[s.all[r].docId] + Unwritten(s.all[r])
    ensures forall q | q in s.all && s.all[q].docId == s.all[r].docId :: s.all[q].doc <= s.all[r].doc
  {
    var docId := s.all[r].docId;
    forall q | q in s.all && s.all[q].docId == docId
      ensures s.all[q].doc <= s.all[r].doc
    {
      if q != r { OtherRoomIsDone(s, r, q); }
    }
    LogIsInWhole(s, docId);
    hide OpenSound, EvictedSound, ConnsSound, MapsSound, CountsSound, BusInv, Unwritten;
  }

  /** A live room holds everything its document was ever given: what the store held at the start, the
      file's content if it was never stored, every edit and every frame, in this room or in an earlier
      one that was evicted since; and nothing else. It is what the log has and what waits to be written. */
  lemma {:induction false} LiveRoomHoldsEverything(
    log: map<DocId, Doc>, states: seq<State>, events: seq<Event>, n: nat, r: nat)
    requires IsRun(log, states, events) && n <= |events| && r in states[n].all && states[n].all[r].phase.Live?
    ensures var s, room := states[n], states[n].all[r];
            && room.doc == Given(log, states, events, n, room.docId)
            && room.docId in s.log && room.doc == s.log[room.docId] + Unwritten(room)
            && forall earlier | earlier in s.all && s.all[earlier].docId == room.docId :: s.all[earlier].doc <= room.doc
  {
    RunFills(log, states, events, n, states[n].all[r].docId);
    hide Inv, Holds, Whole, Given, IsRun;
    LiveRoomIsWhole(states[n], r);
  }

  /** And so does the store, once nothing of the document is left to write. */
  lemma {:induction false} IdleLogHoldsEverything(
    log: map<DocId, Doc>, states: seq<State>, events: seq<Event>, n: nat, docId: DocId)
    requires IsRun(log, states, events) && n <= |events| && Idle(states[n], docId) && docId in states[n].log
    ensures states[n].log[docId] == Given(log, states, events, n, docId)
  {
    RunFills(log, states, events, n, docId);
    hide Given, IsRun;
    IdleIsWhole(states[n], docId);
    hide Inv, Holds, Whole;
  }

  lemma {:induction false} IdleIsWhole(s: State, docId: DocId)
    requires Inv(s) && Holds(s) && Idle(s, docId) && docId in s.log
    ensures Whole(s, docId) == s.log[docId]
  {
    forall r | r in s.all && s.all[r].docId == docId
      ensures s.all[r].doc <= s.log[docId]
    {
      assert RoomHolds(s, s.all[r]) && OpenSound(s, r, s.all[r]) && LogSound(s, s.all[r]);
    }
    hide Inv, Holds, Unwritten;
  }

  // ── Loading and seeding ────────────────────────────────────────────────────

  ghost predicate Grows(s: State, t: State, r: nat) {
    r in s.all && r in t.all && t.all[r].docId == s.all[r].docId && s.all[r].doc <= t.all[r].doc
  }

  lemma {:induction false} UpdateGrows(s: State, q: nat, ops: Doc, r: nat)
    requires q in s.all && r in s.all
    ensures Grows(s, AfterUpdate(s, q, ops), r)
  {
  }

  lemma {:induction false} FrameGrows(s: State, frame: Frame, self: nat, r: nat)
    requires r in s.all
    ensures Grows(s, AfterFrame(s, frame, self), r)
  {
    if frame.docId in s.bus.handlers && s.bus.handlers[frame.docId] in s.all {
      UpdateGrows(s, s.bus.handlers[frame.docId], frame.payload, r);
    }
    hide AfterUpdate;
  }

  lemma {:induction false} StoreEventGrows(s: State, e: Event, r: nat)
    requires Holds(s) && Allowed(s, e) && r in s.all && (e.LoadDone? || e.SeedDone? || e.Append?)
    ensures Grows(s, After(s, e), r)
  {
    StoreAnswers(s, e);
    if e.LoadDone? { assert RoomHolds(s, s.all[e.room]) && s.all[e.room].phase.Loading?; }
    hide After, Unwritten;
  }

  lemma {:induction false} EventGrows(s: State, e: Event, r: nat)
    requires Inv(s) && Holds(s) && Allowed(s, e) && r in s.all
    ensures Grows(s, After(s, e), r)
  {
    if e.Edit? {
      UpdateGrows(s, RoomOf(s, e.conn), e.ops, r);
    } else if e.BusFrame? {
      FrameGrows(s, e.frame, e.self, r);
    } else if e.LoadDone? || e.SeedDone? || e.Append? {
      StoreEventGrows(s, e, r);
    } else {
      OtherEventIsQuiet(s, e);
    }
    hide Inv, Holds, Unwritten, AfterJoinStart, AfterJoinResume, AfterAttach, AfterLeaveStart, AfterLeaveResume,
         AfterWriteSettles, AfterDestroy, AfterLoad, AfterSeed, AfterUpdate, AfterFrame, AfterAppend;
  }

  lemma {:induction false} DocumentsGrow(
    log: map<DocId, Doc>, states: seq<State>, events: seq<Event>, m: nat, n: nat, r: nat)
    requires IsRun(log, states, events) && m <= n <= |events| && r in states[m].all
    ensures r in states[n].all && states[n].all[r].docId == states[m].all[r].docId
    ensures states[m].all[r].doc <= states[n].all[r].doc
    decreases n
  {
    hide Inv, Holds, Allowed, After, Started, Whole, Given;
    if m < n {
      DocumentsGrow(log, states, events, m, n - 1, r);
      RunFills(log, states, events, n - 1, states[m].all[r].docId);
      assert Allowed(states[n - 1], events[n - 1]) && states[n - 1 + 1] == After(states[n - 1], events[n - 1]);
      EventGrows(states[n - 1], events[n - 1], r);
    }
  }

  lemma {:induction false} LoadedRoom(s: State, r: nat, content: Doc)
    requires Allowed(s, LoadDone(r, content))
    ensures var t, docId := After(s, LoadDone(r, content)), s.all[r].docId;
            && r in t.all && t.all[r].docId == docId && t.log == s.log
            && (docId in s.log ==> t.all[r].phase.Live? && t.all[r].doc == s.log[docId])
            && (docId !in s.log ==> t.all[r].phase.Seeding? && t.all[r].doc == content)
  {
  }

  /** A room that loads a stored document goes live with exactly what the store holds of it, and keeps it. */
  lemma {:induction false} LoadedRoomHoldsTheStore(
    log: map<DocId, Doc>, states: seq<State>, events: seq<Event>, m: nat, n: nat, r: nat, content: Doc)
    requires IsRun(log, states, events) && m < n <= |events| && events[m] == LoadDone(r, content)
    requires r in states[m].all && states[m].all[r].docId in states[m].log
    ensures var stored := states[m].log[states[m].all[r].docId];
            && r in states[m + 1].all && states[m + 1].all[r].phase.Live? && states[m + 1].all[r].doc == stored
            && r in states[n].all && stored <= states[n].all[r].doc
  {
    hide Allowed, After;
    assert Allowed(states[m], events[m]) && states[m + 1] == After(states[m], events[m]);
    LoadedRoom(states[m], r, content);
    DocumentsGrow(log, states, events, m + 1, n, r);
  }

  ghost predicate Waits(s: State, t: State, r: nat) {
    && r in s.all && r in t.all && t.all[r].docId == s.all[r].docId
    && t.all[r].doc == s.all[r].doc && t.all[r].phase.Seeding?
  }

  lemma {:induction false} SeededRoom(s: State, r: nat)
    requires Allowed(s, SeedDone(r))
    ensures var t, docId := After(s, SeedDone(r)), s.all[r].docId;
            && r in t.all && t.all[r].phase.Live? && t.all[r].docId == docId
            && docId in t.log && t.log[docId] == t.all[r].doc == s.all[r].doc
  {
  }

  lemma {:induction false} StoreEventWaits(s: State, e: Event, r: nat)
    requires Allowed(s, e) && (e.LoadDone? || e.SeedDone? || e.Append?) && e != SeedDone(r)
    requires r in s.all && s.all[r].phase.Seeding? && s.all[r].captured == []
    ensures Waits(s, After(s, e), r)
  {
    StoreAnswers(s, e);
    hide After;
  }

  lemma {:induction false} OtherUpdateWaits(s: State, q: nat, ops: Doc, r: nat)
    requires q in s.all && s.all[q].phase.Live? && r in s.all && s.all[r].phase.Seeding?
    ensures Waits(s, AfterUpdate(s, q, ops), r)
  {
    UpdateIsInTheRoom(s, q, ops);
    hide AfterUpdate;
  }

  lemma {:induction false} UpdateWaits(s: State, e: Event, r: nat)
    requires Inv(s) && Allowed(s, e) && (e.Edit? || e.BusFrame?) && r in s.all && s.all[r].phase.Seeding?
    ensures Waits(s, After(s, e), r)
  {
    if e.Edit? { EditorIsInLiveRoom(s, e.conn); } else { FrameIsAnUpdate(s, e.frame, e.self); }
    hide Inv, AfterUpdate, AfterFrame;
    if e.Edit? {
      OtherUpdateWaits(s, RoomOf(s, e.conn), e.ops, r);
    } else if e.frame.docId in s.bus.handlers {
      OtherUpdateWaits(s, s.bus.handlers[e.frame.docId], e.frame.payload, r);
    }
  }

  /** A seeding room waits for its write, and nothing else touches it. */
  lemma {:induction false} SeedingWaits(s: State, e: Event, r: nat)
    requires Inv(s) && Allowed(s, e) && r in s.all && s.all[r].phase.Seeding? && e != SeedDone(r)
    ensures Waits(s, After(s, e), r)
  {
    SeedingHasNothingCaptured(s, r);
    hide Inv, After, Unwritten;
    if e.Edit? || e.BusFrame? {
      UpdateWaits(s, e, r);
    } else if e.LoadDone? || e.SeedDone? || e.Append? {
      StoreEventWaits(s, e, r);
    } else {
      OtherEventIsQuiet(s, e);
    }
  }

  lemma {:induction false} SeedingHasNothingCaptured(s: State, r: nat)
    requires RoomsSound(s) && r in s.all && s.all[r].phase.Seeding?
    ensures s.all[r].captured == []
  {
    hide EvictedSound, LogSound;
  }

  lemma {:induction false} SeedingHoldsTheFile(
    log: map<DocId, Doc>, states: seq<State>, events: seq<Event>, m: nat, n: nat, r: nat, content: Doc)
    requires IsRun(log, states, events) && m < n <= |events| && events[m] == LoadDone(r, content)
    requires r in states[m].all && states[m].all[r].docId !in states[m].log
    requires forall k | m < k < n :: events[k] != SeedDone(r)
    ensures r in states[n].all && states[n].all[r].docId == states[m].all[r].docId
    ensures states[n].all[r].phase.Seeding? && states[n].all[r].doc == content
    decreases n
  {
    hide Inv, Allowed, After, Started;
    assert Allowed(states[m], events[m]) && states[m + 1] == After(states[m], events[m]);
    if m + 1 == n {
      LoadedRoom(states[m], r, content);
    } else {
      SeedingHoldsTheFile(log, states, events, m, n - 1, r, content);
      RunKeeps(log, states, events, n - 1);
      assert Allowed(states[n - 1], events[n - 1]) && states[n - 1 + 1] == After(states[n - 1], events[n - 1]);
      SeedingWaits(states[n - 1], events[n - 1], r);
    }
  }

  /** For a document that was never stored, the room and then the store hold the file's content: exactly
      that from the moment the content is inserted until its write is done, and at least that ever after. */
  lemma {:induction false} SeededRoomHoldsTheFile(
    log: map<DocId, Doc>, states: seq<State>, events: seq<Event>, m: nat, k: nat, n: nat, r: nat, content: Doc)
    requires IsRun(log, states, events) && m < k < n <= |events|
    requires events[m] == LoadDone(r, content) && events[k] == SeedDone(r)
    requires r in states[m].all && states[m].all[r].docId !in states[m].log
    requires forall j | m < j < k :: events[j] != SeedDone(r)
    ensures r in states[k].all && states[k].all[r].phase.Seeding? && states[k].all[r].doc == content
    ensures var docId := states[m].all[r].docId;
            && docId in states[k + 1].log && states[k + 1].log[docId] == content
            && r in states[k + 1].all && states[k + 1].all[r].phase.Live? && states[k + 1].all[r].doc == content
            && r in states[n].all && content <= states[n].all[r].doc
  {
    hide Allowed, After, Started;
    SeedingHoldsTheFile(log, states, events, m, k, r, content);
    assert Allowed(states[k], events[k]) && states[k + 1] == After(states[k], events[k]);
    SeededRoom(states[k], r);
    DocumentsGrow(log, states, events, k + 1, n, r);
  }

  // ── Delivery ───────────────────────────────────────────────────────────────

  /** A frame of another instance is applied to the room that listens to its document, whatever the state
      of the registry; one of our own changes nothing; and neither touches any other room, or the store. */
  lemma {:induction false} FrameReachesTheRoom(
    log: map<DocId, Doc>, states: seq<State>, events: seq<Event>, n: nat, frame: Frame, self: nat, r: nat)
    requires IsRun(log, states, events) && n <= |events| && r in states[n].all
    requires states[n].all[r].docId == frame.docId && states[n].all[r].phase.Live? && states[n].all[r].observed
    ensures var s, t := states[n], After(states[n], BusFrame(frame, self));
            && r in t.all && t.all.Keys == s.all.Keys
            && t.all[r].doc == s.all[r].doc + (if frame.instanceId == self then {} else frame.payload)
            && (forall q | q in s.all && q != r :: t.all[q] == s.all[q])
            && t.log == s.log && t.rooms == s.rooms && t.conns == s.conns && t.bus == s.bus
  {
    var s, t := states[n], After(states[n], BusFrame(frame, self));
    RunKeeps(log, states, events, n);
    ListeningRoomHasHandler(s, r);
    FrameIsAnUpdate(s, frame, self);
    assert t == AfterFrame(s, frame, self);
    hide IsRun, Inv, After, AfterFrame;
    if frame.instanceId != self { UpdateIsInTheRoom(s, r, frame.payload); }
    hide AfterUpdate;
  }

  lemma {:induction false} ListeningRoomHasHandler(s: State, r: nat)
    requires RoomsSound(s) && r in s.all && s.all[r].phase.Live? && s.all[r].observed
    ensures s.all[r].docId in s.bus.handlers && s.bus.handlers[s.all[r].docId] == r
  {
    hide EvictedSound, LogSound;
  }

  lemma {:induction false} UpdateIsInTheRoom(s: State, r: nat, ops: Doc)
    requires r in s.all
    ensures var t := AfterUpdate(s, r, ops);
            && r in t.all && t == s.(all := s.all[r := t.all[r]]) && t.all[r].doc == s.all[r].doc + ops
  {
  }

  /** Without such a room it is dropped. */
  lemma {:induction false} FrameWithoutRoomIsDropped(
    log: map<DocId, Doc>, states: seq<State>, events: seq<Event>, n: nat, frame: Frame, self: nat)
    requires IsRun(log, states, events) && n <= |events| && !Listening(states[n], frame.docId)
    ensures After(states[n], BusFrame(frame, self)) == states[n]
  {
    RunKeeps(log, states, events, n);
    ListenerHasHandler(states[n], frame.docId);
    FrameIsAnUpdate(states[n], frame, self);
    hide IsRun, Inv, Listening, AfterFrame;
  }
}
