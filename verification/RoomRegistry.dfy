/** What the registry guarantees over every interleaving, and the registry itself. */
module RoomRegistry {
  import opened Yjs
  import opened DocStore
  import opened DocBus
  import opened Rooms
  import opened RoomSteps

  // ── Main results, over every run ───────────────────────────────────────────

  ghost predicate IsRun(log: map<DocId, Doc>, states: seq<State>, events: seq<Event>) {
    && |states| == |events| + 1
    && states[0] == Started(log)
    && forall i | 0 <= i < |events| :: Allowed(states[i], events[i]) && states[i + 1] == After(states[i], events[i])
  }

  lemma {:induction false} RunKeeps(log: map<DocId, Doc>, states: seq<State>, events: seq<Event>, n: nat)
    requires IsRun(log, states, events) && n <= |events|
    ensures Inv(states[n])
  {
    hide Inv, Allowed, After, Started;
    if n == 0 {
      StartKeeps(log);
    } else {
      RunKeeps(log, states, events, n - 1);
      assert Allowed(states[n - 1], events[n - 1]) && states[n - 1 + 1] == After(states[n - 1], events[n - 1]);
      EventKeeps(states[n - 1], events[n - 1]);
    }
  }

  /** A document has at most one live room, the one in the map; every joined connection belongs
      to it; an evicted room has no connection and was evicted once. */
  lemma {:induction false} OneLiveRoom(log: map<DocId, Doc>, states: seq<State>, events: seq<Event>, n: nat, r: nat)
    requires IsRun(log, states, events) && n <= |events| && r in states[n].all
    ensures var s := states[n];
            var room := s.all[r];
            && (room.phase.Live? || Opening(room.phase) ==> room.docId in s.rooms && s.rooms[room.docId] == r)
            && room.evictions <= 1
            && (Evicted(room.phase) ==> room.conns == {} && room.evictions == 1)
            && forall c | c in room.conns :: c in s.conns && s.conns[c].docId == room.docId && Current(s, room.docId, r)
  {
    hide Allowed, After, Started;
    RunKeeps(log, states, events, n);
    hide LogSound, CountsSound, BusInv;
  }

  /** When a room has passed the pending write and is looking up, loading, seeding or live, every
      other room of its document is out of the way: the log already holds all it ever observed
      and it is not compacting. So a load misses nothing and no compaction overlaps it. */
  lemma {:induction false} ReopenedRoomSeesEverything(
    log: map<DocId, Doc>, states: seq<State>, events: seq<Event>, n: nat, r: nat, earlier: nat)
    requires IsRun(log, states, events) && n <= |events|
    requires r in states[n].all && earlier in states[n].all && earlier != r
    requires states[n].all[earlier].docId == states[n].all[r].docId
    requires var phase := states[n].all[r].phase; phase.Looking? || phase.Loading? || phase.Seeding? || phase.Live?
    ensures var s := states[n];
            var room := s.all[earlier];
            && (room.phase.Missing? || room.phase.Settled? || room.phase.Destroyed?)
            && room.buffered == {} && room.captured == [] && !room.compacting
            && (!room.phase.Missing? ==> room.docId in s.log && room.doc <= s.log[room.docId])
  {
    hide Allowed, After, Started;
    RunKeeps(log, states, events, n);
    OtherRoomIsDone(states[n], r, earlier);
    hide Inv;
  }

  lemma {:induction false} OtherRoomIsDone(s: State, r: nat, earlier: nat)
    requires RoomsSound(s) && r in s.all && earlier in s.all && earlier != r && s.all[earlier].docId == s.all[r].docId
    requires var phase := s.all[r].phase; phase.Looking? || phase.Loading? || phase.Seeding? || phase.Live?
    ensures var room := s.all[earlier];
            && (room.phase.Missing? || room.phase.Settled? || room.phase.Destroyed?)
            && room.buffered == {} && room.captured == [] && !room.compacting
            && (!room.phase.Missing? ==> room.docId in s.log && room.doc <= s.log[room.docId])
  {
  }

  /** Once the broker has taken every command, the channels it delivers are the documents with
      an observed live room, none of the commands on the way there is idle, and at any moment a
      frame is handed to the live room or to none. */
  lemma {:induction false} SubscriptionsFollowRooms(
    log: map<DocId, Doc>, states: seq<State>, events: seq<Event>, n: nat, docId: DocId, frame: Frame, self: nat)
    requires IsRun(log, states, events) && n <= |events|
    ensures var s := states[n];
            docId in Drained(s.bus.subscribed, s.bus.queue) <==>
              exists r :: r in s.all && s.all[r].docId == docId && s.all[r].phase.Live? && s.all[r].observed
    ensures EveryCommandCounts(states[n].bus.subscribed, states[n].bus.queue)
    ensures forall r | r in Receiver(states[n].bus, self, frame) ::
      Current(states[n], frame.docId, r) && r in states[n].all && states[n].all[r].phase.Live?
  {
    hide Allowed, After, Started;
    RunKeeps(log, states, events, n);
    SubscriptionMeansRoom(states[n], docId);
    assert EveryCommandCounts(states[n].bus.subscribed, states[n].bus.queue);
    FrameKeeps(states[n], frame, self);
    hide Inv;
  }

  lemma {:induction false} SubscriptionMeansRoom(s: State, docId: DocId)
    requires RoomsSound(s) && MapsSound(s) && BusInv(s.bus)
    ensures docId in Drained(s.bus.subscribed, s.bus.queue) <==>
      exists r :: r in s.all && s.all[r].docId == docId && s.all[r].phase.Live? && s.all[r].observed
  {
    if docId in s.bus.handlers {
      HandlerIsLive(s, docId);
    }
  }

  /** From the moment a room is evicted nothing reaches its buffer: all it ever observed is in the
      log or in the batches its final write waits for. */
  lemma {:induction false} FinalFlushIsComplete(log: map<DocId, Doc>, states: seq<State>, events: seq<Event>, n: nat,
      r: nat)
    requires IsRun(log, states, events) && n <= |events| && r in states[n].all && Evicted(states[n].all[r].phase)
    ensures var s := states[n];
            var room := s.all[r];
            room.buffered == {} && room.docId in s.log && room.doc <= s.log[room.docId] + Union(room.captured)
  {
    hide Allowed, After, Started;
    RunKeeps(log, states, events, n);
    EvictedIsCaptured(states[n], r);
    hide Inv;
  }

  lemma {:induction false} EvictedIsCaptured(s: State, r: nat)
    requires RoomsSound(s) && r in s.all && Evicted(s.all[r].phase)
    ensures var room := s.all[r];
            room.buffered == {} && room.docId in s.log && room.doc <= s.log[room.docId] + Union(room.captured)
  {
    hide OpenSound;
    assert {} + Union(s.all[r].captured) == Union(s.all[r].captured);
  }

  /** However often a document is opened and closed, its file content is inserted at most once, and
      never over something the store already held. */
  lemma {:induction false} SeededAtMostOnce(log: map<DocId, Doc>, states: seq<State>, events: seq<Event>, n: nat,
      docId: DocId)
    requires IsRun(log, states, events) && n <= |events|
    ensures states[n].seeds[docId] <= 1
    ensures docId in log ==> docId in states[n].log && states[n].seeds[docId] == 0
  {
    hide Inv, Allowed, After, Started;
    RunKeeps(log, states, events, n);
    CountsOfInv(states[n], docId);
    if n > 0 {
      SeededAtMostOnce(log, states, events, n - 1, docId);
      assert Allowed(states[n - 1], events[n - 1]) && states[n - 1 + 1] == After(states[n - 1], events[n - 1]);
      if docId in log { StoredStays(states[n - 1], events[n - 1], docId); }
    } else {
      assert states[0] == Started(log);
      StartIsUnseeded(log, docId);
    }
  }

  lemma {:induction false} StartIsUnseeded(log: map<DocId, Doc>, docId: DocId)
    ensures Started(log).log == log && Started(log).seeds[docId] == 0
  {
  }

  lemma {:induction false} CountsOfInv(s: State, docId: DocId)
    requires Inv(s)
    ensures s.seeds[docId] <= 1
  {
    hide RoomsSound, ConnsSound, MapsSound, BusInv;
  }

  /** What the store holds, and how often content was inserted. */
  ghost predicate SameStore(s: State, t: State) {
    t.log == s.log && t.seeds == s.seeds
  }

  lemma {:induction false} ConnEventsKeepStore(s: State, e: Event)
    requires Allowed(s, e) && (e.JoinStart? || e.JoinResume? || e.AttachObservers? || e.LeaveStart? || e.LeaveResume?)
    ensures SameStore(s, After(s, e))
  {
    hide AfterUnsubscribe, AfterSubscribe, Captured, RoomOf;
  }

  lemma {:induction false} UpdatesKeepStore(s: State, e: Event)
    requires Allowed(s, e) && (e.Edit? || e.BusFrame?)
    ensures SameStore(s, After(s, e))
  {
    hide Receiver;
  }

  lemma {:induction false} StoredStays(s: State, e: Event, docId: DocId)
    requires Allowed(s, e) && docId in s.log
    ensures docId in After(s, e).log && After(s, e).seeds[docId] == s.seeds[docId]
  {
    hide AfterJoinStart, AfterJoinResume, AfterAttach, AfterLeaveStart, AfterLeaveResume, AfterUpdate, AfterFrame,
         BrokerStep, Captured;
    if e.JoinStart? || e.JoinResume? || e.AttachObservers? || e.LeaveStart? || e.LeaveResume? {
      ConnEventsKeepStore(s, e);
    } else if e.Edit? || e.BusFrame? {
      UpdatesKeepStore(s, e);
    }
  }

  // ── Rows come from edits ───────────────────────────────────────────────────

  /** No room of the document has anything to write. */
  ghost predicate Idle(s: State, docId: DocId) {
    forall r | r in s.all && s.all[r].docId == docId :: Unwritten(s.all[r]) == {}
  }

  /** An edit of the document, or a frame for it from another instance. */
  predicate Touches(s: State, e: Event, docId: DocId) {
    || (e.Edit? && e.conn in s.conns && s.conns[e.conn].docId == docId)
    || (e.BusFrame? && e.frame.docId == docId)
  }

  /** Nothing is added to what rooms have to write, and no row to the log. */
  ghost predicate AddsNothing(s: State, t: State) {
    && t.rows == s.rows
    && forall r | r in t.all ::
         || (r in s.all && t.all[r].docId == s.all[r].docId && Unwritten(t.all[r]) == Unwritten(s.all[r]))
         || Unwritten(t.all[r]) == {}
  }

  lemma {:induction false} AddingNothingStaysIdle(s: State, t: State, docId: DocId)
    requires Idle(s, docId) && AddsNothing(s, t)
    ensures Idle(t, docId) && t.rows[docId] == s.rows[docId]
  {
    hide Unwritten;
  }

  lemma {:induction false} RoomAddsNothing(s: State, r: nat, room: Room)
    requires r in s.all && room.docId == s.all[r].docId && Unwritten(room) == Unwritten(s.all[r])
    ensures AddsNothing(s, PutRoom(s, r, room))
  {
    hide Unwritten;
  }

  lemma {:induction false} JoinStartAddsNothing(s: State, c: nat, docId: DocId)
    ensures AddsNothing(s, AfterJoinStart(s, c, docId))
  {
    assert Union([]) == {};
    hide Union;
  }

  lemma {:induction false} JoinResumeAddsNothing(s: State, c: nat)
    requires Allowed(s, JoinResume(c))
    ensures AddsNothing(s, AfterJoinResume(s, c))
  {
    JoinStartAddsNothing(s, c, s.conns[c].docId);
    hide AfterJoinStart, Union;
  }

  lemma {:induction false} AttachAddsNothing(s: State, c: nat)
    requires Allowed(s, AttachObservers(c))
    ensures AddsNothing(s, AfterAttach(s, c))
  {
    hide AfterSubscribe, Union;
  }

  lemma {:induction false} EvictAddsNothing(s: State, c: nat, docId: DocId, r: nat)
    requires r in s.all
    ensures AddsNothing(s, AfterEvict(s, c, docId, r))
  {
    CapturedKeepsUnwritten(s.all[r]);
    hide AfterUnsubscribe, Union;
  }

  lemma {:induction false} DepartAddsNothing(s: State, c: nat, docId: DocId, r: nat)
    requires r in s.all
    ensures AddsNothing(s, AfterDepart(s, c, docId, r))
  {
    hide Union;
  }

  lemma {:induction false} LeaveAddsNothing(s: State, c: nat)
    requires Allowed(s, LeaveResume(c))
    ensures AddsNothing(s, AfterLeaveResume(s, c))
  {
    var docId, r := s.conns[c].docId, RoomOf(s, c);
    EvictAddsNothing(s, c, docId, r);
    DepartAddsNothing(s, c, docId, r);
    ConnsAddNothing(s, PutConn(s, c, docId, Gone));
    hide AfterEvict, AfterDepart, AddsNothing;
  }

  lemma {:induction false} LoadAddsNothing(s: State, r: nat, content: Doc)
    requires r in s.all
    ensures AddsNothing(s, AfterLoad(s, r, content)) && AddsNothing(s, AfterSeed(s, r))
  {
    hide Union;
  }

  lemma {:induction false} OtherUpdateStaysIdle(s: State, r: nat, ops: Doc, docId: DocId)
    requires Idle(s, docId) && r in s.all && s.all[r].docId != docId
    ensures Idle(AfterUpdate(s, r, ops), docId) && AfterUpdate(s, r, ops).rows == s.rows
  {
    hide Unwritten;
  }

  lemma {:induction false} ConnRoomIsOfItsDocument(s: State, c: nat)
    requires Inv(s) && c in s.conns && !s.conns[c].place.Gone?
    ensures s.conns[c].place.room in s.all && s.all[s.conns[c].place.room].docId == s.conns[c].docId
  {
    hide RoomsSound, MapsSound, CountsSound, BusInv;
  }

  lemma {:induction false} AppendStaysIdle(s: State, r: nat, docId: DocId)
    requires Idle(s, docId) && Allowed(s, Append(r))
    ensures Idle(AfterAppend(s, r), docId) && AfterAppend(s, r).rows[docId] == s.rows[docId]
  {
    HeadBatch(s.all[r].captured);
    hide Union;
  }

  lemma {:induction false} UpdateStaysIdle(s: State, e: Event, docId: DocId)
    requires Inv(s) && Allowed(s, e) && (e.Edit? || e.BusFrame?) && Idle(s, docId) && !Touches(s, e, docId)
    ensures Idle(After(s, e), docId) && After(s, e).rows[docId] == s.rows[docId]
  {
    if e.Edit? {
      ConnRoomIsOfItsDocument(s, e.conn);
      hide Inv, Unwritten;
      OtherUpdateStaysIdle(s, RoomOf(s, e.conn), e.ops, docId);
    } else if Receiver(s.bus, e.self, e.frame) != {} {
      HandlerIsLive(s, e.frame.docId);
      hide Inv, Unwritten;
      OtherUpdateStaysIdle(s, s.bus.handlers[e.frame.docId], e.frame.payload, docId);
    }
  }

  lemma {:induction false} EventStaysIdle(s: State, e: Event, docId: DocId)
    requires Inv(s) && Allowed(s, e) && Idle(s, docId) && !Touches(s, e, docId)
    ensures Idle(After(s, e), docId) && After(s, e).rows[docId] == s.rows[docId]
  {
    if e.Edit? || e.BusFrame? {
      UpdateStaysIdle(s, e, docId);
    } else if e.Append? {
      AppendStaysIdle(s, e.room, docId);
    } else {
      OtherEventAddsNothing(s, e);
      AddingNothingStaysIdle(s, After(s, e), docId);
    }
    hide Inv, Idle, Touches, AddsNothing, AfterJoinStart, AfterJoinResume, AfterAttach, AfterLeaveStart,
         AfterLeaveResume, AfterWriteSettles, AfterDestroy, AfterLoad, AfterSeed, AfterUpdate, AfterFrame, AfterAppend;
  }

  lemma {:induction false} OtherEventAddsNothing(s: State, e: Event)
    requires Allowed(s, e) && !e.Edit? && !e.BusFrame? && !e.Append?
    ensures AddsNothing(s, After(s, e))
  {
    hide AfterJoinStart, AfterJoinResume, AfterAttach, AfterLeaveResume, AfterLoad, AfterSeed, BrokerStep, Union,
         AddsNothing;
    match e
    case JoinStart(c, docId) => JoinStartAddsNothing(s, c, docId);
    case JoinResume(c) => JoinResumeAddsNothing(s, c);
    case AttachObservers(c) => AttachAddsNothing(s, c);
    case LeaveStart(c) => ConnsAddNothing(s, After(s, e));
    case LeaveResume(c) => LeaveAddsNothing(s, c);
    case WriteSettles(c) =>
      RoomAddsNothing(s, RoomOf(s, c), s.all[RoomOf(s, c)].(phase := Settled));
      ConnsAddNothing(PutRoom(s, RoomOf(s, c), s.all[RoomOf(s, c)].(phase := Settled)), After(s, e));
      AddsNothingTwice(s, PutRoom(s, RoomOf(s, c), s.all[RoomOf(s, c)].(phase := Settled)), After(s, e));
    case Destroy(c) =>
      RoomAddsNothing(s, RoomOf(s, c), s.all[RoomOf(s, c)].(phase := Destroyed));
      ConnsAddNothing(PutRoom(s, RoomOf(s, c), s.all[RoomOf(s, c)].(phase := Destroyed)), After(s, e));
      AddsNothingTwice(s, PutRoom(s, RoomOf(s, c), s.all[RoomOf(s, c)].(phase := Destroyed)), After(s, e));
    case WaitOver(r) => RoomAddsNothing(s, r, s.all[r].(phase := Looking));
    case FileFound(r, isFile) => RoomAddsNothing(s, r, s.all[r].(phase := if isFile then Loading else Missing));
    case LoadDone(r, content) => LoadAddsNothing(s, r, content);
    case SeedDone(r) => LoadAddsNothing(s, r, {});
    case Capture(r) => CapturedKeepsUnwritten(s.all[r]); RoomAddsNothing(s, r, Captured(s.all[r]));
    case CompactEnd(r) => RoomAddsNothing(s, r, s.all[r].(compacting := false));
    case Broker => ConnsAddNothing(s, After(s, e));
  }

  lemma {:induction false} ConnsAddNothing(s: State, t: State)
    requires t.all == s.all && t.rows == s.rows
    ensures AddsNothing(s, t)
  {
  }

  lemma {:induction false} AddsNothingTwice(s: State, t: State, u: State)
    requires AddsNothing(s, t) && u.all == t.all && u.rows == t.rows
    ensures AddsNothing(s, u)
  {
    hide Unwritten;
  }

  /** Reopening without edits adds no row: over any stretch of a run that begins with nothing left
      to write for a document, and in which no edit of it and no frame for it arrives, the log of
      that document gets no row, whatever joins, leaves, evictions, loads and flushes happen. */
  lemma {:induction false} ReopeningAddsNoRow(
    log: map<DocId, Doc>, states: seq<State>, events: seq<Event>, m: nat, n: nat, docId: DocId)
    requires IsRun(log, states, events) && m <= n <= |events| && Idle(states[m], docId)
    requires forall i | m <= i < n :: !Touches(states[i], events[i], docId)
    ensures states[n].rows[docId] == states[m].rows[docId] && Idle(states[n], docId)
    decreases n
  {
    hide Inv, Allowed, After, Started, Idle, Touches;
    if m < n {
      ReopeningAddsNoRow(log, states, events, m, n - 1, docId);
      RunKeeps(log, states, events, n - 1);
      assert Allowed(states[n - 1], events[n - 1]) && states[n - 1 + 1] == After(states[n - 1], events[n - 1]);
      EventStaysIdle(states[n - 1], events[n - 1], docId);
    }
  }

  lemma {:induction false} LeaverOwnsRoom(s: State, c: nat)
    requires Inv(s) && Allowed(s, Event.LeaveResume(c))
    ensures c in s.conns && s.conns[c].place.Leaving?
    ensures var Conn(docId, place) := s.conns[c];
            && place.room in s.all && s.all[place.room].phase.Live? && Current(s, docId, place.room)
            && AfterUnsubscribe(s.bus, docId).handlers == s.bus.handlers - {docId}
  {
    hide MapsSound, CountsSound, AfterUnsubscribe;
    LeaverIsMember(s, c, s.conns[c].docId, s.conns[c].place.room);
    LiveHasNoWrite(s, s.conns[c].place.room);
    UnsubscribeKeeps(s.bus, s.conns[c].docId);
  }

  // ── The registry ───────────────────────────────────────────────────────────

  /** The module-level maps and the rooms they lead to, updated in place. Each method runs to
      its next await without interruption; the store's side of the state is history here. */
  class Registry {
    var rooms: map<DocId, nat>
    var pendingWrites: map<DocId, nat>
    var bus: Bus
    var all: map<nat, Room>
    var nextRoom: nat
    var conns: map<nat, Conn>
    ghost var log: map<DocId, Doc>
    ghost var seeds: multiset<DocId>
    ghost var rows: multiset<DocId>

    ghost function Now(): State
      reads this
    {
      State(rooms, pendingWrites, bus, all, nextRoom, conns, log, seeds, rows)
    }

    constructor (ghost stored: map<DocId, Doc>)
      ensures Now() == Started(stored) && Inv(Now())
    {
      rooms, pendingWrites, bus, all, nextRoom, conns := map[], map[], Closed, map[], 0, map[];
      log, seeds, rows := stored, multiset{}, multiset{};
      new;
      StartKeeps(stored);
    }

    method JoinStart(c: nat, docId: DocId)
      requires Inv(Now()) && (c in conns ==> conns[c].place.Joining?)
      modifies this
      ensures Now() == AfterJoinStart(old(Now()), c, docId) && Inv(Now())
    {
      hide Inv;
      JoinStartKeeps(Now(), c, docId);
      if docId in rooms {
        conns := conns[c := Conn(docId, Joining(rooms[docId]))];
        return;
      }
      var phase := if docId in pendingWrites then Waiting(pendingWrites[docId]) else Looking;
      all := all[nextRoom := Room(docId, phase, {}, false, {}, {}, [], false, 0)];
      conns := conns[c := Conn(docId, Joining(nextRoom))];
      rooms := rooms[docId := nextRoom];
      nextRoom := nextRoom + 1;
    }

    method JoinResume(c: nat) returns (joined: bool)
      requires Inv(Now()) && Allowed(Now(), Event.JoinResume(c))
      modifies this
      ensures Now() == AfterJoinResume(old(Now()), c) && Inv(Now())
      ensures joined ==> c in conns && conns[c].place.Joined? && Current(Now(), conns[c].docId, conns[c].place.room)
    {
      hide Inv, AfterJoinStart;
      JoinResumeKeeps(Now(), c);
      var Conn(docId, place) := conns[c];
      var pending := place.room;
      var current := docId in rooms && rooms[docId] == pending;
      joined := false;
      if all[pending].phase.Missing? {
        if current {
          rooms := rooms - {docId};
        }
        conns := conns[c := Conn(docId, Gone)];
      } else if !current {
        // Evicted while we waited: start over.
        JoinStart(c, docId);
      } else {
        all := all[pending := all[pending].(conns := all[pending].conns + {c})];
        conns := conns[c := Conn(docId, Joined(pending))];
        joined := true;
      }
    }

    method AttachRoomObservers(c: nat)
      requires Inv(Now()) && Allowed(Now(), AttachObservers(c))
      modifies this
      ensures Now() == AfterAttach(old(Now()), c) && Inv(Now())
      ensures c in conns && conns[c].place.Attached? && conns[c].place.room in all && all[conns[c].place.room].observed
    {
      hide Inv;
      AttachKeeps(Now(), c);
      var Conn(docId, place) := conns[c];
      conns := conns[c := Conn(docId, Attached(place.room))];
      if all[place.room].observed {
        return;
      }
      all := all[place.room := all[place.room].(observed := true)];
      bus := AfterSubscribe(bus, all[place.room].docId, place.room);
    }

    /** `leaveRoom` up to its await. */
    method LeaveStart(c: nat)
      requires Inv(Now()) && Allowed(Now(), Event.LeaveStart(c))
      modifies this
      ensures Now() == AfterLeaveStart(old(Now()), c) && Inv(Now())
    {
      hide Inv;
      LeaveStartKeeps(Now(), c);
      var docId := conns[c].docId;
      if docId !in rooms {
        conns := conns[c := Conn(docId, Gone)];
        return;
      }
      conns := conns[c := Conn(docId, Leaving(rooms[docId]))];
    }

    /** The final write is over: forget it, unless a later write of the document took its place. */
    method WriteSettles(c: nat)
      requires Inv(Now()) && Allowed(Now(), Event.WriteSettles(c))
      modifies this
      ensures Now() == AfterWriteSettles(old(Now()), c) && Inv(Now())
    {
      hide Inv;
      WriteSettlesKeeps(Now(), c);
      var Conn(docId, place) := conns[c];
      all := all[place.room := all[place.room].(phase := Settled)];
      if docId in pendingWrites && pendingWrites[docId] == c {
        pendingWrites := pendingWrites - {docId};
      }
    }

    /** From the await of the room to the await of its final write, if it was the last one. */
    method LeaveResume(c: nat) returns (evicted: bool)
      requires Inv(Now()) && Allowed(Now(), Event.LeaveResume(c))
      modifies this
      ensures Now() == AfterLeaveResume(old(Now()), c) && Inv(Now())
      ensures evicted ==>
        && c in conns && conns[c].docId in pendingWrites && pendingWrites[conns[c].docId] == c
        && conns[c].docId !in rooms && conns[c].docId !in bus.handlers
    {
      hide Inv, Allowed, AfterUnsubscribe, Current;
      LeaverOwnsRoom(Now(), c);
      LeaveResumeKeeps(Now(), c);
      var Conn(docId, place) := conns[c];
      evicted := false;
      var room := all[place.room].(conns := all[place.room].conns - {c});
      if room.conns != {} {
        all := all[place.room := room];
        conns := conns[c := Conn(docId, Gone)];
        return;
      }
      room := room.(buffered := {}, captured := room.captured + [room.buffered]);
      room := room.(phase := Flushing, evictions := room.evictions + 1);
      rooms, bus := rooms - {docId}, AfterUnsubscribe(bus, docId);
      all, conns := all[place.room := room], conns[c := Conn(docId, Evicting(place.room))];
      pendingWrites := pendingWrites[docId := c];
      evicted := true;
    }
  }
}
