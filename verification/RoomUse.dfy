/** Why a room is open: for a file that was found, and for connections that still use it; and what the
    counters of the store count. */
module RoomUse {
  import opened Yjs
  import opened DocStore
  import opened DocBus
  import opened Rooms
  import opened RoomSteps
  import opened RoomRegistry

  // ── What one event does to a room's phase and to the counters ──────────────

  /** Where a phase, and the store's counters, can come from. */
  ghost predicate Follows(s: State, t: State, e: Event, r: nat) {
    && (r in s.all ==> r in t.all && t.all[r].docId == s.all[r].docId)
    && (r in t.all ==>
          var room := t.all[r];
          if r !in s.all then (room.phase.Waiting? || room.phase.Looking?) && !room.compacting
          else
            && (room.phase.Loading? ==> s.all[r].phase.Loading? || e == FileFound(r, true))
            && (room.phase.Missing? ==> s.all[r].phase.Missing? || e == FileFound(r, false))
            && (Filled(room.phase) ==> Filled(s.all[r].phase) || s.all[r].phase.Loading?)
            && room.compacting == if Appends(s, e, r) then true else s.all[r].compacting && e != CompactEnd(r))
  }

  /** The event appends a row for this room. */
  predicate Appends(s: State, e: Event, r: nat) {
    e == Append(r) && r in s.all && s.all[r].captured != [] && s.all[r].captured[0] != {}
  }

  lemma {:induction false} PutFollows(s: State, t: State, e: Event, q: nat, room: Room, r: nat)
    requires q in s.all && t.all == s.all[q := room] && room.docId == s.all[q].docId
    requires room.phase.Loading? ==> s.all[q].phase.Loading? || e == FileFound(q, true)
    requires room.phase.Missing? ==> s.all[q].phase.Missing? || e == FileFound(q, false)
    requires Filled(room.phase) ==> Filled(s.all[q].phase) || s.all[q].phase.Loading?
    requires room.compacting == if Appends(s, e, q) then true else s.all[q].compacting && e != CompactEnd(q)
    requires (e.Append? || e.CompactEnd?) ==> e.room == q
    ensures Follows(s, t, e, r)
  {
  }

  lemma {:induction false} SameAllFollows(s: State, t: State, e: Event, r: nat)
    requires t.all == s.all && !e.Append? && !e.CompactEnd?
    ensures Follows(s, t, e, r)
  {
  }

  lemma {:induction false} NewFollows(s: State, t: State, e: Event, q: nat, room: Room, r: nat)
    requires q !in s.all && t.all == s.all[q := room] && (room.phase.Waiting? || room.phase.Looking?)
    requires !room.compacting && !e.Append? && !e.CompactEnd?
    ensures Follows(s, t, e, r)
  {
  }

  lemma {:induction false} JoinStartFollows(s: State, c: nat, docId: DocId, e: Event, r: nat)
    requires s.nextRoom !in s.all && !e.Append? && !e.CompactEnd?
    ensures Follows(s, AfterJoinStart(s, c, docId), e, r)
  {
    hide Follows;
    var t := AfterJoinStart(s, c, docId);
    if docId in s.rooms {
      SameAllFollows(s, t, e, r);
    } else {
      NewFollows(s, t, e, s.nextRoom, t.all[s.nextRoom], r);
    }
  }

  lemma {:induction false} JoinResumeFollows(s: State, c: nat, r: nat)
    requires s.nextRoom !in s.all && Allowed(s, JoinResume(c))
    ensures Follows(s, AfterJoinResume(s, c), JoinResume(c), r)
  {
    var t, docId, q := AfterJoinResume(s, c), s.conns[c].docId, s.conns[c].place.room;
    JoinStartFollows(s, c, docId, JoinResume(c), r);
    hide AfterJoinStart, Follows;
    if s.all[q].phase.Missing? {
      SameAllFollows(s, t, JoinResume(c), r);
    } else if Current(s, docId, q) {
      PutFollows(s, t, JoinResume(c), q, t.all[q], r);
    }
  }

  lemma {:induction false} EvictFollows(s: State, c: nat, docId: DocId, q: nat, e: Event, r: nat)
    requires q in s.all && s.all[q].phase.Live? && !e.Append? && !e.CompactEnd?
    ensures Follows(s, AfterEvict(s, c, docId, q), e, r)
  {
    var t := AfterEvict(s, c, docId, q);
    hide AfterUnsubscribe, Follows;
    PutFollows(s, t, e, q, t.all[q], r);
  }

  lemma {:induction false} LeaveFollows(s: State, c: nat, r: nat)
    requires Inv(s) && Allowed(s, Event.LeaveResume(c))
    ensures Follows(s, AfterLeaveResume(s, c), Event.LeaveResume(c), r)
  {
    LeaverOwnsRoom(s, c);
    var docId, q := s.conns[c].docId, s.conns[c].place.room;
    hide Inv, Follows, AfterEvict;
    EvictFollows(s, c, docId, q, Event.LeaveResume(c), r);
    if s.all[q].conns - {c} != {} {
      var t := AfterDepart(s, c, docId, q);
      PutFollows(s, t, Event.LeaveResume(c), q, t.all[q], r);
    }
  }

  lemma {:induction false} RoomEventFollows(s: State, e: Event, r: nat)
    requires Allowed(s, e)
    requires e.WriteSettles? || e.Destroy? || e.WaitOver? || e.FileFound? || e.Capture? || e.CompactEnd?
    ensures Follows(s, After(s, e), e, r)
  {
    var t := After(s, e);
    var q := if e.WriteSettles? || e.Destroy? then RoomOf(s, e.conn) else e.room;
    hide Follows;
    PutFollows(s, t, e, q, t.all[q], r);
  }

  /** An answer of the store changes the room that waited for it and no other. */
  ghost predicate Answers(s: State, t: State, e: Event) {
    && (e.LoadDone? || e.SeedDone? || e.Append?) && e.room in s.all && e.room in t.all
    && t.all == s.all[e.room := t.all[e.room]]
    && var before, room := s.all[e.room], t.all[e.room];
    && room.docId == before.docId && room.conns == before.conns && room.observed == before.observed
    && (if e.Append? then room.phase == before.phase else Opening(before.phase) && Filled(room.phase))
    && (if Appends(s, e, e.room) then room.compacting else room.compacting == before.compacting)
    && (!e.LoadDone? ==> room.doc == before.doc)
  }

  lemma {:induction false} LoadAnswers(s: State, r: nat, content: Doc)
    requires Allowed(s, LoadDone(r, content))
    ensures Answers(s, AfterLoad(s, r, content), LoadDone(r, content))
  {
  }

  lemma {:induction false} SeedAnswers(s: State, r: nat)
    requires Allowed(s, SeedDone(r))
    ensures Answers(s, AfterSeed(s, r), SeedDone(r))
  {
  }

  lemma {:induction false} AppendAnswers(s: State, r: nat)
    requires Allowed(s, Append(r))
    ensures Answers(s, AfterAppend(s, r), Append(r))
  {
  }

  lemma {:induction false} StoreAnswers(s: State, e: Event)
    requires Allowed(s, e) && (e.LoadDone? || e.SeedDone? || e.Append?)
    ensures Answers(s, After(s, e), e)
  {
    hide Answers, AfterLoad, AfterSeed, AfterAppend;
    match e
    case LoadDone(r, content) => LoadAnswers(s, r, content);
    case SeedDone(r) => SeedAnswers(s, r);
    case Append(r) => AppendAnswers(s, r);
  }

  lemma {:induction false} StoreEventFollows(s: State, e: Event, r: nat)
    requires Allowed(s, e) && (e.LoadDone? || e.SeedDone? || e.Append?)
    ensures Follows(s, After(s, e), e, r)
  {
    StoreAnswers(s, e);
    hide Follows, After;
    PutFollows(s, After(s, e), e, e.room, After(s, e).all[e.room], r);
  }

  lemma {:induction false} UpdateFollows(s: State, q: nat, ops: Doc, e: Event, r: nat)
    requires q in s.all && !e.Append? && !e.CompactEnd?
    ensures Follows(s, AfterUpdate(s, q, ops), e, r)
  {
    var t := AfterUpdate(s, q, ops);
    hide Follows;
    PutFollows(s, t, e, q, t.all[q], r);
  }

  lemma {:induction false} LeaveStartFollows(s: State, c: nat, r: nat)
    requires c in s.conns
    ensures Follows(s, AfterLeaveStart(s, c), LeaveStart(c), r)
  {
    hide Follows;
    SameAllFollows(s, AfterLeaveStart(s, c), LeaveStart(c), r);
  }

  lemma {:induction false} AttachFollows(s: State, c: nat, r: nat)
    requires Allowed(s, AttachObservers(c))
    ensures Follows(s, AfterAttach(s, c), AttachObservers(c), r)
  {
    var t, q := AfterAttach(s, c), s.conns[c].place.room;
    hide AfterSubscribe, Follows;
    PutFollows(s, t, AttachObservers(c), q, t.all[q], r);
  }

  lemma {:induction false} FrameFollows(s: State, frame: Frame, self: nat, r: nat)
    ensures Follows(s, AfterFrame(s, frame, self), BusFrame(frame, self), r)
  {
    hide Follows, AfterUpdate;
    SameAllFollows(s, s, BusFrame(frame, self), r);
    if frame.docId in s.bus.handlers && s.bus.handlers[frame.docId] in s.all {
      UpdateFollows(s, s.bus.handlers[frame.docId], frame.payload, BusFrame(frame, self), r);
    }
  }

  lemma {:induction false} EventFollows(s: State, e: Event, r: nat)
    requires Inv(s) && Allowed(s, e)
    ensures Follows(s, After(s, e), e, r)
  {
    NextRoomIsFresh(s);
    hide Inv, Follows, AfterJoinStart, AfterJoinResume, AfterAttach, AfterLeaveStart, AfterLeaveResume, AfterFrame,
         AfterUpdate, AfterLoad, AfterSeed, AfterAppend, AfterWriteSettles, AfterDestroy, BrokerStep, Captured;
    match e
    case JoinStart(c, docId) => JoinStartFollows(s, c, docId, e, r);
    case JoinResume(c) => JoinResumeFollows(s, c, r);
    case AttachObservers(c) => AttachFollows(s, c, r);
    case LeaveStart(c) => LeaveStartFollows(s, c, r);
    case LeaveResume(c) => LeaveFollows(s, c, r);
    case Edit(c, ops) => UpdateFollows(s, RoomOf(s, c), ops, e, r);
    case BusFrame(frame, self) => FrameFollows(s, frame, self, r);
    case LoadDone(_, _) => StoreEventFollows(s, e, r);
    case SeedDone(_) => StoreEventFollows(s, e, r);
    case Append(_) => StoreEventFollows(s, e, r);
    case Broker => SameAllFollows(s, After(s, e), e, r);
    case _ => RoomEventFollows(s, e, r);
  }

  // ── Files ──────────────────────────────────────────────────────────────────

  ghost predicate WasFound(events: seq<Event>, n: nat, r: nat, isFile: bool)
    requires n <= |events|
  {
    exists i :: 0 <= i < n && events[i] == FileFound(r, isFile)
  }

  /** Nothing is loaded, and no room goes live, for anything but a file that was found; and a promise
      resolves to no room only for what was found not to be one. */
  lemma {:induction false} OnlyFilesAreOpened(
    log: map<DocId, Doc>, states: seq<State>, events: seq<Event>, n: nat, r: nat)
    requires IsRun(log, states, events) && n <= |events| && r in states[n].all
    ensures var phase := states[n].all[r].phase;
            && (phase.Loading? || Filled(phase) ==> WasFound(events, n, r, true))
            && (phase.Missing? ==> WasFound(events, n, r, false))
  {
    hide Inv, Allowed, After, Started, WasFound;
    if n > 0 {
      RunKeeps(log, states, events, n - 1);
      assert Allowed(states[n - 1], events[n - 1]) && states[n - 1 + 1] == After(states[n - 1], events[n - 1]);
      EventFollows(states[n - 1], events[n - 1], r);
      if r in states[n - 1].all { OnlyFilesAreOpened(log, states, events, n - 1, r); }
      FoundStays(events, n, r);
    } else {
      assert Started(log).all == map[] by { StartsEmpty(log); }
    }
  }

  lemma {:induction false} StartsEmpty(log: map<DocId, Doc>)
    ensures Started(log).all == map[] && Started(log).rows == Started(log).seeds == multiset{}
  {
  }

  lemma {:induction false} FoundStays(events: seq<Event>, n: nat, r: nat)
    requires 0 < n <= |events|
    ensures forall isFile ::
      WasFound(events, n - 1, r, isFile) || events[n - 1] == FileFound(r, isFile) ==> WasFound(events, n, r, isFile)
  {
  }

  // ── Joining ────────────────────────────────────────────────────────────────

  /** What a join comes to once the promise has resolved: a live room takes the connection; a room evicted
      meanwhile sends it to the current promise, which is not that of an evicted room; and a missing file
      ends it, without leaving a promise behind that would keep the miss. */
  lemma {:induction false} JoinOutcome(
    log: map<DocId, Doc>, states: seq<State>, events: seq<Event>, n: nat, c: nat)
    requires IsRun(log, states, events) && n < |events| && events[n] == JoinResume(c)
    ensures c in states[n].conns && states[n].conns[c].place.Joining? && c in states[n + 1].conns
    ensures var s, t := states[n], states[n + 1];
            var docId, r := s.conns[c].docId, s.conns[c].place.room;
            && r in s.all
            && (s.all[r].phase.Live? ==> t.conns[c] == Conn(docId, Joined(r)) && t.rooms == s.rooms)
            && (s.all[r].phase.Missing? ==> t.conns[c] == Conn(docId, Gone) && !Current(t, docId, r))
            && (Evicted(s.all[r].phase) ==>
                  && docId in t.rooms && t.conns[c] == Conn(docId, Joining(t.rooms[docId]))
                  && t.rooms[docId] in t.all && !Evicted(t.all[t.rooms[docId]].phase))
  {
    hide Inv, After;
    assert Allowed(states[n], events[n]) && states[n + 1] == After(states[n], events[n]);
    RunKeeps(log, states, events, n);
    RunKeeps(log, states, events, n + 1);
    JoinResumes(states[n], c);
    var docId := states[n].conns[c].docId;
    if docId in states[n + 1].rooms { MappedIsNotEvicted(states[n + 1], docId); }
  }

  lemma {:induction false} MappedIsNotEvicted(s: State, docId: DocId)
    requires Inv(s) && docId in s.rooms
    ensures s.rooms[docId] in s.all && !Evicted(s.all[s.rooms[docId]].phase)
  {
    hide RoomsSound, ConnsSound, CountsSound, BusInv;
  }

  lemma {:induction false} JoinResumes(s: State, c: nat)
    requires Inv(s) && Allowed(s, JoinResume(c))
    ensures var t, docId, r := After(s, JoinResume(c)), s.conns[c].docId, s.conns[c].place.room;
            && c in t.conns
            && (s.all[r].phase.Live? ==> t.conns[c] == Conn(docId, Joined(r)) && t.rooms == s.rooms)
            && (s.all[r].phase.Missing? ==> t.conns[c] == Conn(docId, Gone) && !Current(t, docId, r))
            && (Evicted(s.all[r].phase) ==>
                  docId in t.rooms && t.conns[c] == Conn(docId, Joining(t.rooms[docId])))
  {
    var docId, r := s.conns[c].docId, s.conns[c].place.room;
    if docId in s.rooms { MappedIsNotEvicted(s, docId); }
    if s.all[r].phase.Live? { JoinerIsOfTheDocument(s, c); LiveHasNoWrite(s, r); }
    hide Inv;
  }

  lemma {:induction false} JoinerIsOfTheDocument(s: State, c: nat)
    requires Inv(s) && c in s.conns && s.conns[c].place.Joining?
    ensures s.conns[c].place.room in s.all && s.all[s.conns[c].place.room].docId == s.conns[c].docId
  {
    hide RoomsSound, MapsSound, CountsSound, BusInv;
  }

  // ── Use ────────────────────────────────────────────────────────────────────

  ghost predicate InUse(s: State, r: nat) {
    r in s.all && s.all[r].phase.Live? && s.all[r].observed ==> s.all[r].conns != {}
  }

  lemma {:induction false} PutInUse(s: State, t: State, q: nat, r: nat)
    requires InUse(s, r) && q in t.all && InUse(t, q) && t.all == s.all[q := t.all[q]]
    ensures InUse(t, r)
  {
  }

  lemma {:induction false} AttachInUse(s: State, c: nat, r: nat)
    requires Inv(s) && Allowed(s, AttachObservers(c)) && InUse(s, r)
    ensures InUse(AfterAttach(s, c), r)
  {
    var t, q := AfterAttach(s, c), s.conns[c].place.room;
    assert c in s.all[q].conns by { hide RoomsSound, MapsSound, CountsSound, BusInv; }
    hide Inv, AfterSubscribe;
    PutInUse(s, t, q, r);
  }

  lemma {:induction false} JoinStartInUse(s: State, c: nat, docId: DocId, r: nat)
    requires InUse(s, r)
    ensures InUse(AfterJoinStart(s, c, docId), r)
  {
  }

  lemma {:induction false} JoinResumeInUse(s: State, c: nat, r: nat)
    requires InUse(s, r) && Allowed(s, JoinResume(c))
    ensures InUse(AfterJoinResume(s, c), r)
  {
    var docId, q := s.conns[c].docId, s.conns[c].place.room;
    JoinStartInUse(s, c, docId, r);
    hide AfterJoinStart;
    var t := AfterJoinResume(s, c);
    if s.all[q].phase.Missing? {
      SameAllInUse(s, t, r);
    } else if Current(s, docId, q) {
      PutInUse(s, t, q, r);
    }
    hide InUse;
  }

  lemma {:induction false} LeaveInUse(s: State, c: nat, r: nat)
    requires Inv(s) && Allowed(s, Event.LeaveResume(c)) && InUse(s, r)
    ensures InUse(AfterLeaveResume(s, c), r)
  {
    LeaverOwnsRoom(s, c);
    hide Inv, AfterUnsubscribe;
    PutInUse(s, AfterLeaveResume(s, c), s.conns[c].place.room, r);
  }

  lemma {:induction false} StoreEventInUse(s: State, e: Event, r: nat)
    requires Inv(s) && Allowed(s, e) && (e.LoadDone? || e.SeedDone? || e.Append?) && InUse(s, r) && InUse(s, e.room)
    ensures InUse(After(s, e), r)
  {
    StoreAnswers(s, e);
    if Opening(s.all[e.room].phase) { OpeningIsNotObserved(s, e.room); }
    hide Inv, After, Allowed;
    PutInUse(s, After(s, e), e.room, r);
  }

  lemma {:induction false} OpeningIsNotObserved(s: State, r: nat)
    requires Inv(s) && r in s.all && Opening(s.all[r].phase)
    ensures !s.all[r].observed
  {
    hide EvictedSound, LogSound, ConnsSound, MapsSound, CountsSound, BusInv;
  }

  lemma {:induction false} UpdateInUse(s: State, q: nat, ops: Doc, r: nat)
    requires q in s.all && InUse(s, r)
    ensures InUse(AfterUpdate(s, q, ops), r)
  {
  }

  lemma {:induction false} FrameInUse(s: State, frame: Frame, self: nat, r: nat)
    requires InUse(s, r)
    ensures InUse(AfterFrame(s, frame, self), r)
  {
    if frame.docId in s.bus.handlers && s.bus.handlers[frame.docId] in s.all {
      UpdateInUse(s, s.bus.handlers[frame.docId], frame.payload, r);
    }
    hide AfterUpdate;
  }

  lemma {:induction false} RoomEventInUse(s: State, e: Event, r: nat)
    requires Allowed(s, e) && InUse(s, r)
    requires e.WriteSettles? || e.Destroy? || e.WaitOver? || e.FileFound? || e.Capture? || e.CompactEnd?
    ensures InUse(After(s, e), r)
  {
  }

  lemma {:induction false} EventInUse(s: State, e: Event, r: nat)
    requires Inv(s) && Allowed(s, e) && InUse(s, r)
    requires e.LoadDone? || e.SeedDone? || e.Append? ==> InUse(s, e.room)
    ensures InUse(After(s, e), r)
  {
    hide Inv, InUse, AfterJoinStart, AfterJoinResume, AfterAttach, AfterLeaveResume, AfterFrame, AfterUpdate,
         BrokerStep;
    match e
    case JoinStart(c, docId) => JoinStartInUse(s, c, docId, r);
    case JoinResume(c) => JoinResumeInUse(s, c, r);
    case AttachObservers(c) => AttachInUse(s, c, r);
    case LeaveStart(c) => SameAllInUse(s, After(s, e), r);
    case LeaveResume(c) => LeaveInUse(s, c, r);
    case Edit(c, ops) => UpdateInUse(s, RoomOf(s, c), ops, r);
    case BusFrame(frame, self) => FrameInUse(s, frame, self, r);
    case LoadDone(_, _) => StoreEventInUse(s, e, r);
    case SeedDone(_) => StoreEventInUse(s, e, r);
    case Append(_) => StoreEventInUse(s, e, r);
    case Broker => SameAllInUse(s, After(s, e), r);
    case _ => RoomEventInUse(s, e, r);
  }

  lemma {:induction false} SameAllInUse(s: State, t: State, r: nat)
    requires t.all == s.all && InUse(s, r)
    ensures InUse(t, r)
  {
  }

  /** A live room that is observed, and so subscribed, is in use: the last connection to leave closes it. */
  lemma {:induction false} ObservedRoomsAreInUse(
    log: map<DocId, Doc>, states: seq<State>, events: seq<Event>, n: nat, r: nat)
    requires IsRun(log, states, events) && n <= |events|
    requires r in states[n].all && states[n].all[r].phase.Live? && states[n].all[r].observed
    ensures var s := states[n];
            exists c :: c in s.all[r].conns && c in s.conns && s.conns[c].docId == s.all[r].docId
  {
    hide Allowed, After, Started;
    RunInUse(log, states, events, n, r);
    RunKeeps(log, states, events, n);
    var c :| c in states[n].all[r].conns;
    MemberIsConnected(states[n], r, c);
    hide Inv;
  }

  lemma {:induction false} MemberIsConnected(s: State, r: nat, c: nat)
    requires Inv(s) && r in s.all && c in s.all[r].conns
    ensures c in s.conns && s.conns[c].docId == s.all[r].docId
  {
    hide RoomsSound, MapsSound, CountsSound, BusInv;
  }

  lemma {:induction false} RunInUse(
    log: map<DocId, Doc>, states: seq<State>, events: seq<Event>, n: nat, r: nat)
    requires IsRun(log, states, events) && n <= |events|
    ensures InUse(states[n], r)
  {
    hide Inv, Allowed, After, Started, InUse;
    if n == 0 {
      StartsEmpty(log);
      NoRoomInUse(states[0], r);
    } else {
      var e := events[n - 1];
      RunKeeps(log, states, events, n - 1);
      assert Allowed(states[n - 1], e) && states[n - 1 + 1] == After(states[n - 1], e);
      RunInUse(log, states, events, n - 1, r);
      if e.LoadDone? || e.SeedDone? || e.Append? { RunInUse(log, states, events, n - 1, e.room); }
      EventInUse(states[n - 1], e, r);
    }
  }

  lemma {:induction false} NoRoomInUse(s: State, r: nat)
    requires s.all == map[]
    ensures InUse(s, r)
  {
  }

  // ── What the counters count ────────────────────────────────────────────────

  function RowOf(s: State, e: Event): multiset<DocId> {
    if e.Append? && Appends(s, e, e.room) then multiset{s.all[e.room].docId} else multiset{}
  }

  function InsertOf(s: State, e: Event): multiset<DocId> {
    if e.LoadDone? && e.room in s.all && s.all[e.room].docId !in s.log then multiset{s.all[e.room].docId}
    else multiset{}
  }

  function Rows(states: seq<State>, events: seq<Event>, n: nat): multiset<DocId>
    requires |states| == |events| + 1 && n <= |events|
  {
    if n == 0 then multiset{} else Rows(states, events, n - 1) + RowOf(states[n - 1], events[n - 1])
  }

  function Inserts(states: seq<State>, events: seq<Event>, n: nat): multiset<DocId>
    requires |states| == |events| + 1 && n <= |events|
  {
    if n == 0 then multiset{} else Inserts(states, events, n - 1) + InsertOf(states[n - 1], events[n - 1])
  }

  /** A row of the room has been appended and the compaction after it is not over. */
  function Compacting(states: seq<State>, events: seq<Event>, n: nat, r: nat): bool
    requires |states| == |events| + 1 && n <= |events|
  {
    n > 0 && (Appends(states[n - 1], events[n - 1], r)
              || (Compacting(states, events, n - 1, r) && events[n - 1] != CompactEnd(r)))
  }

  lemma {:induction false} EventCounts(s: State, e: Event)
    requires Allowed(s, e)
    ensures After(s, e).rows == s.rows + RowOf(s, e) && After(s, e).seeds == s.seeds + InsertOf(s, e)
  {
    hide AfterJoinStart, AfterJoinResume, AfterAttach, AfterLeaveStart, AfterLeaveResume, AfterUpdate, AfterFrame,
         AfterLoad, AfterSeed, AfterAppend, AfterWriteSettles, AfterDestroy, BrokerStep, Captured;
    match e
    case JoinStart(c, docId) => JoinStartCounts(s, c, docId);
    case JoinResume(c) => JoinResumeCounts(s, c);
    case AttachObservers(c) => AttachCounts(s, c);
    case LeaveStart(c) => LeaveStartCounts(s, c);
    case LeaveResume(c) => LeaveResumeCounts(s, c);
    case Edit(c, ops) => UpdateCounts(s, RoomOf(s, c), ops);
    case BusFrame(frame, self) => FrameCounts(s, frame, self);
    case LoadDone(r, content) => LoadCounts(s, r, content);
    case SeedDone(r) => SeedCounts(s, r);
    case Append(r) => AppendCounts(s, r);
    case WriteSettles(c) => WriteCounts(s, c);
    case Destroy(c) => WriteCounts(s, c);
    case _ =>
  }

  lemma {:induction false} LoadCounts(s: State, r: nat, content: Doc)
    requires Allowed(s, LoadDone(r, content))
    ensures var e := LoadDone(r, content);
            AfterLoad(s, r, content).rows == s.rows + RowOf(s, e) &&
            AfterLoad(s, r, content).seeds == s.seeds + InsertOf(s, e)
  {
  }

  lemma {:induction false} SeedCounts(s: State, r: nat)
    requires Allowed(s, SeedDone(r))
    ensures AfterSeed(s, r).rows == s.rows && AfterSeed(s, r).seeds == s.seeds
  {
  }

  lemma {:induction false} AppendCounts(s: State, r: nat)
    requires Allowed(s, Append(r))
    ensures AfterAppend(s, r).rows == s.rows + RowOf(s, Append(r)) && AfterAppend(s, r).seeds == s.seeds
  {
  }

  lemma {:induction false} WriteCounts(s: State, c: nat)
    ensures Allowed(s, WriteSettles(c)) ==>
      AfterWriteSettles(s, c).rows == s.rows && AfterWriteSettles(s, c).seeds == s.seeds
    ensures Allowed(s, Destroy(c)) ==> AfterDestroy(s, c).rows == s.rows && AfterDestroy(s, c).seeds == s.seeds
  {
  }

  lemma {:induction false} JoinResumeCounts(s: State, c: nat)
    requires Allowed(s, JoinResume(c))
    ensures AfterJoinResume(s, c).rows == s.rows && AfterJoinResume(s, c).seeds == s.seeds
  {
    hide AfterJoinStart;
    JoinStartCounts(s, c, s.conns[c].docId);
  }

  lemma {:induction false} LeaveResumeCounts(s: State, c: nat)
    requires Allowed(s, Event.LeaveResume(c))
    ensures AfterLeaveResume(s, c).rows == s.rows && AfterLeaveResume(s, c).seeds == s.seeds
  {
    hide AfterUnsubscribe, Captured;
  }

  lemma {:induction false} UpdateCounts(s: State, r: nat, ops: Doc)
    requires r in s.all
    ensures AfterUpdate(s, r, ops).rows == s.rows && AfterUpdate(s, r, ops).seeds == s.seeds
  {
  }

  lemma {:induction false} FrameCounts(s: State, frame: Frame, self: nat)
    ensures AfterFrame(s, frame, self).rows == s.rows && AfterFrame(s, frame, self).seeds == s.seeds
  {
    hide AfterUpdate;
    if frame.docId in s.bus.handlers && s.bus.handlers[frame.docId] in s.all {
      UpdateCounts(s, s.bus.handlers[frame.docId], frame.payload);
    }
  }

  lemma {:induction false} JoinStartCounts(s: State, c: nat, docId: DocId)
    ensures AfterJoinStart(s, c, docId).rows == s.rows && AfterJoinStart(s, c, docId).seeds == s.seeds
  {
  }

  lemma {:induction false} LeaveStartCounts(s: State, c: nat)
    requires c in s.conns
    ensures AfterLeaveStart(s, c).rows == s.rows && AfterLeaveStart(s, c).seeds == s.seeds
  {
  }

  lemma {:induction false} AttachCounts(s: State, c: nat)
    requires Allowed(s, AttachObservers(c))
    ensures AfterAttach(s, c).rows == s.rows && AfterAttach(s, c).seeds == s.seeds
  {
    hide AfterSubscribe;
  }

  /** A row for each batch that was not empty and for nothing else, content inserted once for each load that
      found nothing stored, and a compaction under way exactly from a room's append to its end. */
  lemma {:induction false} CountersCount(
    log: map<DocId, Doc>, states: seq<State>, events: seq<Event>, n: nat, r: nat)
    requires IsRun(log, states, events) && n <= |events|
    ensures states[n].rows == Rows(states, events, n) && states[n].seeds == Inserts(states, events, n)
    ensures r in states[n].all ==> states[n].all[r].compacting == Compacting(states, events, n, r)
    ensures r !in states[n].all ==> !Compacting(states, events, n, r)
  {
    hide Inv, Allowed, After, Started, RowOf, InsertOf;
    if n == 0 {
      StartsEmpty(log);
    } else {
      CountersCount(log, states, events, n - 1, r);
      RunKeeps(log, states, events, n - 1);
      assert Allowed(states[n - 1], events[n - 1]) && states[n - 1 + 1] == After(states[n - 1], events[n - 1]);
      EventCounts(states[n - 1], events[n - 1]);
      EventFollows(states[n - 1], events[n - 1], r);
    }
  }
}
