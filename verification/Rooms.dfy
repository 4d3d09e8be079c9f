/** The room registry of one process: joins, leaves, creations and evictions interleaving at
    every await over a map of promises, with the map of pending writes that makes a reopened
    room load only after the previous one has written. */
module Rooms {
  import opened Yjs
  import opened DocStore
  import opened DocBus

  /** Where the promise of a room stands. Up to `Seeding` it is unresolved; `Missing` resolved
      to null; from `Flushing` on the room is evicted, and `Settled` means its write is over. */
  datatype Phase = Waiting(write: nat) | Looking | Loading | Seeding | Live | Missing | Flushing | Settled | Destroyed

  /** A room and the promise it came from, which have one identity. `buffered` is what its document
      emitted since the last flush, `captured` the batches in its flush chain, and `compacting`
      whether the chain is between a batch's append and the end of the compaction that follows. */
  datatype Room = Room(
    docId: DocId, phase: Phase, conns: set<nat>, observed: bool,
    doc: Doc, buffered: Doc, captured: seq<Doc>, compacting: bool, evictions: nat)

  /** Where a connection stands: awaiting a room's promise, added to it, past the observers, in
      `leaveRoom` awaiting the promise, awaiting the final write, or done. */
  datatype Place =
    | Joining(room: nat) | Joined(room: nat) | Attached(room: nat) | Leaving(room: nat) | Evicting(room: nat)
    | Gone

  datatype Conn = Conn(docId: DocId, place: Place)

  /** `rooms`, `pendingWrites` and `bus` are the process's variables, `all` and `conns` every
      room and connection there has been, `log` what the store holds of each document.
      `seeds` counts insertions of file content and `rows` appended rows. A write is named by the
      connection that awaits it. */
  datatype State = State(
    rooms: map<DocId, nat>,
    pendingWrites: map<DocId, nat>,
    bus: Bus,
    all: map<nat, Room>,
    nextRoom: nat,
    conns: map<nat, Conn>,
    log: map<DocId, Doc>,
    seeds: multiset<DocId>,
    rows: multiset<DocId>)

  datatype Event =
    | JoinStart(conn: nat, docId: DocId)
    | JoinResume(conn: nat)
    | AttachObservers(conn: nat)
    | LeaveStart(conn: nat)
    | LeaveResume(conn: nat)
    | WriteSettles(conn: nat)
    | Destroy(conn: nat)
    | WaitOver(room: nat)
    | FileFound(room: nat, isFile: bool)
    | LoadDone(room: nat, content: Doc)
    | SeedDone(room: nat)
    | Edit(conn: nat, ops: Doc)
    | BusFrame(frame: Frame, self: nat)
    | Capture(room: nat)
    | Append(room: nat)
    | CompactEnd(room: nat)
    | Broker

  /** A process that has opened nothing yet, over a store that may already hold documents. */
  function Started(log: map<DocId, Doc>): State {
    State(map[], map[], Closed, map[], 0, map[], log, multiset{}, multiset{})
  }

  // ── The operations, cut at their awaits ────────────────────────────────────

  function PutRoom(s: State, r: nat, room: Room): State {
    s.(all := s.all[r := room])
  }

  function PutConn(s: State, c: nat, docId: DocId, place: Place): State {
    s.(conns := s.conns[c := Conn(docId, place)])
  }

  /** `createRoom`: the new promise is stored before anything is awaited. */
  function AfterCreate(s: State, c: nat, docId: DocId): State {
    var phase := if docId in s.pendingWrites then Waiting(s.pendingWrites[docId]) else Looking;
    var room := Room(docId, phase, {}, false, {}, {}, [], false, 0);
    PutConn(PutRoom(s, s.nextRoom, room), c, docId, Joining(s.nextRoom))
      .(rooms := s.rooms[docId := s.nextRoom], nextRoom := s.nextRoom + 1)
  }

  /** `joinRoom` up to its await. */
  function AfterJoinStart(s: State, c: nat, docId: DocId): State {
    if docId in s.rooms then PutConn(s, c, docId, Joining(s.rooms[docId])) else AfterCreate(s, c, docId)
  }

  predicate Current(s: State, docId: DocId, r: nat) {
    docId in s.rooms && s.rooms[docId] == r
  }

  /** The file is missing: the promise is not kept. */
  function AfterMiss(s: State, c: nat, docId: DocId, r: nat): State {
    PutConn(if Current(s, docId, r) then s.(rooms := s.rooms - {docId}) else s, c, docId, Gone)
  }

  function AfterAdd(s: State, c: nat, docId: DocId, r: nat): State
    requires r in s.all
  {
    PutConn(PutRoom(s, r, s.all[r].(conns := s.all[r].conns + {c})), c, docId, Joined(r))
  }

  /** The rest of `joinRoom`, once the promise it awaited has resolved. */
  function AfterJoinResume(s: State, c: nat): State
    requires c in s.conns && s.conns[c].place.Joining? && s.conns[c].place.room in s.all
  {
    var Conn(docId, place) := s.conns[c];
    if s.all[place.room].phase.Missing? then AfterMiss(s, c, docId, place.room)
    else if !Current(s, docId, place.room) then AfterJoinStart(s, c, docId)
    else AfterAdd(s, c, docId, place.room)
  }

  function AfterObserve(s: State, r: nat): State
    requires r in s.all
  {
    PutRoom(s, r, s.all[r].(observed := true)).(bus := AfterSubscribe(s.bus, s.all[r].docId, r))
  }

  /** `attachRoomObservers`, when `handleConnection` resumes after its join. */
  function AfterAttach(s: State, c: nat): State
    requires c in s.conns && s.conns[c].place.Joined? && s.conns[c].place.room in s.all
  {
    var Conn(docId, place) := s.conns[c];
    PutConn(if s.all[place.room].observed then s else AfterObserve(s, place.room), c, docId, Attached(place.room))
  }

  /** `leaveRoom` up to its await. */
  function AfterLeaveStart(s: State, c: nat): State
    requires c in s.conns
  {
    var docId := s.conns[c].docId;
    if docId in s.rooms then PutConn(s, c, docId, Leaving(s.rooms[docId])) else PutConn(s, c, docId, Gone)
  }

  function AfterDepart(s: State, c: nat, docId: DocId, r: nat): State
    requires r in s.all
  {
    PutConn(PutRoom(s, r, s.all[r].(conns := s.all[r].conns - {c})), c, docId, Gone)
  }

  /** A flush: the whole buffer becomes the last batch of the chain. */
  function Captured(room: Room): Room {
    room.(buffered := {}, captured := room.captured + [room.buffered])
  }

  /** Out of the map, off the bus, flushed and registered as a pending write, all before yielding. */
  function AfterEvict(s: State, c: nat, docId: DocId, r: nat): State
    requires r in s.all
  {
    var room := Captured(s.all[r]).(conns := {}, phase := Flushing, evictions := s.all[r].evictions + 1);
    PutConn(PutRoom(s, r, room), c, docId, Evicting(r))
      .(rooms := if Current(s, docId, r) then s.rooms - {docId} else s.rooms,
        bus := AfterUnsubscribe(s.bus, docId),
        pendingWrites := s.pendingWrites[docId := c])
  }

  /** `leaveRoom` from its await to the await of the final write, all of it synchronous. */
  function AfterLeaveResume(s: State, c: nat): State
    requires c in s.conns && s.conns[c].place.Leaving? && s.conns[c].place.room in s.all
  {
    var Conn(docId, place) := s.conns[c];
    if s.all[place.room].phase.Missing? then PutConn(s, c, docId, Gone)
    else if s.all[place.room].conns - {c} != {} then AfterDepart(s, c, docId, place.room)
    else AfterEvict(s, c, docId, place.room)
  }

  /** The write's `finally`: forget it, unless a later write took its place. */
  function AfterWriteSettles(s: State, c: nat): State
    requires c in s.conns && s.conns[c].place.Evicting? && s.conns[c].place.room in s.all
  {
    var Conn(docId, place) := s.conns[c];
    PutRoom(s, place.room, s.all[place.room].(phase := Settled))
      .(pendingWrites :=
          if docId in s.pendingWrites && s.pendingWrites[docId] == c then s.pendingWrites - {docId}
          else s.pendingWrites)
  }

  function AfterDestroy(s: State, c: nat): State
    requires c in s.conns && s.conns[c].place.Evicting? && s.conns[c].place.room in s.all
  {
    var Conn(docId, place) := s.conns[c];
    PutConn(PutRoom(s, place.room, s.all[place.room].(phase := Destroyed)), c, docId, Gone)
  }

  /** The store's answer: what it holds, or, for a document never stored, the file's content. */
  function AfterLoad(s: State, r: nat, content: Doc): State
    requires r in s.all
  {
    var room := s.all[r];
    if room.docId in s.log then PutRoom(s, r, room.(phase := Live, doc := s.log[room.docId]))
    else PutRoom(s, r, room.(phase := Seeding, doc := content)).(seeds := s.seeds + multiset{room.docId})
  }

  function AfterSeed(s: State, r: nat): State
    requires r in s.all
  {
    var room := s.all[r];
    PutRoom(s, r, room.(phase := Live)).(log := s.log[room.docId := room.doc])
  }

  /** An update reaches a live document: the observers see what it added. */
  function AfterUpdate(s: State, r: nat, ops: Doc): State
    requires r in s.all
  {
    var room := s.all[r];
    if ops <= room.doc then s
    else PutRoom(s, r, room.(doc := room.doc + ops, buffered := room.buffered + (ops - room.doc)))
  }

  /** A frame from the broker goes to the handler's room, if there is one and it is not ours. */
  function AfterFrame(s: State, frame: Frame, self: nat): State {
    if Receiver(s.bus, self, frame) == {} || s.bus.handlers[frame.docId] !in s.all then s
    else AfterUpdate(s, s.bus.handlers[frame.docId], frame.payload)
  }

  /** The chain's next batch: an empty one is passed over, any other becomes a row. */
  function AfterAppend(s: State, r: nat): State
    requires r in s.all && s.all[r].captured != []
  {
    var room, batch := s.all[r].(captured := s.all[r].captured[1..]), s.all[r].captured[0];
    var before := if room.docId in s.log then s.log[room.docId] else {};
    if batch == {} then PutRoom(s, r, room)
    else
      PutRoom(s, r, room.(compacting := true))
        .(log := s.log[room.docId := before + batch], rows := s.rows + multiset{room.docId})
  }

  function RoomOf(s: State, c: nat): nat
    requires c in s.conns && !s.conns[c].place.Gone?
  {
    s.conns[c].place.room
  }

  predicate Resolved(phase: Phase) {
    phase.Live? || phase.Missing? || Evicted(phase)
  }

  predicate Evicted(phase: Phase) {
    phase.Flushing? || phase.Settled? || phase.Destroyed?
  }

  predicate Opening(phase: Phase) {
    phase.Waiting? || phase.Looking? || phase.Loading? || phase.Seeding?
  }

  /** The file's content, or the store's, has reached the room. */
  predicate Filled(phase: Phase) {
    phase.Seeding? || phase.Live? || Evicted(phase)
  }

  predicate At(s: State, c: nat, joining: bool, joined: bool, attached: bool, leaving: bool, evicting: bool) {
    && c in s.conns
    && var place := s.conns[c].place;
    && ((joining && place.Joining?) || (joined && place.Joined?) || (attached && place.Attached?)
        || (leaving && place.Leaving?) || (evicting && place.Evicting?))
    && place.room in s.all
  }

  predicate Allowed(s: State, e: Event) {
    match e
    case JoinStart(c, docId) => c !in s.conns
    case JoinResume(c) => At(s, c, true, false, false, false, false) && Resolved(s.all[RoomOf(s, c)].phase)
    case AttachObservers(c) => At(s, c, false, true, false, false, false)
    case LeaveStart(c) => At(s, c, false, false, true, false, false)
    case LeaveResume(c) => At(s, c, false, false, false, true, false) && Resolved(s.all[RoomOf(s, c)].phase)
    case WriteSettles(c) =>
      && At(s, c, false, false, false, false, true) && s.all[RoomOf(s, c)].phase.Flushing?
      // The chain it awaits is through.
      && s.all[RoomOf(s, c)].captured == [] && !s.all[RoomOf(s, c)].compacting
    case Destroy(c) => At(s, c, false, false, false, false, true) && s.all[RoomOf(s, c)].phase.Settled?
    case WaitOver(r) =>
      && r in s.all && s.all[r].phase.Waiting?
      && !(s.all[r].docId in s.pendingWrites && s.pendingWrites[s.all[r].docId] == s.all[r].phase.write)
    case FileFound(r, _) => r in s.all && s.all[r].phase.Looking?
    case LoadDone(r, _) => r in s.all && s.all[r].phase.Loading?
    case SeedDone(r) => r in s.all && s.all[r].phase.Seeding?
    case Edit(c, _) => At(s, c, false, false, true, false, false)
    case BusFrame(frame, self) => true
    case Capture(r) =>
      // The timer, which a non-empty buffer armed, or a caller that flushes live rooms.
      && r in s.all
      && (s.all[r].phase.Live?
          || ((s.all[r].phase.Flushing? || s.all[r].phase.Settled?) && s.all[r].buffered != {}))
    case Append(r) => r in s.all && s.all[r].captured != [] && !s.all[r].compacting
    case CompactEnd(r) => r in s.all && s.all[r].compacting
    case Broker => true
  }

  function After(s: State, e: Event): State
    requires Allowed(s, e)
  {
    match e
    case JoinStart(c, docId) => AfterJoinStart(s, c, docId)
    case JoinResume(c) => AfterJoinResume(s, c)
    case AttachObservers(c) => AfterAttach(s, c)
    case LeaveStart(c) => AfterLeaveStart(s, c)
    case LeaveResume(c) => AfterLeaveResume(s, c)
    case WriteSettles(c) => AfterWriteSettles(s, c)
    case Destroy(c) => AfterDestroy(s, c)
    case WaitOver(r) => PutRoom(s, r, s.all[r].(phase := Looking))
    case FileFound(r, isFile) => PutRoom(s, r, s.all[r].(phase := if isFile then Loading else Missing))
    case LoadDone(r, content) => AfterLoad(s, r, content)
    case SeedDone(r) => AfterSeed(s, r)
    case Edit(c, ops) => AfterUpdate(s, RoomOf(s, c), ops)
    case BusFrame(frame, self) => AfterFrame(s, frame, self)
    case Capture(r) => PutRoom(s, r, Captured(s.all[r]))
    case Append(r) => AfterAppend(s, r)
    case CompactEnd(r) => PutRoom(s, r, s.all[r].(compacting := false))
    case Broker => s.(bus := BrokerStep(s.bus))
  }

  // ── The invariant ──────────────────────────────────────────────────────────

  /** A room before its eviction is the one its document maps to, holds nothing the log and its
      own buffer do not, and handles the bus exactly while it is live and observed. */
  ghost predicate OpenSound(s: State, r: nat, room: Room) {
    && (Opening(room.phase) || room.phase.Live? ==> Current(s, room.docId, r))
    && ((Opening(room.phase) && !room.phase.Waiting?) || room.phase.Live? ==> room.docId !in s.pendingWrites)
    && (Opening(room.phase) || room.phase.Missing? ==>
          room.buffered == {} && room.captured == [] && !room.compacting && !room.observed)
    && (room.phase.Waiting? && room.docId in s.pendingWrites ==> s.pendingWrites[room.docId] == room.phase.write)
    && (room.phase.Seeding? ==> room.docId !in s.log)
    && (room.phase.Live? && room.observed <==> room.docId in s.bus.handlers && s.bus.handlers[room.docId] == r)
  }

  /** An evicted room has no connections, was evicted once, and after the flush of its eviction
      nothing more reaches its buffer. */
  ghost predicate EvictedSound(s: State, r: nat, room: Room) {
    && (room.conns != {} ==> room.phase.Live?)
    && room.evictions == (if Evicted(room.phase) then 1 else 0)
    && (room.phase.Flushing? ==>
          room.docId in s.pendingWrites && s.pendingWrites[room.docId] in s.conns
          && s.conns[s.pendingWrites[room.docId]] == Conn(room.docId, Evicting(r)))
    && (Evicted(room.phase) ==> room.buffered == {})
    && (room.phase.Settled? || room.phase.Destroyed? ==> room.captured == [] && !room.compacting)
  }

  /** Observed and not in the log yet. */
  function Unwritten(room: Room): Doc {
    room.buffered + Union(room.captured)
  }

  ghost predicate LogSound(s: State, room: Room) {
    room.phase.Live? || Evicted(room.phase) ==> room.docId in s.log && room.doc <= s.log[room.docId] + Unwritten(room)
  }

  ghost predicate RoomsSound(s: State) {
    forall r | r in s.all ::
      r < s.nextRoom && OpenSound(s, r, s.all[r]) && EvictedSound(s, r, s.all[r]) && LogSound(s, s.all[r])
  }

  ghost predicate ConnSound(s: State, c: nat, conn: Conn) {
    conn.place.Gone? ||
    (&& conn.place.room in s.all && s.all[conn.place.room].docId == conn.docId
     && (conn.place.Joined? || conn.place.Attached? || conn.place.Leaving? ==>
           s.all[conn.place.room].phase.Live? && c in s.all[conn.place.room].conns)
     && (conn.place.Attached? ==> s.all[conn.place.room].observed)
     && (conn.place.Evicting? ==>
           s.all[conn.place.room].phase.Settled?
           || (s.all[conn.place.room].phase.Flushing? && conn.docId in s.pendingWrites
               && s.pendingWrites[conn.docId] == c)))
  }

  ghost predicate ConnsSound(s: State) {
    && (forall c | c in s.conns :: ConnSound(s, c, s.conns[c]))
    && (forall b, c | b in s.conns && c in s.conns && s.conns[b].place.Evicting? ::
          s.conns[b].place == s.conns[c].place ==> b == c)
    && (forall r, c | r in s.all && c in s.all[r].conns :: c in s.conns
          && (s.conns[c].place == Joined(r) || s.conns[c].place == Attached(r) || s.conns[c].place == Leaving(r)))
  }

  ghost predicate MapsSound(s: State) {
    && (forall d | d in s.rooms ::
          s.rooms[d] in s.all && s.all[s.rooms[d]].docId == d && !Evicted(s.all[s.rooms[d]].phase))
    && (forall d | d in s.bus.handlers :: s.bus.handlers[d] in s.all && s.all[s.bus.handlers[d]].docId == d)
    && (forall d | d in s.pendingWrites :: s.pendingWrites[d] in s.conns && s.conns[s.pendingWrites[d]].docId == d
          && s.conns[s.pendingWrites[d]].place.Evicting? && s.conns[s.pendingWrites[d]].place.room in s.all
          && s.all[s.conns[s.pendingWrites[d]].place.room].phase.Flushing?)
  }

  ghost predicate CountsSound(s: State) {
    && (forall d :: s.seeds[d] <= 1)
    && (forall d | d in s.seeds && d !in s.log ::
          d in s.rooms && s.rooms[d] in s.all && s.all[s.rooms[d]].phase.Seeding?)
  }

  ghost predicate Inv(s: State) {
    RoomsSound(s) && ConnsSound(s) && MapsSound(s) && CountsSound(s) && BusInv(s.bus)
  }
}
