/** One room and its sockets: frames that arrive before, during and after the join, the
    read-only check, and the fan-out of every change to the other connections. */
module SyncRoom {
  import opened Yjs

  /** What a client sends: sync step 1 with the operations it knows, an update (or a step 2
      reply, which is one), or presence. */
  datatype Message = Step1(known: Doc) | Write(ops: Doc) | Presence

  /** `Early` frames go to the upgrade handler's list; from `Queued` on to the connection's own
      queue, while it is authorized and joins; a `Live` connection handles them at once. */
  datatype Phase = Early | Queued | Admitted | Joined | Live | Closed

  /** `wire` is on its way to the server and `out` on its way to the client. `arrived` and
      `handled` record what came in and what was acted on; `client` is the client's document. */
  datatype Conn = Conn(
    phase: Phase, canWrite: bool,
    wire: seq<Message>, early: seq<Message>, queued: seq<Message>, arrived: seq<Message>, handled: seq<Message>,
    out: seq<Doc>, client: Doc)

  /** `loaded` is what the room was opened with, `fromBus` what other instances contributed. */
  datatype State = State(doc: Doc, members: set<nat>, conns: map<nat, Conn>, loaded: Doc, fromBus: Doc)

  datatype Event =
    | Connect(conn: nat, client: Doc)
    | ClientSends(conn: nat, edit: Doc, message: Message)
    | Arrive(conn: nat)
    | HandOver(conn: nat)
    | Admit(conn: nat, canWrite: bool)
    | Join(conn: nat)
    | Resume(conn: nat)
    | BusUpdate(ops: Doc)
    | ClientReceives(conn: nat)
    | Close(conn: nat)

  function Opened(loaded: Doc): State {
    State(loaded, {}, map[], loaded, {})
  }

  // ── The operations ─────────────────────────────────────────────────────────

  function PutConn(s: State, c: nat, conn: Conn): State {
    s.(conns := s.conns[c := conn])
  }

  /** `broadcast`: to every peer in the room but the one the update came from. */
  function Broadcast(conns: map<nat, Conn>, peers: set<nat>, ops: Doc): map<nat, Conn> {
    map c | c in conns :: if c in peers then conns[c].(out := conns[c].out + [ops]) else conns[c]
  }

  /** The document takes an update and the observers fan out what it added, if anything. */
  function Update(s: State, ops: Doc, origin: set<nat>): State {
    if ops <= s.doc then s
    else s.(doc := s.doc + ops, conns := Broadcast(s.conns, s.members - origin, ops - s.doc))
  }

  /** `handleMessage` */
  function Handle(s: State, c: nat, message: Message): State
    requires c in s.conns
  {
    var conn := s.conns[c].(handled := s.conns[c].handled + [message]);
    match message
    case Step1(known) => PutConn(s, c, conn.(out := conn.out + [s.doc - known]))
    case Write(ops) => if conn.canWrite then Update(PutConn(s, c, conn), ops, {c}) else PutConn(s, c, conn)
    case Presence => PutConn(s, c, conn)
  }

  /** The queue, handled in one go and in order. */
  function HandleAll(s: State, c: nat, messages: seq<Message>): (t: State)
    requires c in s.conns
    ensures c in t.conns
    decreases |messages|
  {
    if messages == [] then s else HandleAll(Handle(s, c, messages[0]), c, messages[1..])
  }

  function AfterArrive(s: State, c: nat): State
    requires c in s.conns && s.conns[c].wire != []
  {
    var conn, message := s.conns[c].(wire := s.conns[c].wire[1..]), s.conns[c].wire[0];
    var conn := if conn.phase.Closed? then conn else conn.(arrived := conn.arrived + [message]);
    if conn.phase.Closed? then PutConn(s, c, conn)
    else if conn.phase.Early? then PutConn(s, c, conn.(early := conn.early + [message]))
    else if conn.phase.Live? then Handle(PutConn(s, c, conn), c, message)
    else PutConn(s, c, conn.(queued := conn.queued + [message]))
  }

  /** `handleConnection` after its join: the room is known, then the queue is handled. */
  function AfterResume(s: State, c: nat): State
    requires c in s.conns
  {
    var conn := s.conns[c];
    HandleAll(PutConn(s, c, conn.(phase := Live, queued := [])), c, conn.queued)
  }

  predicate Carries(message: Message, client: Doc) {
    match message
    case Step1(known) => known <= client
    case Write(ops) => ops <= client
    case Presence => true
  }

  predicate Allowed(s: State, e: Event) {
    match e
    case Connect(c, _) => c !in s.conns
    case ClientSends(c, edit, message) => c in s.conns && Carries(message, s.conns[c].client + edit)
    case Arrive(c) => c in s.conns && s.conns[c].wire != []
    case HandOver(c) => c in s.conns && s.conns[c].phase.Early?
    case Admit(c, _) => c in s.conns && s.conns[c].phase.Queued?
    case Join(c) => c in s.conns && s.conns[c].phase.Admitted?
    case Resume(c) => c in s.conns && s.conns[c].phase.Joined?
    case BusUpdate(_) => true
    case ClientReceives(c) => c in s.conns && s.conns[c].out != []
    case Close(c) => c in s.conns && s.conns[c].phase.Live?
  }

  function After(s: State, e: Event): State
    requires Allowed(s, e)
  {
    match e
    case Connect(c, client) => PutConn(s, c, Conn(Early, false, [], [], [], [], [], [], client))
    case ClientSends(c, edit, message) =>
      PutConn(s, c, s.conns[c].(client := s.conns[c].client + edit, wire := s.conns[c].wire + [message]))
    case Arrive(c) => AfterArrive(s, c)
    case HandOver(c) => PutConn(s, c, s.conns[c].(phase := Queued, queued := s.conns[c].early, early := []))
    case Admit(c, canWrite) => PutConn(s, c, s.conns[c].(phase := Admitted, canWrite := canWrite))
    case Join(c) => PutConn(s, c, s.conns[c].(phase := Joined)).(members := s.members + {c})
    case Resume(c) => AfterResume(s, c)
    case BusUpdate(ops) => Update(s.(fromBus := s.fromBus + ops), ops, {})
    case ClientReceives(c) =>
      PutConn(s, c, s.conns[c].(client := s.conns[c].client + s.conns[c].out[0], out := s.conns[c].out[1..]))
    case Close(c) => PutConn(s, c, s.conns[c].(phase := Closed)).(members := s.members - {c})
  }

  // ── The invariant ──────────────────────────────────────────────────────────

  /** The connection asked for the document: a step 1 of its has been answered. */
  ghost predicate Asked(conn: Conn) {
    exists i :: 0 <= i < |conn.handled| && conn.handled[i].Step1?
  }

  ghost function WriteOps(messages: seq<Message>): (ops: Doc)
    ensures forall op :: op in ops <==> exists i :: 0 <= i < |messages| && messages[i].Write? && op in messages[i].ops
  {
    set i, op | 0 <= i < |messages| && messages[i].Write? && op in messages[i].ops :: op
  }

  /** What connections that may write sent and the room handled. */
  ghost function WrittenHere(conns: map<nat, Conn>): (ops: Doc)
    ensures forall op :: op in ops <==> exists c :: c in conns && conns[c].canWrite && op in WriteOps(conns[c].handled)
  {
    set c, op | c in conns && conns[c].canWrite && op in WriteOps(conns[c].handled) :: op
  }

  /** Frames are handled once each and in the order they arrived, whatever the phase. */
  ghost predicate InOrder(conn: Conn) {
    && conn.arrived == conn.handled + conn.queued + conn.early
    && (conn.phase.Early? ==> conn.queued == [] && conn.handled == [])
    && (conn.phase.Queued? || conn.phase.Admitted? || conn.phase.Joined? ==> conn.early == [] && conn.handled == [])
    && (conn.phase.Live? ==> conn.early == [] && conn.queued == [])
    && (conn.canWrite ==> !conn.phase.Early? && !conn.phase.Queued?)
  }

  ghost predicate AllCarried(messages: seq<Message>, client: Doc) {
    forall i | 0 <= i < |messages| :: Carries(messages[i], client)
  }

  /** A member that asked holds the room's document or is still to be sent the rest of it. */
  ghost predicate CaughtUp(doc: Doc, members: set<nat>, c: nat, conn: Conn) {
    && (c in members <==> conn.phase.Joined? || conn.phase.Live?)
    && AllCarried(conn.wire, conn.client) && AllCarried(conn.early, conn.client) && AllCarried(conn.queued, conn.client)
    && (conn.phase.Live? && Asked(conn) ==> doc <= conn.client + Union(conn.out))
  }

  ghost predicate ConnsSound(s: State) {
    forall c | c in s.conns :: InOrder(s.conns[c]) && CaughtUp(s.doc, s.members, c, s.conns[c])
  }

  ghost predicate Provenance(s: State) {
    s.doc == s.loaded + s.fromBus + WrittenHere(s.conns)
  }

  ghost predicate Inv(s: State) {
    ConnsSound(s) && Provenance(s) && s.members <= s.conns.Keys
  }

  // ── Every event keeps it ───────────────────────────────────────────────────

  /** While a live connection still has `rest` to handle, everything else is as it should be. */
  ghost predicate Handling(s: State, c: nat, rest: seq<Message>) {
    && c in s.conns && s.conns[c].phase.Live?
    && InOrder(s.conns[c].(arrived := s.conns[c].handled)) && s.conns[c].arrived == s.conns[c].handled + rest
    && AllCarried(rest, s.conns[c].client)
    && CaughtUp(s.doc, s.members, c, s.conns[c])
    && (forall k | k in s.conns && k != c :: InOrder(s.conns[k]) && CaughtUp(s.doc, s.members, k, s.conns[k]))
    && Provenance(s) && s.members <= s.conns.Keys
  }

  /** A connection stays caught up when the document grows by what it is sent or already has. */
  lemma {:induction false} CaughtUpAfter(doc: Doc, members: set<nat>, c: nat, conn: Conn, added: Doc, sent: bool)
    requires CaughtUp(doc, members, c, conn)
    requires conn.phase.Live? && !sent ==> added <= conn.client
    ensures CaughtUp(doc + added, members, c, if sent then conn.(out := conn.out + [added]) else conn)
  {
    hide AllCarried;
    UnionOfConcat(conn.out, [added]);
    UnionOfOne(added);
  }

  lemma {:induction false} WriteOpsOfConcat(messages: seq<Message>, message: Message)
    ensures WriteOps(messages + [message]) == WriteOps(messages) + (if message.Write? then message.ops else {})
  {
    var all := messages + [message];
    forall op | op in WriteOps(messages) || (message.Write? && op in message.ops)
      ensures op in WriteOps(all)
    {
      if op in WriteOps(messages) {
        var i :| 0 <= i < |messages| && messages[i].Write? && op in messages[i].ops;
        assert all[i] == messages[i];
      } else {
        assert all[|messages|] == message;
      }
    }
  }

  lemma {:induction false} WrittenAfter(conns: map<nat, Conn>, after: map<nat, Conn>, c: nat, message: Message)
    requires c in conns && conns.Keys == after.Keys
    requires forall k | k in conns :: conns[k].canWrite == after[k].canWrite
    requires forall k | k in conns && k != c :: conns[k].handled == after[k].handled
    requires after[c].handled == conns[c].handled + [message]
    ensures WrittenHere(after) == WrittenHere(conns) + (if conns[c].canWrite && message.Write? then message.ops else {})
  {
    WriteOpsOfConcat(conns[c].handled, message);
    hide WriteOps;
  }

  lemma {:induction false} AskedAfter(conn: Conn, message: Message)
    ensures Asked(conn.(handled := conn.handled + [message])) <==> Asked(conn) || message.Step1?
  {
    var all := conn.handled + [message];
    if Asked(conn) {
      var i :| 0 <= i < |conn.handled| && conn.handled[i].Step1?;
      assert all[i].Step1?;
    }
    if message.Step1? {
      assert all[|conn.handled|].Step1?;
    }
  }

  lemma {:induction false} Shift(messages: seq<Message>, rest: seq<Message>, client: Doc)
    requires messages != [] && rest == messages[1..]
    ensures forall before: seq<Message> :: before + messages == before + [messages[0]] + rest
    ensures AllCarried(messages, client) ==> Carries(messages[0], client) && AllCarried(rest, client)
  {
  }

  /** The connection itself, when its step 1 is answered. */
  lemma {:induction false} AnsweredIsCaughtUp(doc: Doc, members: set<nat>, c: nat, conn: Conn, known: Doc)
    requires CaughtUp(doc, members, c, conn) && known <= conn.client
    ensures CaughtUp(doc, members, c, conn.(handled := conn.handled + [Step1(known)], out := conn.out + [doc - known]))
  {
    hide AllCarried;
    UnionOfConcat(conn.out, [doc - known]);
    UnionOfOne(doc - known);
  }

  lemma {:induction false} NotedIsCaughtUp(doc: Doc, members: set<nat>, c: nat, conn: Conn, message: Message)
    requires CaughtUp(doc, members, c, conn) && !message.Step1?
    ensures CaughtUp(doc, members, c, conn.(handled := conn.handled + [message]))
  {
    AskedAfter(conn, message);
    hide AllCarried, Asked;
  }

  lemma {:induction false} HandleStep1(s: State, c: nat, messages: seq<Message>)
    requires messages != [] && Handling(s, c, messages) && messages[0].Step1?
    ensures Handling(Handle(s, c, messages[0]), c, messages[1..])
  {
    hide CaughtUp, Union;
    Shift(messages, messages[1..], s.conns[c].client);
    AnsweredIsCaughtUp(s.doc, s.members, c, s.conns[c], messages[0].known);
    WrittenAfter(s.conns, Handle(s, c, messages[0]).conns, c, messages[0]);
    hide WrittenHere, AllCarried;
  }

  lemma {:induction false} HandleNoted(s: State, c: nat, messages: seq<Message>)
    requires messages != [] && Handling(s, c, messages)
    requires messages[0].Presence? || (messages[0].Write? && (!s.conns[c].canWrite || messages[0].ops <= s.doc))
    ensures Handling(Handle(s, c, messages[0]), c, messages[1..])
  {
    hide CaughtUp, Union;
    Shift(messages, messages[1..], s.conns[c].client);
    NotedIsCaughtUp(s.doc, s.members, c, s.conns[c], messages[0]);
    WrittenAfter(s.conns, Handle(s, c, messages[0]).conns, c, messages[0]);
    hide WrittenHere, AllCarried;
  }

  /** A writer's change reaches every other member, and the writer already has it. */
  lemma {:induction false} WriteCatchesUp(s: State, c: nat, messages: seq<Message>, k: nat)
    requires messages != [] && Handling(s, c, messages)
    requires messages[0].Write? && s.conns[c].canWrite && !(messages[0].ops <= s.doc) && k in s.conns
    ensures var t := Handle(s, c, messages[0]);
            k in t.conns && CaughtUp(t.doc, t.members, k, t.conns[k])
  {
    hide CaughtUp, Union, Provenance, InOrder;
    var t, added := Handle(s, c, messages[0]), messages[0].ops - s.doc;
    Shift(messages, messages[1..], s.conns[c].client);
    NotedIsCaughtUp(s.doc, s.members, c, s.conns[c], messages[0]);
    var before := if k == c then s.conns[c].(handled := s.conns[c].handled + [messages[0]]) else s.conns[k];
    NonMemberIsNotLive(s.doc, s.members, k, before);
    CaughtUpAfter(s.doc, s.members, k, before, added, k in s.members - {c});
    assert t.doc == s.doc + added;
  }

  lemma {:induction false} WriteProvenance(s: State, c: nat, message: Message)
    requires Provenance(s) && c in s.conns && message.Write? && s.conns[c].canWrite && !(message.ops <= s.doc)
    ensures Provenance(Handle(s, c, message))
  {
    WrittenAfter(s.conns, Handle(s, c, message).conns, c, message);
    hide WrittenHere;
  }

  lemma {:induction false} HandleWrite(s: State, c: nat, messages: seq<Message>)
    requires messages != [] && Handling(s, c, messages)
    requires messages[0].Write? && s.conns[c].canWrite && !(messages[0].ops <= s.doc)
    ensures Handling(Handle(s, c, messages[0]), c, messages[1..])
  {
    hide CaughtUp, Union, Provenance, AllCarried, WriteOps;
    var t := Handle(s, c, messages[0]);
    Shift(messages, messages[1..], s.conns[c].client);
    WriteProvenance(s, c, messages[0]);
    forall k | k in s.conns
      ensures CaughtUp(t.doc, t.members, k, t.conns[k])
    {
      WriteCatchesUp(s, c, messages, k);
    }
  }

  lemma {:induction false} NonMemberIsNotLive(doc: Doc, members: set<nat>, c: nat, conn: Conn)
    requires CaughtUp(doc, members, c, conn)
    ensures conn.phase.Live? ==> c in members
  {
  }

  lemma {:induction false} HandleAllKeeps(s: State, c: nat, messages: seq<Message>)
    requires Handling(s, c, messages)
    ensures Handling(HandleAll(s, c, messages), c, [])
    decreases |messages|
  {
    hide Handling, Handle;
    if messages != [] {
      HandleOneKeeps(s, c, messages);
      HandleAllKeeps(Handle(s, c, messages[0]), c, messages[1..]);
    }
  }

  lemma {:induction false} HandleOneKeeps(s: State, c: nat, messages: seq<Message>)
    requires messages != [] && Handling(s, c, messages)
    ensures c in s.conns && Handling(Handle(s, c, messages[0]), c, messages[1..])
  {
    match messages[0]
    case Step1(_) => HandleStep1(s, c, messages);
    case Write(ops) =>
      if s.conns[c].canWrite && !(ops <= s.doc) { HandleWrite(s, c, messages); } else { HandleNoted(s, c, messages); }
    case Presence => HandleNoted(s, c, messages);
  }

  lemma {:induction false} DoneHandling(s: State, c: nat)
    requires Handling(s, c, [])
    ensures Inv(s)
  {
    hide CaughtUp, Provenance;
  }

  /** An event that touches one connection and no document. */
  lemma {:induction false} OneConnKeeps(s: State, c: nat, conn: Conn, members: set<nat>)
    requires Inv(s) && members - {c} == s.members - {c}
    requires InOrder(conn) && CaughtUp(s.doc, members, c, conn)
    requires
      if c in s.conns
      then conn.handled == s.conns[c].handled && (conn.canWrite == s.conns[c].canWrite || conn.handled == [])
      else conn.handled == []
    ensures Inv(PutConn(s, c, conn).(members := members))
  {
    var t := PutConn(s, c, conn).(members := members);
    hide InOrder, WriteOps;
    forall k | k in s.conns && k != c
      ensures CaughtUp(t.doc, t.members, k, t.conns[k])
    {
      assert k in members <==> k in members - {c};
      assert k in s.members <==> k in s.members - {c};
      assert CaughtUp(s.doc, s.members, k, s.conns[k]);
    }
    SameWritten(s.conns, t.conns, c);
    hide WrittenHere;
    forall k | k in t.members
      ensures k in t.conns
    {
      assert k == c || k in s.members - {c} by { assert k in members - {c} || k == c; }
    }
  }

  lemma {:induction false} SameWritten(conns: map<nat, Conn>, after: map<nat, Conn>, c: nat)
    requires c in after && after == conns[c := after[c]]
    requires
      if c in conns
      then after[c].handled == conns[c].handled && (after[c].canWrite == conns[c].canWrite || after[c].handled == [])
      else after[c].handled == []
    ensures WrittenHere(after) == WrittenHere(conns)
  {
    assert WriteOps([]) == {};
    assert after[c].handled == [] ==> WriteOps(after[c].handled) == {};
    forall op
      ensures op in WrittenHere(after) <==> op in WrittenHere(conns)
    {
      if k :| k in conns && conns[k].canWrite && op in WriteOps(conns[k].handled) {
        assert k in after && after[k].canWrite && after[k].handled == conns[k].handled;
      }
      if k :| k in after && after[k].canWrite && op in WriteOps(after[k].handled) {
        assert k in conns && conns[k].canWrite && after[k].handled == conns[k].handled;
      }
    }
  }

  lemma {:induction false} ConnKeeps(s: State, c: nat)
    requires Inv(s) && c in s.conns
    ensures InOrder(s.conns[c]) && CaughtUp(s.doc, s.members, c, s.conns[c])
  {
    hide InOrder, CaughtUp;
  }

  lemma {:induction false} CarriedGrows(messages: seq<Message>, client: Doc, more: Doc)
    requires AllCarried(messages, client) && client <= more
    ensures AllCarried(messages, more)
  {
  }

  lemma {:induction false} SendsKeeps(s: State, c: nat, edit: Doc, message: Message)
    requires Inv(s) && Allowed(s, ClientSends(c, edit, message))
    ensures Inv(After(s, ClientSends(c, edit, message)))
  {
    hide Inv, Union;
    ConnKeeps(s, c);
    var conn := s.conns[c];
    CarriedGrows(conn.wire, conn.client, conn.client + edit);
    CarriedGrows(conn.early, conn.client, conn.client + edit);
    CarriedGrows(conn.queued, conn.client, conn.client + edit);
    OneConnKeeps(s, c, conn.(client := conn.client + edit, wire := conn.wire + [message]), s.members);
  }

  lemma {:induction false} ReceivesKeeps(s: State, c: nat)
    requires Inv(s) && Allowed(s, ClientReceives(c))
    ensures Inv(After(s, ClientReceives(c)))
  {
    hide Inv;
    ConnKeeps(s, c);
    var conn := s.conns[c];
    UnionOfConcat([conn.out[0]], conn.out[1..]);
    UnionOfOne(conn.out[0]);
    var client := conn.client + conn.out[0];
    CarriedGrows(conn.wire, conn.client, client);
    CarriedGrows(conn.early, conn.client, client);
    CarriedGrows(conn.queued, conn.client, client);
    assert [conn.out[0]] + conn.out[1..] == conn.out;
    OneConnKeeps(s, c, conn.(client := client, out := conn.out[1..]), s.members);
  }

  /** Connecting, handing over, admitting, joining and closing. */
  lemma {:induction false} PhaseKeeps(s: State, e: Event)
    requires Inv(s) && Allowed(s, e)
    requires e.Connect? || e.HandOver? || e.Admit? || e.Join? || e.Close?
    ensures Inv(After(s, e))
  {
    hide Inv, Union;
    var c := e.conn;
    if !e.Connect? { ConnKeeps(s, c); } else { NotMember(s, c); }
    var t := After(s, e);
    OneConnKeeps(s, c, t.conns[c], t.members);
  }

  lemma {:induction false} NotMember(s: State, c: nat)
    requires Inv(s) && c !in s.conns
    ensures c !in s.members
  {
  }

  lemma {:induction false} ArriveQuietly(s: State, c: nat)
    requires Inv(s) && c in s.conns && s.conns[c].wire != [] && !s.conns[c].phase.Live?
    ensures Inv(AfterArrive(s, c))
  {
    hide Inv, Union;
    ConnKeeps(s, c);
    var conn := s.conns[c];
    Shift(conn.wire, conn.wire[1..], conn.client);
    OneConnKeeps(s, c, AfterArrive(s, c).conns[c], s.members);
  }

  lemma {:induction false} StartHandling(s: State, c: nat, conn: Conn, rest: seq<Message>)
    requires Inv(s) && c in s.conns && conn.phase.Live?
    requires InOrder(conn.(arrived := conn.handled)) && conn.arrived == conn.handled + rest
    requires AllCarried(rest, conn.client) && CaughtUp(s.doc, s.members, c, conn)
    requires conn.handled == s.conns[c].handled && conn.canWrite == s.conns[c].canWrite
    ensures Handling(PutConn(s, c, conn), c, rest)
  {
    hide InOrder, CaughtUp, AllCarried, WriteOps;
    SameWritten(s.conns, PutConn(s, c, conn).conns, c);
    hide WrittenHere;
  }

  lemma {:induction false} ArriveLive(s: State, c: nat)
    requires Inv(s) && c in s.conns && s.conns[c].wire != [] && s.conns[c].phase.Live?
    ensures Inv(AfterArrive(s, c))
  {
    hide Inv, Union, Handling, Handle;
    ConnKeeps(s, c);
    var conn, message := s.conns[c], s.conns[c].wire[0];
    Shift(conn.wire, conn.wire[1..], conn.client);
    var conn' := conn.(wire := conn.wire[1..], arrived := conn.arrived + [message]);
    assert conn.arrived == conn.handled;
    StartHandling(s, c, conn', [message]);
    HandleOneKeeps(PutConn(s, c, conn'), c, [message]);
    assert [message][1..] == [];
    DoneHandling(Handle(PutConn(s, c, conn'), c, message), c);
  }

  lemma {:induction false} ResumeKeeps(s: State, c: nat)
    requires Inv(s) && c in s.conns && s.conns[c].phase.Joined?
    ensures Inv(AfterResume(s, c))
  {
    hide Inv, Union, Handling, HandleAll;
    ConnKeeps(s, c);
    var conn := s.conns[c];
    assert conn.arrived == conn.handled + conn.queued;
    StartHandling(s, c, conn.(phase := Live, queued := []), conn.queued);
    HandleAllKeeps(PutConn(s, c, conn.(phase := Live, queued := [])), c, conn.queued);
    DoneHandling(AfterResume(s, c), c);
  }

  lemma {:induction false} BusKeeps(s: State, ops: Doc)
    requires Inv(s)
    ensures Inv(After(s, BusUpdate(ops)))
  {
    var t := After(s, BusUpdate(ops));
    BusChanges(s, ops);
    SameHandledSameWritten(s.conns, t.conns);
    hide CaughtUp, InOrder, WrittenHere, After;
    forall k | k in s.conns
      ensures InOrder(t.conns[k]) && CaughtUp(t.doc, t.members, k, t.conns[k])
    {
      BusReaches(s, ops, k);
    }
  }

  lemma {:induction false} BusChanges(s: State, ops: Doc)
    ensures var t := After(s, BusUpdate(ops));
            && t.doc == s.doc + ops && t.loaded == s.loaded && t.fromBus == s.fromBus + ops && t.members == s.members
            && t.conns.Keys == s.conns.Keys
            && forall k | k in s.conns ::
                t.conns[k].handled == s.conns[k].handled && t.conns[k].canWrite == s.conns[k].canWrite
  {
    assert s.doc + (ops - s.doc) == s.doc + ops;
  }

  lemma {:induction false} SameHandledSameWritten(conns: map<nat, Conn>, after: map<nat, Conn>)
    requires after.Keys == conns.Keys
    requires forall k | k in conns :: after[k].handled == conns[k].handled && after[k].canWrite == conns[k].canWrite
    ensures WrittenHere(after) == WrittenHere(conns)
  {
    hide WriteOps;
    forall op
      ensures op in WrittenHere(after) <==> op in WrittenHere(conns)
    {
      if k :| k in conns && conns[k].canWrite && op in WriteOps(conns[k].handled) {
        assert k in after && after[k].canWrite && op in WriteOps(after[k].handled);
      }
      if k :| k in after && after[k].canWrite && op in WriteOps(after[k].handled) {
        assert k in conns && conns[k].canWrite && op in WriteOps(conns[k].handled);
      }
    }
  }

  /** What one connection sees of a bus update: members are sent what was new. */
  lemma {:induction false} BusReaches(s: State, ops: Doc, k: nat)
    requires Inv(s) && k in s.conns
    ensures var t := After(s, BusUpdate(ops));
            k in t.conns && InOrder(t.conns[k]) && CaughtUp(t.doc, t.members, k, t.conns[k])
  {
    ConnKeeps(s, k);
    hide Inv, CaughtUp, Union, WriteOps;
    NonMemberIsNotLive(s.doc, s.members, k, s.conns[k]);
    CaughtUpAfter(s.doc, s.members, k, s.conns[k], ops - s.doc, k in s.members);
    assert s.doc + (ops - s.doc) == s.doc + ops;
  }

  lemma {:induction false} EventKeeps(s: State, e: Event)
    requires Inv(s) && Allowed(s, e)
    ensures Inv(After(s, e))
  {
    match e
    case Connect(_, _) => hide Inv, After; PhaseKeeps(s, e);
    case ClientSends(c, edit, message) => hide Inv, After; SendsKeeps(s, c, edit, message);
    case Arrive(c) =>
      hide Inv, AfterArrive;
      if s.conns[c].phase.Live? {
        ArriveLive(s, c);
      } else {
        ArriveQuietly(s, c);
      }
    case HandOver(_) => hide Inv, After; PhaseKeeps(s, e);
    case Admit(_, _) => hide Inv, After; PhaseKeeps(s, e);
    case Join(_) => hide Inv, After; PhaseKeeps(s, e);
    case Resume(c) => hide Inv, AfterResume; ResumeKeeps(s, c);
    case BusUpdate(ops) => hide Inv, After; BusKeeps(s, ops);
    case ClientReceives(c) => hide Inv, After; ReceivesKeeps(s, c);
    case Close(_) => hide Inv, After; PhaseKeeps(s, e);
  }

  // ── Main results, over every run ───────────────────────────────────────────

  ghost predicate IsRun(loaded: Doc, states: seq<State>, events: seq<Event>) {
    && |states| == |events| + 1
    && states[0] == Opened(loaded)
    && forall i | 0 <= i < |events| :: Allowed(states[i], events[i]) && states[i + 1] == After(states[i], events[i])
  }

  lemma {:induction false} OpenedKeeps(loaded: Doc)
    ensures Inv(Opened(loaded))
  {
  }

  lemma {:induction false} RunKeeps(loaded: Doc, states: seq<State>, events: seq<Event>, n: nat)
    requires IsRun(loaded, states, events) && n <= |events|
    ensures Inv(states[n]) && states[n].loaded == loaded
  {
    hide Inv, Allowed, Opened, After;
    if n == 0 {
      OpenedKeeps(loaded);
      OpenedHolds(loaded);
    } else {
      RunKeeps(loaded, states, events, n - 1);
      assert Allowed(states[n - 1], events[n - 1]) && states[n - 1 + 1] == After(states[n - 1], events[n - 1]);
      EventKeeps(states[n - 1], events[n - 1]);
      LoadedStays(states[n - 1], events[n - 1]);
    }
  }

  lemma {:induction false} OpenedHolds(loaded: Doc)
    ensures Opened(loaded).loaded == loaded
  {
  }

  lemma HandleAllLoaded(s: State, c: nat, messages: seq<Message>)
    requires c in s.conns
    ensures HandleAll(s, c, messages).loaded == s.loaded
    decreases |messages|
  {
    if messages != [] { HandleAllLoaded(Handle(s, c, messages[0]), c, messages[1..]); }
  }

  lemma {:induction false} LoadedStays(s: State, e: Event)
    requires Allowed(s, e)
    ensures After(s, e).loaded == s.loaded
  {
    hide HandleAll;
    if e.Resume? {
      var conn := s.conns[e.conn];
      HandleAllLoaded(PutConn(s, e.conn, conn.(phase := Live, queued := [])), e.conn, conn.queued);
    }
  }

  /** Every frame of a connection is handled once and in the order it arrived, across the early,
      queued and live phases: what was handled is a prefix of what arrived, the rest is waiting
      in order, and a live connection has nothing waiting. */
  lemma {:induction false} FramesHandledOnceInOrder(loaded: Doc, states: seq<State>, events: seq<Event>, n: nat, c: nat)
    requires IsRun(loaded, states, events) && n <= |events| && c in states[n].conns
    ensures var conn := states[n].conns[c];
            && conn.handled <= conn.arrived
            && conn.arrived == conn.handled + conn.queued + conn.early
            && (conn.phase.Live? ==> conn.handled == conn.arrived)
  {
    hide Inv, Allowed, After;
    RunKeeps(loaded, states, events, n);
    ConnKeeps(states[n], c);
  }

  /** A live client whose step 1 was answered holds every operation of the room once what it was
      sent has arrived: nothing falls between joining and being broadcast to. */
  lemma {:induction false} AskingClientsCatchUp(loaded: Doc, states: seq<State>, events: seq<Event>, n: nat, c: nat,
      i: nat)
    requires IsRun(loaded, states, events) && n <= |events| && c in states[n].conns && states[n].conns[c].phase.Live?
    requires i < |states[n].conns[c].arrived| && states[n].conns[c].arrived[i].Step1?
    ensures states[n].doc <= states[n].conns[c].client + Union(states[n].conns[c].out)
    ensures states[n].conns[c].out == [] ==> states[n].doc <= states[n].conns[c].client
  {
    hide Inv, Allowed, After;
    RunKeeps(loaded, states, events, n);
    ConnKeeps(states[n], c);
    var conn := states[n].conns[c];
    assert conn.handled == conn.arrived;
    assert Asked(conn);
  }

  /** A room holds exactly what it was loaded with, what other instances contributed, and what
      connections with write access sent: a read-only connection never changes it. */
  lemma {:induction false} OnlyWritersChangeTheRoom(loaded: Doc, states: seq<State>, events: seq<Event>, n: nat)
    requires IsRun(loaded, states, events) && n <= |events|
    ensures states[n].doc == loaded + states[n].fromBus + WrittenHere(states[n].conns)
  {
    hide Allowed, After, ConnsSound, WrittenHere;
    RunKeeps(loaded, states, events, n);
  }

  // ── The room ───────────────────────────────────────────────────────────────

  /** The room's document and its connections, updated in place. */
  class Room {
    var doc: Doc
    var members: set<nat>
    var conns: map<nat, Conn>
    ghost var loaded: Doc
    ghost var fromBus: Doc

    ghost function Now(): State
      reads this
    {
      State(doc, members, conns, loaded, fromBus)
    }

    constructor (content: Doc)
      ensures Now() == Opened(content) && Inv(Now())
    {
      doc, members, conns, loaded, fromBus := content, {}, map[], content, {};
      new;
      OpenedKeeps(content);
    }

    /** One send per peer, whichever order the set yields them in. */
    static method BroadcastTo(conns: map<nat, Conn>, peers: set<nat>, ops: Doc) returns (sent: map<nat, Conn>)
      requires peers <= conns.Keys
      ensures sent == Broadcast(conns, peers, ops)
    {
      sent := conns;
      var left := peers;
      while left != {}
        invariant left <= peers
        invariant sent == Broadcast(conns, peers - left, ops)
        decreases left
      {
        var peer :| peer in left;
        left := left - {peer};
        sent := sent[peer := sent[peer].(out := sent[peer].out + [ops])];
      }
    }

    /** `ydoc.on('update')`: fires only if the update added something. */
    method ApplyUpdate(ops: Doc, origin: set<nat>)
      requires members <= conns.Keys
      modifies this`doc, this`conns
      ensures Now() == Update(old(Now()), ops, origin) && conns.Keys == old(conns.Keys)
    {
      if ops <= doc {
        return;
      }
      var added := ops - doc;
      doc := doc + ops;
      conns := BroadcastTo(conns, members - origin, added);
    }

    method HandleMessage(c: nat, message: Message)
      requires c in conns && members <= conns.Keys
      modifies this`doc, this`conns
      ensures Now() == Handle(old(Now()), c, message) && conns.Keys == old(conns.Keys)
      ensures !old(conns[c].canWrite) ==> doc == old(doc)
    {
      var conn := conns[c].(handled := conns[c].handled + [message]);
      conns := conns[c := conn];
      match message
      case Step1(known) => conns := conns[c := conn.(out := conn.out + [doc - known])];
      case Write(ops) =>
        // A reader's update is dropped here.
        if conn.canWrite {
          ApplyUpdate(ops, {c});
        }
      case Presence =>
    }

    /** `handleConnection` after its join: set the room, then drain the queue in order. */
    method Resume(c: nat)
      requires Inv(Now()) && c in conns && conns[c].phase.Joined?
      modifies this`doc, this`conns
      ensures Now() == AfterResume(old(Now()), c) && Inv(Now())
    {
      hide Inv, CaughtUp, Handle;
      ResumeKeeps(Now(), c);
      MembersAreConns(Now());
      ghost var before := Now();
      var queued := conns[c].queued;
      conns := conns[c := conns[c].(phase := Live, queued := [])];
      ghost var start := Now();
      var i := 0;
      while i < |queued|
        invariant i <= |queued| && c in conns && members == before.members <= conns.Keys
        invariant loaded == before.loaded && fromBus == before.fromBus
        invariant HandleAll(Now(), c, queued[i..]) == HandleAll(start, c, queued)
      {
        assert queued[i..][0] == queued[i] && queued[i..][1..] == queued[i + 1..];
        HandleMessage(c, queued[i]);
        i := i + 1;
      }
    }
  }

  lemma {:induction false} MembersAreConns(s: State)
    requires Inv(s)
    ensures s.members <= s.conns.Keys
  {
  }
}
