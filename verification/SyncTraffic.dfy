/** What a room sends to whom: every frame a connection gets, over whole runs. An answer goes to the one
    that asked, a change to every other member, and nothing to anybody else. */
module SyncTraffic {
  import opened Wrappers
  import opened Yjs
  import opened SyncRoom

  // ── What one turn of a connection calls for ────────────────────────────────

  /** The answers to its own step 1s, in a document that its own writes change on the way. */
  function Replies(doc: Doc, canWrite: bool, messages: seq<Message>): seq<Doc>
    decreases |messages|
  {
    if messages == [] then []
    else match messages[0]
      case Step1(known) => [doc - known] + Replies(doc, canWrite, messages[1..])
      case Write(ops) => Replies(if canWrite then doc + ops else doc, canWrite, messages[1..])
      case Presence => Replies(doc, canWrite, messages[1..])
  }

  /** What its writes add, for everybody else. */
  function Gains(doc: Doc, canWrite: bool, messages: seq<Message>): seq<Doc>
    decreases |messages|
  {
    if messages == [] then []
    else if canWrite && messages[0].Write? then
      (if messages[0].ops <= doc then [] else [messages[0].ops - doc])
      + Gains(doc + messages[0].ops, canWrite, messages[1..])
    else Gains(doc, canWrite, messages[1..])
  }

  function Grown(doc: Doc, canWrite: bool, messages: seq<Message>): Doc
    decreases |messages|
  {
    if messages == [] then doc
    else Grown(if canWrite && messages[0].Write? then doc + messages[0].ops else doc, canWrite, messages[1..])
  }

  /** The frames of a connection that an event acts on. */
  function Turn(s: State, e: Event): seq<Message> {
    if e.Arrive? && e.conn in s.conns && s.conns[e.conn].phase.Live? && s.conns[e.conn].wire != []
    then [s.conns[e.conn].wire[0]]
    else if e.Resume? && e.conn in s.conns then s.conns[e.conn].queued
    else []
  }

  function ToSend(s: State, e: Event, k: nat): seq<Doc> {
    if (e.Arrive? || e.Resume?) && e.conn in s.conns then
      var canWrite := s.conns[e.conn].canWrite;
      if k == e.conn then Replies(s.doc, canWrite, Turn(s, e))
      else if k in s.members then Gains(s.doc, canWrite, Turn(s, e))
      else []
    else if e.BusUpdate? && k in s.members && !(e.ops <= s.doc) then [e.ops - s.doc]
    else []
  }

  // ── What the room does ─────────────────────────────────────────────────────

  /** The document became `doc`; connection `c` handled `messages` and was sent `answers`; every other
      member was sent `gains`; nothing else moved. */
  ghost predicate Moved(
    s: State, t: State, c: nat, doc: Doc, messages: seq<Message>, answers: seq<Doc>, gains: seq<Doc>)
  {
    && c in s.conns && t.conns.Keys == s.conns.Keys
    && t == s.(doc := doc, conns := t.conns)
    && t.conns[c] == s.conns[c].(handled := s.conns[c].handled + messages, out := s.conns[c].out + answers)
    && forall k | k in s.conns && k != c ::
        t.conns[k] == s.conns[k].(out := s.conns[k].out + (if k in s.members then gains else []))
  }

  ghost predicate Acted(s: State, t: State, c: nat, messages: seq<Message>) {
    && c in s.conns
    && var canWrite := s.conns[c].canWrite;
    Moved(s, t, c, Grown(s.doc, canWrite, messages), messages,
          Replies(s.doc, canWrite, messages), Gains(s.doc, canWrite, messages))
  }

  lemma {:induction false} MovedTwice(s: State, t: State, u: State, c: nat, doc: Doc, doc': Doc,
      messages: seq<Message>, messages': seq<Message>, answers: seq<Doc>, answers': seq<Doc>,
      gains: seq<Doc>, gains': seq<Doc>)
    requires Moved(s, t, c, doc, messages, answers, gains) && Moved(t, u, c, doc', messages', answers', gains')
    ensures Moved(s, u, c, doc', messages + messages', answers + answers', gains + gains')
  {
    Associative(s.conns[c].handled, messages, messages');
    Associative(s.conns[c].out, answers, answers');
    assert u.conns[c] == s.conns[c].(handled := s.conns[c].handled + (messages + messages'),
                                     out := s.conns[c].out + (answers + answers'));
    forall k | k in s.conns && k != c
      ensures u.conns[k] == s.conns[k].(out := s.conns[k].out + (if k in s.members then gains + gains' else []))
    {
      Associative(s.conns[k].out, gains, gains');
      Associative(s.conns[k].out, [], []);
    }
  }

  lemma {:induction false} Associative<T>(a: seq<T>, b: seq<T>, c: seq<T>)
    ensures a + b + c == a + (b + c)
  {
  }

  lemma {:induction false} OneActed(s: State, c: nat, message: Message)
    requires c in s.conns
    ensures Acted(s, Handle(s, c, message), c, [message])
  {
    assert [message][1..] == [];
    assert Replies(s.doc, s.conns[c].canWrite, [message]) ==
      (if message.Step1? then [s.doc - message.known] else []);
    assert Gains(s.doc, s.conns[c].canWrite, [message]) ==
      (if s.conns[c].canWrite && message.Write? && !(message.ops <= s.doc) then [message.ops - s.doc] else []);
    assert forall docs: seq<Doc> :: docs + [] == docs;
  }

  lemma {:induction false} TurnUnfolds(doc: Doc, canWrite: bool, messages: seq<Message>)
    requires messages != []
    ensures var first, rest := [messages[0]], messages[1..];
            var next := Grown(doc, canWrite, first);
            && Replies(doc, canWrite, messages) == Replies(doc, canWrite, first) + Replies(next, canWrite, rest)
            && Gains(doc, canWrite, messages) == Gains(doc, canWrite, first) + Gains(next, canWrite, rest)
            && Grown(doc, canWrite, messages) == Grown(next, canWrite, rest)
  {
    assert [messages[0]][1..] == [];
    assert forall docs: seq<Doc> :: [] + docs == docs && docs + [] == docs;
  }

  lemma {:induction false} AllActed(s: State, c: nat, messages: seq<Message>)
    requires c in s.conns
    ensures Acted(s, HandleAll(s, c, messages), c, messages)
    decreases |messages|
  {
    if messages == [] {
      assert forall docs: seq<Doc> :: docs + [] == docs;
      assert s.conns[c].handled + [] == s.conns[c].handled;
    } else {
      var t := Handle(s, c, messages[0]);
      OneActed(s, c, messages[0]);
      AllActed(t, c, messages[1..]);
      TurnUnfolds(s.doc, s.conns[c].canWrite, messages);
      hide Handle, Replies, Gains, Grown, Moved;
      ActedInTurn(s, t, HandleAll(t, c, messages[1..]), c, messages);
    }
  }

  lemma {:induction false} ActedInTurn(s: State, t: State, u: State, c: nat, messages: seq<Message>)
    requires messages != [] && Acted(s, t, c, [messages[0]]) && Acted(t, u, c, messages[1..])
    ensures Acted(s, u, c, messages)
  {
    var canWrite := s.conns[c].canWrite;
    var first, rest := [messages[0]], messages[1..];
    assert t.doc == Grown(s.doc, canWrite, first) && t.conns[c].canWrite == canWrite;
    hide Moved;
    TurnUnfolds(s.doc, canWrite, messages);
    hide Replies, Gains, Grown;
    MovedTwice(s, t, u, c, t.doc, Grown(t.doc, canWrite, rest), first, rest,
      Replies(s.doc, canWrite, first), Replies(t.doc, canWrite, rest),
      Gains(s.doc, canWrite, first), Gains(t.doc, canWrite, rest));
    assert first + rest == messages;
  }

  lemma {:induction false} ArriveSends(s: State, c: nat, k: nat)
    requires Allowed(s, Arrive(c)) && k in s.conns
    ensures var t := AfterArrive(s, c);
            k in t.conns && t.conns[k].out == s.conns[k].out + ToSend(s, Arrive(c), k)
  {
    var conn, message := s.conns[c], s.conns[c].wire[0];
    var conn' := conn.(wire := conn.wire[1..], arrived := conn.arrived + [message]);
    assert s.conns[k].out + [] == s.conns[k].out;
    if conn.phase.Live? {
      OneActed(PutConn(s, c, conn'), c, message);
    } else {
      assert Replies(s.doc, conn.canWrite, []) == Gains(s.doc, conn.canWrite, []) == [];
    }
    hide Handle, Replies, Gains, Grown;
  }

  lemma {:induction false} ResumeSends(s: State, c: nat, k: nat)
    requires Allowed(s, Event.Resume(c)) && k in s.conns
    ensures var t := AfterResume(s, c);
            k in t.conns && t.conns[k].out == s.conns[k].out + ToSend(s, Event.Resume(c), k)
  {
    hide HandleAll, Replies, Gains, Grown;
    var conn := s.conns[c];
    AllActed(PutConn(s, c, conn.(phase := Live, queued := [])), c, conn.queued);
    assert s.conns[k].out + [] == s.conns[k].out;
  }

  /** What one event puts on the way to a connection, and nothing more. */
  lemma {:induction false} EventSends(s: State, e: Event, k: nat)
    requires Allowed(s, e) && k in s.conns
    ensures var t := After(s, e);
            && k in t.conns
            && t.conns[k].out ==
              if e.ClientReceives? && e.conn == k then s.conns[k].out[1..] else s.conns[k].out + ToSend(s, e, k)
  {
    hide AfterArrive, AfterResume, Replies, Gains;
    assert s.conns[k].out + [] == s.conns[k].out;
    if e.Arrive? {
      ArriveSends(s, e.conn, k);
    } else if e.Resume? {
      ResumeSends(s, e.conn, k);
    }
  }

  // ── What a run gave one connection ─────────────────────────────────────────

  /** The last thing that happened to its life, and the access it was admitted with. */
  function PhaseOf(events: seq<Event>, n: nat, k: nat): Option<Phase>
    requires n <= |events|
  {
    if n == 0 then None else
    match events[n - 1]
    case Connect(c, _) => if c == k then Some(Early) else PhaseOf(events, n - 1, k)
    case HandOver(c) => if c == k then Some(Queued) else PhaseOf(events, n - 1, k)
    case Admit(c, _) => if c == k then Some(Admitted) else PhaseOf(events, n - 1, k)
    case Join(c) => if c == k then Some(Joined) else PhaseOf(events, n - 1, k)
    case Resume(c) => if c == k then Some(Live) else PhaseOf(events, n - 1, k)
    case Close(c) => if c == k then Some(Closed) else PhaseOf(events, n - 1, k)
    case _ => PhaseOf(events, n - 1, k)
  }

  function Access(events: seq<Event>, n: nat, k: nat): bool
    requires n <= |events|
  {
    if n == 0 then false
    else if events[n - 1].Admit? && events[n - 1].conn == k then events[n - 1].canWrite
    else Access(events, n - 1, k)
  }

  /** What the client sent, what it was opened with and typed, and how many frames it took. */
  function Frames(events: seq<Event>, n: nat, k: nat): seq<Message>
    requires n <= |events|
  {
    if n == 0 then []
    else if events[n - 1].ClientSends? && events[n - 1].conn == k then
      Frames(events, n - 1, k) + [events[n - 1].message]
    else Frames(events, n - 1, k)
  }

  function Typed(events: seq<Event>, n: nat, k: nat): Doc
    requires n <= |events|
  {
    if n == 0 then {}
    else if events[n - 1].Connect? && events[n - 1].conn == k then events[n - 1].client
    else if events[n - 1].ClientSends? && events[n - 1].conn == k then Typed(events, n - 1, k) + events[n - 1].edit
    else Typed(events, n - 1, k)
  }

  function Taken(events: seq<Event>, n: nat, k: nat): nat
    requires n <= |events|
  {
    if n == 0 then 0
    else if events[n - 1].ClientReceives? && events[n - 1].conn == k then Taken(events, n - 1, k) + 1
    else Taken(events, n - 1, k)
  }

  /** Every frame the room ever sent it. */
  function Sends(states: seq<State>, events: seq<Event>, n: nat, k: nat): seq<Doc>
    requires |states| == |events| + 1 && n <= |events|
  {
    if n == 0 then []
    else if k in states[n - 1].conns then Sends(states, events, n - 1, k) + ToSend(states[n - 1], events[n - 1], k)
    else Sends(states, events, n - 1, k)
  }

  /** What one event does to one connection besides sending to it. */
  ghost predicate Steps(s: State, t: State, e: Event, k: nat) {
    && (k in t.conns <==> k in s.conns || (e.Connect? && e.conn == k))
    && (k !in s.conns && k in t.conns ==> t.conns[k] == Conn(Early, false, [], [], [], [], [], [], e.client))
    && (k in s.conns ==>
          && k in t.conns
          && t.conns[k].phase == PhaseAfter(s.conns[k].phase, e, k)
          && t.conns[k].canWrite == (if e.Admit? && e.conn == k then e.canWrite else s.conns[k].canWrite)
          && t.conns[k].client == s.conns[k].client
               + (if e.ClientSends? && e.conn == k then e.edit else {})
               + (if e.ClientReceives? && e.conn == k && s.conns[k].out != [] then s.conns[k].out[0] else {})
          && t.conns[k].handled == s.conns[k].handled
               + (if (e.Arrive? || e.Resume?) && e.conn == k then Turn(s, e) else [])
          && (e.ClientSends? && e.conn == k ==>
                t.conns[k].wire == s.conns[k].wire + [e.message] && t.conns[k].arrived == s.conns[k].arrived)
          && (!(e.ClientSends? && e.conn == k) ==>
                || (t.conns[k].wire == s.conns[k].wire && t.conns[k].arrived == s.conns[k].arrived)
                || (s.conns[k].wire != [] && t.conns[k].wire == s.conns[k].wire[1..]
                    && t.conns[k].arrived == s.conns[k].arrived
                         + (if s.conns[k].phase.Closed? then [] else [s.conns[k].wire[0]]))))
  }

  function PhaseAfter(phase: Phase, e: Event, k: nat): Phase {
    match e
    case HandOver(c) => if c == k then Queued else phase
    case Admit(c, _) => if c == k then Admitted else phase
    case Join(c) => if c == k then Joined else phase
    case Resume(c) => if c == k then Live else phase
    case Close(c) => if c == k then Closed else phase
    case _ => phase
  }

  lemma {:induction false} ArriveStepsConn(s: State, c: nat, k: nat)
    requires Allowed(s, Arrive(c))
    ensures Steps(s, AfterArrive(s, c), Arrive(c), k)
  {
    var conn, message := s.conns[c], s.conns[c].wire[0];
    var conn' := conn.(wire := conn.wire[1..], arrived := conn.arrived + [message]);
    if conn.phase.Live? { OneActed(PutConn(s, c, conn'), c, message); }
    hide Handle, Replies, Gains, Grown;
  }

  lemma {:induction false} ResumeStepsConn(s: State, c: nat, k: nat)
    requires Allowed(s, Event.Resume(c))
    ensures Steps(s, AfterResume(s, c), Event.Resume(c), k)
  {
    hide HandleAll, Replies, Gains, Grown;
    var conn := s.conns[c];
    AllActed(PutConn(s, c, conn.(phase := Live, queued := [])), c, conn.queued);
  }

  lemma {:induction false} EventSteps(s: State, e: Event, k: nat)
    requires Allowed(s, e)
    ensures Steps(s, After(s, e), e, k)
  {
    if e.Arrive? {
      hide AfterArrive, AfterResume;
      ArriveStepsConn(s, e.conn, k);
    } else if e.Resume? {
      hide AfterArrive, AfterResume;
      ResumeStepsConn(s, e.conn, k);
    } else {
      hide AfterArrive, AfterResume, Handle;
    }
  }

  /** What arrived is what the client sent, in order; a connection drops frames only once it is closed. */
  ghost predicate Inbox(conn: Conn, frames: seq<Message>) {
    conn.arrived <= frames && (!conn.phase.Closed? ==> frames == conn.arrived + conn.wire)
  }

  /** What is on its way to it is what it was sent and has not taken, and the client holds what it typed
      and what it took. */
  ghost predicate Channel(conn: Conn, typed: Doc, taken: nat, sends: seq<Doc>) {
    taken <= |sends| && conn.out == sends[taken..] && conn.client == typed + Union(sends[..taken])
  }

  lemma {:induction false} TakesOne(sends: seq<Doc>, taken: nat)
    requires taken < |sends|
    ensures sends[taken..][1..] == sends[taken + 1..] && sends[taken..][0] == sends[taken]
    ensures Union(sends[..taken + 1]) == Union(sends[..taken]) + sends[taken]
  {
    assert sends[..taken + 1] == sends[..taken] + [sends[taken]];
    UnionOfConcat(sends[..taken], [sends[taken]]);
    UnionOfOne(sends[taken]);
  }

  lemma {:induction false} ChannelStep(s: State, t: State, e: Event, k: nat, typed: Doc, taken: nat, sends: seq<Doc>)
    requires Allowed(s, e) && Steps(s, t, e, k) && k in s.conns && Channel(s.conns[k], typed, taken, sends)
    requires t.conns[k].out ==
      if e.ClientReceives? && e.conn == k then s.conns[k].out[1..] else s.conns[k].out + ToSend(s, e, k)
    ensures Channel(t.conns[k],
              if e.ClientSends? && e.conn == k then typed + e.edit else typed,
              if e.ClientReceives? && e.conn == k then taken + 1 else taken,
              sends + ToSend(s, e, k))
  {
    hide Union;
    if e.ClientReceives? && e.conn == k {
      assert ToSend(s, e, k) == [] && sends + [] == sends;
      TakesOne(sends, taken);
    } else {
      var more := ToSend(s, e, k);
      hide ToSend;
      assert (sends + more)[taken..] == sends[taken..] + more && (sends + more)[..taken] == sends[..taken];
    }
  }

  lemma {:induction false} InboxStep(s: State, t: State, e: Event, k: nat, frames: seq<Message>)
    requires Allowed(s, e) && Steps(s, t, e, k) && k in s.conns && Inbox(s.conns[k], frames)
    ensures Inbox(t.conns[k], if e.ClientSends? && e.conn == k then frames + [e.message] else frames)
  {
  }

  /** A connection is in the phase it was last moved to, with the access it was last admitted with, and its
      inbox and channel are accounted for by the events alone. */
  ghost predicate Accounted(states: seq<State>, events: seq<Event>, n: nat, k: nat)
    requires |states| == |events| + 1 && n <= |events|
  {
    if k !in states[n].conns then
      && PhaseOf(events, n, k) == None && !Access(events, n, k) && Frames(events, n, k) == []
      && Typed(events, n, k) == {} && Taken(events, n, k) == 0 && Sends(states, events, n, k) == []
    else
      var conn := states[n].conns[k];
      && PhaseOf(events, n, k) == Some(conn.phase) && Access(events, n, k) == conn.canWrite
      && Inbox(conn, Frames(events, n, k))
      && Channel(conn, Typed(events, n, k), Taken(events, n, k), Sends(states, events, n, k))
  }

  lemma {:induction false} FreshConn(client: Doc)
    ensures var conn := Conn(Early, false, [], [], [], [], [], [], client);
            Inbox(conn, []) && Channel(conn, client, 0, [])
  {
    assert Union([]) == {};
  }

  lemma {:induction false} StepIsAccounted(states: seq<State>, events: seq<Event>, n: nat, k: nat)
    requires |states| == |events| + 1 && 0 < n <= |events| && Accounted(states, events, n - 1, k)
    requires Allowed(states[n - 1], events[n - 1]) && states[n] == After(states[n - 1], events[n - 1])
    ensures Accounted(states, events, n, k)
  {
    var s, e := states[n - 1], events[n - 1];
    EventSteps(s, e, k);
    if k in s.conns {
      EventSends(s, e, k);
      var typed, taken := Typed(events, n - 1, k), Taken(events, n - 1, k);
      ChannelStep(s, states[n], e, k, typed, taken, Sends(states, events, n - 1, k));
      InboxStep(s, states[n], e, k, Frames(events, n - 1, k));
    } else if k in states[n].conns {
      FreshConn(e.client);
    }
    hide After, Channel, Inbox, ToSend;
  }

  lemma {:induction false} ConnectionsAreAccountedFor(
    loaded: Doc, states: seq<State>, events: seq<Event>, n: nat, k: nat)
    requires IsRun(loaded, states, events) && n <= |events|
    ensures Accounted(states, events, n, k)
  {
    hide Allowed, After, Accounted;
    if n == 0 {
      assert Accounted(states, events, 0, k) by { NothingYet(loaded, states, events, k); }
    } else {
      ConnectionsAreAccountedFor(loaded, states, events, n - 1, k);
      assert Allowed(states[n - 1], events[n - 1]) && states[n - 1 + 1] == After(states[n - 1], events[n - 1]);
      StepIsAccounted(states, events, n, k);
    }
  }

  lemma {:induction false} NothingYet(loaded: Doc, states: seq<State>, events: seq<Event>, k: nat)
    requires |states| == |events| + 1 && states[0] == Opened(loaded)
    ensures Accounted(states, events, 0, k)
  {
  }

  // ── No echo ────────────────────────────────────────────────────────────────

  /** A write that adds something is sent to every other member, once and as just what it added, and to
      nobody else: not back to the connection it came from. */
  lemma {:induction false} WriteIsSentToTheOthersOnce(
    loaded: Doc, states: seq<State>, events: seq<Event>, n: nat, c: nat, ops: Doc, k: nat)
    requires IsRun(loaded, states, events) && n < |events| && events[n] == Arrive(c)
    requires Turn(states[n], events[n]) == [Write(ops)] && states[n].conns[c].canWrite && !(ops <= states[n].doc)
    requires k in states[n].conns
    ensures var s, t := states[n], states[n + 1];
            && t.doc == s.doc + ops && k in t.conns
            && t.conns[k].out == s.conns[k].out + (if k != c && k in s.members then [ops - s.doc] else [])
  {
    var s := states[n];
    ArriveSends(s, c, k);
    var conn := s.conns[c].(wire := s.conns[c].wire[1..], arrived := s.conns[c].arrived + [Write(ops)]);
    OneActed(PutConn(s, c, conn), c, Write(ops));
    assert [Write(ops)][1..] == [] && [ops - s.doc] + [] == [ops - s.doc];
    hide Handle;
  }

  /** What instances of other servers contributed. */
  function FromBus(events: seq<Event>, n: nat): Doc
    requires n <= |events|
  {
    if n == 0 then {}
    else if events[n - 1].BusUpdate? then FromBus(events, n - 1) + events[n - 1].ops
    else FromBus(events, n - 1)
  }

  lemma {:induction false} BusIsTheEvents(s: State, e: Event)
    requires Allowed(s, e)
    ensures After(s, e).fromBus == s.fromBus + (if e.BusUpdate? then e.ops else {})
  {
    if e.Arrive? {
      var conn, message := s.conns[e.conn], s.conns[e.conn].wire[0];
      var conn' := conn.(wire := conn.wire[1..], arrived := conn.arrived + [message]);
      if conn.phase.Live? { OneActed(PutConn(s, e.conn, conn'), e.conn, message); }
    } else if e.Resume? {
      var conn := s.conns[e.conn];
      AllActed(PutConn(s, e.conn, conn.(phase := Live, queued := [])), e.conn, conn.queued);
    }
    hide Handle, HandleAll, Replies, Gains, Grown;
  }

  /** A room holds exactly what it was loaded with, every bus update, and what connections admitted with
      write access sent and it handled. */
  lemma {:induction false} RoomHoldsTheRun(loaded: Doc, states: seq<State>, events: seq<Event>, n: nat)
    requires IsRun(loaded, states, events) && n <= |events|
    ensures states[n].doc == loaded + FromBus(events, n) + WrittenHere(states[n].conns)
    ensures states[n].fromBus == FromBus(events, n)
  {
    hide Allowed, After, WrittenHere;
    OnlyWritersChangeTheRoom(loaded, states, events, n);
    if n > 0 {
      RoomHoldsTheRun(loaded, states, events, n - 1);
      assert Allowed(states[n - 1], events[n - 1]) && states[n - 1 + 1] == After(states[n - 1], events[n - 1]);
      BusIsTheEvents(states[n - 1], events[n - 1]);
    }
  }

  ghost predicate NoneTwice(docs: seq<Doc>) {
    forall i, j | 0 <= i < j < |docs| :: docs[i] !! docs[j]
  }

  /** Each of these adds something that is not in `doc` and comes from `source`, and none repeats another. */
  ghost predicate New(docs: seq<Doc>, doc: Doc, source: Doc) {
    NoneTwice(docs) && forall i | 0 <= i < |docs| :: docs[i] != {} && docs[i] !! doc && docs[i] <= source
  }

  lemma {:induction false} GainsAreNew(doc: Doc, canWrite: bool, messages: seq<Message>)
    ensures New(Gains(doc, canWrite, messages), doc, if canWrite then WriteOps(messages) else {})
    decreases |messages|
  {
    if messages != [] {
      var first, rest := messages[0], messages[1..];
      assert forall op :: op in WriteOps(rest) ==> op in WriteOps(messages);
      if canWrite && first.Write? {
        GainsAreNew(doc + first.ops, canWrite, rest);
        assert forall op :: op in first.ops ==> op in WriteOps(messages) by { assert messages[0].Write?; }
        var more := Gains(doc + first.ops, canWrite, rest);
        NewAfter(doc, first.ops, more, if canWrite then WriteOps(messages) else {});
      } else {
        GainsAreNew(doc, canWrite, rest);
      }
    }
  }

  lemma {:induction false} NewAfter(doc: Doc, ops: Doc, more: seq<Doc>, source: Doc)
    requires New(more, doc + ops, source) && ops <= source
    ensures New((if ops <= doc then [] else [ops - doc]) + more, doc, source)
  {
    if ops <= doc {
      assert [] + more == more;
    } else {
      var all := [ops - doc] + more;
      assert forall i | 0 <= i < |all| :: all[i] == if i == 0 then ops - doc else more[i - 1];
      assert exists op :: op in ops - doc by { var op :| op in ops && op !in doc; assert op in ops - doc; }
    }
  }

  ghost predicate Asks(messages: seq<Message>) {
    exists i :: 0 <= i < |messages| && messages[i].Step1?
  }

  lemma {:induction false} NoAnswersUnasked(doc: Doc, canWrite: bool, messages: seq<Message>)
    requires !Asks(messages)
    ensures Replies(doc, canWrite, messages) == []
    decreases |messages|
  {
    if messages != [] {
      assert forall i | 0 <= i < |messages[1..]| :: messages[1..][i] == messages[i + 1];
      NoAnswersUnasked(if canWrite && messages[0].Write? then doc + messages[0].ops else doc, canWrite, messages[1..]);
      assert !messages[0].Step1?;
    }
  }

  /** What reached the room from anywhere but connection `k`. */
  ghost function FromOthers(s: State, k: nat): Doc {
    s.fromBus + WrittenHere(s.conns - {k})
  }

  lemma {:induction false} WrittenIsCounted(conns: map<nat, Conn>, c: nat, k: nat, messages: seq<Message>)
    requires c in conns && c != k && conns[c].canWrite && forall m | m in messages :: m in conns[c].handled
    ensures WriteOps(messages) <= WrittenHere(conns - {k})
  {
    forall op | op in WriteOps(messages)
      ensures op in WrittenHere(conns - {k})
    {
      var i :| 0 <= i < |messages| && messages[i].Write? && op in messages[i].ops;
      assert messages[i] in conns[c].handled;
      assert op in WriteOps(conns[c].handled) && c in conns - {k};
    }
  }

  /** What a step sends to a connection that did not ask: new to the room, and from elsewhere. */
  lemma {:induction false} SendsAreNew(s: State, t: State, e: Event, k: nat)
    requires Allowed(s, e) && t == After(s, e) && k in s.conns && k in t.conns && !Asks(t.conns[k].handled)
    ensures New(ToSend(s, e, k), s.doc, FromOthers(t, k))
  {
    hide After;
    if (e.Arrive? || e.Resume?) && e.conn in s.conns {
      var c, messages := e.conn, Turn(s, e);
      EventSteps(s, e, c);
      if c == k {
        assert !Asks(messages) by { AsksGrows(s.conns[c].handled, messages); }
        NoAnswersUnasked(s.doc, s.conns[c].canWrite, messages);
      } else {
        GainsAreNew(s.doc, s.conns[c].canWrite, messages);
        if s.conns[c].canWrite { WrittenIsCounted(t.conns, c, k, messages); }
      }
    } else if e.BusUpdate? && !(e.ops <= s.doc) {
      BusIsTheEvents(s, e);
      assert exists op :: op in e.ops - s.doc by { var op :| op in e.ops && op !in s.doc; assert op in e.ops - s.doc; }
    }
  }

  lemma {:induction false} AsksGrows(before: seq<Message>, more: seq<Message>)
    ensures Asks(before) || Asks(more) ==> Asks(before + more)
  {
    if i :| 0 <= i < |before| && before[i].Step1? { assert (before + more)[i].Step1?; }
    if i :| 0 <= i < |more| && more[i].Step1? { assert (before + more)[|before| + i].Step1?; }
  }

  lemma {:induction false} OthersOnlyAdd(s: State, t: State, e: Event, k: nat)
    requires Inv(s) && Allowed(s, e) && t == After(s, e)
    ensures FromOthers(s, k) <= FromOthers(t, k)
  {
    BusIsTheEvents(s, e);
    hide After;
    forall op | op in WrittenHere(s.conns - {k})
      ensures op in WrittenHere(t.conns - {k})
    {
      var c :| c in s.conns - {k} && s.conns[c].canWrite && op in WriteOps(s.conns[c].handled);
      EventSteps(s, e, c);
      ConnKeeps(s, c);
      var i :| 0 <= i < |s.conns[c].handled| && s.conns[c].handled[i].Write? && op in s.conns[c].handled[i].ops;
      assert t.conns[c].handled[i] == s.conns[c].handled[i];
      assert op in WriteOps(t.conns[c].handled) && c in t.conns - {k};
    }
  }

  lemma {:induction false} NewAppends(sends: seq<Doc>, more: seq<Doc>, doc: Doc, source: Doc, source': Doc)
    requires New(sends, {}, source) && source <= source' && source <= doc && New(more, doc, source')
    ensures New(sends + more, {}, source')
  {
    var all := sends + more;
    assert forall i | 0 <= i < |all| :: all[i] == if i < |sends| then sends[i] else more[i - |sends|];
  }

  /** A connection that has asked for nothing is sent only what other connections and other instances wrote,
      never what it wrote itself unless another wrote it too, and nothing twice. */
  lemma {:induction false} NothingIsEchoed(loaded: Doc, states: seq<State>, events: seq<Event>, n: nat, k: nat)
    requires IsRun(loaded, states, events) && n <= |events| && k in states[n].conns
    requires !Asks(states[n].conns[k].handled)
    ensures New(Sends(states, events, n, k), {}, FromOthers(states[n], k))
  {
    hide Allowed, After, Inv, New, FromOthers, Asks, ToSend;
    NothingIsNew({}, FromOthers(states[n], k));
    if n > 0 {
      var s, t, e := states[n - 1], states[n], events[n - 1];
      assert Allowed(s, e) && states[n - 1 + 1] == After(s, e);
      if k in s.conns {
        EventSteps(s, e, k);
        AsksGrows(s.conns[k].handled, t.conns[k].handled[|s.conns[k].handled|..]);
        assert t.conns[k].handled == s.conns[k].handled + t.conns[k].handled[|s.conns[k].handled|..];
        NothingIsEchoed(loaded, states, events, n - 1, k);
        RunKeeps(loaded, states, events, n - 1);
        OthersOnlyAdd(s, t, e, k);
        OthersAreHeld(loaded, states, events, n - 1, k);
        SendsAreNew(s, t, e, k);
        NewAppends(Sends(states, events, n - 1, k), ToSend(s, e, k), s.doc, FromOthers(s, k), FromOthers(t, k));
      } else {
        ConnectionsAreAccountedFor(loaded, states, events, n - 1, k);
      }
    }
  }

  lemma {:induction false} NothingIsNew(doc: Doc, source: Doc)
    ensures New([], doc, source)
  {
  }

  lemma {:induction false} OthersAreHeld(loaded: Doc, states: seq<State>, events: seq<Event>, n: nat, k: nat)
    requires IsRun(loaded, states, events) && n <= |events|
    ensures FromOthers(states[n], k) <= states[n].doc
  {
    RoomHoldsTheRun(loaded, states, events, n);
    hide Allowed, After, WriteOps;
    var conns := states[n].conns;
    assert forall c | c in conns - {k} :: c in conns && (conns - {k})[c] == conns[c];
  }
}
