/** The document bus of one process: which room handles which document's channel, and the
    commands still on their way to the broker, which applies them first in, first out. */
module DocBus {
  import opened Yjs
  import opened DocStore

  /** `subscribe` and `unsubscribe` of a document's channel. */
  datatype Command = Subscribe(docId: DocId) | Unsubscribe(docId: DocId)

  /** `handlers` names the room behind each handler; `connected` is whether the subscriber
      connection was ever opened; `subscribed` is what the broker has applied so far. */
  datatype Bus = Bus(handlers: map<DocId, nat>, connected: bool, queue: seq<Command>, subscribed: set<DocId>)

  /** A frame as it travels: who published it, on which document, and the update it carries. */
  datatype Frame = Frame(instanceId: nat, docId: DocId, payload: Doc)

  const Closed := Bus(map[], false, [], {})

  function AfterSubscribe(bus: Bus, docId: DocId, room: nat): Bus {
    var with := bus.(handlers := bus.handlers[docId := room]);
    if docId in bus.handlers then with
    else with.(connected := true, queue := bus.queue + [Subscribe(docId)])
  }

  function AfterUnsubscribe(bus: Bus, docId: DocId): Bus {
    if !bus.connected || docId !in bus.handlers then bus
    else bus.(handlers := bus.handlers - {docId}, queue := bus.queue + [Unsubscribe(docId)])
  }

  function Applied(subscribed: set<DocId>, command: Command): set<DocId> {
    match command
    case Subscribe(docId) => subscribed + {docId}
    case Unsubscribe(docId) => subscribed - {docId}
  }

  /** The broker takes the next command. */
  function BrokerStep(bus: Bus): Bus {
    if bus.queue == [] then bus
    else bus.(queue := bus.queue[1..], subscribed := Applied(bus.subscribed, bus.queue[0]))
  }

  /** What the broker ends up with once it has taken every command. */
  function Drained(subscribed: set<DocId>, queue: seq<Command>): set<DocId>
    decreases |queue|
  {
    if queue == [] then subscribed else Drained(Applied(subscribed, queue[0]), queue[1..])
  }

  /** The room a frame is handed to, after the guard against this process's own echo. */
  function Receiver(bus: Bus, self: nat, frame: Frame): (rooms: set<nat>)
    ensures |rooms| <= 1
  {
    if frame.instanceId == self || frame.docId !in bus.handlers then {} else {bus.handlers[frame.docId]}
  }

  lemma {:induction false} DrainedAppend(subscribed: set<DocId>, queue: seq<Command>, command: Command)
    ensures Drained(subscribed, queue + [command]) == Applied(Drained(subscribed, queue), command)
    decreases |queue|
  {
    if queue == [] {
      assert Drained(subscribed, [command]) == Drained(Applied(subscribed, command), []);
    } else {
      assert (queue + [command])[1..] == queue[1..] + [command];
      DrainedAppend(Applied(subscribed, queue[0]), queue[1..], command);
    }
  }

  /** No command on its way is idle: each changes what the broker delivers when its turn comes. */
  ghost predicate EveryCommandCounts(subscribed: set<DocId>, queue: seq<Command>)
    decreases |queue|
  {
    queue == [] ||
    (Applied(subscribed, queue[0]) != subscribed && EveryCommandCounts(Applied(subscribed, queue[0]), queue[1..]))
  }

  lemma {:induction false} CountsAppend(subscribed: set<DocId>, queue: seq<Command>, command: Command)
    requires EveryCommandCounts(subscribed, queue)
    requires Applied(Drained(subscribed, queue), command) != Drained(subscribed, queue)
    ensures EveryCommandCounts(subscribed, queue + [command])
    decreases |queue|
  {
    if queue == [] {
      assert [command][1..] == [];
      assert EveryCommandCounts(Applied(subscribed, command), []);
    } else {
      assert (queue + [command])[1..] == queue[1..] + [command];
      CountsAppend(Applied(subscribed, queue[0]), queue[1..], command);
    }
  }

  /** Once the queue drains, the broker delivers exactly the channels that have a handler, and
      no command on the way there is idle. */
  ghost predicate BusInv(bus: Bus) {
    && Drained(bus.subscribed, bus.queue) == bus.handlers.Keys
    && EveryCommandCounts(bus.subscribed, bus.queue)
    && (!bus.connected ==> bus.handlers == map[])
  }

  lemma {:induction false} SubscribeKeeps(bus: Bus, docId: DocId, room: nat)
    requires BusInv(bus)
    ensures BusInv(AfterSubscribe(bus, docId, room))
  {
    DrainedAppend(bus.subscribed, bus.queue, Subscribe(docId));
    if docId !in bus.handlers {
      CountsAppend(bus.subscribed, bus.queue, Subscribe(docId));
    }
    hide Drained, EveryCommandCounts;
  }

  lemma {:induction false} UnsubscribeKeeps(bus: Bus, docId: DocId)
    requires BusInv(bus)
    ensures BusInv(AfterUnsubscribe(bus, docId))
    ensures AfterUnsubscribe(bus, docId).handlers == bus.handlers - {docId}
  {
    DrainedAppend(bus.subscribed, bus.queue, Unsubscribe(docId));
    if docId in bus.handlers {
      CountsAppend(bus.subscribed, bus.queue, Unsubscribe(docId));
    }
    hide Drained, EveryCommandCounts;
  }

  lemma {:induction false} BrokerKeeps(bus: Bus)
    requires BusInv(bus)
    ensures BusInv(BrokerStep(bus))
  {
  }

  /** The module-level variables of one process. */
  class BusClient {
    var handlers: map<DocId, nat>
    var connected: bool
    var queue: seq<Command>
    var subscribed: set<DocId>

    ghost function State(): Bus
      reads this
    {
      Bus(handlers, connected, queue, subscribed)
    }

    constructor ()
      ensures State() == Closed && BusInv(State())
    {
      handlers, connected, queue, subscribed := map[], false, [], {};
    }

    method SubscribeDoc(docId: DocId, room: nat)
      requires BusInv(State())
      modifies this
      ensures State() == AfterSubscribe(old(State()), docId, room) && BusInv(State())
    {
      SubscribeKeeps(State(), docId, room);
      var known := docId in handlers;
      handlers := handlers[docId := room];
      if known {
        return;
      }
      connected := true;
      queue := queue + [Subscribe(docId)];
    }

    /** An instance that never subscribed has no subscriber connection, and this opens none. */
    method UnsubscribeDoc(docId: DocId)
      requires BusInv(State())
      modifies this
      ensures State() == AfterUnsubscribe(old(State()), docId) && BusInv(State())
      ensures docId !in handlers
    {
      UnsubscribeKeeps(State(), docId);
      if !connected {
        return;
      }
      if docId !in handlers {
        return;
      }
      handlers := handlers - {docId};
      queue := queue + [Unsubscribe(docId)];
    }
  }
}
