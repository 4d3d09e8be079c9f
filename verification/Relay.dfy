/** The traffic between instances that are already subscribed to one document's channel: what
    sockets send, what is published, and what the broker still has to deliver. */
module Relay {
  import opened Yjs

  /** An update a socket sent to the instance it is connected to. */
  datatype SocketUpdate = SocketUpdate(instance: nat, canWrite: bool, ops: Doc)

  /** A published frame carries its publisher. */
  datatype Frame = Frame(instanceId: nat, payload: Doc)

  /** `frames` pairs every frame in flight with the subscriber it is for; delivery loses
      nothing and may reorder. `published` is everything ever published. */
  datatype Net = Net(
    instances: seq<nat>,
    docs: map<nat, Doc>,
    sockets: multiset<SocketUpdate>,
    frames: multiset<(nat, Frame)>,
    published: seq<Frame>)

  datatype Event = HandleSocket(update: SocketUpdate) | HandleFrame(to: nat, frame: Frame)

  /** The broker delivers a frame to every subscriber, its publisher included. */
  function Fanout(instances: seq<nat>, frame: Frame): (out: multiset<(nat, Frame)>)
    ensures |out| == |instances|
    ensures forall to, f :: (to, f) in out <==> to in instances && f == frame
  {
    if instances == [] then multiset{}
    else multiset{(instances[0], frame)} + Fanout(instances[1..], frame)
  }

  predicate Allowed(n: Net, e: Event) {
    match e
    case HandleSocket(update) => update in n.sockets && update.instance in n.docs
    case HandleFrame(to, frame) => (to, frame) in n.frames && to in n.docs
  }

  /** The local document takes the update; the observer publishes it if it changed anything and
      did not come from the bus. A socket that may not write changes nothing, and a frame of
      the receiver's own is dropped before it touches the document. */
  function After(n: Net, e: Event): Net
    requires Allowed(n, e)
  {
    match e
    case HandleSocket(update) =>
      var i, rest := update.instance, n.sockets - multiset{update};
      if !update.canWrite || update.ops <= n.docs[i] then n.(sockets := rest)
      else
        var frame := Frame(i, update.ops - n.docs[i]);
        n.(sockets := rest,
           docs := n.docs[i := n.docs[i] + update.ops],
           frames := n.frames + Fanout(n.instances, frame),
           published := n.published + [frame])
    case HandleFrame(to, frame) =>
      var rest := n.frames - multiset{(to, frame)};
      if frame.instanceId == to then n.(frames := rest)
      else n.(frames := rest, docs := n.docs[to := n.docs[to] + frame.payload])
  }

  ghost predicate IsRun(states: seq<Net>, events: seq<Event>) {
    && |states| == |events| + 1
    && forall i | 0 <= i < |events| :: Allowed(states[i], events[i]) && states[i + 1] == After(states[i], events[i])
  }

  /** Every instance has loaded the same document, and nothing is on the bus yet. */
  ghost predicate Start(n: Net, seed: Doc) {
    && n.docs.Keys == (set i | i in n.instances)
    && (forall i | i in n.docs :: n.docs[i] == seed)
    && n.frames == multiset{} && n.published == []
    && (forall u | u in n.sockets :: u.instance in n.docs)
  }

  ghost function WriterOps(sockets: multiset<SocketUpdate>): (ops: Doc)
    ensures forall op :: op in ops <==> exists u :: u in sockets && u.canWrite && op in u.ops
  {
    set u, op | u in sockets && u.canWrite && op in u.ops :: op
  }

  ghost function InFlightTo(frames: multiset<(nat, Frame)>, to: nat): (ops: Doc)
    ensures forall op :: op in ops <==> exists f :: (to, f) in frames && op in f.payload
  {
    set p, op | p in frames && p.0 == to && op in p.1.payload :: op
  }

  // ── Traffic ends ───────────────────────────────────────────────────────────

  /** Each socket update may cost one frame per instance, and a frame costs nothing more. */
  function Work(n: Net): nat {
    |n.sockets| * (|n.instances| + 1) + |n.frames|
  }

  lemma {:induction false} OneSocketLess(sockets: nat, each: nat)
    requires sockets > 0
    ensures (sockets - 1) * each + each == sockets * each
  {
  }

  lemma {:induction false} EventDoesWork(n: Net, e: Event)
    requires Allowed(n, e)
    ensures Work(After(n, e)) < Work(n)
    ensures After(n, e).instances == n.instances
  {
    match e
    case HandleSocket(update) =>
      assert |n.sockets - multiset{update}| == |n.sockets| - 1;
      OneSocketLess(|n.sockets|, |n.instances| + 1);
    case HandleFrame(to, frame) =>
      assert |n.frames - multiset{(to, frame)}| == |n.frames| - 1;
  }

  /** No run is longer than the work there was at the start: nothing echoes forever. */
  lemma {:induction false} TrafficTerminates(states: seq<Net>, events: seq<Event>, n: nat)
    requires IsRun(states, events) && n <= |events|
    ensures n + Work(states[n]) <= Work(states[0])
  {
    hide After, Work;
    if n > 0 {
      TrafficTerminates(states, events, n - 1);
      assert Allowed(states[n - 1], events[n - 1]) && states[n - 1 + 1] == After(states[n - 1], events[n - 1]);
      EventDoesWork(states[n - 1], events[n - 1]);
    }
  }

  /** The socket update changes the document of the instance it reached. */
  predicate Effective(n: Net, e: Event) {
    e.HandleSocket? && e.update.canWrite && e.update.instance in n.docs && !(e.update.ops <= n.docs[e.update.instance])
  }

  /** What an event changed, as a frame: the operations its instance's document gained. */
  function Change(n: Net, t: Net, e: Event): seq<Frame>
    requires Effective(n, e) ==> e.update.instance in t.docs
  {
    if Effective(n, e) then [Frame(e.update.instance, t.docs[e.update.instance] - n.docs[e.update.instance])] else []
  }

  ghost function Changes(states: seq<Net>, events: seq<Event>, n: nat): seq<Frame>
    requires IsRun(states, events) && n <= |events|
  {
    if n == 0 then []
    else
      assert Allowed(states[n - 1], events[n - 1]) && states[n - 1 + 1] == After(states[n - 1], events[n - 1]);
      Changes(states, events, n - 1) + Change(states[n - 1], states[n], events[n - 1])
  }

  /** What an instance published it holds, and it never published an operation twice. */
  ghost predicate PublishedApart(n: Net) {
    && (forall a | 0 <= a < |n.published| ::
          n.published[a].instanceId in n.docs && n.published[a].payload <= n.docs[n.published[a].instanceId])
    && (forall a, b | 0 <= a < b < |n.published| && n.published[a].instanceId == n.published[b].instanceId ::
          n.published[a].payload !! n.published[b].payload)
  }

  lemma {:induction false} EventPublishes(n: Net, e: Event)
    requires Allowed(n, e)
    ensures n.docs.Keys == After(n, e).docs.Keys && forall i | i in n.docs :: n.docs[i] <= After(n, e).docs[i]
    ensures After(n, e).published == n.published + Change(n, After(n, e), e)
  {
    hide Fanout;
    assert n.published + [] == n.published;
    if Effective(n, e) {
      var i := e.update.instance;
      assert n.docs[i] + e.update.ops - n.docs[i] == e.update.ops - n.docs[i];
    }
  }

  lemma {:induction false} EventPublishesApart(n: Net, e: Event)
    requires Allowed(n, e) && PublishedApart(n)
    ensures PublishedApart(After(n, e))
  {
    EventPublishes(n, e);
    hide After, Allowed;
    var t := After(n, e);
    forall a, b | 0 <= a < b < |t.published| && t.published[a].instanceId == t.published[b].instanceId
      ensures t.published[a].payload !! t.published[b].payload
    {
      assert t.published[a] == n.published[a];
    }
  }

  /** What instances published is exactly what socket updates changed: one frame for each that changed
      anything, carrying the operations its document gained, and none for a delivered frame; and no
      instance publishes an operation twice. */
  lemma {:induction false} PublishedExactlyOnce(states: seq<Net>, events: seq<Event>, n: nat, seed: Doc)
    requires IsRun(states, events) && n <= |events| && Start(states[0], seed)
    ensures states[n].published == Changes(states, events, n)
    ensures PublishedApart(states[n])
  {
    hide After, Effective, PublishedApart;
    if n == 0 {
      NothingPublished(states[0], seed);
    } else {
      PublishedExactlyOnce(states, events, n - 1, seed);
      assert Allowed(states[n - 1], events[n - 1]) && states[n - 1 + 1] == After(states[n - 1], events[n - 1]);
      EventPublishes(states[n - 1], events[n - 1]);
      EventPublishesApart(states[n - 1], events[n - 1]);
    }
  }

  lemma {:induction false} NothingPublished(n: Net, seed: Doc)
    requires Start(n, seed)
    ensures n.published == [] && PublishedApart(n)
  {
  }

  // ── Instances converge ─────────────────────────────────────────────────────

  ghost predicate Consistent(n: Net) {
    && n.docs.Keys == (set i | i in n.instances)
    && (forall u | u in n.sockets :: u.instance in n.docs)
    && (forall p | p in n.frames :: p.0 in n.docs && p.1.instanceId in n.docs && p.1.payload <= n.docs[p.1.instanceId])
  }

  /** What one instance holds, every other one holds or is still to be sent. */
  ghost predicate Spreading(n: Net) {
    forall i, j | i in n.docs && j in n.docs :: n.docs[i] <= n.docs[j] + InFlightTo(n.frames, j)
  }

  /** Nothing but the goal is ever held, and all of it is held or still to arrive by a socket. */
  ghost predicate Bounded(n: Net, goal: Doc) {
    && WriterOps(n.sockets) <= goal
    && (forall i | i in n.docs :: n.docs[i] <= goal)
    && (forall op | op in goal :: op in WriterOps(n.sockets) || exists i :: i in n.docs && op in n.docs[i])
  }

  lemma {:induction false} InFlightGrows(frames: multiset<(nat, Frame)>, more: multiset<(nat, Frame)>, to: nat)
    requires frames <= more
    ensures InFlightTo(frames, to) <= InFlightTo(more, to)
  {
    forall op | op in InFlightTo(frames, to)
      ensures op in InFlightTo(more, to)
    {
      var f :| (to, f) in frames && op in f.payload;
      assert (to, f) in more;
    }
  }

  lemma {:induction false} SocketConsistent(n: Net, update: SocketUpdate)
    requires Consistent(n) && Allowed(n, HandleSocket(update))
    ensures Consistent(After(n, HandleSocket(update)))
  {
    hide Fanout;
    var t, i := After(n, HandleSocket(update)), update.instance;
    var frame := Frame(i, update.ops - n.docs[i]);
    forall p | p in t.frames
      ensures p.0 in t.docs && p.1.instanceId in t.docs && p.1.payload <= t.docs[p.1.instanceId]
    {
      assert p in n.frames || p in Fanout(n.instances, frame);
    }
  }

  lemma {:induction false} SocketSpreads(n: Net, update: SocketUpdate)
    requires Consistent(n) && Spreading(n) && Allowed(n, HandleSocket(update))
    ensures Spreading(After(n, HandleSocket(update)))
  {
    var t, i := After(n, HandleSocket(update)), update.instance;
    if update.canWrite && !(update.ops <= n.docs[i]) {
      var frame := Frame(i, update.ops - n.docs[i]);
      forall k, j | k in t.docs && j in t.docs
        ensures t.docs[k] <= t.docs[j] + InFlightTo(t.frames, j)
      {
        InFlightGrows(n.frames, t.frames, j);
        assert (j, frame) in t.frames;
        assert n.docs[k] <= n.docs[j] + InFlightTo(n.frames, j);
      }
    }
  }

  lemma {:induction false} FrameSpreads(n: Net, to: nat, frame: Frame)
    requires Consistent(n) && Spreading(n) && Allowed(n, HandleFrame(to, frame))
    ensures Consistent(After(n, HandleFrame(to, frame))) && Spreading(After(n, HandleFrame(to, frame)))
  {
    var t := After(n, HandleFrame(to, frame));
    assert (to, frame) in n.frames && frame.payload <= n.docs[frame.instanceId];
    assert frame.payload <= t.docs[to];
    forall k, j | k in t.docs && j in t.docs
      ensures t.docs[k] <= t.docs[j] + InFlightTo(t.frames, j)
    {
      forall op | op in t.docs[k]
        ensures op in t.docs[j] + InFlightTo(t.frames, j)
      {
        var holder := if op in n.docs[k] then k else frame.instanceId;
        assert op in n.docs[holder] && n.docs[holder] <= n.docs[j] + InFlightTo(n.frames, j);
        if op !in t.docs[j] {
          var f :| (j, f) in n.frames && op in f.payload;
          assert (j, f) in t.frames;
        }
      }
    }
  }

  lemma {:induction false} SocketBounded(n: Net, update: SocketUpdate, goal: Doc)
    requires Bounded(n, goal) && Allowed(n, HandleSocket(update))
    ensures Bounded(After(n, HandleSocket(update)), goal)
  {
    var t, i := After(n, HandleSocket(update)), update.instance;
    assert forall op | op in WriterOps(t.sockets) :: op in WriterOps(n.sockets);
    assert update.canWrite ==> update.ops <= WriterOps(n.sockets) && update.ops <= t.docs[i];
    assert forall j | j in n.docs :: j in t.docs && n.docs[j] <= t.docs[j];
    forall op | op in goal && op !in WriterOps(t.sockets)
      ensures exists j :: j in t.docs && op in t.docs[j]
    {
      if op in WriterOps(n.sockets) {
        var u :| u in n.sockets && u.canWrite && op in u.ops;
        assert u == update || u in t.sockets;
        assert op in t.docs[i];
      } else {
        var j :| j in n.docs && op in n.docs[j];
        assert j in t.docs && op in t.docs[j];
      }
    }
  }

  lemma {:induction false} FrameBounded(n: Net, to: nat, frame: Frame, goal: Doc)
    requires Consistent(n) && Bounded(n, goal) && Allowed(n, HandleFrame(to, frame))
    ensures Bounded(After(n, HandleFrame(to, frame)), goal)
  {
    var t := After(n, HandleFrame(to, frame));
    assert (to, frame) in n.frames && frame.payload <= n.docs[frame.instanceId] <= goal;
    forall op | op in goal && op !in WriterOps(t.sockets)
      ensures exists j :: j in t.docs && op in t.docs[j]
    {
      var j :| j in n.docs && op in n.docs[j];
      assert j in t.docs && op in t.docs[j];
    }
  }

  lemma {:induction false} RunConverges(states: seq<Net>, events: seq<Event>, n: nat, goal: Doc)
    requires IsRun(states, events) && n <= |events|
    requires Consistent(states[0]) && Spreading(states[0]) && Bounded(states[0], goal)
    ensures Consistent(states[n]) && Spreading(states[n]) && Bounded(states[n], goal)
    ensures states[n].docs.Keys == states[0].docs.Keys
  {
    hide Consistent, Spreading, Bounded;
    if n > 0 {
      RunConverges(states, events, n - 1, goal);
      var s, e := states[n - 1], events[n - 1];
      assert Allowed(s, e) && states[n - 1 + 1] == After(s, e);
      match e {
        case HandleSocket(update) =>
          SocketConsistent(s, update);
          SocketSpreads(s, update);
          SocketBounded(s, update, goal);
        case HandleFrame(to, frame) =>
          FrameSpreads(s, to, frame);
          FrameBounded(s, to, frame, goal);
      }
    }
  }

  /** When every socket update has been handled and every frame delivered, all instances hold
      the same operations: the ones they loaded and the ones connections that may write sent. */
  lemma {:induction false} InstancesAgreeAtQuiescence(states: seq<Net>, events: seq<Event>, n: nat, seed: Doc, i: nat)
    requires IsRun(states, events) && n <= |events| && Start(states[0], seed)
    requires states[n].sockets == multiset{} && states[n].frames == multiset{}
    requires i in states[0].docs
    ensures i in states[n].docs && states[n].docs[i] == seed + WriterOps(states[0].sockets)
  {
    hide After;
    var goal := seed + WriterOps(states[0].sockets);
    assert Spreading(states[0]) && Consistent(states[0]);
    assert Bounded(states[0], goal) by {
      assert forall op | op in seed :: op in states[0].docs[i];
    }
    RunConverges(states, events, n, goal);
    var s := states[n];
    assert InFlightTo(s.frames, i) == {};
    forall op | op in goal
      ensures op in s.docs[i]
    {
      var j :| j in s.docs && op in s.docs[j];
      assert s.docs[j] <= s.docs[i] + InFlightTo(s.frames, i);
    }
  }
}
