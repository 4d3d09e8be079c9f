/** Run output on its way to the browser: buffered until a client attaches, replayed in order, and
    the entry dropped once the terminal frame has been handed over. */
module RunRegistry {
  import opened Wrappers
  import Limits

  datatype Frame = Output(piece: Limits.Piece) | Exit(result: Limits.Result)

  /** A message on the run's channel, with the length of its payload. */
  datatype Message = Parsed(frame: Frame, length: nat) | Unparseable

  datatype Event =
    | Receive(message: Message)
    | Attach(client: nat)
    | Detach
    | Close

  /** A frame handed to a client. */
  datatype Delivery = Delivery(client: nat, frame: Frame)

  /** One run. `open` says whether the map still holds it; `handed` is what its sinks were given. */
  datatype Job = Job(
    buffered: seq<Frame>,
    bufferedBytes: nat,
    sink: Option<nat>,
    terminal: bool,
    open: bool,
    handed: seq<Delivery>)

  const Opened := Job([], 0, None, false, true, [])

  function Removed(j: Job): Job {
    if j.open then j.(open := false, sink := None) else j
  }

  function AfterReceive(j: Job, frame: Frame, length: nat): Job {
    var stored :=
      if j.sink.Some? then j.(handed := j.handed + [Delivery(j.sink.value, frame)])
      else if j.bufferedBytes < Limits.MAX_OUTPUT_BYTES
      then j.(buffered := j.buffered + [frame], bufferedBytes := j.bufferedBytes + length)
      else j;
    if frame.Output? then stored
    else
      var done := stored.(terminal := true);
      if done.sink.Some? then Removed(done) else done
  }

  function To(client: nat, frames: seq<Frame>): seq<Delivery> {
    seq(|frames|, i requires 0 <= i < |frames| => Delivery(client, frames[i]))
  }

  function AfterAttach(j: Job, client: nat): Job {
    if !j.open then j
    else
      var replayed := j.(
        sink := Some(client), buffered := [], bufferedBytes := 0, handed := j.handed + To(client, j.buffered));
      if replayed.terminal then Removed(replayed) else replayed
  }

  function After(j: Job, event: Event): Job {
    match event
    case Receive(Parsed(frame, length)) => AfterReceive(j, frame, length)
    case Receive(Unparseable) => j
    case Attach(client) => AfterAttach(j, client)
    case Detach => if j.open then j.(sink := None) else j
    case Close => Removed(j)
  }

  function Run(events: seq<Event>): Job {
    if events == [] then Opened else After(Run(events[..|events| - 1]), events[|events| - 1])
  }

  // ── Every frame, once and in order ─────────────────────────────────────────

  function Handed(j: Job): seq<Frame> {
    seq(|j.handed|, i requires 0 <= i < |j.handed| => j.handed[i].frame)
  }

  /** A frame arriving now would be dropped: nobody is attached and the buffer is full. */
  predicate Full(j: Job) {
    j.sink.None? && j.bufferedBytes >= Limits.MAX_OUTPUT_BYTES
  }

  function Sent(event: Event): seq<Message> {
    if event.Receive? && event.message.Parsed? then [event.message] else []
  }

  /** The messages received, without those that arrived while the entry was full. */
  function Kept(events: seq<Event>): seq<Message> {
    if events == [] then []
    else
      var before := events[..|events| - 1];
      Kept(before) + (if Full(Run(before)) then [] else Sent(events[|events| - 1]))
  }

  function FramesOf(messages: seq<Message>): (frames: seq<Frame>)
    requires forall i | 0 <= i < |messages| :: messages[i].Parsed?
  {
    seq(|messages|, i requires 0 <= i < |messages| => messages[i].frame)
  }

  function TotalLength(messages: seq<Message>): nat {
    if messages == [] then 0
    else
      var last := messages[|messages| - 1];
      TotalLength(messages[..|messages| - 1]) + (if last.Parsed? then last.length else 0)
  }

  /** What the entry holds, against the messages it kept: those handed over, then those buffered. */
  ghost predicate Faithful(j: Job, kept: seq<Message>) {
    && (forall i | 0 <= i < |kept| :: kept[i].Parsed?)
    && (j.sink.Some? ==> j.open && !j.terminal && j.buffered == [])
    && |j.handed| <= |kept|
    && Handed(j) + j.buffered == FramesOf(kept)
    && j.bufferedBytes == TotalLength(kept[|j.handed|..])
  }

  lemma {:induction false} TotalLengthSnoc(messages: seq<Message>, frame: Frame, length: nat)
    ensures TotalLength(messages + [Parsed(frame, length)]) == TotalLength(messages) + length
  {
    assert (messages + [Parsed(frame, length)])[..|messages|] == messages;
  }

  lemma {:induction false} ReceiveIsFaithful(j: Job, kept: seq<Message>, frame: Frame, length: nat)
    requires Faithful(j, kept)
    ensures Faithful(AfterReceive(j, frame, length), kept + (if Full(j) then [] else [Parsed(frame, length)]))
  {
    var more := kept + [Parsed(frame, length)];
    if Full(j) {
      assert kept + [] == kept;
    } else {
      TotalLengthSnoc(kept[|j.handed|..], frame, length);
      assert FramesOf(more) == FramesOf(kept) + [frame];
      assert more[|j.handed|..] == kept[|j.handed|..] + [Parsed(frame, length)];
      if j.sink.Some? {
        var k := AfterReceive(j, frame, length);
        assert |j.handed| == |FramesOf(kept)| == |kept|;
        assert Handed(k) == Handed(j) + [frame];
        assert Handed(k) + [] == Handed(k);
        assert more[|k.handed|..] == [];
      } else {
        assert Handed(j) + (j.buffered + [frame]) == (Handed(j) + j.buffered) + [frame];
      }
    }
  }

  lemma {:induction false} AttachIsFaithful(j: Job, kept: seq<Message>, client: nat)
    requires Faithful(j, kept)
    ensures Faithful(AfterAttach(j, client), kept)
  {
    if j.open {
      var k := AfterAttach(j, client);
      assert |kept| == |FramesOf(kept)|;
      assert Handed(k) == Handed(j) + j.buffered;
      assert Handed(k) + [] == Handed(k);
      assert kept[|k.handed|..] == [];
    }
  }

  /** Under any interleaving, what clients were handed and then what is still buffered is the
      received sequence, with no frame reordered or repeated, and only those that found the entry
      full missing; and `bufferedBytes` counts exactly the payloads still buffered. */
  lemma {:induction false} FramesOnceInOrder(events: seq<Event>)
    ensures Faithful(Run(events), Kept(events))
  {
    hide AfterReceive, AfterAttach;
    if events == [] {
      NothingReceived();
    } else {
      var before, last := events[..|events| - 1], events[|events| - 1];
      var j, kept := Run(before), Kept(before);
      FramesOnceInOrder(before);
      hide Faithful;
      assert kept + [] == kept;
      match last {
        case Receive(Parsed(frame, length)) => ReceiveIsFaithful(j, kept, frame, length);
        case Attach(client) => AttachIsFaithful(j, kept, client);
        case _ => QuietIsFaithful(j, kept, last);
      }
    }
  }

  lemma {:induction false} QuietIsFaithful(j: Job, kept: seq<Message>, event: Event)
    requires Faithful(j, kept) && !event.Attach? && Sent(event) == []
    ensures Faithful(After(j, event), kept)
  {
    assert Handed(After(j, event)) == Handed(j);
  }

  lemma {:induction false} NothingReceived()
    ensures Faithful(Opened, [])
  {
  }

  // ── The terminal frame ─────────────────────────────────────────────────────

  /** Messages that arrive in these events. */
  function Received(events: seq<Event>): seq<Message> {
    if events == [] then [] else Received(events[..|events| - 1]) + Sent(events[|events| - 1])
  }

  ghost predicate OutputsOnly(messages: seq<Message>) {
    forall i | 0 <= i < |messages| :: messages[i].Parsed? && messages[i].frame.Output?
  }

  lemma {:induction false} KeptAreReceived(events: seq<Event>)
    ensures forall m | m in Kept(events) :: m in Received(events)
  {
    if events != [] {
      KeptAreReceived(events[..|events| - 1]);
    }
  }

  lemma {:induction false} RunOfConcat(before: seq<Event>, event: Event)
    ensures Run(before + [event]) == After(Run(before), event)
    ensures Kept(before + [event]) == Kept(before) + (if Full(Run(before)) then [] else Sent(event))
    ensures Received(before + [event]) == Received(before) + Sent(event)
  {
    assert (before + [event])[..|before|] == before;
  }

  /** The events of a run whose worker published its outputs and then one exit frame. */
  function RunEvents(before: seq<Event>, exit: Limits.Result, length: nat, after: seq<Event>): seq<Event> {
    before + [Receive(Parsed(Exit(exit), length))] + after
  }

  /** After the exit frame arrived: an accepted one is still buffered for as long as the entry lives. */
  ghost predicate Ending(j: Job, accepted: bool) {
    j.terminal && (j.open ==> j.sink.None? && (accepted ==> j.buffered != []))
  }

  lemma {:induction false} EndOfRun(before: seq<Event>, exit: Limits.Result, length: nat, after: seq<Event>)
    requires Received(after) == []
    ensures var events, accepted := RunEvents(before, exit, length, after), !Full(Run(before));
            && Kept(events) == Kept(before) + (if accepted then [Parsed(Exit(exit), length)] else [])
            && Ending(Run(events), accepted)
    decreases |after|
  {
    hide Received, Kept, Run;
    var event := Receive(Parsed(Exit(exit), length));
    if after == [] {
      assert RunEvents(before, exit, length, after) == before + [event];
      RunOfConcat(before, event);
      FramesOnceInOrder(before);
    } else {
      var shorter, last := after[..|after| - 1], after[|after| - 1];
      assert after == shorter + [last];
      RunOfConcat(shorter, last);
      EndOfRun(before, exit, length, shorter);
      var events := RunEvents(before, exit, length, shorter);
      assert RunEvents(before, exit, length, after) == events + [last];
      RunOfConcat(events, last);
      assert Kept(events) + [] == Kept(events);
    }
  }

  /** A run ends with exactly one exit frame, last, for whoever drains it, exactly when the exit
      frame did not find the buffer full; and then the entry is gone. When it did, no client is ever
      told that the run ended. */
  lemma {:induction false} DrainedRunEndsWithExit(before: seq<Event>, exit: Limits.Result, length: nat,
      after: seq<Event>)
    requires OutputsOnly(Received(before)) && Received(after) == []
    ensures var j, accepted := Run(RunEvents(before, exit, length, after)), !Full(Run(before));
            && (forall i | 0 <= i < |Handed(j)| && Handed(j)[i].Exit? ::
                  i == |Handed(j)| - 1 && Handed(j)[i] == Exit(exit))
            && (j.buffered == [] ==>
                  && (accepted <==> exists i :: 0 <= i < |Handed(j)| && Handed(j)[i].Exit?)
                  && (accepted ==> !j.open))
            && (!accepted ==> forall i | 0 <= i < |Handed(j)| :: Handed(j)[i].Output?)
  {
    hide Received, Kept, Run, AfterReceive, AfterAttach;
    var events, accepted := RunEvents(before, exit, length, after), !Full(Run(before));
    EndOfRun(before, exit, length, after);
    FramesOnceInOrder(events);
    FramesOnceInOrder(before);
    var j, kept, early := Run(events), Kept(events), Kept(before);
    assert FramesOf(kept) == Handed(j) + j.buffered;
    forall i | 0 <= i < |early|
      ensures FramesOf(kept)[i].Output?
    {
      assert early[i] in early;
      KeptAreReceived(before);
    }
    assert |FramesOf(kept)| == |kept|;
    forall i | 0 <= i < |Handed(j)|
      ensures Handed(j)[i] == FramesOf(kept)[i]
    {
      assert (Handed(j) + j.buffered)[i] == Handed(j)[i];
    }
    if accepted {
      assert FramesOf(kept)[|early|] == Exit(exit);
      if j.buffered == [] { assert Handed(j)[|early|].Exit?; }
    }
  }

  /** A full buffer, the exit frame, and a client after. */
  lemma {:induction false} FullThenExitThenAttach(piece: Limits.Piece, exit: Limits.Result, length: nat, client: nat)
    ensures var full := AfterReceive(Opened, Output(piece), Limits.MAX_OUTPUT_BYTES);
            var j := AfterAttach(AfterReceive(full, Exit(exit), length), client);
            j.handed == [Delivery(client, Output(piece))] && j.buffered == [] && !j.open
  {
    var full := AfterReceive(Opened, Output(piece), Limits.MAX_OUTPUT_BYTES);
    assert full == Job([Output(piece)], Limits.MAX_OUTPUT_BYTES, None, false, true, []);
    assert AfterReceive(full, Exit(exit), length) == full.(terminal := true);
    assert To(client, [Output(piece)]) == [Delivery(client, Output(piece))];
  }

  /** The exit frame really can be lost: a buffer at its limit when it arrives, and a client after. */
  lemma {:induction false} ExitCanBeLost(piece: Limits.Piece, exit: Limits.Result, length: nat, client: nat)
    ensures var full := Receive(Parsed(Output(piece), Limits.MAX_OUTPUT_BYTES));
            var j := Run([] + [full] + [Receive(Parsed(Exit(exit), length))] + [Attach(client)]);
            Handed(j) == [Output(piece)] && j.buffered == [] && !j.open
  {
    hide Run, AfterReceive, AfterAttach;
    var full := Receive(Parsed(Output(piece), Limits.MAX_OUTPUT_BYTES));
    var ended := Receive(Parsed(Exit(exit), length));
    StartsOpened();
    RunOfConcat([], full);
    RunOfConcat([] + [full], ended);
    RunOfConcat([] + [full] + [ended], Attach(client));
    FullThenExitThenAttach(piece, exit, length, client);
  }

  lemma {:induction false} StartsOpened()
    ensures Run([]) == Opened
  {
  }

  /** No client attaches and no exit frame arrives. */
  ghost predicate Waiting(rest: seq<Event>) {
    forall i | 0 <= i < |rest| ::
      !rest[i].Attach? && !(rest[i].Receive? && rest[i].message.Parsed? && rest[i].message.frame.Exit?)
  }

  ghost predicate Undisturbed(rest: seq<Event>) {
    forall i | 0 <= i < |rest| :: !rest[i].Detach? && !rest[i].Close?
  }

  lemma {:induction false} SinkStep(j: Job, client: nat, e: Event)
    requires !j.terminal && Waiting([e])
    requires (j.open && j.sink == Some(client)) || j.sink == None
    ensures var next := After(j, e);
            && !next.terminal
            && (j.open && j.sink == Some(client) && !e.Detach? && !e.Close? ==>
                  next.open && next.sink == Some(client))
            && (j.sink == None || e.Detach? || e.Close? ==> next.sink == None)
  {
    assert [e][0] == e;
  }

  /** While nobody attaches, the sink of an unfinished run is lost to a detach or a close only. */
  lemma {:induction false} SinkStaysExactlyWhen(events: seq<Event>, client: nat, rest: seq<Event>)
    requires Run(events).open && !Run(events).terminal && Run(events).sink == Some(client) && Waiting(rest)
    ensures var j := Run(events + rest);
            && !j.terminal
            && (Undisturbed(rest) ==> j.open && j.sink == Some(client))
            && (!Undisturbed(rest) ==> j.sink == None)
    decreases |rest|
  {
    hide Run, After;
    if rest == [] {
      assert events + rest == events;
    } else {
      var shorter, last := rest[..|rest| - 1], rest[|rest| - 1];
      assert forall i | 0 <= i < |shorter| :: rest[i] == shorter[i];
      SinkStaysExactlyWhen(events, client, shorter);
      assert events + rest == (events + shorter) + [last];
      RunOfConcat(events + shorter, last);
      SinkStep(Run(events + shorter), client, last);
      assert Undisturbed(rest) <==> Undisturbed(shorter) && !last.Detach? && !last.Close?;
    }
  }

  /** The second of two watchers is handed the ending exactly when, after it attached, nobody
      detaches and the run is not closed: detaching names the run and not a client, so the first
      watcher leaving is enough to take the ending away from the second. */
  lemma {:induction false} WatcherGetsTheEndingExactlyWhen(
    events: seq<Event>, second: nat, rest: seq<Event>, exit: Limits.Result, length: nat)
    requires Run(events).open && !Run(events).terminal && Waiting(rest)
    ensures var watched := events + [Attach(second)] + rest;
            var ended := watched + [Receive(Parsed(Exit(exit), length))];
            Run(ended).handed ==
              Run(watched).handed + (if Undisturbed(rest) then [Delivery(second, Exit(exit))] else [])
  {
    hide Run;
    var attached := events + [Attach(second)];
    RunOfConcat(events, Attach(second));
    SinkStaysExactlyWhen(attached, second, rest);
    RunOfConcat(attached + rest, Receive(Parsed(Exit(exit), length)));
  }

  /** With two watchers, the first one leaving. */
  lemma {:induction false} FirstWatcherSilencesTheSecond(
    events: seq<Event>, first: nat, second: nat, rest: seq<Event>, exit: Limits.Result, length: nat)
    requires Run(events).open && !Run(events).terminal && Waiting(rest)
    ensures var left := events + [Attach(first)] + [Attach(second)] + [Detach] + rest;
            Run(left + [Receive(Parsed(Exit(exit), length))]).handed == Run(left).handed
  {
    hide Run;
    var watched := events + [Attach(first)];
    RunOfConcat(events, Attach(first));
    assert ([Detach] + rest)[0] == Detach;
    assert forall i | 0 < i < |[Detach] + rest| :: ([Detach] + rest)[i] == rest[i - 1];
    WatcherGetsTheEndingExactlyWhen(watched, second, [Detach] + rest, exit, length);
    assert watched + [Attach(second)] + ([Detach] + rest) == watched + [Attach(second)] + [Detach] + rest;
  }

  // ── Who is handed what ─────────────────────────────────────────────────────

  /** The client attached last, and nobody has detached, and the run was not closed, since. */
  ghost predicate Watches(events: seq<Event>, client: nat) {
    exists a ::
      && 0 <= a < |events| && events[a] == Attach(client)
      && forall b | a < b < |events| :: !events[b].Attach? && !events[b].Detach? && !events[b].Close?
  }

  lemma {:induction false} WatchingOn(before: seq<Event>, event: Event, client: nat)
    ensures Watches(before, client) && !event.Attach? && !event.Detach? && !event.Close? ==>
      Watches(before + [event], client)
    ensures event == Attach(client) ==> Watches(before + [event], client)
  {
    var events := before + [event];
    if a :| && 0 <= a < |before| && before[a] == Attach(client)
            && forall b | a < b < |before| :: !before[b].Attach? && !before[b].Detach? && !before[b].Close? {
      assert events[a] == Attach(client) && forall b | a < b < |before| :: events[b] == before[b];
    }
    assert events[|before|] == event;
  }

  lemma {:induction false} SinkWatches(events: seq<Event>)
    ensures Run(events).sink.Some? ==> Watches(events, Run(events).sink.value)
    decreases |events|
  {
    if events != [] {
      var before, last := events[..|events| - 1], events[|events| - 1];
      SinkWatches(before);
      RunOfConcat(before, last);
      FramesOnceInOrder(before);
      SinkAfter(Run(before), last);
      hide Run, Watches, After;
      assert events == before + [last];
      if Run(events).sink.Some? { WatchingOn(before, last, Run(events).sink.value); }
    }
  }

  lemma {:induction false} SinkAfter(j: Job, event: Event)
    requires j.sink.Some? ==> j.open
    ensures var sink := After(j, event).sink;
            sink.Some? ==>
              || event == Attach(sink.value)
              || (sink == j.sink && !event.Attach? && !event.Detach? && !event.Close?)
  {
  }

  /** Every frame goes to the one client that watches: what an attach replays goes to the client it attaches,
      what arrives goes to the client attached last, and nothing is handed over at any other time. */
  lemma {:induction false} FramesGoToTheWatcher(events: seq<Event>, event: Event, i: nat)
    requires |Run(events).handed| <= i < |Run(events + [event]).handed|
    ensures event.Attach? || event.Receive?
    ensures var client := Run(events + [event]).handed[i].client;
            if event.Attach? then client == event.client else Watches(events, client)
  {
    RunOfConcat(events, event);
    SinkWatches(events);
    HandedBy(Run(events), event, i);
    hide Run, Watches, After;
  }

  lemma {:induction false} HandedBy(j: Job, event: Event, i: nat)
    requires |j.handed| <= i < |After(j, event).handed|
    ensures event.Attach? || event.Receive?
    ensures var client := After(j, event).handed[i].client;
            if event.Attach? then client == event.client else j.sink == Some(client)
  {
  }

  // ── The registry in place ──────────────────────────────────────────────────

  class RunEntry {
    const jobId: nat
    var buffered: seq<Frame>
    var bufferedBytes: nat
    var sink: Option<nat>
    var terminal: bool
    var handed: seq<Delivery>

    constructor (jobId: nat)
      ensures this.jobId == jobId && buffered == [] && bufferedBytes == 0 && sink == None && !terminal && handed == []
    {
      this.jobId := jobId;
      buffered, bufferedBytes, sink, terminal, handed := [], 0, None, false, [];
    }

    /** Calls the attached sink. */
    method Hand(client: nat, frame: Frame)
      modifies this`handed
      ensures handed == old(handed) + [Delivery(client, frame)]
    {
      handed := handed + [Delivery(client, frame)];
    }

    method Replay(client: nat, frames: seq<Frame>)
      modifies this`handed
      ensures handed == old(handed) + To(client, frames)
    {
      for k := 0 to |frames|
        invariant handed == old(handed) + To(client, frames[..k])
      {
        Hand(client, frames[k]);
        assert To(client, frames[..k + 1]) == To(client, frames[..k]) + [Delivery(client, frames[k])];
      }
      assert frames[..|frames|] == frames;
    }
  }

  class Registry {
    var entries: map<nat, RunEntry>

    /** Job ids are never reused, so an entry of the map under this one's id is this one. */
    ghost predicate Valid(entry: RunEntry)
      reads this
    {
      entry.jobId in entries ==> entries[entry.jobId] == entry
    }

    ghost function State(entry: RunEntry): Job
      reads this, entry
    {
      Job(entry.buffered, entry.bufferedBytes, entry.sink, entry.terminal, entry.jobId in entries, entry.handed)
    }

    constructor ()
      ensures entries == map[]
    {
      entries := map[];
    }

    method Open(jobId: nat) returns (entry: RunEntry)
      requires jobId !in entries
      modifies this
      ensures fresh(entry) && entry.jobId == jobId && entries == old(entries)[jobId := entry]
      ensures Valid(entry) && State(entry) == Opened
    {
      entry := new RunEntry(jobId);
      entries := entries[jobId := entry];
    }

    method Remove(entry: RunEntry)
      requires Valid(entry)
      modifies this, entry`sink
      ensures Valid(entry) && State(entry) == Removed(old(State(entry)))
      ensures entries == old(entries) - {entry.jobId}
    {
      if entry.jobId !in entries {
        return;
      }
      entries := entries - {entry.jobId};
      entry.sink := None;
    }

    method Receive(entry: RunEntry, message: Message)
      requires Valid(entry)
      modifies this, entry
      ensures Valid(entry) && State(entry) == After(old(State(entry)), Event.Receive(message))
      ensures forall other | other in old(entries) && other != entry.jobId ::
          other in entries && entries[other] == old(entries)[other]
    {
      if message.Unparseable? {
        return;
      }
      var frame := message.frame;
      if entry.sink.Some? {
        entry.Hand(entry.sink.value, frame);
      } else if entry.bufferedBytes < Limits.MAX_OUTPUT_BYTES {
        entry.buffered := entry.buffered + [frame];
        entry.bufferedBytes := entry.bufferedBytes + message.length;
      }
      if frame.Exit? {
        entry.terminal := true;
        if entry.sink.Some? {
          Remove(entry);
        }
      }
    }

    method Attach(entry: RunEntry, client: nat) returns (found: bool)
      requires Valid(entry)
      modifies this, entry
      ensures Valid(entry) && State(entry) == After(old(State(entry)), Event.Attach(client))
      ensures found == (entry.jobId in old(entries))
      ensures forall other | other in old(entries) && other != entry.jobId ::
          other in entries && entries[other] == old(entries)[other]
    {
      if entry.jobId !in entries {
        return false;
      }
      entry.sink := Some(client);
      var replay := entry.buffered;
      entry.buffered := [];
      entry.bufferedBytes := 0;
      entry.Replay(client, replay);
      if entry.terminal {
        Remove(entry);
      }
      found := true;
    }

    method Detach(entry: RunEntry)
      requires Valid(entry)
      modifies this, entry
      ensures Valid(entry) && State(entry) == After(old(State(entry)), Event.Detach) && entries == old(entries)
    {
      if entry.jobId in entries {
        entry.sink := None;
      }
    }
  }
}
