/** The worker: one job in, its output frames out, and one terminal frame on every path. */
module Worker {
  import Limits
  import Registry = RunRegistry
  import Utf8
  import Wrappers

  /** How carrying out the run went: a result, an exception, or an exception after the result was
      published. */
  datatype Execution =
    | Returned(result: Limits.Result)
    | Threw
    | ReturnedThenThrew(result: Limits.Result)

  const RunFailed := Limits.Result(Limits.Error, Wrappers.None, 0, false, Wrappers.Some("run failed"))

  function ExitOf(execution: Execution): Limits.Result {
    if execution.Threw? then RunFailed else execution.result
  }

  function Outputs(pieces: seq<Limits.Piece>): seq<Registry.Frame> {
    seq(|pieces|, i requires 0 <= i < |pieces| => Registry.Output(pieces[i]))
  }

  function Published(pieces: seq<Limits.Piece>, execution: Execution): seq<Registry.Frame> {
    Outputs(pieces) + [Registry.Exit(ExitOf(execution))]
  }

  class Publisher {
    var issued: seq<Registry.Frame>

    constructor ()
      ensures issued == []
    {
      issued := [];
    }

    /** Commands leave one connection in the order they were issued; a failure is only logged. */
    method Publish(frame: Registry.Frame)
      modifies this
      ensures issued == old(issued) + [frame]
    {
      issued := issued + [frame];
    }
  }

  class RunJob {
    const publisher: Publisher
    var terminalSent: bool

    constructor (publisher: Publisher)
      ensures this.publisher == publisher && !terminalSent
    {
      this.publisher, terminalSent := publisher, false;
    }

    method SendExit(result: Limits.Result)
      modifies this, publisher
      ensures terminalSent
      ensures publisher.issued == old(publisher.issued) + (if old(terminalSent) then [] else [Registry.Exit(result)])
    {
      if terminalSent {
        return;
      }
      terminalSent := true;
      publisher.Publish(Registry.Exit(result));
    }

    method ForwardAll(pieces: seq<Limits.Piece>)
      modifies publisher
      ensures publisher.issued == old(publisher.issued) + Outputs(pieces)
    {
      for k := 0 to |pieces|
        invariant publisher.issued == old(publisher.issued) + Outputs(pieces[..k])
      {
        publisher.Publish(Registry.Output(pieces[k]));
        assert Outputs(pieces[..k + 1]) == Outputs(pieces[..k]) + [Registry.Output(pieces[k])];
      }
      assert pieces[..|pieces|] == pieces;
    }

    /** Three places send the exit frame; exactly one frame leaves, after all output. */
    method Handle(pieces: seq<Limits.Piece>, execution: Execution)
      requires !terminalSent
      modifies this, publisher
      ensures terminalSent && publisher.issued == old(publisher.issued) + Published(pieces, execution)
      ensures |publisher.issued| == |old(publisher.issued)| + |pieces| + 1
      ensures forall k | 0 <= k < |pieces| ::
          publisher.issued[|old(publisher.issued)| + k] == Registry.Output(pieces[k])
      ensures var last := publisher.issued[|publisher.issued| - 1];
              && last.Exit?
              && (!execution.Threw? ==> last.result == execution.result)
              && (execution.Threw? ==>
                    && last.result.status == Limits.Error && last.result.exitCode.None? && !last.result.truncated
                    && last.result.message == Wrappers.Some("run failed"))
    {
      ForwardAll(pieces);
      if !execution.Threw? {
        SendExit(execution.result);
      }
      if !execution.Returned? {
        SendExit(RunFailed);
      }
      SendExit(RunFailed);
    }
  }

  // ── From the program to the browser ────────────────────────────────────────

  lemma {:induction false} SnocOfReceived(events: seq<Registry.Event>)
    requires events != [] && forall i | 0 <= i < |Registry.Received(events)| :: Registry.Received(events)[i].Parsed?
    ensures var before := events[..|events| - 1];
            && (forall i | 0 <= i < |Registry.Received(before)| :: Registry.Received(before)[i].Parsed?)
            && Registry.TotalLength(Registry.Received(before)) <= Registry.TotalLength(Registry.Received(events))
  {
    var before, sent := events[..|events| - 1], Registry.Sent(events[|events| - 1]);
    var all, received := Registry.Received(events), Registry.Received(before);
    assert all == received + sent;
    assert forall i | 0 <= i < |received| :: all[i] == received[i];
    if sent != [] {
      Registry.TotalLengthSnoc(received, sent[0].frame, sent[0].length);
    } else {
      assert all == received;
    }
  }

  lemma {:induction false} SuffixIsShorter(messages: seq<Registry.Message>, k: nat)
    requires k <= |messages|
    ensures Registry.TotalLength(messages[k..]) <= Registry.TotalLength(messages)
    decreases |messages|
  {
    if messages[k..] != [] {
      var shorter := messages[..|messages| - 1];
      assert messages[k..][..|messages| - k - 1] == shorter[k..];
      SuffixIsShorter(shorter, k);
    }
  }

  /** A run whose payloads together stay below the cap never finds its entry full. */
  lemma {:induction false} SmallRunsAreComplete(events: seq<Registry.Event>)
    requires Registry.TotalLength(Registry.Received(events)) < Limits.MAX_OUTPUT_BYTES
    ensures Registry.Kept(events) == Registry.Received(events) && !Registry.Full(Registry.Run(events))
  {
    hide Registry.Run, Registry.TotalLength;
    if events != [] {
      ReceivedAreParsed(events);
      SnocOfReceived(events);
      SmallRunsAreComplete(events[..|events| - 1]);
    }
    Registry.FramesOnceInOrder(events);
    SuffixIsShorter(Registry.Kept(events), |Registry.Run(events).handed|);
  }

  lemma {:induction false} ReceivedAreParsed(events: seq<Registry.Event>)
    ensures forall i | 0 <= i < |Registry.Received(events)| :: Registry.Received(events)[i].Parsed?
  {
    if events != [] {
      ReceivedAreParsed(events[..|events| - 1]);
    }
  }

  /** Whatever the program wrote and whenever clients came and went: if the payloads before the exit
      frame stay below the cap, whoever drains the run is handed the first bytes of its output, in
      order, and then its result, and nothing else. */
  lemma {:induction false} OutputReachesTheClient(limits: seq<Limits.Event>, outcome: Limits.Outcome,
                                                  before: seq<Registry.Event>, length: nat, after: seq<Registry.Event>)
    requires Registry.TotalLength(Registry.Received(before)) < Limits.MAX_OUTPUT_BYTES && Registry.Received(after) == []
    requires Registry.OutputsOnly(Registry.Received(before))
    requires Registry.FramesOf(Registry.Received(before)) == Outputs(Limits.Run(limits).forwarded)
    ensures var s := Limits.Run(limits);
            var j := Registry.Run(Registry.RunEvents(before, Limits.ResultOf(s, outcome), length, after));
            var out := Limits.TextOf(Limits.Written(limits));
            && (j.buffered == [] ==>
                  Registry.Handed(j) == Published(s.forwarded, Returned(Limits.ResultOf(s, outcome))))
            && Limits.TextOf(s.forwarded)
                == Utf8.Decode(Utf8.Encode(out)[..Limits.Min(|Utf8.Encode(out)|, Limits.MAX_OUTPUT_BYTES)])
  {
    hide Registry.Run, Registry.Kept, Registry.Received, Limits.Run, Limits.ResultOf, Utf8.Encode, Utf8.Decode,
         Limits.TextOf;
    var result := Limits.ResultOf(Limits.Run(limits), outcome);
    var events := Registry.RunEvents(before, result, length, after);
    SmallRunsAreComplete(before);
    Registry.EndOfRun(before, result, length, after);
    Registry.FramesOnceInOrder(events);
    Limits.ForwardsTheFirstBytes(limits);
    var j, kept := Registry.Run(events), Registry.Kept(events);
    assert kept == Registry.Received(before) + [Registry.Parsed(Registry.Exit(result), length)];
    assert Registry.FramesOf(kept) == Registry.FramesOf(Registry.Received(before)) + [Registry.Exit(result)];
    assert j.buffered == [] ==> Registry.Handed(j) + j.buffered == Registry.Handed(j);
  }
}
