/** The run policy: a wall clock, and a byte budget on output, over one abort that happens once. */
module Limits {
  import opened Wrappers
  import opened Utf8

  const MAX_OUTPUT_BYTES: nat := 1_000_000

  datatype Stream = Stdout | Stderr

  datatype Piece = Piece(stream: Stream, text: string)

  datatype Reason = NotAborted | Timeout | Output

  /** What one run has recorded so far; `aborts` counts how often the container was told to stop. */
  datatype Limited = Limited(reason: Reason, sentBytes: nat, forwarded: seq<Piece>, aborts: nat)

  datatype Event = Chunk(piece: Piece) | TimerFires

  const Started := Limited(NotAborted, 0, [], 0)

  function AfterAbort(s: Limited, why: Reason): Limited {
    if s.reason != NotAborted then s else s.(reason := why, aborts := s.aborts + 1)
  }

  function AfterOutput(s: Limited, piece: Piece): Limited {
    if s.reason == Output then s
    else
      var size := |Encode(piece.text)|;
      if s.sentBytes + size <= MAX_OUTPUT_BYTES then
        s.(sentBytes := s.sentBytes + size, forwarded := s.forwarded + [piece])
      else if s.sentBytes < MAX_OUTPUT_BYTES then
        var part := Decode(Encode(piece.text)[..MAX_OUTPUT_BYTES - s.sentBytes]);
        AfterAbort(s.(sentBytes := MAX_OUTPUT_BYTES, forwarded := s.forwarded + [Piece(piece.stream, part)]), Output)
      else AfterAbort(s, Output)
  }

  function After(s: Limited, event: Event): Limited {
    match event
    case Chunk(piece) => AfterOutput(s, piece)
    case TimerFires => AfterAbort(s, Timeout)
  }

  function Run(events: seq<Event>): Limited {
    if events == [] then Started else After(Run(events[..|events| - 1]), events[|events| - 1])
  }

  // ── What the program wrote ─────────────────────────────────────────────────

  function Written(events: seq<Event>): seq<Piece> {
    if events == [] then [] else
    var last := events[|events| - 1];
    Written(events[..|events| - 1]) + (if last.Chunk? then [last.piece] else [])
  }

  function TextOf(pieces: seq<Piece>): string {
    if pieces == [] then "" else TextOf(pieces[..|pieces| - 1]) + pieces[|pieces| - 1].text
  }

  function Total(events: seq<Event>): nat {
    |Encode(TextOf(Written(events)))|
  }

  lemma {:induction false} TextOfSnoc(pieces: seq<Piece>, last: Piece)
    ensures TextOf(pieces + [last]) == TextOf(pieces) + last.text
  {
    assert (pieces + [last])[..|pieces|] == pieces;
  }

  lemma {:induction false} WrittenStep(events: seq<Event>)
    requires events != []
    ensures var before, last := events[..|events| - 1], events[|events| - 1];
            && (last.TimerFires? ==> Written(events) == Written(before) && Total(events) == Total(before))
            && (last.Chunk? ==>
                  && TextOf(Written(events)) == TextOf(Written(before)) + last.piece.text
                  && Encode(TextOf(Written(events))) == Encode(TextOf(Written(before))) + Encode(last.piece.text)
                  && Total(events) == Total(before) + |Encode(last.piece.text)|)
  {
    hide Encode, TextOf;
    var before, last := events[..|events| - 1], events[|events| - 1];
    if last.Chunk? {
      TextOfSnoc(Written(before), last.piece);
      EncodeOfConcat(TextOf(Written(before)), last.piece.text);
    } else {
      assert Written(before) + [] == Written(before);
    }
  }

  function Min(a: nat, b: nat): nat {
    if a < b then a else b
  }

  /** The budget as the run keeps it, when the program has written `out` so far. */
  ghost predicate Accounted(s: Limited, out: string) {
    && s.sentBytes == Min(|Encode(out)|, MAX_OUTPUT_BYTES)
    && TextOf(s.forwarded) == Decode(Encode(out)[..s.sentBytes])
    && (s.reason == Output ==> |Encode(out)| > MAX_OUTPUT_BYTES)
  }

  lemma {:induction false} PrefixOfConcat(a: seq<Byte>, b: seq<Byte>, n: nat)
    requires n <= |a|
    ensures (a + b)[..n] == a[..n] && (a + b)[..|a| + |b|] == a + b
  {
  }

  lemma {:induction false} PrefixPast(a: seq<Byte>, b: seq<Byte>, n: nat)
    requires n <= |b|
    ensures (a + b)[..|a| + n] == a + b[..n]
  {
  }

  lemma {:induction false} WholeText(s: Limited, out: string)
    requires Accounted(s, out) && |Encode(out)| <= MAX_OUTPUT_BYTES
    ensures TextOf(s.forwarded) == out
  {
    hide Encode, Decode, TextOf;
    assert Encode(out)[..|Encode(out)|] == Encode(out);
    DecodeOfEncode(out);
  }

  lemma {:induction false} EmptyText(text: string)
    ensures Encode(text) == [] <==> text == ""
  {
  }

  /** Output past the budget changes nothing any more. */
  lemma {:induction false} DroppedKeepsAccount(s: Limited, t: Limited, out: string, text: string)
    requires Accounted(s, out) && |Encode(out)| >= MAX_OUTPUT_BYTES && t.sentBytes == s.sentBytes
    requires TextOf(t.forwarded) == TextOf(s.forwarded)
    requires t.reason == Output ==> |Encode(out + text)| > MAX_OUTPUT_BYTES
    ensures Accounted(t, out + text)
  {
    hide Encode, Decode, TextOf;
    EncodeOfConcat(out, text);
    PrefixOfConcat(Encode(out), Encode(text), s.sentBytes);
  }

  lemma {:induction false} WholeKeepsAccount(s: Limited, out: string, piece: Piece)
    requires Accounted(s, out) && |Encode(out)| + |Encode(piece.text)| <= MAX_OUTPUT_BYTES
    ensures Accounted(AfterOutput(s, piece), out + piece.text)
  {
    hide Encode, Decode, TextOf;
    WholeText(s, out);
    EncodeOfConcat(out, piece.text);
    DecodeOfEncode(out + piece.text);
    TextOfSnoc(s.forwarded, piece);
    PrefixOfConcat(Encode(out), Encode(piece.text), 0);
  }

  lemma {:induction false} CutKeepsAccount(s: Limited, out: string, piece: Piece)
    requires Accounted(s, out) && |Encode(out)| < MAX_OUTPUT_BYTES < |Encode(out)| + |Encode(piece.text)|
    ensures Accounted(AfterOutput(s, piece), out + piece.text)
  {
    hide Encode, Decode, TextOf;
    var remaining := MAX_OUTPUT_BYTES - |Encode(out)|;
    WholeText(s, out);
    EncodeOfConcat(out, piece.text);
    DecodeAfter(out, Encode(piece.text)[..remaining]);
    TextOfSnoc(s.forwarded, Piece(piece.stream, Decode(Encode(piece.text)[..remaining])));
    PrefixPast(Encode(out), Encode(piece.text), remaining);
  }

  lemma {:induction false} OutputKeepsAccount(s: Limited, out: string, piece: Piece)
    requires Accounted(s, out)
    ensures Accounted(AfterOutput(s, piece), out + piece.text)
  {
    hide Encode, Decode, TextOf;
    var total, size := |Encode(out)|, |Encode(piece.text)|;
    if total + size <= MAX_OUTPUT_BYTES {
      WholeKeepsAccount(s, out, piece);
    } else if total < MAX_OUTPUT_BYTES {
      CutKeepsAccount(s, out, piece);
    } else {
      EncodeOfConcat(out, piece.text);
      EmptyText(piece.text);
      TextOfSnoc(s.forwarded, piece);
      assert TextOf(s.forwarded) + "" == TextOf(s.forwarded);
      DroppedKeepsAccount(s, AfterOutput(s, piece), out, piece.text);
    }
  }

  lemma {:induction false} RunAccounted(events: seq<Event>)
    ensures Accounted(Run(events), TextOf(Written(events)))
  {
    hide Decode, Encode, AfterOutput, Accounted, TextOf;
    if events == [] {
      NothingWritten();
    } else {
      var before, last := events[..|events| - 1], events[|events| - 1];
      RunAccounted(before);
      WrittenStep(events);
      if last.Chunk? {
        OutputKeepsAccount(Run(before), TextOf(Written(before)), last.piece);
      } else {
        TimerKeepsAccount(Run(before), TextOf(Written(before)));
      }
    }
  }

  lemma {:induction false} NothingWritten()
    ensures Accounted(Started, TextOf([])) && Written([]) == []
  {
  }

  lemma {:induction false} TimerKeepsAccount(s: Limited, out: string)
    requires Accounted(s, out)
    ensures Accounted(AfterAbort(s, Timeout), out)
  {
  }

  /** However the output was cut into chunks and whenever the timer fired, the run accepts exactly
      the first bytes of the output up to the budget, forwards them decoded, and the forwarded text
      takes at most two bytes more than the budget. */
  lemma {:induction false} ForwardsTheFirstBytes(events: seq<Event>)
    ensures var s, out := Run(events), TextOf(Written(events));
            && s.sentBytes == Min(|Encode(out)|, MAX_OUTPUT_BYTES)
            && TextOf(s.forwarded) == Decode(Encode(out)[..s.sentBytes])
            && (|Encode(out)| <= MAX_OUTPUT_BYTES ==> TextOf(s.forwarded) == out)
            && (exists k :: ShownIn(out, s.sentBytes, k, TextOf(s.forwarded)))
            && |Encode(TextOf(s.forwarded))| <= MAX_OUTPUT_BYTES + 2
  {
    hide Encode, Decode, Run, ShownIn;
    RunAccounted(events);
    var s, out := Run(events), TextOf(Written(events));
    CutText(out, s.sentBytes);
    if |Encode(out)| <= MAX_OUTPUT_BYTES { WholeText(s, out); }
  }

  // ── Which stream each piece came from ──────────────────────────────────────

  function Clip(piece: Piece, room: nat): seq<Piece> {
    if piece.text == "" || room == 0 then []
    else [Piece(piece.stream, Decode(Encode(piece.text)[..Min(|Encode(piece.text)|, room)]))]
  }

  /** The pieces that begin within the budget, the last of them cut to what is left of it. */
  function Clipped(pieces: seq<Piece>): seq<Piece> {
    if pieces == [] then []
    else
      var before, last := pieces[..|pieces| - 1], pieces[|pieces| - 1];
      Clipped(before) + Clip(last, MAX_OUTPUT_BYTES - Min(|Encode(TextOf(before))|, MAX_OUTPUT_BYTES))
  }

  function NonEmpty(pieces: seq<Piece>): seq<Piece> {
    if pieces == [] then []
    else NonEmpty(pieces[..|pieces| - 1]) + (if pieces[|pieces| - 1].text == "" then [] else [pieces[|pieces| - 1]])
  }

  lemma {:induction false} NonEmptySnoc(pieces: seq<Piece>, last: Piece)
    ensures NonEmpty(pieces + [last]) == NonEmpty(pieces) + (if last.text == "" then [] else [last])
  {
    assert (pieces + [last])[..|pieces|] == pieces;
  }

  lemma {:induction false} ClippedSnoc(pieces: seq<Piece>, last: Piece)
    ensures Clipped(pieces + [last])
         == Clipped(pieces) + Clip(last, MAX_OUTPUT_BYTES - Min(|Encode(TextOf(pieces))|, MAX_OUTPUT_BYTES))
  {
    assert (pieces + [last])[..|pieces|] == pieces;
  }

  lemma {:induction false} SomethingShown(text: string, n: nat)
    requires text != "" && 0 < n <= |Encode(text)|
    ensures Decode(Encode(text)[..n]) != ""
  {
  }

  lemma {:induction false} WholeIsClip(piece: Piece, room: nat)
    requires |Encode(piece.text)| <= room
    ensures Clip(piece, room) == if piece.text == "" then [] else [piece]
  {
    hide Encode, Decode;
    EmptyText(piece.text);
    assert Encode(piece.text)[..|Encode(piece.text)|] == Encode(piece.text);
    DecodeOfEncode(piece.text);
  }

  /** Forwarded pieces keep their order and stream, and only the one that crosses the budget is cut. */
  lemma {:induction false} ForwardsClippedPieces(events: seq<Event>)
    ensures NonEmpty(Run(events).forwarded) == Clipped(Written(events))
  {
    hide Encode, Decode, TextOf, Clip, Clipped, NonEmpty, AfterOutput;
    if events == [] {
      NothingClipped();
    } else {
      var before, last := events[..|events| - 1], events[|events| - 1];
      ForwardsClippedPieces(before);
      BudgetKnown(before);
      if last.Chunk? {
        ClippedSnoc(Written(before), last.piece);
        ClipIsForwarded(Run(before), last.piece, MAX_OUTPUT_BYTES - Min(Total(before), MAX_OUTPUT_BYTES));
      } else {
        assert Written(before) + [] == Written(before);
      }
    }
  }

  lemma {:induction false} NothingClipped()
    ensures NonEmpty(Started.forwarded) == Clipped([])
  {
  }

  lemma {:induction false} BudgetKnown(events: seq<Event>)
    ensures Run(events).sentBytes == Min(Total(events), MAX_OUTPUT_BYTES)
    ensures Run(events).reason == Output ==> Total(events) > MAX_OUTPUT_BYTES
  {
    hide Encode, TextOf;
    RunAccounted(events);
  }

  lemma {:induction false} ClipIsForwarded(s: Limited, piece: Piece, room: nat)
    requires s.sentBytes + room == MAX_OUTPUT_BYTES && (s.reason == Output ==> room == 0)
    ensures NonEmpty(AfterOutput(s, piece).forwarded) == NonEmpty(s.forwarded) + Clip(piece, room)
  {
    hide Encode, Decode, NonEmpty;
    var size := |Encode(piece.text)|;
    assert NonEmpty(s.forwarded) + [] == NonEmpty(s.forwarded);
    if s.reason != Output {
      if size <= room {
        NonEmptySnoc(s.forwarded, piece);
        WholeIsClip(piece, room);
      } else if room > 0 {
        EncodeOfNothing();
        SomethingShown(piece.text, room);
        NonEmptySnoc(s.forwarded, Piece(piece.stream, Decode(Encode(piece.text)[..room])));
      }
    }
  }

  lemma {:induction false} EncodeOfNothing()
    ensures Encode("") == []
  {
  }

  // ── Why the run was stopped ────────────────────────────────────────────────

  /** The timer fired while the output was still within the budget. */
  ghost predicate TimerFirst(events: seq<Event>) {
    exists k :: 0 <= k < |events| && events[k].TimerFires? && Total(events[..k]) <= MAX_OUTPUT_BYTES
  }

  lemma {:induction false} TimerFirstStep(events: seq<Event>)
    requires events != []
    ensures var before := events[..|events| - 1];
            TimerFirst(events) <==>
              TimerFirst(before) || (events[|events| - 1].TimerFires? && Total(before) <= MAX_OUTPUT_BYTES)
  {
    hide Total;
    var before := events[..|events| - 1];
    if k :| 0 <= k < |events| && events[k].TimerFires? && Total(events[..k]) <= MAX_OUTPUT_BYTES {
      assert k < |before| ==> before[k] == events[k] && before[..k] == events[..k];
    }
    if k :| 0 <= k < |before| && before[k].TimerFires? && Total(before[..k]) <= MAX_OUTPUT_BYTES {
      assert before[k] == events[k] && before[..k] == events[..k];
    }
    assert events[..|events| - 1] == before;
  }

  /** The first limit reached is the one recorded, and the container is told to stop once. */
  lemma {:induction false} FirstReasonWins(events: seq<Event>)
    ensures var s := Run(events);
            && (s.reason == Timeout <==> TimerFirst(events))
            && (s.reason == Output <==> Total(events) > MAX_OUTPUT_BYTES && !TimerFirst(events))
            && s.aborts == (if s.reason == NotAborted then 0 else 1)
  {
    hide Encode, Decode, TextOf, Total, TimerFirst;
    if events == [] {
      NothingFirst();
    } else {
      var before := events[..|events| - 1];
      FirstReasonWins(before);
      BudgetKnown(before);
      TimerFirstStep(events);
      WrittenStep(events);
    }
  }

  lemma {:induction false} NothingFirst()
    ensures !TimerFirst([]) && Total([]) == 0
  {
  }

  // ── The result ─────────────────────────────────────────────────────────────

  datatype Status = Ok | TimedOut | Error

  /** What the sandbox did: the program ended, or the run could not be carried out. */
  datatype Outcome = Ended(exitCode: Option<int>, durationMs: nat) | Failed(elapsedMs: nat, message: string)

  datatype Result = Result(
    status: Status, exitCode: Option<int>, durationMs: nat, truncated: bool, message: Option<string>)

  function ResultOf(s: Limited, outcome: Outcome): Result {
    match outcome
    case Failed(elapsedMs, message) => Result(Error, None, elapsedMs, s.reason == Output, Some(message))
    case Ended(exitCode, durationMs) =>
      if s.reason == Timeout then Result(TimedOut, None, durationMs, false, None)
      else Result(Ok, exitCode, durationMs, s.reason == Output, None)
  }

  /** The whole result, from what the program wrote, when the timer fired and how the sandbox ended: its
      exit code is the program's own unless the run timed out or failed, and its duration and message
      are the sandbox's. Output cut after the timer fired is not reported as truncated. */
  lemma {:induction false} ResultMeans(events: seq<Event>, outcome: Outcome)
    ensures var r := ResultOf(Run(events), outcome);
            && (r.truncated <==> Total(events) > MAX_OUTPUT_BYTES && !TimerFirst(events))
            && (r.status == Error <==> outcome.Failed?)
            && (r.status == TimedOut <==> outcome.Ended? && TimerFirst(events))
            && (r.status == Ok <==> outcome.Ended? && !TimerFirst(events))
            && r.exitCode == (if outcome.Ended? && !TimerFirst(events) then outcome.exitCode else None)
            && r.durationMs == (if outcome.Ended? then outcome.durationMs else outcome.elapsedMs)
            && r.message == (if outcome.Failed? then Some(outcome.message) else None)
            && (r.status == Ok && !r.truncated ==> TextOf(Run(events).forwarded) == TextOf(Written(events)))
  {
    hide Run, Total, TimerFirst, TextOf, Encode, Decode;
    FirstReasonWins(events);
    ForwardsTheFirstBytes(events);
    assert Total(events) == |Encode(TextOf(Written(events)))| by { TotalIs(events); }
  }

  /** Output cut after the timer fired: text is missing, and the result does not say so. */
  lemma {:induction false} CutAfterTimeoutIsSilent(piece: Piece, outcome: Outcome)
    requires |Encode(piece.text)| > MAX_OUTPUT_BYTES + 2
    ensures var events := [TimerFires, Chunk(piece)];
            && TextOf(Run(events).forwarded) != TextOf(Written(events))
            && !ResultOf(Run(events), outcome).truncated
  {
    var events := [TimerFires, Chunk(piece)];
    OneChunkWritten(piece);
    ForwardsTheFirstBytes(events);
    ResultMeans(events, outcome);
    TotalIs(events);
    hide Encode, Decode, Run, ResultOf, ShownIn, TextOf, Total, Written;
    assert events[0].TimerFires? && Total(events[..0]) <= MAX_OUTPUT_BYTES;
  }

  lemma {:induction false} OneChunkWritten(piece: Piece)
    ensures TextOf(Written([TimerFires, Chunk(piece)])) == piece.text && Total([TimerFires, Chunk(piece)][..0]) == 0
  {
    hide Encode;
    var events := [TimerFires, Chunk(piece)];
    assert events[..1] == [TimerFires] && [TimerFires][..0] == [];
    assert Written([TimerFires]) == [];
    assert Written(events) == [piece] && TextOf([piece]) == "" + piece.text;
    NothingFirst();
    assert events[..0] == [];
  }

  lemma {:induction false} TotalIs(events: seq<Event>)
    ensures Total(events) == |Encode(TextOf(Written(events)))|
  {
  }

  // ── The run in place ───────────────────────────────────────────────────────

  class LimitedRun {
    var reason: Reason
    var sentBytes: nat
    var forwarded: seq<Piece>
    var aborts: nat

    ghost function State(): Limited
      reads this
    {
      Limited(reason, sentBytes, forwarded, aborts)
    }

    constructor ()
      ensures State() == Started
    {
      reason, sentBytes, forwarded, aborts := NotAborted, 0, [], 0;
    }

    /** Also the timer's callback, with `Timeout`. */
    method AbortWith(why: Reason)
      modifies this
      ensures State() == AfterAbort(old(State()), why)
    {
      if reason != NotAborted {
        return;
      }
      reason := why;
      aborts := aborts + 1;
    }

    method OnOutput(piece: Piece)
      modifies this
      ensures State() == AfterOutput(old(State()), piece)
    {
      if reason == Output {
        return;
      }
      var bytes := Encode(piece.text);
      if sentBytes + |bytes| <= MAX_OUTPUT_BYTES {
        sentBytes := sentBytes + |bytes|;
        forwarded := forwarded + [piece];
        return;
      }
      if sentBytes < MAX_OUTPUT_BYTES {
        var remaining := MAX_OUTPUT_BYTES - sentBytes;
        sentBytes := sentBytes + remaining;
        forwarded := forwarded + [Piece(piece.stream, Decode(bytes[..remaining]))];
      }
      AbortWith(Output);
    }

    method Finish(outcome: Outcome) returns (result: Result)
      ensures result == ResultOf(State(), outcome)
    {
      if outcome.Failed? {
        return Result(Error, None, outcome.elapsedMs, reason == Output, Some(outcome.message));
      }
      if reason == Timeout {
        return Result(TimedOut, None, outcome.durationMs, false, None);
      }
      result := Result(Ok, outcome.exitCode, outcome.durationMs, reason == Output, None);
    }
  }
}
