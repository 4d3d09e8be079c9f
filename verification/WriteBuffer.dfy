/** The write buffer of one room: updates are batched, and each flush appends one merged row.
    `Buffer` is the closure's variables as a value; `DocPersistence` reassigns them in place. */
module WriteBuffer {
  import opened Wrappers

  const FLUSH_DELAY_MS := 2_000
  const FLUSH_BYTES := 64 * 1024

  /** An update the document emitted, and when. */
  datatype Update = Update(id: nat, at: int)

  /** Bytes on their way to the log: one update, or several merged into one. `requeued` marks
      a merged batch that went back to the buffer because its append failed. */
  datatype Blob = Blob(parts: seq<Update>, size: nat, requeued: bool)

  /** `chain` holds the captured batches still to be written, first one first; `rows` and
      `observed` are the log and the document's emissions so far. */
  datatype Buffer = Buffer(
    buffered: seq<Blob>,
    bufferedBytes: nat,
    timer: Option<int>,
    chain: seq<seq<Blob>>,
    detached: bool,
    rows: seq<Blob>,
    observed: seq<Update>,
    now: int)

  datatype Event =
    | Observe(id: nat, size: nat)
    | TimerFires
    | FlushCalled
    | WriteDone(ok: bool, mergedSize: nat)
    | DetachCalled
    | Tick(now: int)

  function Attached(now: int): Buffer {
    Buffer([], 0, None, [], false, [], [], now)
  }

  // ── The operations ─────────────────────────────────────────────────────────

  function Flushed(b: Buffer): Buffer {
    b.(buffered := [], bufferedBytes := 0, timer := None, chain := b.chain + [b.buffered])
  }

  function Observed(b: Buffer, id: nat, size: nat): Buffer {
    var update := Update(id, b.now);
    var b := b.(buffered := b.buffered + [Blob([update], size, false)],
                bufferedBytes := b.bufferedBytes + size,
                observed := b.observed + [update]);
    if b.bufferedBytes >= FLUSH_BYTES then Flushed(b)
    else if b.timer.None? then b.(timer := Some(b.now + FLUSH_DELAY_MS))
    else b
  }

  /** `mergeUpdates`: one blob with every part; its size is the library's business. */
  function Merged(batch: seq<Blob>, mergedSize: nat, requeued: bool): Blob {
    Blob(Parts(batch), mergedSize, requeued)
  }

  function Written(b: Buffer, ok: bool, mergedSize: nat): Buffer {
    if b.chain == [] then b
    else
      var batch := b.chain[0];
      var b := b.(chain := b.chain[1..]);
      if batch == [] then b
      else if ok then b.(rows := b.rows + [Merged(batch, mergedSize, false)])
      else b.(buffered := [Merged(batch, mergedSize, true)] + b.buffered, bufferedBytes := b.bufferedBytes + mergedSize)
  }

  function Detached(b: Buffer): Buffer {
    if b.detached then b else b.(detached := true, timer := None)
  }

  /** A detached buffer observes nothing, and a timer that is due fires before time moves on. */
  predicate Enabled(b: Buffer, e: Event) {
    match e
    case Observe(_, _) => !b.detached
    case TimerFires => b.timer.Some? && b.timer.value <= b.now
    case FlushCalled => !b.detached
    case WriteDone(_, _) => b.chain != []
    case DetachCalled => true
    case Tick(now) => b.now <= now && (b.timer.Some? ==> now <= b.timer.value)
  }

  function Next(b: Buffer, e: Event): Buffer {
    match e
    case Observe(id, size) => Observed(b, id, size)
    case TimerFires => Flushed(b)
    case FlushCalled => Flushed(b)
    case WriteDone(ok, mergedSize) => Written(b, ok, mergedSize)
    case DetachCalled => Detached(b)
    case Tick(now) => b.(now := now)
  }

  // ── What a buffer holds ────────────────────────────────────────────────────

  function Parts(blobs: seq<Blob>): seq<Update> {
    if blobs == [] then [] else blobs[0].parts + Parts(blobs[1..])
  }

  function ChainParts(chain: seq<seq<Blob>>): seq<Update> {
    if chain == [] then [] else Parts(chain[0]) + ChainParts(chain[1..])
  }

  function Bytes(blobs: seq<Blob>): nat {
    if blobs == [] then 0 else blobs[0].size + Bytes(blobs[1..])
  }

  lemma {:induction false} PartsOfConcat(a: seq<Blob>, b: seq<Blob>)
    ensures Parts(a + b) == Parts(a) + Parts(b)
    ensures Bytes(a + b) == Bytes(a) + Bytes(b)
  {
    if a == [] {
      assert a + b == b;
    } else {
      assert (a + b)[1..] == a[1..] + b;
      PartsOfConcat(a[1..], b);
    }
  }

  lemma {:induction false} PartsOfOne(blob: Blob)
    ensures Parts([blob]) == blob.parts && Bytes([blob]) == blob.size
  {
  }

  lemma {:induction false} ChainPartsOfConcat(a: seq<seq<Blob>>, batch: seq<Blob>)
    ensures ChainParts(a + [batch]) == ChainParts(a) + Parts(batch)
  {
    if a == [] {
      assert a + [batch] == [batch];
      assert [batch][1..] == [];
    } else {
      assert (a + [batch])[1..] == a[1..] + [batch];
      ChainPartsOfConcat(a[1..], batch);
    }
  }

  // ── Conservation and the counter ───────────────────────────────────────────

  ghost predicate Conserved(b: Buffer) {
    && multiset(b.observed) == multiset(Parts(b.rows)) + multiset(ChainParts(b.chain)) + multiset(Parts(b.buffered))
    && b.bufferedBytes == Bytes(b.buffered)
  }

  /** Nothing overtakes: rows, then captured, then buffered, is the order of observation. */
  ghost predicate Ordered(b: Buffer) {
    b.observed == Parts(b.rows) + ChainParts(b.chain) + Parts(b.buffered)
  }

  lemma {:induction false} FlushMoves(b: Buffer)
    ensures Conserved(b) ==> Conserved(Flushed(b))
    ensures Ordered(b) ==> Ordered(Flushed(b))
  {
    ChainPartsOfConcat(b.chain, b.buffered);
  }

  /** Appending to the buffer, or moving the chain's first part, on bare sequences. */
  lemma {:induction false} Rearrange(rows: seq<Update>, first: seq<Update>, rest: seq<Update>, buffered: seq<Update>)
    ensures rows + (first + rest) + buffered == (rows + first) + rest + buffered
    ensures multiset(rows + first) == multiset(rows) + multiset(first)
    ensures multiset(first + rest) == multiset(first) + multiset(rest)
    ensures multiset(first + buffered) == multiset(first) + multiset(buffered)
    ensures multiset(buffered + first) == multiset(buffered) + multiset(first)
    ensures (rows + rest + buffered) + first == rows + rest + (buffered + first)
  {
  }

  lemma {:induction false} ObserveConserves(b: Buffer, update: Update, size: nat)
    requires Conserved(b)
    ensures var blob := Blob([update], size, false);
            Conserved(b.(buffered := b.buffered + [blob], bufferedBytes := b.bufferedBytes + size,
                         observed := b.observed + [update]))
  {
    var blob := Blob([update], size, false);
    PartsOfConcat(b.buffered, [blob]);
    PartsOfOne(blob);
    hide Parts, ChainParts, Bytes;
    Rearrange([], [update], [], Parts(b.buffered));
    assert multiset(b.observed + [update]) == multiset(b.observed) + multiset([update]);
  }

  lemma {:induction false} ObserveOrders(b: Buffer, update: Update, size: nat)
    requires Ordered(b)
    ensures var blob := Blob([update], size, false);
            Ordered(b.(buffered := b.buffered + [blob], bufferedBytes := b.bufferedBytes + size,
                       observed := b.observed + [update]))
  {
    var blob := Blob([update], size, false);
    PartsOfConcat(b.buffered, [blob]);
    PartsOfOne(blob);
    hide Parts, ChainParts, Bytes;
    Rearrange(Parts(b.rows), [update], ChainParts(b.chain), Parts(b.buffered));
  }

  lemma {:induction false} ObserveKeeps(b: Buffer, id: nat, size: nat)
    ensures Conserved(b) ==> Conserved(Observed(b, id, size))
    ensures Ordered(b) ==> Ordered(Observed(b, id, size))
  {
    var update := Update(id, b.now);
    if Conserved(b) { ObserveConserves(b, update, size); }
    if Ordered(b) { ObserveOrders(b, update, size); }
    var grown := b.(buffered := b.buffered + [Blob([update], size, false)],
                    bufferedBytes := b.bufferedBytes + size, observed := b.observed + [update]);
    FlushMoves(grown);
    assert Observed(b, id, size) == (if grown.bufferedBytes >= FLUSH_BYTES then Flushed(grown)
                                     else grown.(timer := Observed(b, id, size).timer));
    hide Observed, Flushed, Parts, ChainParts, Bytes;
  }

  lemma {:induction false} AppendMoves(b: Buffer, mergedSize: nat)
    requires b.chain != [] && b.chain[0] != []
    ensures Conserved(b) ==> Conserved(Written(b, true, mergedSize))
    ensures Ordered(b) ==> Ordered(Written(b, true, mergedSize))
  {
    var batch, rest := b.chain[0], b.chain[1..];
    var done := Merged(batch, mergedSize, false);
    PartsOfConcat(b.rows, [done]);
    PartsOfOne(done);
    assert ChainParts(b.chain) == Parts(batch) + ChainParts(rest);
    hide Parts, ChainParts, Bytes;
    Rearrange(Parts(b.rows), Parts(batch), ChainParts(rest), Parts(b.buffered));
  }

  lemma {:induction false} RequeueMoves(b: Buffer, mergedSize: nat)
    requires b.chain != [] && b.chain[0] != []
    ensures Conserved(b) ==> Conserved(Written(b, false, mergedSize))
  {
    var batch, rest := b.chain[0], b.chain[1..];
    var merged := Merged(batch, mergedSize, true);
    PartsOfConcat([merged], b.buffered);
    PartsOfOne(merged);
    assert ChainParts(b.chain) == Parts(batch) + ChainParts(rest);
    assert Written(b, false, mergedSize) ==
      b.(chain := rest, buffered := [merged] + b.buffered, bufferedBytes := b.bufferedBytes + mergedSize);
    hide Parts, ChainParts, Bytes, Written;
    Rearrange(Parts(b.rows), Parts(batch), ChainParts(rest), Parts(b.buffered));
  }

  /** Taking the first captured batch out of the chain and putting its parts elsewhere. */
  lemma {:induction false} WriteKeeps(b: Buffer, ok: bool, mergedSize: nat)
    requires b.chain != []
    ensures Conserved(b) ==> Conserved(Written(b, ok, mergedSize))
    ensures Ordered(b) && ok ==> Ordered(Written(b, ok, mergedSize))
  {
    if b.chain[0] == [] {
      assert Parts(b.chain[0]) + ChainParts(b.chain[1..]) == ChainParts(b.chain[1..]);
    } else if ok {
      AppendMoves(b, mergedSize);
    } else {
      RequeueMoves(b, mergedSize);
    }
  }

  // ── The clock ──────────────────────────────────────────────────────────────

  /** Updates observed since the last capture wait under an armed timer that is at most the
      flush delay away from the first of them; only requeued batches can lie without one. */
  ghost predicate Prompt(b: Buffer) {
    && (forall i | 0 <= i < |b.buffered| && !b.buffered[i].requeued ::
          && |b.buffered[i].parts| == 1
          && (!b.detached ==> b.timer.Some? && b.timer.value <= b.buffered[i].parts[0].at + FLUSH_DELAY_MS))
    && (b.timer.Some? ==> !b.detached && b.now <= b.timer.value <= b.now + FLUSH_DELAY_MS)
  }

  lemma {:induction false} PromptKeeps(b: Buffer, e: Event)
    requires Prompt(b) && Enabled(b, e)
    ensures Prompt(Next(b, e))
  {
    hide Parts;
    var c := Next(b, e);
    if e.WriteDone? && !e.ok && b.chain[0] != [] {
      assert c.buffered == [Merged(b.chain[0], e.mergedSize, true)] + b.buffered;
      forall i | 0 <= i < |c.buffered| && !c.buffered[i].requeued
        ensures i > 0 && c.buffered[i] == b.buffered[i - 1]
      {
      }
    } else {
      assert e.WriteDone? ==> c.buffered == b.buffered;
    }
  }

  /** Something waits in the buffer that was observed since the last capture. */
  ghost predicate HoldsFresh(buffered: seq<Blob>) {
    exists i :: 0 <= i < |buffered| && !buffered[i].requeued
  }

  ghost predicate TimerIsForFresh(b: Buffer) {
    !b.detached ==> (b.timer.Some? <==> HoldsFresh(b.buffered))
  }

  lemma {:induction false} ObservedIsTimed(b: Buffer, id: nat, size: nat)
    requires !b.detached
    ensures TimerIsForFresh(Observed(b, id, size))
  {
    var c := Observed(b, id, size);
    if c.buffered != [] { assert !c.buffered[|b.buffered|].requeued; }
  }

  lemma {:induction false} FailureIsTimed(b: Buffer, mergedSize: nat)
    requires TimerIsForFresh(b) && b.chain != []
    ensures TimerIsForFresh(Written(b, false, mergedSize))
  {
    hide HoldsFresh, Parts;
    if b.chain[0] != [] { PuttingBackAddsNothingFresh(Merged(b.chain[0], mergedSize, true), b.buffered); }
  }

  lemma {:induction false} PuttingBackAddsNothingFresh(batch: Blob, buffered: seq<Blob>)
    requires batch.requeued
    ensures HoldsFresh([batch] + buffered) <==> HoldsFresh(buffered)
  {
    if i :| 0 <= i < |buffered| && !buffered[i].requeued { assert !([batch] + buffered)[i + 1].requeued; }
    if i :| 0 <= i < |[batch] + buffered| && !([batch] + buffered)[i].requeued { assert !buffered[i - 1].requeued; }
  }

  lemma {:induction false} TimerIsForFreshKeeps(b: Buffer, e: Event)
    requires TimerIsForFresh(b) && Enabled(b, e)
    ensures TimerIsForFresh(Next(b, e))
  {
    match e
    case Observe(id, size) => hide TimerIsForFresh, Observed; ObservedIsTimed(b, id, size);
    case TimerFires =>
    case FlushCalled =>
    case WriteDone(ok, mergedSize) => hide Parts; if !ok { FailureIsTimed(b, mergedSize); }
    case DetachCalled =>
    case Tick(_) =>
  }

  // ── Runs ───────────────────────────────────────────────────────────────────

  function BufferAt(now: int, events: seq<Event>, n: nat): Buffer
    requires n <= |events|
  {
    if n == 0 then Attached(now) else Next(BufferAt(now, events, n - 1), events[n - 1])
  }

  ghost predicate Legal(now: int, events: seq<Event>) {
    forall i | 0 <= i < |events| :: Enabled(BufferAt(now, events, i), events[i])
  }

  /** The time after the first `n` events. */
  function Clock(now: int, events: seq<Event>, n: nat): int
    requires n <= |events|
  {
    if n == 0 then now
    else if events[n - 1].Tick? then events[n - 1].now
    else Clock(now, events, n - 1)
  }

  /** What the document emitted among the first `n` events. */
  function Emitted(now: int, events: seq<Event>, n: nat): seq<Update>
    requires n <= |events|
  {
    if n == 0 then []
    else if events[n - 1].Observe? then
      Emitted(now, events, n - 1) + [Update(events[n - 1].id, Clock(now, events, n - 1))]
    else Emitted(now, events, n - 1)
  }

  lemma {:induction false} StepObserves(b: Buffer, e: Event)
    ensures Next(b, e).observed == b.observed + if e.Observe? then [Update(e.id, b.now)] else []
    ensures Next(b, e).now == if e.Tick? then e.now else b.now
  {
    hide Merged;
  }

  lemma {:induction false} ObservedIsEmitted(now: int, events: seq<Event>, n: nat)
    requires n <= |events|
    ensures BufferAt(now, events, n).observed == Emitted(now, events, n)
    ensures BufferAt(now, events, n).now == Clock(now, events, n)
  {
    hide Next;
    if n > 0 {
      ObservedIsEmitted(now, events, n - 1);
      StepObserves(BufferAt(now, events, n - 1), events[n - 1]);
    }
  }

  /** A write that keeps the order: one that succeeds, or fails with nothing else captured. */
  ghost predicate Orderly(b: Buffer, e: Event) {
    e.WriteDone? && !e.ok && b.chain != [] ==> Parts(b.chain[0]) == [] || ChainParts(b.chain[1..]) == []
  }

  lemma {:induction false} StepKeeps(b: Buffer, e: Event)
    requires Enabled(b, e)
    ensures Conserved(b) ==> Conserved(Next(b, e))
    ensures Ordered(b) && Orderly(b, e) ==> Ordered(Next(b, e))
  {
    hide Ordered, Conserved, Observed, Flushed, Written, Parts, ChainParts;
    match e
    case Observe(id, size) => ObserveKeeps(b, id, size);
    case TimerFires => FlushMoves(b);
    case FlushCalled => FlushMoves(b);
    case WriteDone(ok, mergedSize) =>
      WriteKeeps(b, ok, mergedSize);
      if Ordered(b) && Orderly(b, e) && !ok { FailureKeepsOrder(b, mergedSize); }
    case DetachCalled => SameContents(b, Next(b, e));
    case Tick(_) => SameContents(b, Next(b, e));
  }

  lemma {:induction false} SameContents(b: Buffer, c: Buffer)
    requires c == b.(timer := c.timer, detached := c.detached, now := c.now)
    ensures Conserved(b) ==> Conserved(c)
    ensures Ordered(b) ==> Ordered(c)
  {
  }

  /** Under any interleaving of updates, timers, flushes and successful or failed appends, the
      updates observed are exactly those in the log, in the chain and in the buffer, each as
      often as the document emitted it, and the byte counter is the buffer's. */
  lemma {:induction false} NothingLostOrRepeated(now: int, events: seq<Event>, n: nat)
    requires n <= |events| && Legal(now, events)
    ensures Conserved(BufferAt(now, events, n))
    ensures BufferAt(now, events, n).observed == Emitted(now, events, n)
  {
    hide Conserved, Next, Enabled;
    ObservedIsEmitted(now, events, n);
    if n == 0 {
      assert Conserved(Attached(now)) by { StartsEmpty(now); }
    } else {
      NothingLostOrRepeated(now, events, n - 1);
      StepKeeps(BufferAt(now, events, n - 1), events[n - 1]);
    }
  }

  lemma {:induction false} StartsEmpty(now: int)
    ensures Conserved(Attached(now)) && Ordered(Attached(now)) && Prompt(Attached(now))
  {
  }

  /** As long as no append fails while another captured batch waits behind it, rows, chain and buffer
      concatenate to the observation order. */
  lemma {:induction false} RowsKeepObservationOrder(now: int, events: seq<Event>, n: nat)
    requires n <= |events| && Legal(now, events)
    requires forall i | 0 <= i < n :: Orderly(BufferAt(now, events, i), events[i])
    ensures Ordered(BufferAt(now, events, n))
    ensures Parts(BufferAt(now, events, n).rows) <= BufferAt(now, events, n).observed
  {
    hide Ordered, Orderly, Next, Enabled;
    if n == 0 {
      StartsEmpty(now);
    } else {
      RowsKeepObservationOrder(now, events, n - 1);
      StepKeeps(BufferAt(now, events, n - 1), events[n - 1]);
    }
    OrderedRowsArePrefix(BufferAt(now, events, n));
  }

  lemma {:induction false} OrderedRowsArePrefix(b: Buffer)
    requires Ordered(b)
    ensures Parts(b.rows) <= b.observed
  {
  }

  /** No update sits in a live buffer past the flush delay, unless it is in a batch whose
      append failed. */
  lemma {:induction false} CapturedInTime(now: int, events: seq<Event>, n: nat, i: nat)
    requires n <= |events| && Legal(now, events)
    ensures Prompt(BufferAt(now, events, n))
    ensures var b := BufferAt(now, events, n);
            i < |b.buffered| && !b.detached && !b.buffered[i].requeued ==>
              |b.buffered[i].parts| == 1 && b.now <= b.buffered[i].parts[0].at + FLUSH_DELAY_MS
  {
    hide Next, Enabled;
    if n == 0 {
      StartsEmpty(now);
    } else {
      CapturedInTime(now, events, n - 1, 0);
      PromptKeeps(BufferAt(now, events, n - 1), events[n - 1]);
    }
  }

  /** In every reachable live buffer the timer is armed exactly when something waits that is not a
      batch put back by a failed append: such a batch arms none, so it waits for something else to flush. */
  lemma {:induction false} TimerArmedExactlyWhen(now: int, events: seq<Event>, n: nat)
    requires n <= |events| && Legal(now, events)
    ensures TimerIsForFresh(BufferAt(now, events, n))
  {
    hide Next, Enabled, TimerIsForFresh;
    if n == 0 {
      StartsUntimed(now);
    } else {
      TimerArmedExactlyWhen(now, events, n - 1);
      TimerIsForFreshKeeps(BufferAt(now, events, n - 1), events[n - 1]);
    }
  }

  lemma {:induction false} StartsUntimed(now: int)
    ensures TimerIsForFresh(Attached(now))
  {
  }

  // ── When a batch is captured ───────────────────────────────────────────────

  /** A batch is captured when the timer fires, when a flush is called, and at the very update that
      brings the buffer to the size limit; it is then everything buffered. No other event captures. */
  lemma {:induction false} CapturesExactlyWhen(now: int, events: seq<Event>, n: nat)
    requires n < |events| && Legal(now, events)
    ensures var b, c, e := BufferAt(now, events, n), BufferAt(now, events, n + 1), events[n];
            var held := Parts(b.buffered) + (if e.Observe? then [Update(e.id, Clock(now, events, n))] else []);
            var due := e.TimerFires? || e.FlushCalled? || (e.Observe? && Bytes(b.buffered) + e.size >= FLUSH_BYTES);
            && (due ==>
                  && |c.chain| == |b.chain| + 1 && c.chain[..|b.chain|] == b.chain
                  && Parts(c.chain[|b.chain|]) == held && c.buffered == [] && c.timer.None?)
            && (!due && !e.WriteDone? ==> c.chain == b.chain && Parts(c.buffered) == held)
  {
    var b, e := BufferAt(now, events, n), events[n];
    NothingLostOrRepeated(now, events, n);
    ObservedIsEmitted(now, events, n);
    if e.Observe? {
      var blob := Blob([Update(e.id, b.now)], e.size, false);
      PartsOfConcat(b.buffered, [blob]);
      PartsOfOne(blob);
    }
    hide Parts, Bytes, ChainParts;
  }

  lemma {:induction false} StaysFull(b: Buffer, e: Event)
    requires Next(b, e).bufferedBytes >= FLUSH_BYTES && !(e.WriteDone? && !e.ok)
    ensures b.bufferedBytes >= FLUSH_BYTES && !e.Observe? && !e.FlushCalled? && !e.TimerFires?
  {
    hide Parts;
  }

  /** Only a batch put back by a failed append can hold a buffer at the size limit, and only until the
      next update, flush or timer. */
  lemma {:induction false} FullOnlyAfterFailure(now: int, events: seq<Event>, n: nat)
    requires n <= |events| && BufferAt(now, events, n).bufferedBytes >= FLUSH_BYTES
    ensures exists i ::
      && 0 <= i < n && events[i].WriteDone? && !events[i].ok
      && forall j | i < j < n :: !events[j].Observe? && !events[j].FlushCalled? && !events[j].TimerFires?
  {
    hide Next;
    if n > 0 && !(events[n - 1].WriteDone? && !events[n - 1].ok) {
      StaysFull(BufferAt(now, events, n - 1), events[n - 1]);
      FullOnlyAfterFailure(now, events, n - 1);
    }
  }

  /** Without a failed append the buffer is below the size limit at every point. */
  lemma {:induction false} BelowTheLimit(now: int, events: seq<Event>, n: nat)
    requires n <= |events| && Legal(now, events)
    requires forall i | 0 <= i < n :: events[i].WriteDone? ==> events[i].ok
    ensures BufferAt(now, events, n).bufferedBytes < FLUSH_BYTES
    ensures Bytes(BufferAt(now, events, n).buffered) < FLUSH_BYTES
  {
    NothingLostOrRepeated(now, events, n);
    if BufferAt(now, events, n).bufferedBytes >= FLUSH_BYTES { FullOnlyAfterFailure(now, events, n); }
  }

  /** When the oldest update that was not put back falls due. */
  function Due(buffered: seq<Blob>): Option<int> {
    if buffered == [] then None
    else if buffered[0].requeued || buffered[0].parts == [] then Due(buffered[1..])
    else Some(buffered[0].parts[0].at + FLUSH_DELAY_MS)
  }

  lemma {:induction false} DueOfConcat(buffered: seq<Blob>, update: Update, size: nat)
    ensures Due(buffered + [Blob([update], size, false)]) ==
      if Due(buffered).Some? then Due(buffered) else Some(update.at + FLUSH_DELAY_MS)
    decreases |buffered|
  {
    var all := buffered + [Blob([update], size, false)];
    if buffered != [] {
      assert all[1..] == buffered[1..] + [Blob([update], size, false)];
      DueOfConcat(buffered[1..], update, size);
    }
  }

  /** The clock starts with the first update after a flush and is not started again by later ones. */
  lemma {:induction false} TimerRunsFromTheFirst(now: int, events: seq<Event>, n: nat)
    requires n <= |events| && Legal(now, events) && !BufferAt(now, events, n).detached
    ensures BufferAt(now, events, n).timer == Due(BufferAt(now, events, n).buffered)
  {
    hide Parts, Legal;
    if n > 0 {
      var b, e := BufferAt(now, events, n - 1), events[n - 1];
      TimerRunsFromTheFirst(now, events, n - 1);
      if e.Observe? { DueOfConcat(b.buffered, Update(e.id, b.now), e.size); }
      if e.WriteDone? && b.chain != [] {
        assert ([Merged(b.chain[0], e.mergedSize, true)] + b.buffered)[1..] == b.buffered;
      }
    }
  }

  lemma {:induction false} StaysDetached(b: Buffer, e: Event)
    requires b.detached && b.timer.None? && Enabled(b, e)
    ensures Next(b, e).detached && Next(b, e).timer.None? && !e.Observe?
  {
    hide Parts;
  }

  lemma {:induction false} DetachedHasNoTimer(b: Buffer)
    requires Prompt(b)
    ensures Next(b, DetachCalled).detached && Next(b, DetachCalled).timer.None?
  {
  }

  /** Detaching ends it: no update is observed any more and no timer is armed. */
  lemma {:induction false} DetachEnds(now: int, events: seq<Event>, k: nat, n: nat)
    requires k < n <= |events| && Legal(now, events) && events[k].DetachCalled?
    ensures BufferAt(now, events, n).detached && BufferAt(now, events, n).timer.None?
    ensures Emitted(now, events, n) == Emitted(now, events, k + 1)
  {
    hide Next, Enabled, Prompt;
    if n > k + 1 {
      DetachEnds(now, events, k, n - 1);
      StaysDetached(BufferAt(now, events, n - 1), events[n - 1]);
    } else {
      CapturedInTime(now, events, k, 0);
      DetachedHasNoTimer(BufferAt(now, events, k));
    }
  }

  // ── What a failure does ────────────────────────────────────────────────────

  lemma {:induction false} FailureMoves(b: Buffer, mergedSize: nat)
    requires b.chain != []
    ensures var c := Written(b, false, mergedSize);
            && c.observed == b.observed && Parts(c.rows) == Parts(b.rows)
            && ChainParts(b.chain) == Parts(b.chain[0]) + ChainParts(b.chain[1..])
            && ChainParts(c.chain) == ChainParts(b.chain[1..])
            && Parts(c.buffered) == Parts(b.chain[0]) + Parts(b.buffered)
  {
    if b.chain[0] == [] {
      assert Parts([]) + Parts(b.buffered) == Parts(b.buffered);
    } else {
      var merged := Merged(b.chain[0], mergedSize, true);
      PartsOfConcat([merged], b.buffered);
      PartsOfOne(merged);
    }
  }

  lemma {:induction false} FailureKeepsOrder(b: Buffer, mergedSize: nat)
    requires Ordered(b) && b.chain != [] && (Parts(b.chain[0]) == [] || ChainParts(b.chain[1..]) == [])
    ensures Ordered(Written(b, false, mergedSize))
  {
    FailureMoves(b, mergedSize);
    SwapOfNothing(Parts(b.rows), Parts(b.chain[0]), ChainParts(b.chain[1..]), Parts(b.buffered));
    hide Written, Parts, ChainParts;
  }

  lemma {:induction false} SwapOfNothing(rows: seq<Update>, head: seq<Update>, rest: seq<Update>, tail: seq<Update>)
    requires head == [] || rest == []
    ensures rows + (head + rest) + tail == rows + rest + (head + tail)
  {
    assert head == [] ==> head + rest == rest && head + tail == tail;
    assert rest == [] ==> head + rest == head && rows + rest == rows;
  }

  /** A batch that moves behind another one changes the order, when no update occurs twice. */
  lemma {:induction false} SwapShows(rows: seq<Update>, head: seq<Update>, rest: seq<Update>, tail: seq<Update>)
    requires head != [] && rest != []
    requires var all := rows + (head + rest) + tail; forall i, j | 0 <= i < j < |all| :: all[i] != all[j]
    ensures rows + rest + (head + tail) != rows + (head + rest) + tail
  {
    var all := rows + (head + rest) + tail;
    assert all[|rows|] == head[0] && all[|rows| + |head|] == rest[0];
    assert (rows + rest + (head + tail))[|rows|] == rest[0];
  }

  /** A failed append keeps the order exactly when the batch it puts back has nothing captured behind
      it, or was empty. */
  lemma {:induction false} FailureKeepsOrderExactlyWhen(b: Buffer, mergedSize: nat)
    requires Ordered(b) && b.chain != []
    requires forall i, j | 0 <= i < j < |b.observed| :: b.observed[i] != b.observed[j]
    ensures Ordered(Written(b, false, mergedSize)) <==> Parts(b.chain[0]) == [] || ChainParts(b.chain[1..]) == []
  {
    if Parts(b.chain[0]) == [] || ChainParts(b.chain[1..]) == [] {
      FailureKeepsOrder(b, mergedSize);
    } else {
      FailureMoves(b, mergedSize);
      SwapShows(Parts(b.rows), Parts(b.chain[0]), ChainParts(b.chain[1..]), Parts(b.buffered));
    }
    hide Written, Parts, ChainParts;
  }

  /** A requeued batch arms no timer: with nothing else to wake it, it waits in the buffer. */
  lemma {:induction false} RequeuedWaits(now: int, id: nat, size: nat, mergedSize: nat)
    requires size < FLUSH_BYTES
    ensures var events := [Observe(id, size), FlushCalled, WriteDone(false, mergedSize)];
            var b := BufferAt(now, events, 3);
            Legal(now, events) && b.chain == [] && b.timer.None? && Parts(b.buffered) == [Update(id, now)]
  {
    var events := [Observe(id, size), FlushCalled, WriteDone(false, mergedSize)];
    assert BufferAt(now, events, 0) == Attached(now);
    assert BufferAt(now, events, 1) == Observed(Attached(now), id, size);
    assert BufferAt(now, events, 2) == Flushed(BufferAt(now, events, 1));
    var blob := Blob([Update(id, now)], size, false);
    PartsOfOne(blob);
    assert BufferAt(now, events, 1).buffered == [blob] && BufferAt(now, events, 1).chain == [];
    assert BufferAt(now, events, 2).chain == [[blob]];
    PartsOfOne(Merged([blob], mergedSize, true));
    assert BufferAt(now, events, 3).buffered == [Merged([blob], mergedSize, true)];
  }

  /** What a failed append puts back at the front of the buffer is behind every batch already
      captured, so a later update reaches the log first. */
  lemma {:induction false} FailureReorders(b: Buffer, mergedSize: nat, first: Blob, second: Blob)
    requires b.chain == [[first], [second]] && b.buffered == []
    ensures var c := Written(Written(b, false, mergedSize), true, second.size);
            && Parts(c.rows) == Parts(b.rows) + second.parts
            && c.chain == [] && Parts(c.buffered) == first.parts
  {
    var failed := Written(b, false, mergedSize);
    assert failed.chain == [[second]];
    PartsOfOne(first);
    PartsOfOne(second);
    PartsOfOne(Merged([first], mergedSize, true));
    PartsOfOne(Merged([second], second.size, false));
    PartsOfConcat(b.rows, [Merged([second], second.size, false)]);
  }

  /** Eviction flushes, waits for the chain and detaches. `outcomes` says which of the captured
      batches' appends succeed while it waits. */
  function Drained(b: Buffer, outcomes: seq<bool>): Buffer
    requires |outcomes| == |b.chain|
    decreases |outcomes|
  {
    if outcomes == [] then b else Drained(Written(b, outcomes[0], 0), outcomes[1..])
  }

  /** An evicted room leaves nothing behind if and only if no append of a non-empty batch
      failed while eviction waited: a batch that is requeued then is stranded, since the
      buffer is detached without another flush. */
  lemma {:induction false} EvictionStrandsExactlyTheFailed(b: Buffer, outcomes: seq<bool>)
    requires |outcomes| == |b.chain|
    ensures Drained(b, outcomes).chain == []
    ensures Drained(b, outcomes).buffered == [] <==>
      b.buffered == [] && forall i | 0 <= i < |outcomes| :: outcomes[i] || b.chain[i] == []
    decreases |outcomes|
  {
    if outcomes != [] {
      var c := Written(b, outcomes[0], 0);
      EvictionStrandsExactlyTheFailed(c, outcomes[1..]);
      assert forall i | 1 <= i < |outcomes| :: outcomes[1..][i - 1] == outcomes[i] && c.chain[i - 1] == b.chain[i];
      assert (forall i | 0 <= i < |outcomes| :: outcomes[i] || b.chain[i] == [])
        <==> (outcomes[0] || b.chain[0] == [])
             && forall i | 0 <= i < |outcomes[1..]| :: outcomes[1..][i] || c.chain[i] == [];
    }
  }

  method MergeUpdates(batch: seq<Blob>) returns (parts: seq<Update>)
    ensures parts == Parts(batch)
  {
    parts := [];
    for i := 0 to |batch|
      invariant parts == Parts(batch[..i])
    {
      parts := parts + batch[i].parts;
      assert batch[..i + 1] == batch[..i] + [batch[i]];
      PartsOfConcat(batch[..i], [batch[i]]);
      PartsOfOne(batch[i]);
    }
    assert batch[..|batch|] == batch;
  }

  // ── The closure ────────────────────────────────────────────────────────────

  /** `attachPersistence`: the variables its handlers share. */
  class DocPersistence {
    var buffered: seq<Blob>
    var bufferedBytes: nat
    var timer: Option<int>
    var chain: seq<seq<Blob>>
    var detached: bool
    var rows: seq<Blob>
    ghost var observed: seq<Update>

    ghost function State(now: int): Buffer
      reads this
    {
      Buffer(buffered, bufferedBytes, timer, chain, detached, rows, observed, now)
    }

    constructor (now: int)
      ensures State(now) == Attached(now)
    {
      buffered, bufferedBytes, timer, chain, detached, rows := [], 0, None, [], false, [];
      observed := [];
    }

    method Flush(now: int)
      modifies this
      ensures State(now) == Flushed(old(State(now)))
    {
      var batch := buffered;
      buffered := [];
      bufferedBytes := 0;
      timer := None;
      chain := chain + [batch];
    }

    method OnUpdate(id: nat, size: nat, now: int)
      modifies this
      ensures State(now) == Observed(old(State(now)), id, size)
    {
      var update := Update(id, now);
      observed := observed + [update];
      buffered := buffered + [Blob([update], size, false)];
      bufferedBytes := bufferedBytes + size;
      if bufferedBytes >= FLUSH_BYTES {
        Flush(now);
        return;
      }
      if timer.None? {
        timer := Some(now + FLUSH_DELAY_MS);
      }
    }

    /** The next batch of the chain, whose append the store accepts or refuses. */
    method WriteBatch(ok: bool, mergedSize: nat, now: int)
      requires chain != []
      modifies this
      ensures State(now) == Written(old(State(now)), ok, mergedSize)
    {
      var batch := chain[0];
      chain := chain[1..];
      if batch == [] {
        return;
      }
      var parts := MergeUpdates(batch);
      if ok {
        rows := rows + [Blob(parts, mergedSize, false)];
      } else {
        buffered := [Blob(parts, mergedSize, true)] + buffered;
        bufferedBytes := bufferedBytes + mergedSize;
      }
    }

    method Detach(now: int)
      modifies this
      ensures State(now) == Detached(old(State(now)))
    {
      if detached {
        return;
      }
      detached := true;
      timer := None;
    }
  }
}
