/** The browser's connection to one document: a replaceable socket, a retry timer, and the events
    that drive them. */
module Provider {
  import opened Wrappers

  const BASE_DELAY_MS: real := 500.0
  const MAX_DELAY_MS: real := 15000.0

  /** Application codes (section 7.4.2 of RFC 6455 reserves 4000 to 4999 for them) that end it. */
  predicate IsTerminalClose(code: nat) {
    code in {4400, 4401, 4403, 4404, 4409}
  }

  function Doubled(attempt: nat): real {
    if attempt == 0 then BASE_DELAY_MS else 2.0 * Doubled(attempt - 1)
  }

  function Ceiling(attempt: nat): real {
    if Doubled(attempt) < MAX_DELAY_MS then Doubled(attempt) else MAX_DELAY_MS
  }

  function Scaled(sample: real, ceiling: real): real {
    sample * ceiling
  }

  /** The random sample is an input here. */
  function BackoffDelay(attempt: nat, sample: real): real {
    Scaled(sample, Ceiling(attempt))
  }

  datatype Status = Connecting | Synced | Reconnecting | Closed

  datatype Phase = Opening | Open | Ended

  /** A socket as the browser sees it: whether our handlers hear it, whether we asked it to close,
      and whether our state vector went out on it. */
  datatype Socket = Socket(phase: Phase, heard: bool, askedToClose: bool, announced: bool)

  /** `timers` are the armed ones, with their delays; `retry` is the handle the provider keeps. */
  datatype State = State(
    status: Status,
    ready: bool,
    closeCode: nat,
    sockets: seq<Socket>,
    socket: Option<nat>,
    timers: map<nat, real>,
    nextTimer: nat,
    retry: Option<nat>,
    attempt: nat,
    destroyed: bool)

  datatype Event =
    | Opens(id: nat)
    | Arrives(id: nat, sync: bool)
    | Closes(id: nat, code: nat, sample: real)
    | TimerFires(timer: nat)
    | Online
    | LocalLoaded(hasContent: bool)
    | Destroy

  // ── The handlers ───────────────────────────────────────────────────────────

  function Connected(s: State): State {
    if s.destroyed then s
    else s.(sockets := s.sockets + [Socket(Opening, true, false, false)], socket := Some(|s.sockets|))
  }

  function Detached(s: State): State {
    if s.socket.None? || s.socket.value >= |s.sockets| then s
    else
      var id := s.socket.value;
      s.(sockets := s.sockets[id := s.sockets[id].(heard := false, askedToClose := true)], socket := None)
  }

  function WithPhase(s: State, id: nat, phase: Phase): State
    requires id < |s.sockets|
  {
    s.(sockets := s.sockets[id := s.sockets[id].(phase := phase)])
  }

  function Cleared(s: State): State {
    if s.retry.None? then s else s.(timers := s.timers - {s.retry.value}, retry := None)
  }

  function Armed(s: State, delay: real): State {
    s.(timers := s.timers[s.nextTimer := delay], nextTimer := s.nextTimer + 1, retry := Some(s.nextTimer))
  }

  /** What `send` checks before a message leaves. */
  predicate CanSend(s: State) {
    !s.destroyed && s.socket.Some? && s.socket.value < |s.sockets| && s.sockets[s.socket.value].phase == Open
  }

  function AfterOpen(s: State): State {
    if !CanSend(s) then s
    else s.(sockets := s.sockets[s.socket.value := s.sockets[s.socket.value].(announced := true)])
  }

  function AfterSync(s: State): State {
    s.(ready := s.ready || !s.destroyed, attempt := 0, status := Synced)
  }

  function AfterClose(s: State, code: nat, sample: real): State {
    if s.destroyed then s
    else if IsTerminalClose(code) then s.(closeCode := code, status := Closed)
    else
      var next := s.(closeCode := code, status := Reconnecting, attempt := s.attempt + 1);
      Armed(Cleared(next), BackoffDelay(s.attempt, sample))
  }

  function AfterOnline(s: State): State {
    if s.destroyed || s.status != Reconnecting then s else Connected(Detached(Cleared(s)))
  }

  function AfterDestroy(s: State): State {
    if s.destroyed then s else Detached(Cleared(s.(destroyed := true)))
  }

  /** What the browser can deliver: a socket opens once, speaks while open, and closes once. */
  predicate Possible(s: State, event: Event) {
    match event
    case Opens(id) => id < |s.sockets| && s.sockets[id].phase == Opening
    case Arrives(id, _) => id < |s.sockets| && s.sockets[id].phase == Open
    case Closes(id, _, sample) => id < |s.sockets| && s.sockets[id].phase != Ended && 0.0 <= sample < 1.0
    case TimerFires(timer) => timer in s.timers
    case _ => true
  }

  /** Events of a socket reach the handlers only while they are attached to it. */
  function After(s: State, event: Event): State
    requires Possible(s, event)
  {
    match event
    case Opens(id) => if s.sockets[id].heard then AfterOpen(WithPhase(s, id, Open)) else WithPhase(s, id, Open)
    case Arrives(id, sync) => if s.sockets[id].heard && sync then AfterSync(s) else s
    case Closes(id, code, sample) =>
      if s.sockets[id].heard then AfterClose(WithPhase(s, id, Ended), code, sample) else WithPhase(s, id, Ended)
    case TimerFires(timer) => Connected(Detached(s.(timers := s.timers - {timer}, retry := None)))
    case Online => AfterOnline(s)
    case LocalLoaded(hasContent) => if hasContent && !s.destroyed then s.(ready := true) else s
    case Destroy => AfterDestroy(s)
  }

  const Constructed := Connected(State(Connecting, false, 0, [], None, map[], 0, None, 0, false))

  // ── What always holds ──────────────────────────────────────────────────────

  /** The one socket our handlers hear is the current one; the others were told to close. */
  ghost predicate OneSocket(s: State) {
    && (s.socket.Some? ==> s.socket.value < |s.sockets|)
    && (forall id | 0 <= id < |s.sockets| :: s.sockets[id].heard <==> s.socket == Some(id))
    && (forall id | 0 <= id < |s.sockets| && s.socket != Some(id) :: s.sockets[id].askedToClose)
    && (s.socket.None? <==> s.destroyed)
  }

  /** The provider holds the handle of every armed timer. */
  ghost predicate OneTimer(s: State) {
    && s.timers.Keys == (if s.retry.Some? then {s.retry.value} else {})
    && (s.retry.Some? ==> s.retry.value < s.nextTimer)
  }

  ghost predicate Current(s: State, phase: Phase) {
    s.socket.Some? && s.socket.value < |s.sockets| && s.sockets[s.socket.value].phase == phase
  }

  /** A timer waits only for a closed socket, and never after giving up; and as long as the provider
      has not given up, a socket or a timer is alive. */
  ghost predicate TimerForClosed(s: State) {
    && (s.retry.Some? ==> Current(s, Ended) && s.status == Reconnecting)
    && (s.status == Closed && !s.destroyed ==> Current(s, Ended))
    && (!s.destroyed && Current(s, Ended) ==> s.status == Closed || s.retry.Some?)
  }

  ghost predicate DelayInWindow(s: State) {
    forall timer | timer in s.timers :: s.attempt > 0 && 0.0 <= s.timers[timer] < Ceiling(s.attempt - 1) <= MAX_DELAY_MS
  }

  /** An open connection has announced what this browser holds. */
  ghost predicate Announced(s: State) {
    Current(s, Open) ==> s.sockets[s.socket.value].announced
  }

  ghost predicate Inv(s: State) {
    OneSocket(s) && OneTimer(s) && TimerForClosed(s) && DelayInWindow(s) && Announced(s)
  }

  lemma {:induction false} CeilingIsPositive(attempt: nat)
    ensures 0.0 < Doubled(attempt) && 0.0 < Ceiling(attempt) <= MAX_DELAY_MS
  {
    if attempt > 0 { CeilingIsPositive(attempt - 1); }
  }

  lemma {:induction false} DelayBelowCeiling(attempt: nat, sample: real)
    requires 0.0 <= sample < 1.0
    ensures 0.0 <= BackoffDelay(attempt, sample) < Ceiling(attempt)
  {
    hide Ceiling, Scaled;
    CeilingIsPositive(attempt);
    ScaledIsBelow(sample, Ceiling(attempt));
  }

  lemma {:induction false} ScaledIsBelow(sample: real, ceiling: real)
    requires 0.0 <= sample < 1.0 && 0.0 < ceiling
    ensures 0.0 <= Scaled(sample, ceiling) < ceiling
  {
    var rest := 1.0 - sample;
    assert 0.0 < rest * ceiling;
    assert rest * ceiling == ceiling - sample * ceiling;
  }

  /** The window grows as 500 ms, 1 s, 2 s, 4 s, 8 s, and is 15 s from then on. */
  lemma {:induction false} CeilingIs(attempt: nat)
    ensures Ceiling(attempt) ==
      if attempt == 0 then 500.0
      else if attempt == 1 then 1000.0
      else if attempt == 2 then 2000.0
      else if attempt == 3 then 4000.0
      else if attempt == 4 then 8000.0
      else 15000.0
  {
    assert Doubled(0) == 500.0 && Doubled(1) == 1000.0 && Doubled(2) == 2000.0;
    assert Doubled(3) == 4000.0 && Doubled(4) == 8000.0;
    if attempt > 4 { DoubledPast(attempt); }
  }

  lemma {:induction false} DoubledPast(attempt: nat)
    requires attempt > 4
    ensures Doubled(attempt) >= 16000.0
  {
    if attempt == 5 {
      assert Doubled(0) == 500.0 && Doubled(1) == 1000.0 && Doubled(2) == 2000.0;
      assert Doubled(3) == 4000.0 && Doubled(4) == 8000.0;
    } else {
      DoubledPast(attempt - 1);
    }
  }

  /** The sample is spread over the whole window: every delay in it is that of one sample, and of no other. */
  lemma {:induction false} SamplesFillTheWindow(attempt: nat, delay: real)
    requires 0.0 <= delay < Ceiling(attempt)
    ensures var sample := delay / Ceiling(attempt);
            && 0.0 <= sample < 1.0 && BackoffDelay(attempt, sample) == delay
            && forall other: real :: BackoffDelay(attempt, other) == delay ==> other == sample
  {
    hide Ceiling;
    CeilingIsPositive(attempt);
    var ceiling := Ceiling(attempt);
    SampleOf(delay, ceiling);
    forall other: real | Scaled(other, ceiling) == delay
      ensures other == delay / ceiling
    {
      OneSample(other, ceiling);
    }
  }

  lemma {:induction false} SampleOf(delay: real, ceiling: real)
    requires 0.0 <= delay < ceiling
    ensures 0.0 <= delay / ceiling < 1.0 && Scaled(delay / ceiling, ceiling) == delay
  {
    assert delay / ceiling * ceiling == delay;
  }

  lemma {:induction false} OneSample(sample: real, ceiling: real)
    requires ceiling > 0.0
    ensures Scaled(sample, ceiling) / ceiling == sample
  {
  }

  lemma {:induction false} ReplaceKeeps(s: State)
    requires OneSocket(s) && OneTimer(s) && !s.destroyed && s.retry.None? && s.status != Closed
    ensures Inv(Connected(Detached(s))) && Connected(Detached(s)).socket == Some(|s.sockets|)
  {
  }

  lemma {:induction false} ClearedHasNone(s: State)
    requires OneTimer(s)
    ensures OneTimer(Cleared(s)) && Cleared(s).retry.None? && Cleared(s).timers == map[]
    ensures forall timer | timer in s.timers :: s.(timers := s.timers - {timer}, retry := None) == Cleared(s)
  {
  }

  lemma {:induction false} ReplaceKeepsAll(s: State)
    requires Inv(s) && !s.destroyed && s.status != Closed
    ensures Inv(Connected(Detached(Cleared(s))))
  {
    ClearedHasNone(s);
    assert OneSocket(Cleared(s)) && !Cleared(s).destroyed && Cleared(s).status == s.status;
    hide Inv, OneTimer, OneSocket, Cleared;
    ReplaceKeeps(Cleared(s));
  }

  lemma {:induction false} DestroyKeeps(s: State)
    requires Inv(s)
    ensures Inv(AfterDestroy(s))
  {
    if !s.destroyed {
      var gone := s.(destroyed := true);
      ClearedHasNone(gone);
      assert Cleared(gone) == gone.(timers := map[], retry := None);
      hide Cleared, DelayInWindow;
      assert DelayInWindow(Detached(Cleared(gone))) by { NoTimersInWindow(Detached(Cleared(gone))); }
    }
  }

  lemma {:induction false} NoTimersInWindow(s: State)
    requires s.timers == map[]
    ensures DelayInWindow(s)
  {
  }

  lemma {:induction false} ClosedSocketKeeps(s: State, id: nat)
    requires OneSocket(s) && id < |s.sockets|
    ensures OneSocket(WithPhase(s, id, Ended))
    ensures s.sockets[id].heard ==> s.socket == Some(id) && Current(WithPhase(s, id, Ended), Ended)
    ensures !s.sockets[id].heard ==> s.socket != Some(id)
  {
  }

  lemma {:induction false} CloseKeeps(s: State, id: nat, code: nat, sample: real)
    requires Inv(s) && Possible(s, Closes(id, code, sample))
    ensures Inv(After(s, Closes(id, code, sample)))
  {
    DelayBelowCeiling(s.attempt, sample);
    CeilingIsPositive(s.attempt);
    ClosedSocketKeeps(s, id);
    ClearedHasNone(s);
    hide Doubled, IsTerminalClose, Ceiling, BackoffDelay, OneSocket;
    var ended := WithPhase(s, id, Ended);
    if s.sockets[id].heard {
      assert s.retry.None? && s.timers == map[];
      var t := AfterClose(ended, code, sample);
      assert t.timers == (if IsTerminalClose(code) then map[] else map[s.nextTimer := BackoffDelay(s.attempt, sample)]);
      SameSockets(ended, t);
    }
  }

  lemma {:induction false} SameSockets(s: State, t: State)
    requires OneSocket(s) && t.sockets == s.sockets && t.socket == s.socket && t.destroyed == s.destroyed
    ensures OneSocket(t)
  {
  }

  lemma {:induction false} EventKeeps(s: State, event: Event)
    requires Inv(s) && Possible(s, event)
    ensures Inv(After(s, event))
  {
    hide Doubled, IsTerminalClose, Ceiling, BackoffDelay;
    match event {
      case Closes(id, code, sample) => CloseKeeps(s, id, code, sample);
      case TimerFires(timer) => ClearedHasNone(s); ReplaceKeepsAll(s);
      case Online => if !s.destroyed && s.status == Reconnecting { ReplaceKeepsAll(s); }
      case Destroy => DestroyKeeps(s);
      case Opens(id) => hide Cleared;
      case Arrives(id, sync) => hide Cleared; ArriveKeeps(s, id, sync);
      case LocalLoaded(hasContent) =>
    }
  }

  lemma {:induction false} ArriveKeeps(s: State, id: nat, sync: bool)
    requires Inv(s) && Possible(s, Arrives(id, sync))
    ensures Inv(After(s, Arrives(id, sync)))
  {
    hide Ceiling;
    if s.sockets[id].heard {
      assert s.timers == map[];
      NoTimersInWindow(After(s, Arrives(id, sync)));
    }
  }

  // ── Whole runs ─────────────────────────────────────────────────────────────

  /** The states a provider goes through: each follows from the one before by an event that could happen. */
  ghost predicate IsRun(states: seq<State>, events: seq<Event>) {
    && |states| == |events| + 1 && states[0] == Constructed
    && forall k | 0 <= k < |events| :: Possible(states[k], events[k]) && states[k + 1] == After(states[k], events[k])
  }

  lemma {:induction false} RunStep(states: seq<State>, events: seq<Event>, k: nat)
    requires IsRun(states, events) && 0 < k < |states|
    ensures k <= |events| && Possible(states[k - 1], events[k - 1]) && states[k] == After(states[k - 1], events[k - 1])
  {
    assert states[k - 1 + 1] == After(states[k - 1], events[k - 1]);
  }

  lemma {:induction false} ConstructedHolds()
    ensures Inv(Constructed)
  {
  }

  lemma {:induction false} RunKeeps(states: seq<State>, events: seq<Event>, k: nat)
    requires IsRun(states, events) && k < |states|
    ensures Inv(states[k])
  {
    hide Inv, After, Possible;
    if k == 0 {
      ConstructedHolds();
    } else {
      RunKeeps(states, events, k - 1);
      RunStep(states, events, k);
      EventKeeps(states[k - 1], events[k - 1]);
    }
  }

  /** Over every run: one socket at most is heard, a pending timer means that socket has closed, and
      a provider that has not given up still has a socket or a timer alive. */
  lemma {:induction false} AtMostOneSocketAndTimer(states: seq<State>, events: seq<Event>, k: nat)
    requires IsRun(states, events) && k < |states|
    ensures var s := states[k];
            && (forall a, b | 0 <= a < |s.sockets| && 0 <= b < |s.sockets| ::
                  s.sockets[a].heard && s.sockets[b].heard ==> a == b)
            && (forall timer | timer in s.timers ::
                  && s.timers.Keys == {timer} && s.retry == Some(timer) && Current(s, Ended)
                  && s.attempt > 0 && 0.0 <= s.timers[timer] < Ceiling(s.attempt - 1) <= MAX_DELAY_MS)
            && (!s.destroyed && s.status != Closed ==> s.timers != map[] || Current(s, Opening) || Current(s, Open))
            && (s.status == Closed ==> s.timers == map[])
            && (Current(s, Open) ==> s.sockets[s.socket.value].announced)
  {
    RunKeeps(states, events, k);
    hide IsRun, Ceiling;
  }

  /** Nothing outlives `destroy`, and nothing starts after it. */
  lemma {:induction false} NothingAfterDestroy(states: seq<State>, events: seq<Event>, k: nat, m: nat)
    requires IsRun(states, events) && k <= m < |states| && states[k].destroyed
    ensures var s := states[m];
            && s.destroyed && s.timers == map[] && s.socket.None? && |s.sockets| == |states[k].sockets|
            && s.status == states[k].status && s.ready == states[k].ready
            && forall id | 0 <= id < |s.sockets| :: !s.sockets[id].heard && s.sockets[id].askedToClose
    decreases m
  {
    hide Inv, After, Possible, IsRun;
    RunKeeps(states, events, m);
    if k < m {
      RunStep(states, events, m);
      NothingAfterDestroy(states, events, k, m - 1);
      RunKeeps(states, events, m - 1);
      DestroyedStep(states[m - 1], events[m - 1]);
    }
    DestroyedHasNothing(states[m]);
  }

  lemma {:induction false} DestroyedStep(s: State, event: Event)
    requires Inv(s) && s.destroyed && Possible(s, event)
    ensures var t := After(s, event);
            t.destroyed && |t.sockets| == |s.sockets| && t.status == s.status && t.ready == s.ready
  {
    hide IsTerminalClose, BackoffDelay, DelayInWindow, Announced;
  }

  lemma {:induction false} DestroyedHasNothing(s: State)
    requires Inv(s) && s.destroyed
    ensures s.timers == map[] && s.socket.None?
    ensures forall id | 0 <= id < |s.sockets| :: !s.sockets[id].heard && s.sockets[id].askedToClose
  {
  }

  /** `ready` never reverts, and a provider that gave up stays so. */
  lemma {:induction false} ReadyAndClosedStay(states: seq<State>, events: seq<Event>, k: nat, m: nat)
    requires IsRun(states, events) && k <= m < |states|
    ensures states[k].ready ==> states[m].ready
    ensures states[k].status == Closed ==> states[m].status == Closed && |states[m].sockets| == |states[k].sockets|
    decreases m
  {
    hide *;
    if k < m {
      assert m > 0;
      RunStep(states, events, m);
      ReadyAndClosedStay(states, events, k, m - 1);
      RunKeeps(states, events, m - 1);
      StayStep(states[m - 1], events[m - 1]);
    }
  }

  lemma {:induction false} StayStep(s: State, event: Event)
    requires Inv(s) && Possible(s, event)
    ensures s.ready ==> After(s, event).ready
    ensures s.status == Closed ==> After(s, event).status == Closed && |After(s, event).sockets| == |s.sockets|
  {
    hide DelayInWindow, IsTerminalClose, BackoffDelay;
  }

  predicate HeardSync(s: State, event: Event) {
    event.Arrives? && event.sync && event.id < |s.sockets| && s.sockets[event.id].heard
  }

  predicate HeardRetryableClose(s: State, event: Event) {
    event.Closes? && event.id < |s.sockets| && s.sockets[event.id].heard && !IsTerminalClose(event.code)
  }

  /** Retryable closes heard since the last sync message. */
  function ClosesSinceSync(states: seq<State>, events: seq<Event>, k: nat): nat
    requires k <= |events| < |states|
  {
    if k == 0 || HeardSync(states[k - 1], events[k - 1]) then 0
    else ClosesSinceSync(states, events, k - 1) + (if HeardRetryableClose(states[k - 1], events[k - 1]) then 1 else 0)
  }

  /** The backoff grows with every retryable close and is reset by a sync message alone: not by an
      opened socket, nor by the network coming back. */
  lemma {:induction false} AttemptCountsCloses(states: seq<State>, events: seq<Event>, k: nat)
    requires IsRun(states, events) && k < |states|
    ensures states[k].attempt == ClosesSinceSync(states, events, k)
  {
    if k > 0 {
      AttemptCountsCloses(states, events, k - 1);
      RunKeeps(states, events, k - 1);
      RunStep(states, events, k);
      hide IsRun, DelayInWindow, TimerForClosed;
      AttemptStep(states[k - 1], events[k - 1]);
    }
  }

  lemma {:induction false} AttemptStep(s: State, event: Event)
    requires OneSocket(s) && Possible(s, event)
    ensures After(s, event).attempt ==
              if HeardSync(s, event) then 0 else s.attempt + (if HeardRetryableClose(s, event) then 1 else 0)
  {
    hide BackoffDelay;
  }

  // ── What the events say ────────────────────────────────────────────────────

  predicate HeardClose(s: State, event: Event) {
    event.Closes? && event.id < |s.sockets| && s.sockets[event.id].heard
  }

  ghost predicate Destroyed(events: seq<Event>, k: nat)
    requires k <= |events|
  {
    exists i :: 0 <= i < k && events[i].Destroy?
  }

  /** What the user is shown: the last sync message or close that was heard decides. */
  function StatusOf(states: seq<State>, events: seq<Event>, k: nat): Status
    requires k <= |events| < |states|
  {
    if k == 0 then Connecting
    else if HeardSync(states[k - 1], events[k - 1]) then Synced
    else if HeardClose(states[k - 1], events[k - 1]) then
      if IsTerminalClose(events[k - 1].code) then Closed else Reconnecting
    else StatusOf(states, events, k - 1)
  }

  function CodeOf(states: seq<State>, events: seq<Event>, k: nat): nat
    requires k <= |events| < |states|
  {
    if k == 0 then 0
    else if HeardClose(states[k - 1], events[k - 1]) then events[k - 1].code
    else CodeOf(states, events, k - 1)
  }

  predicate Readies(s: State, event: Event) {
    HeardSync(s, event) || (event.LocalLoaded? && event.hasContent)
  }

  /** A sync message was heard, or the local store had something, before the provider was destroyed. */
  ghost predicate MadeReady(states: seq<State>, events: seq<Event>, k: nat)
    requires k <= |events| < |states|
  {
    exists i :: 0 <= i < k && !Destroyed(events, i) && Readies(states[i], events[i])
  }

  ghost predicate Accounted(states: seq<State>, events: seq<Event>, k: nat)
    requires k <= |events| < |states|
  {
    && states[k].status == StatusOf(states, events, k) && states[k].closeCode == CodeOf(states, events, k)
    && (states[k].destroyed <==> Destroyed(events, k)) && (states[k].ready <==> MadeReady(states, events, k))
  }

  ghost predicate StatusFollows(s: State, t: State, event: Event) {
    && t.status == (if HeardSync(s, event) then Synced
                    else if HeardClose(s, event) then if IsTerminalClose(event.code) then Closed else Reconnecting
                    else s.status)
    && t.closeCode == (if HeardClose(s, event) then event.code else s.closeCode)
    && (t.destroyed <==> s.destroyed || event.Destroy?)
    && (t.ready <==> s.ready || (!s.destroyed && Readies(s, event)))
  }

  lemma {:induction false} EventStatus(s: State, event: Event)
    requires OneSocket(s) && Possible(s, event)
    ensures StatusFollows(s, After(s, event), event)
  {
    hide BackoffDelay, IsTerminalClose;
  }

  lemma {:induction false} ReadyStep(states: seq<State>, events: seq<Event>, k: nat)
    requires 0 < k <= |events| < |states|
    ensures MadeReady(states, events, k) <==>
      MadeReady(states, events, k - 1) || (!Destroyed(events, k - 1) && Readies(states[k - 1], events[k - 1]))
    ensures Destroyed(events, k) <==> Destroyed(events, k - 1) || events[k - 1].Destroy?
  {
    hide Readies;
    if i :| 0 <= i < k && !Destroyed(events, i) && Readies(states[i], events[i]) {
      assert i < k - 1 || i == k - 1;
    }
  }

  /** Status, close code and readiness follow from what was heard, and nothing else: the first sync message
      or a local store that held something makes the document ready; a close with an application code that
      ends it shows as closed, and any other as reconnecting. */
  lemma {:induction false} StatusFollowsTheEvents(states: seq<State>, events: seq<Event>, k: nat)
    requires IsRun(states, events) && k < |states|
    ensures k <= |events| && Accounted(states, events, k)
  {
    hide Possible, After, Inv, HeardSync, HeardClose, Readies, IsTerminalClose, Destroyed, MadeReady;
    if k == 0 {
      StartsUnready(states, events);
    } else {
      StatusFollowsTheEvents(states, events, k - 1);
      RunKeeps(states, events, k - 1);
      RunStep(states, events, k);
      InvHasOneSocket(states[k - 1]);
      EventStatus(states[k - 1], events[k - 1]);
      ReadyStep(states, events, k);
    }
  }

  lemma {:induction false} InvHasOneSocket(s: State)
    requires Inv(s)
    ensures OneSocket(s)
  {
  }

  lemma {:induction false} StartsUnready(states: seq<State>, events: seq<Event>)
    requires IsRun(states, events)
    ensures Accounted(states, events, 0)
  {
  }

  /** A retryable close arms one timer for the delay that its sample drew, in the window of the closes
      before it; a close of the protocol itself is always retryable. */
  lemma {:induction false} CloseArmsTheDelay(states: seq<State>, events: seq<Event>, k: nat)
    requires IsRun(states, events) && k < |events| && HeardClose(states[k], events[k])
    ensures var s, t, code := states[k], states[k + 1], events[k].code;
            && (code < 4000 ==> !IsTerminalClose(code))
            && (IsTerminalClose(code) ==> t.timers == map[])
            && (!IsTerminalClose(code) ==>
                  t.timers == map[s.nextTimer := BackoffDelay(ClosesSinceSync(states, events, k), events[k].sample)])
  {
    RunKeeps(states, events, k);
    RunStep(states, events, k + 1);
    AttemptCountsCloses(states, events, k);
    var s, e := states[k], events[k];
    ClosedSocketKeeps(s, e.id);
    ClearedHasNone(s);
    hide IsRun, BackoffDelay, DelayInWindow, Announced;
    assert s.timers == map[] && s.retry.None? && !s.destroyed;
  }

  /** The timer, or the network coming back before it, opens a new socket, and no timer is left. */
  lemma {:induction false} RetryOpensASocket(states: seq<State>, events: seq<Event>, k: nat)
    requires IsRun(states, events) && k < |events|
    requires events[k].TimerFires? || (events[k].Online? && states[k].status == Reconnecting && !states[k].destroyed)
    ensures var s, t := states[k], states[k + 1];
            && |t.sockets| == |s.sockets| + 1 && t.socket == Some(|s.sockets|)
            && t.sockets[|s.sockets|] == Socket(Opening, true, false, false) && t.timers == map[]
  {
    RunKeeps(states, events, k);
    RunStep(states, events, k + 1);
    ClearedHasNone(states[k]);
    hide IsRun, DelayInWindow, Announced;
  }

  // ── The provider in place ──────────────────────────────────────────────────

  class CollabProvider {
    var status: Status
    var ready: bool
    var closeCode: nat
    var sockets: seq<Socket>
    var socket: Option<nat>
    var timers: map<nat, real>
    var nextTimer: nat
    var retry: Option<nat>
    var attempt: nat
    var destroyed: bool

    ghost function Snapshot(): State
      reads this
    {
      State(status, ready, closeCode, sockets, socket, timers, nextTimer, retry, attempt, destroyed)
    }

    constructor ()
      ensures Snapshot() == Constructed && Inv(Snapshot())
    {
      status, ready, closeCode, sockets, socket := Connecting, false, 0, [], None;
      timers, nextTimer, retry, attempt, destroyed := map[], 0, None, 0, false;
      new;
      Connect();
      ConstructedHolds();
    }

    method Connect()
      modifies this
      ensures Snapshot() == Connected(old(Snapshot()))
    {
      if destroyed {
        return;
      }
      sockets, socket := sockets + [Socket(Opening, true, false, false)], Some(|sockets|);
    }

    method DetachSocket()
      requires socket.Some? ==> socket.value < |sockets|
      modifies this
      ensures Snapshot() == Detached(old(Snapshot()))
    {
      if socket.None? {
        return;
      }
      var id := socket.value;
      sockets := sockets[id := sockets[id].(heard := false)];
      sockets := sockets[id := sockets[id].(askedToClose := true)];
      socket := None;
    }

    method ClearRetry()
      modifies this
      ensures Snapshot() == Cleared(old(Snapshot()))
    {
      if retry.None? {
        return;
      }
      timers := timers - {retry.value};
      retry := None;
    }

    /** `setTimeout` */
    method ArmRetry(delay: real)
      modifies this
      ensures Snapshot() == Armed(old(Snapshot()), delay)
    {
      timers, nextTimer, retry := timers[nextTimer := delay], nextTimer + 1, Some(nextTimer);
    }

    method HandleOpen(id: nat)
      requires Inv(Snapshot()) && Possible(Snapshot(), Opens(id)) && sockets[id].heard
      modifies this
      ensures Snapshot() == After(old(Snapshot()), Opens(id)) && Inv(Snapshot())
    {
      EventKeeps(Snapshot(), Opens(id));
      sockets := sockets[id := sockets[id].(phase := Open)];
      if !destroyed && socket.Some? && sockets[socket.value].phase == Open {
        sockets := sockets[socket.value := sockets[socket.value].(announced := true)];
      }
    }

    method HandleMessage(id: nat, sync: bool)
      requires Inv(Snapshot()) && Possible(Snapshot(), Arrives(id, sync)) && sockets[id].heard
      modifies this
      ensures Snapshot() == After(old(Snapshot()), Arrives(id, sync)) && Inv(Snapshot())
    {
      EventKeeps(Snapshot(), Arrives(id, sync));
      if sync {
        if !ready && !destroyed {
          ready := true;
        }
        attempt := 0;
        if status != Synced {
          status := Synced;
        }
      }
    }

    method HandleClose(id: nat, code: nat, sample: real)
      requires Inv(Snapshot()) && Possible(Snapshot(), Closes(id, code, sample)) && sockets[id].heard
      modifies this
      ensures Snapshot() == After(old(Snapshot()), Closes(id, code, sample)) && Inv(Snapshot())
    {
      EventKeeps(Snapshot(), Closes(id, code, sample));
      hide Inv, IsTerminalClose, BackoffDelay, Cleared, Armed;
      sockets := sockets[id := sockets[id].(phase := Ended)];
      if destroyed {
        return;
      }
      closeCode := code;
      if IsTerminalClose(code) {
        status := Closed;
        return;
      }
      status := Reconnecting;
      var delay := BackoffDelay(attempt, sample);
      attempt := attempt + 1;
      ClearRetry();
      ArmRetry(delay);
    }

    method RetryFires(timer: nat)
      requires Inv(Snapshot()) && Possible(Snapshot(), TimerFires(timer))
      modifies this
      ensures Snapshot() == After(old(Snapshot()), TimerFires(timer)) && Inv(Snapshot())
    {
      EventKeeps(Snapshot(), TimerFires(timer));
      timers := timers - {timer};
      retry := None;
      DetachSocket();
      Connect();
    }

    method HandleOnline()
      requires Inv(Snapshot())
      modifies this
      ensures Snapshot() == After(old(Snapshot()), Event.Online) && Inv(Snapshot())
    {
      EventKeeps(Snapshot(), Event.Online);
      if destroyed || status != Reconnecting {
        return;
      }
      ClearRetry();
      DetachSocket();
      Connect();
    }

    method DestroyProvider()
      requires Inv(Snapshot())
      modifies this
      ensures Snapshot() == After(old(Snapshot()), Event.Destroy) && Inv(Snapshot())
    {
      EventKeeps(Snapshot(), Event.Destroy);
      if destroyed {
        return;
      }
      destroyed := true;
      ClearRetry();
      DetachSocket();
    }
  }
}
