/** Several server instances appending to one log, reading fold candidates and racing to
    compact it. Every database effect is its own step, so any interleaving of id allocation,
    commit, candidate read, compaction and crash is a run of this machine. */
module LogProtocol {
  import opened Wrappers
  import opened Yjs
  import opened DocStore

  /** `COMPACT_LAG_MS` */
  const COMPACT_LAG_MS := 30_000

  /** A compactor between its read and its write. `ids` names the rows it read. */
  datatype Held = Held(docId: DocId, candidate: Candidate, ids: seq<nat>)

  /** `issued` holds every row that was given an id and not abandoned; the ones that also
      committed are in `archive`, which nothing ever leaves. `seeds` holds every seed. None of
      the three is stored anywhere: they say what the database owes its readers. */
  datatype World = World(
    db: Db,
    issued: map<nat, Row>,
    archive: map<nat, Row>,
    seeds: map<DocId, Doc>,
    held: map<nat, Held>,
    now: int)

  datatype Step =
    | Seed(docId: DocId, content: Doc)
    | Alloc(docId: DocId, update: Doc, createdAt: int)
    | Commit(id: nat)
    | Abort(id: nat)
    | Read(compactor: nat, docId: DocId, cutoff: int)
    | Finish(compactor: nat)
    | Crash(compactor: nat)
    | Tick(now: int)

  function InitialWorld(now: int): World {
    World(EmptyDb, map[], map[], map[], map[], now)
  }

  /** The row has its id but is not visible yet. */
  predicate Uncommitted(w: World, id: nat) {
    id in w.issued && id !in w.archive
  }

  ghost predicate Fresh(w: World, docId: DocId) {
    docId !in w.db.snapshots && forall id | id in w.issued :: w.issued[id].docId != docId
  }

  /** What the environment guarantees: one seed per document and before anything else, stamps
      that do not decrease along a document's ids, cutoffs at least the margin behind now,
      and no append still uncommitted when its stamp is older than the margin. */
  ghost predicate Enabled(w: World, step: Step) {
    match step
    case Seed(docId, _) => Fresh(w, docId)
    case Alloc(docId, _, createdAt) =>
      && w.now <= createdAt + COMPACT_LAG_MS
      && forall id | id in w.issued && w.issued[id].docId == docId :: w.issued[id].createdAt <= createdAt
    case Commit(id) => Uncommitted(w, id)
    case Abort(id) => Uncommitted(w, id)
    case Read(compactor, _, cutoff) => compactor !in w.held && cutoff + COMPACT_LAG_MS <= w.now
    case Finish(compactor) => compactor in w.held && w.held[compactor].candidate.throughUpdateId.Some?
    case Crash(compactor) => true
    case Tick(now) =>
      && w.now <= now
      && forall id | id in w.issued && id !in w.archive :: now <= w.issued[id].createdAt + COMPACT_LAG_MS
  }

  /** `foldCandidate`: the snapshot, then the tail. */
  function Fold(candidate: Candidate): Doc {
    DocOr(candidate.snapshot) + Union(candidate.updates)
  }

  function FinishResult(db: Db, h: Held): (Db, CompactOutcome)
    requires h.candidate.throughUpdateId.Some?
  {
    CompactIn(db, h.docId, Fold(h.candidate), h.candidate.throughUpdateId.value, h.candidate.expectedUpdateId)
  }

  predicate Wins(w: World, compactor: nat) {
    && compactor in w.held
    && w.held[compactor].candidate.throughUpdateId.Some?
    && FinishResult(w.db, w.held[compactor]).1.Won?
  }

  function AfterSeed(w: World, docId: DocId, content: Doc): World {
    w.(db := WithSnapshot(w.db, docId, content, 0), seeds := w.seeds[docId := content])
  }

  function AfterAlloc(w: World, docId: DocId, update: Doc, createdAt: int): World {
    w.(db := Allocated(w.db), issued := w.issued[w.db.lastId + 1 := Row(docId, update, createdAt)])
  }

  function AfterCommit(w: World, id: nat): World {
    if id in w.issued then
      w.(db := Committed(w.db, id, w.issued[id]), archive := w.archive[id := w.issued[id]])
    else w
  }

  function AfterRead(w: World, compactor: nat, docId: DocId, cutoff: int): World {
    var candidate := CandidateFrom(w.db, docId, cutoff);
    // A null boundary means every row is inside the margin: nothing to fold.
    if candidate.throughUpdateId.None? then w
    else
      var ids := SelectIds(w.db.rows, docId, Watermark(w.db, docId), Some(cutoff), w.db.lastId);
      w.(held := w.held[compactor := Held(docId, candidate, ids)])
  }

  function AfterFinish(w: World, compactor: nat): World {
    if compactor in w.held && w.held[compactor].candidate.throughUpdateId.Some? then
      w.(db := FinishResult(w.db, w.held[compactor]).0, held := w.held - {compactor})
    else w
  }

  function Next(w: World, step: Step): World {
    match step
    case Seed(docId, content) => AfterSeed(w, docId, content)
    case Alloc(docId, update, createdAt) => AfterAlloc(w, docId, update, createdAt)
    case Commit(id) => AfterCommit(w, id)
    case Abort(id) => w.(issued := w.issued - {id})
    case Read(compactor, docId, cutoff) => AfterRead(w, compactor, docId, cutoff)
    case Finish(compactor) => AfterFinish(w, compactor)
    case Crash(compactor) => w.(held := w.held - {compactor})
    case Tick(now) => w.(now := now)
  }

  // ── Runs ───────────────────────────────────────────────────────────────────

  function WorldAt(start: World, steps: seq<Step>, n: nat): World
    requires n <= |steps|
  {
    if n == 0 then start else Next(WorldAt(start, steps, n - 1), steps[n - 1])
  }

  ghost predicate Legal(start: World, steps: seq<Step>) {
    forall i | 0 <= i < |steps| :: Enabled(WorldAt(start, steps, i), steps[i])
  }

  // ── The invariant ──────────────────────────────────────────────────────────

  function SeedOf(w: World, docId: DocId): Doc {
    if docId in w.seeds then w.seeds[docId] else {}
  }

  /** The seed and every committed row of the document with an id up to `through`. */
  ghost function HistoryThrough(w: World, docId: DocId, through: nat): Doc {
    SeedOf(w, docId) + OpsBetween(w.archive, docId, 0, through)
  }

  /** The seed plus every update ever committed. */
  ghost function History(w: World, docId: DocId): Doc {
    HistoryThrough(w, docId, w.db.lastId)
  }

  /** The table is exactly the committed rows past their document's watermark. */
  ghost predicate RowsAreTail(w: World) {
    && (forall id | id in w.db.rows :: id in w.archive && w.archive[id] == w.db.rows[id])
    && (forall id | id in w.archive :: id in w.db.rows <==> Watermark(w.db, w.archive[id].docId) < id)
  }

  ghost predicate IdsIssued(w: World) {
    && (forall id | id in w.issued :: 0 < id <= w.db.lastId)
    && (forall id | id in w.archive :: id in w.issued && w.archive[id] == w.issued[id])
  }

  ghost predicate UncommittedTimely(w: World) {
    forall id | id in w.issued && id !in w.archive ::
      Watermark(w.db, w.issued[id].docId) < id && w.now <= w.issued[id].createdAt + COMPACT_LAG_MS
  }

  ghost predicate StampsMonotone(w: World) {
    forall a, b | a in w.issued && b in w.issued && a < b && w.issued[a].docId == w.issued[b].docId ::
      w.issued[a].createdAt <= w.issued[b].createdAt
  }

  /** A snapshot is the history up to its watermark, and nothing at or below the watermark is
      still to commit. */
  ghost predicate SnapshotSound(w: World, docId: DocId, snapshot: Snapshot) {
    && snapshot.updateId <= w.db.lastId
    && (forall id | id in w.issued && id !in w.archive && w.issued[id].docId == docId :: snapshot.updateId < id)
    && snapshot.state == HistoryThrough(w, docId, snapshot.updateId)
  }

  ghost predicate SnapshotsSound(w: World) {
    && (forall d | d in w.db.snapshots :: SnapshotSound(w, d, w.db.snapshots[d]))
    && w.seeds.Keys <= w.db.snapshots.Keys
  }

  function AfterOf(token: Option<nat>): nat {
    if token.Some? then token.value else 0
  }

  /** What a held candidate means, whether or not its token is still current: folded, it is a
      sound snapshot for its boundary, and it read every committed row up to there. */
  ghost predicate HeldSound(w: World, h: Held) {
    && h.candidate.throughUpdateId.Some?
    && var through := h.candidate.throughUpdateId.value;
    && AfterOf(h.candidate.expectedUpdateId) < through
    && SnapshotSound(w, h.docId, Snapshot(Fold(h.candidate), through))
    && IdsBetween(w, h.docId, AfterOf(h.candidate.expectedUpdateId), through, h.ids)
    && through in w.archive && w.archive[through].docId == h.docId
  }

  /** `ids` names exactly the document's committed rows in `(after, through]`. */
  ghost predicate IdsBetween(w: World, docId: DocId, after: nat, through: nat, ids: seq<nat>) {
    && (forall id | id in ids :: id in w.archive && w.archive[id].docId == docId && after < id <= through)
    && (forall id | id in w.archive && w.archive[id].docId == docId && after < id <= through :: id in ids)
  }

  ghost predicate AllHeldSound(w: World) {
    forall c | c in w.held :: HeldSound(w, w.held[c])
  }

  /** The part that looks forward: what is in the table, and what may still commit. */
  ghost predicate Forward(w: World) {
    RowsAreTail(w) && IdsIssued(w) && UncommittedTimely(w) && StampsMonotone(w)
  }

  ghost predicate Inv(w: World) {
    Forward(w) && SnapshotsSound(w) && AllHeldSound(w)
  }

  // ── Every step keeps it ────────────────────────────────────────────────────

  /** What no step does: change a committed row, commit a row that was not issued, reissue an
      old id, or seed a document that already has a snapshot or rows. */
  ghost predicate Extends(w: World, v: World) {
    && w.db.lastId <= v.db.lastId
    && (forall id | id in w.archive :: id in v.archive && v.archive[id] == w.archive[id])
    && (forall id | id in v.archive && id !in w.archive :: id in w.issued && w.issued[id] == v.archive[id])
    && (forall id | id in v.issued && id <= w.db.lastId :: id in w.issued && w.issued[id] == v.issued[id])
    && (forall d | d in w.db.snapshots || (exists id :: id in w.issued && w.issued[id].docId == d) ::
          SeedOf(v, d) == SeedOf(w, d))
  }

  lemma {:induction false} SnapshotSoundFrame(w: World, v: World, docId: DocId, s: Snapshot)
    requires Extends(w, v) && SnapshotSound(w, docId, s) && SeedOf(v, docId) == SeedOf(w, docId)
    ensures SnapshotSound(v, docId, s)
  {
    assert OpsBetween(v.archive, docId, 0, s.updateId) == OpsBetween(w.archive, docId, 0, s.updateId);
  }

  lemma {:induction false} HeldFrame(w: World, v: World, h: Held)
    requires Extends(w, v) && IdsIssued(w) && HeldSound(w, h)
    ensures HeldSound(v, h)
    ensures SnapshotSound(v, h.docId, Snapshot(Fold(h.candidate), h.candidate.throughUpdateId.value))
  {
    hide Union;
    var through := h.candidate.throughUpdateId.value;
    assert through in w.issued && w.issued[through].docId == h.docId;
    SnapshotSoundFrame(w, v, h.docId, Snapshot(Fold(h.candidate), through));
  }

  /** The rest of the invariant looks back and follows from `Extends`. */
  lemma {:induction false} LookingBackKeeps(w: World, v: World)
    requires Inv(w) && Extends(w, v)
    ensures forall d | d in w.db.snapshots :: SnapshotSound(v, d, w.db.snapshots[d])
    ensures forall c | c in w.held :: HeldSound(v, w.held[c])
  {
    hide SnapshotSound, HeldSound, OpsBetween, RowsAreTail, StampsMonotone, UncommittedTimely;
    forall d | d in w.db.snapshots
      ensures SnapshotSound(v, d, w.db.snapshots[d])
    {
      SnapshotSoundFrame(w, v, d, w.db.snapshots[d]);
    }
    forall c | c in w.held
      ensures HeldSound(v, w.held[c])
    {
      HeldFrame(w, v, w.held[c]);
    }
  }

  lemma {:induction false} SameTables(w: World, v: World)
    requires Forward(w) && v == w.(held := v.held)
    ensures Forward(v) && Extends(w, v)
  {
  }

  lemma {:induction false} SeedExtends(w: World, docId: DocId, content: Doc)
    requires Fresh(w, docId) && IdsIssued(w)
    ensures Extends(w, AfterSeed(w, docId, content))
  {
  }

  lemma {:induction false} SeedForward(w: World, docId: DocId, content: Doc)
    requires Forward(w) && Fresh(w, docId)
    ensures Forward(AfterSeed(w, docId, content))
    ensures SnapshotSound(AfterSeed(w, docId, content), docId, Snapshot(content, 0))
  {
    var v := AfterSeed(w, docId, content);
    assert SnapshotSound(v, docId, Snapshot(content, 0)) by {
      assert OpsBetween(v.archive, docId, 0, 0) == {};
    }
    hide SnapshotSound;
  }

  lemma {:induction false} SeedKeeps(w: World, docId: DocId, content: Doc)
    requires Inv(w) && Fresh(w, docId)
    ensures Inv(AfterSeed(w, docId, content)) && Extends(w, AfterSeed(w, docId, content))
  {
    SeedForward(w, docId, content);
    SeedExtends(w, docId, content);
    hide Forward, Extends, HeldSound, SnapshotSound;
    LookingBackKeeps(w, AfterSeed(w, docId, content));
  }

  lemma {:induction false} AllocForward(w: World, docId: DocId, update: Doc, createdAt: int)
    requires Forward(w) && Watermark(w.db, docId) <= w.db.lastId
    requires w.now <= createdAt + COMPACT_LAG_MS
    requires forall id | id in w.issued && w.issued[id].docId == docId :: w.issued[id].createdAt <= createdAt
    ensures Forward(AfterAlloc(w, docId, update, createdAt))
  {
    var v := AfterAlloc(w, docId, update, createdAt);
    assert w.db.lastId + 1 !in w.issued;
    assert StampsMonotone(v);
    hide StampsMonotone;
    assert RowsAreTail(v);
    hide RowsAreTail;
  }

  lemma {:induction false} AllocExtends(w: World, docId: DocId, update: Doc, createdAt: int)
    requires IdsIssued(w)
    ensures Extends(w, AfterAlloc(w, docId, update, createdAt))
  {
  }

  lemma {:induction false} AllocKeeps(w: World, docId: DocId, update: Doc, createdAt: int)
    requires Inv(w)
    requires w.now <= createdAt + COMPACT_LAG_MS
    requires forall id | id in w.issued && w.issued[id].docId == docId :: w.issued[id].createdAt <= createdAt
    ensures Inv(AfterAlloc(w, docId, update, createdAt)) && Extends(w, AfterAlloc(w, docId, update, createdAt))
  {
    assert Watermark(w.db, docId) <= w.db.lastId;
    AllocForward(w, docId, update, createdAt);
    AllocExtends(w, docId, update, createdAt);
    hide Forward, Extends, HeldSound, SnapshotSound;
    LookingBackKeeps(w, AfterAlloc(w, docId, update, createdAt));
  }

  lemma {:induction false} CommitForward(w: World, id: nat)
    requires Forward(w) && Uncommitted(w, id)
    ensures Forward(AfterCommit(w, id)) && Extends(w, AfterCommit(w, id))
  {
  }

  lemma {:induction false} CommitKeeps(w: World, id: nat)
    requires Inv(w) && Uncommitted(w, id)
    ensures Inv(AfterCommit(w, id)) && Extends(w, AfterCommit(w, id))
  {
    CommitForward(w, id);
    hide Forward, Extends, HeldSound, SnapshotSound;
    LookingBackKeeps(w, AfterCommit(w, id));
  }

  lemma {:induction false} AbortForward(w: World, id: nat)
    requires Forward(w) && Uncommitted(w, id)
    ensures var v := w.(issued := w.issued - {id}); Forward(v) && Extends(w, v)
  {
  }

  lemma {:induction false} AbortKeeps(w: World, id: nat)
    requires Inv(w) && Uncommitted(w, id)
    ensures var v := w.(issued := w.issued - {id}); Inv(v) && Extends(w, v)
  {
    AbortForward(w, id);
    hide Forward, Extends, HeldSound, SnapshotSound;
    LookingBackKeeps(w, w.(issued := w.issued - {id}));
  }

  lemma {:induction false} StampsOf(w: World, a: nat, b: nat)
    requires StampsMonotone(w) && a in w.issued && b in w.issued && w.issued[a].docId == w.issued[b].docId
    ensures a <= b ==> w.issued[a].createdAt <= w.issued[b].createdAt
  {
  }

  /** Of the rows of the document, the younger ones come after every one older than the cutoff. */
  lemma {:induction false} WaitingComesAfter(w: World, docId: DocId, cutoff: int, through: nat, id: nat)
    requires RowsAreTail(w) && IdsIssued(w) && UncommittedTimely(w) && StampsMonotone(w)
    requires cutoff + COMPACT_LAG_MS <= w.now
    requires Selected(w.db.rows, docId, Watermark(w.db, docId), Some(cutoff), through)
    requires id in w.issued && id !in w.archive && w.issued[id].docId == docId
    ensures through < id
  {
    StampsOf(w, id, through);
  }

  lemma {:induction false} SelectedUpTo(w: World, docId: DocId, cutoff: int, through: nat, id: nat)
    requires RowsAreTail(w) && IdsIssued(w) && StampsMonotone(w)
    requires Selected(w.db.rows, docId, Watermark(w.db, docId), Some(cutoff), through)
    requires id in w.archive && w.archive[id].docId == docId && Watermark(w.db, docId) < id <= through
    ensures id <= w.db.lastId && Selected(w.db.rows, docId, Watermark(w.db, docId), Some(cutoff), id)
  {
    StampsOf(w, id, through);
  }

  /** The key fact about the margin: the rows older than the cutoff are all the rows up to the
      youngest of them, and nothing at or below that boundary is still waiting to commit. */
  lemma {:induction false} CutoffSelectsPrefix(w: World, docId: DocId, cutoff: int, ids: seq<nat>)
    requires RowsAreTail(w) && IdsIssued(w) && UncommittedTimely(w) && StampsMonotone(w)
    requires cutoff + COMPACT_LAG_MS <= w.now
    requires ids == SelectIds(w.db.rows, docId, Watermark(w.db, docId), Some(cutoff), w.db.lastId) && ids != []
    ensures var through := ids[|ids| - 1];
            && IdsBetween(w, docId, Watermark(w.db, docId), through, ids)
            && through in ids
            && (forall id | id in w.issued && id !in w.archive && w.issued[id].docId == docId :: through < id)
  {
    hide SelectIds, UncommittedTimely, StampsMonotone, IdsIssued;
    var through := ids[|ids| - 1];
    forall id | id in w.issued && id !in w.archive && w.issued[id].docId == docId
      ensures through < id
    {
      WaitingComesAfter(w, docId, cutoff, through, id);
    }
    forall id | id in w.archive && w.archive[id].docId == docId && Watermark(w.db, docId) < id <= through
      ensures id in ids
    {
      SelectedUpTo(w, docId, cutoff, through, id);
    }
  }

  lemma {:induction false} UnionOfIdsBetween(w: World, docId: DocId, after: nat, through: nat, ids: seq<nat>)
    requires RowsAreTail(w) && IdsBetween(w, docId, after, through, ids)
    requires forall id | id in ids :: id in w.db.rows
    ensures Union(UpdatesOf(w.db.rows, ids)) == OpsBetween(w.archive, docId, after, through)
  {
    UnionOfRows(w.db.rows, ids);
  }

  lemma {:induction false} SplitOps(rows: map<nat, Row>, docId: DocId, mid: nat, through: nat)
    requires mid <= through
    ensures OpsBetween(rows, docId, 0, through)
         == OpsBetween(rows, docId, 0, mid) + OpsBetween(rows, docId, mid, through)
  {
  }

  /** The snapshot a document has, or the empty one it would have: sound either way. */
  lemma {:induction false} WatermarkHistory(w: World, docId: DocId)
    requires SnapshotsSound(w)
    ensures DocOr(SnapshotState(w.db, docId)) == HistoryThrough(w, docId, Watermark(w.db, docId))
  {
    assert OpsBetween(w.archive, docId, 0, 0) == {};
  }

  /** The fold of what was read is the history up to the last row read. */
  lemma {:induction false} FoldOfRead(w: World, docId: DocId, through: nat, ids: seq<nat>)
    requires RowsAreTail(w) && SnapshotsSound(w)
    requires Watermark(w.db, docId) <= through
    requires IdsBetween(w, docId, Watermark(w.db, docId), through, ids) && forall id | id in ids :: id in w.db.rows
    ensures DocOr(SnapshotState(w.db, docId)) + Union(UpdatesOf(w.db.rows, ids)) == HistoryThrough(w, docId, through)
  {
    UnionOfIdsBetween(w, docId, Watermark(w.db, docId), through, ids);
    WatermarkHistory(w, docId);
    SplitOps(w.archive, docId, Watermark(w.db, docId), through);
    hide RowsAreTail, SnapshotsSound, IdsBetween, Union, UpdatesOf, OpsBetween;
  }

  lemma {:induction false} ReadIsSound(w: World, docId: DocId, cutoff: int)
    requires Inv(w) && cutoff + COMPACT_LAG_MS <= w.now
    requires CandidateFrom(w.db, docId, cutoff).throughUpdateId.Some?
    ensures HeldSound(w, Held(docId, CandidateFrom(w.db, docId, cutoff),
                              SelectIds(w.db.rows, docId, Watermark(w.db, docId), Some(cutoff), w.db.lastId)))
  {
    var ids := SelectIds(w.db.rows, docId, Watermark(w.db, docId), Some(cutoff), w.db.lastId);
    hide SelectIds, UpdatesOf, Union, AllHeldSound;
    var through := ids[|ids| - 1];
    CutoffSelectsPrefix(w, docId, cutoff, ids);
    assert Watermark(w.db, docId) < through <= w.db.lastId && through in w.archive && w.archive[through].docId == docId;
    hide SnapshotsSound, StampsMonotone;
    FoldOfRead(w, docId, through, ids);
    hide RowsAreTail, UncommittedTimely, HistoryThrough, IdsBetween;
  }

  lemma {:induction false} ReadKeeps(w: World, compactor: nat, docId: DocId, cutoff: int)
    requires Inv(w) && cutoff + COMPACT_LAG_MS <= w.now
    ensures Inv(AfterRead(w, compactor, docId, cutoff)) && Extends(w, AfterRead(w, compactor, docId, cutoff))
  {
    if CandidateFrom(w.db, docId, cutoff).throughUpdateId.Some? {
      ReadIsSound(w, docId, cutoff);
      hide SelectIds, CandidateFrom;
      var ids := SelectIds(w.db.rows, docId, Watermark(w.db, docId), Some(cutoff), w.db.lastId);
      HoldKeeps(w, compactor, Held(docId, CandidateFrom(w.db, docId, cutoff), ids));
    }
  }

  lemma {:induction false} HoldKeeps(w: World, compactor: nat, h: Held)
    requires Inv(w) && HeldSound(w, h)
    ensures var v := w.(held := w.held[compactor := h]); Inv(v) && Extends(w, v)
  {
    var v := w.(held := w.held[compactor := h]);
    SameTables(w, v);
    hide Forward, Extends, HeldSound, SnapshotSound;
    LookingBackKeeps(w, v);
    HeldFrame(w, v, h);
  }

  lemma {:induction false} WinExtends(w: World, h: Held)
    requires IdsIssued(w) && HeldSound(w, h)
    ensures Extends(w, w.(db := FinishResult(w.db, h).0))
  {
    hide Fold, OpsBetween, HeldSound;
  }

  /** A win replaces one snapshot by the fold and deletes what the new boundary covers. */
  lemma {:induction false} WinIsTimely(w: World, h: Held)
    requires UncommittedTimely(w) && HeldSound(w, h) && FinishResult(w.db, h).1.Won?
    ensures UncommittedTimely(w.(db := FinishResult(w.db, h).0))
  {
    hide Fold, HistoryThrough, IdsBetween;
  }

  lemma {:induction false} WinLeavesTail(w: World, h: Held)
    requires RowsAreTail(w) && HeldSound(w, h) && FinishResult(w.db, h).1.Won?
    ensures RowsAreTail(w.(db := FinishResult(w.db, h).0))
  {
    hide Fold, HistoryThrough, IdsBetween;
  }

  lemma {:induction false} WinIssuesNothing(w: World, h: Held)
    requires IdsIssued(w) && StampsMonotone(w) && h.candidate.throughUpdateId.Some? && FinishResult(w.db, h).1.Won?
    ensures var v := w.(db := FinishResult(w.db, h).0); IdsIssued(v) && StampsMonotone(v)
  {
    hide Fold;
  }

  lemma {:induction false} WinForward(w: World, h: Held)
    requires Forward(w) && HeldSound(w, h) && FinishResult(w.db, h).1.Won?
    ensures Forward(w.(db := FinishResult(w.db, h).0))
  {
    WinIsTimely(w, h);
    WinLeavesTail(w, h);
    WinIssuesNothing(w, h);
    hide RowsAreTail, IdsIssued, UncommittedTimely, StampsMonotone, HeldSound, FinishResult;
  }

  lemma {:induction false} ReplaceSnapshot(w: World, v: World, docId: DocId, s: Snapshot)
    requires SnapshotsSound(w) && v.seeds == w.seeds && v.db.snapshots == w.db.snapshots[docId := s]
    requires forall d | d in w.db.snapshots :: SnapshotSound(v, d, w.db.snapshots[d])
    requires SnapshotSound(v, docId, s)
    ensures SnapshotsSound(v)
  {
    hide SnapshotSound;
  }

  lemma {:induction false} WinIsTheFold(w: World, v: World, h: Held)
    requires v.seeds == w.seeds && v.archive == w.archive && HeldSound(w, h) && HeldSound(v, h)
    requires FinishResult(w.db, h).1.Won? && v.db == FinishResult(w.db, h).0
    ensures var folded := Snapshot(Fold(h.candidate), h.candidate.throughUpdateId.value);
            v.db.snapshots == w.db.snapshots[h.docId := folded] && SnapshotSound(v, h.docId, folded)
  {
    hide Fold, OpsBetween;
  }

  lemma {:induction false} WinKeeps(w: World, h: Held)
    requires Inv(w) && HeldSound(w, h) && FinishResult(w.db, h).1.Won?
    ensures var v := w.(db := FinishResult(w.db, h).0); Inv(v) && Extends(w, v)
  {
    hide FinishResult, Fold, IdsIssued, Extends, SnapshotSound, SnapshotsSound;
    hide RowsAreTail, UncommittedTimely, StampsMonotone;
    var v := w.(db := FinishResult(w.db, h).0);
    WinForward(w, h);
    WinExtends(w, h);
    HeldFrame(w, v, h);
    LookingBackKeeps(w, v);
    WinIsTheFold(w, v, h);
    ReplaceSnapshot(w, v, h.docId, Snapshot(Fold(h.candidate), h.candidate.throughUpdateId.value));
  }

  lemma {:induction false} FinishKeeps(w: World, compactor: nat)
    requires Inv(w) && compactor in w.held
    ensures Inv(AfterFinish(w, compactor)) && Extends(w, AfterFinish(w, compactor))
  {
    var h := w.held[compactor];
    assert HeldSound(w, h);
    if Wins(w, compactor) {
      WinKeeps(w, h);
      hide Extends, Inv;
      DropKeeps(w.(db := FinishResult(w.db, h).0), compactor);
      ExtendsThrough(w, w.(db := FinishResult(w.db, h).0), AfterFinish(w, compactor));
    } else {
      assert FinishResult(w.db, h).0 == w.db;
      hide Extends, Inv, FinishResult;
      DropKeeps(w, compactor);
    }
  }

  lemma {:induction false} ExtendsThrough(w: World, u: World, v: World)
    requires Extends(w, u) && v == u.(held := v.held)
    ensures Extends(w, v)
  {
  }

  lemma {:induction false} DropKeeps(w: World, compactor: nat)
    requires Inv(w)
    ensures var v := w.(held := w.held - {compactor}); Inv(v) && Extends(w, v)
  {
    var v := w.(held := w.held - {compactor});
    SameTables(w, v);
    hide Forward, Extends, HeldSound, SnapshotSound;
    LookingBackKeeps(w, v);
  }

  lemma {:induction false} TickForward(w: World, now: int)
    requires Forward(w) && Enabled(w, Tick(now))
    ensures Forward(w.(now := now)) && Extends(w, w.(now := now))
  {
  }

  lemma {:induction false} TickKeeps(w: World, now: int)
    requires Inv(w) && Enabled(w, Tick(now))
    ensures Inv(w.(now := now)) && Extends(w, w.(now := now))
  {
    var v := w.(now := now);
    TickForward(w, now);
    hide Forward, Extends, HeldSound, SnapshotSound;
    LookingBackKeeps(w, v);
  }

  lemma {:induction false} NextKeeps(w: World, step: Step)
    requires Inv(w) && Enabled(w, step)
    ensures Inv(Next(w, step)) && Extends(w, Next(w, step))
  {
    hide Inv, Extends, AfterSeed, AfterAlloc, AfterCommit, AfterRead, AfterFinish;
    match step
    case Seed(docId, content) => SeedKeeps(w, docId, content);
    case Alloc(docId, update, createdAt) => AllocKeeps(w, docId, update, createdAt);
    case Commit(id) => CommitKeeps(w, id);
    case Abort(id) => AbortKeeps(w, id);
    case Read(compactor, docId, cutoff) => ReadKeeps(w, compactor, docId, cutoff);
    case Finish(compactor) => FinishKeeps(w, compactor);
    case Crash(compactor) => DropKeeps(w, compactor);
    case Tick(now) => TickKeeps(w, now);
  }

  lemma {:induction false} InitKeeps(now: int)
    ensures Inv(InitialWorld(now))
  {
  }

  lemma {:induction false} RunKeeps(now: int, steps: seq<Step>, n: nat)
    requires n <= |steps| && Legal(InitialWorld(now), steps)
    ensures Inv(WorldAt(InitialWorld(now), steps, n))
    decreases n
  {
    hide Inv, Next, Enabled, InitialWorld;
    if n == 0 {
      InitKeeps(now);
    } else {
      RunKeeps(now, steps, n - 1);
      NextKeeps(WorldAt(InitialWorld(now), steps, n - 1), steps[n - 1]);
    }
  }

  // ── Main results ───────────────────────────────────────────────────────────

  lemma {:induction false} LoadIsHistory(w: World, docId: DocId)
    requires Inv(w)
    ensures Rebuilt(LoadFrom(w.db, docId)) == History(w, docId)
  {
    hide LoadSplit, AllHeldSound, SnapshotSound;
    var after, last := Watermark(w.db, docId), w.db.lastId;
    LoadRebuilds(w.db, w.db, docId);
    assert after <= last by { WatermarkIssued(w, docId); }
    TailOps(w, docId, after);
    WatermarkHistory(w, docId);
    SplitOps(w.archive, docId, after, last);
  }

  lemma {:induction false} WatermarkIssued(w: World, docId: DocId)
    requires SnapshotsSound(w)
    ensures Watermark(w.db, docId) <= w.db.lastId
  {
  }

  /** Reading the table past any id at or below the watermark reads the archive past the
      watermark. */
  lemma {:induction false} TailOps(w: World, docId: DocId, after: nat)
    requires RowsAreTail(w) && after <= Watermark(w.db, docId)
    ensures OpsBetween(w.db.rows, docId, after, w.db.lastId)
         == OpsBetween(w.archive, docId, Watermark(w.db, docId), w.db.lastId)
  {
  }

  /** Nothing is ever lost and nothing is invented: at every point of every run, an atomic
      load of any document rebuilds its seed and every update ever committed to it. */
  lemma {:induction false} Durable(now: int, steps: seq<Step>, n: nat, docId: DocId)
    requires n <= |steps| && Legal(InitialWorld(now), steps)
    ensures var w := WorldAt(InitialWorld(now), steps, n);
            Rebuilt(LoadFrom(w.db, docId)) == History(w, docId)
  {
    hide Inv, Next, Enabled, InitialWorld, LoadFrom, History;
    RunKeeps(now, steps, n);
    LoadIsHistory(WorldAt(InitialWorld(now), steps, n), docId);
  }

  // ── What the steps say ─────────────────────────────────────────────────────

  /** The ids handed out by the first `n` steps, and the row each was handed out for. */
  function IdsTaken(steps: seq<Step>, n: nat): nat
    requires n <= |steps|
  {
    if n == 0 then 0 else IdsTaken(steps, n - 1) + (if steps[n - 1].Alloc? then 1 else 0)
  }

  function RowFor(steps: seq<Step>, n: nat, id: nat): Option<Row>
    requires n <= |steps|
  {
    if n == 0 then None
    else if steps[n - 1].Alloc? && id == IdsTaken(steps, n - 1) + 1 then
      Some(Row(steps[n - 1].docId, steps[n - 1].update, steps[n - 1].createdAt))
    else RowFor(steps, n - 1, id)
  }

  /** What one step adds to a document for good: its seed, or the update of an append that commits. */
  function Brought(steps: seq<Step>, n: nat, docId: DocId): Doc
    requires n < |steps|
  {
    match steps[n]
    case Seed(d, content) => if d == docId then content else {}
    case Commit(id) =>
      var row := RowFor(steps, n, id);
      if row.Some? && row.value.docId == docId then row.value.update else {}
    case _ => {}
  }

  function AllBrought(steps: seq<Step>, n: nat, docId: DocId): Doc
    requires n <= |steps|
  {
    if n == 0 then {} else AllBrought(steps, n - 1, docId) + Brought(steps, n - 1, docId)
  }

  /** The ids and rows of the world are those of the steps. */
  ghost predicate Issues(w: World, steps: seq<Step>, n: nat)
    requires n <= |steps|
  {
    && w.db.lastId == IdsTaken(steps, n)
    && forall id | id in w.issued :: RowFor(steps, n, id) == Some(w.issued[id])
  }

  lemma {:induction false} StepIssues(w: World, steps: seq<Step>, n: nat)
    requires n < |steps| && IdsIssued(w) && Issues(w, steps, n)
    ensures Issues(Next(w, steps[n]), steps, n + 1)
  {
    hide Fold, CandidateFrom, SelectIds;
  }

  lemma {:induction false} SeedBrings(w: World, d: DocId, content: Doc, docId: DocId)
    requires Inv(w) && Fresh(w, d)
    ensures History(AfterSeed(w, d, content), docId) == History(w, docId) + (if d == docId then content else {})
  {
    InvIssuesArchive(w);
    assert d !in w.seeds;
    hide Inv;
  }

  lemma {:induction false} InvIssuesArchive(w: World)
    requires Inv(w)
    ensures IdsIssued(w) && w.seeds.Keys <= w.db.snapshots.Keys
  {
  }

  lemma {:induction false} CommitBrings(w: World, id: nat, docId: DocId)
    requires IdsIssued(w) && Uncommitted(w, id)
    ensures History(AfterCommit(w, id), docId)
         == History(w, docId) + (if w.issued[id].docId == docId then w.issued[id].update else {})
  {
    var row, last := w.issued[id], w.db.lastId;
    if row.docId == docId {
      CommittedOps(w.archive, docId, 0, last, id, row);
    } else {
      var more := w.archive[id := row];
      assert forall k | k in w.archive :: more[k] == w.archive[k];
      assert OpsBetween(more, docId, 0, last) == OpsBetween(w.archive, docId, 0, last);
    }
  }

  lemma {:induction false} OtherStepsBringNothing(w: World, step: Step, docId: DocId)
    requires IdsIssued(w) && !step.Seed? && !step.Commit?
    ensures History(Next(w, step), docId) == History(w, docId)
  {
    var v := Next(w, step);
    assert v.archive == w.archive && v.seeds == w.seeds && w.db.lastId <= v.db.lastId by {
      hide OpsBetween, Fold, CandidateFrom, SelectIds;
    }
    assert OpsBetween(v.archive, docId, 0, v.db.lastId) == OpsBetween(w.archive, docId, 0, w.db.lastId);
    hide Next, OpsBetween;
  }

  lemma {:induction false} StepBrings(w: World, steps: seq<Step>, n: nat, docId: DocId)
    requires n < |steps| && Inv(w) && Issues(w, steps, n) && Enabled(w, steps[n])
    ensures History(Next(w, steps[n]), docId) == History(w, docId) + Brought(steps, n, docId)
  {
    InvIssuesArchive(w);
    hide Inv, History, AfterSeed, AfterCommit, Fresh;
    match steps[n]
    case Seed(d, content) => SeedBrings(w, d, content, docId);
    case Commit(id) => CommitBrings(w, id, docId);
    case _ => hide Next; OtherStepsBringNothing(w, steps[n], docId);
  }

  /** The same from the steps alone: a load rebuilds exactly the seed and the updates whose appends have
      committed, each as it was handed to its append. */
  lemma {:induction false} LoadHoldsWhatCommitted(now: int, steps: seq<Step>, n: nat, docId: DocId)
    requires n <= |steps| && Legal(InitialWorld(now), steps)
    ensures var w := WorldAt(InitialWorld(now), steps, n);
            && Rebuilt(LoadFrom(w.db, docId)) == AllBrought(steps, n, docId)
            && History(w, docId) == AllBrought(steps, n, docId) && Issues(w, steps, n)
  {
    hide Inv, Next, Enabled, InitialWorld, LoadFrom, History, Issues, Brought;
    Durable(now, steps, n, docId);
    if n == 0 {
      NothingBrought(now, steps, docId);
    } else {
      var w := WorldAt(InitialWorld(now), steps, n - 1);
      LoadHoldsWhatCommitted(now, steps, n - 1, docId);
      RunKeeps(now, steps, n - 1);
      InvIssuesArchive(w);
      StepBrings(w, steps, n - 1, docId);
      StepIssues(w, steps, n - 1);
    }
  }

  /** The step ends what a compactor holds, one way or the other. */
  predicate Drops(step: Step, compactor: nat) {
    (step.Finish? || step.Crash?) && step.compactor == compactor
  }

  /** What a compactor holds is what its last read found in the tables then, and it has not written since. */
  ghost predicate WasRead(start: World, steps: seq<Step>, n: nat, compactor: nat, h: Held)
    requires n <= |steps|
  {
    exists i ::
      && 0 <= i < n && steps[i] == Read(compactor, h.docId, CutoffOf(steps[i]))
      && h.candidate == CandidateFrom(WorldAt(start, steps, i).db, h.docId, CutoffOf(steps[i]))
      && forall j | i < j < n :: !Drops(steps[j], compactor)
  }

  function CutoffOf(step: Step): int {
    if step.Read? then step.cutoff else 0
  }

  lemma {:induction false} StaysRead(start: World, steps: seq<Step>, n: nat, compactor: nat, h: Held)
    requires n < |steps| && WasRead(start, steps, n, compactor, h) && !Drops(steps[n], compactor)
    ensures WasRead(start, steps, n + 1, compactor, h)
  {
    hide CandidateFrom, WorldAt;
  }

  lemma {:induction false} JustRead(start: World, steps: seq<Step>, n: nat, compactor: nat, h: Held)
    requires n < |steps| && steps[n] == Read(compactor, h.docId, CutoffOf(steps[n]))
    requires h.candidate == CandidateFrom(WorldAt(start, steps, n).db, h.docId, CutoffOf(steps[n]))
    ensures WasRead(start, steps, n + 1, compactor, h)
  {
    hide CandidateFrom, WorldAt;
  }

  lemma {:induction false} HeldStep(w: World, step: Step, compactor: nat)
    requires Enabled(w, step) && compactor in Next(w, step).held
    ensures var h := Next(w, step).held[compactor];
            if step.Read? && step.compactor == compactor then
              h.docId == step.docId && h.candidate == CandidateFrom(w.db, step.docId, step.cutoff)
            else compactor in w.held && w.held[compactor] == h && !Drops(step, compactor)
  {
    hide CandidateFrom, SelectIds, FinishResult, Fresh, Uncommitted;
  }

  lemma {:induction false} HeldWasRead(now: int, steps: seq<Step>, n: nat, compactor: nat)
    requires n <= |steps| && Legal(InitialWorld(now), steps)
    requires compactor in WorldAt(InitialWorld(now), steps, n).held
    ensures WasRead(InitialWorld(now), steps, n, compactor, WorldAt(InitialWorld(now), steps, n).held[compactor])
  {
    hide Next, Enabled, CandidateFrom, Drops, WasRead;
    var start := InitialWorld(now);
    if n > 0 {
      var w, step := WorldAt(start, steps, n - 1), steps[n - 1];
      HeldStep(w, step, compactor);
      var h := WorldAt(start, steps, n).held[compactor];
      if step.Read? && step.compactor == compactor {
        JustRead(start, steps, n - 1, compactor, h);
      } else {
        HeldWasRead(now, steps, n - 1, compactor);
        StaysRead(start, steps, n - 1, compactor, h);
      }
    }
  }

  lemma {:induction false} NothingBrought(now: int, steps: seq<Step>, docId: DocId)
    ensures History(InitialWorld(now), docId) == {} && Issues(InitialWorld(now), steps, 0)
  {
  }

  lemma {:induction false} FinishDeletes(w: World, compactor: nat)
    requires Inv(w) && compactor in w.held
    ensures var v, h := AfterFinish(w, compactor), w.held[compactor];
            if Wins(w, compactor) then
              && (forall id | id in w.db.rows :: id !in v.db.rows <==> id in h.ids)
              && (forall id | id in h.ids :: id in w.db.rows)
              && v.db.snapshots[h.docId].state == HistoryThrough(w, h.docId, v.db.snapshots[h.docId].updateId)
              && (forall id | id in w.issued && id !in w.archive && w.issued[id].docId == h.docId ::
                    v.db.snapshots[h.docId].updateId < id)
            else v.db == w.db
  {
    hide Fold, HistoryThrough, SnapshotsSound, StampsMonotone, UncommittedTimely;
    assert HeldSound(w, w.held[compactor]);
    hide AllHeldSound;
  }

  /** A winning compaction deletes exactly the rows it read and folded, and no row at or below
      its boundary can still commit; a losing one leaves both tables as they were. */
  lemma {:induction false} WinnerDeletesWhatItFolded(now: int, steps: seq<Step>, n: nat)
    requires n < |steps| && Legal(InitialWorld(now), steps) && steps[n].Finish?
    ensures var w, v := WorldAt(InitialWorld(now), steps, n), WorldAt(InitialWorld(now), steps, n + 1);
            && steps[n].compactor in w.held
            && var h := w.held[steps[n].compactor];
            if Wins(w, steps[n].compactor) then
              && (forall id | id in w.db.rows :: id !in v.db.rows <==> id in h.ids)
              && (forall id | id in h.ids :: id in w.db.rows)
              && h.docId in v.db.snapshots
              && v.db.snapshots[h.docId].state == HistoryThrough(w, h.docId, v.db.snapshots[h.docId].updateId)
              && (forall id | id in w.issued && id !in w.archive && w.issued[id].docId == h.docId ::
                    v.db.snapshots[h.docId].updateId < id)
            else v.db == w.db
  {
    var w := WorldAt(InitialWorld(now), steps, n);
    assert Enabled(w, steps[n]);
    RunKeeps(now, steps, n);
    FinishDeletes(w, steps[n].compactor);
    assert WorldAt(InitialWorld(now), steps, n + 1) == AfterFinish(w, steps[n].compactor);
    hide Inv, Legal, HistoryThrough, Fold;
  }

  /** Null comes before every id. */
  function Rank(token: Option<nat>): nat {
    if token.None? then 0 else token.value + 1
  }

  lemma {:induction false} StepRaisesRank(w: World, step: Step, docId: DocId)
    requires Enabled(w, step)
    ensures Rank(Token(w.db, docId)) <= Rank(Token(Next(w, step).db, docId))
    ensures step.Finish? && Wins(w, step.compactor) && w.held[step.compactor].docId == docId ==>
      && Token(w.db, docId) == w.held[step.compactor].candidate.expectedUpdateId
      && Rank(Token(w.db, docId)) < Rank(Token(Next(w, step).db, docId))
  {
    hide Fold;
  }

  lemma {:induction false} RankGrows(start: World, steps: seq<Step>, m: nat, n: nat, docId: DocId)
    requires m <= n <= |steps| && Legal(start, steps)
    ensures Rank(Token(WorldAt(start, steps, m).db, docId)) <= Rank(Token(WorldAt(start, steps, n).db, docId))
    decreases n
  {
    hide Next, Enabled, Token;
    if m < n {
      RankGrows(start, steps, m, n - 1, docId);
      StepRaisesRank(WorldAt(start, steps, n - 1), steps[n - 1], docId);
    }
  }

  /** Over whole runs, from any starting tables: of two compactors of one document holding the
      same token, null or not, at most one wins. The token never comes back. */
  lemma {:induction false} AtMostOneWinner(start: World, steps: seq<Step>, i: nat, j: nat)
    requires i < j < |steps| && Legal(start, steps) && steps[i].Finish? && steps[j].Finish?
    requires var w, v := WorldAt(start, steps, i), WorldAt(start, steps, j);
             && Wins(w, steps[i].compactor) && Wins(v, steps[j].compactor)
             && w.held[steps[i].compactor].docId == v.held[steps[j].compactor].docId
    ensures Rank(WorldAt(start, steps, i).held[steps[i].compactor].candidate.expectedUpdateId)
          < Rank(WorldAt(start, steps, j).held[steps[j].compactor].candidate.expectedUpdateId)
  {
    hide Next, Enabled, Token;
    var w, v := WorldAt(start, steps, i), WorldAt(start, steps, j);
    var docId := w.held[steps[i].compactor].docId;
    StepRaisesRank(w, steps[i], docId);
    StepRaisesRank(v, steps[j], docId);
    RankGrows(start, steps, i + 1, j, docId);
  }

  lemma {:induction false} TailIsEveryRow(w: World, docId: DocId)
    requires RowsAreTail(w)
    ensures SelectIds(w.db.rows, docId, 0, None, w.db.lastId)
         == SelectIds(w.db.rows, docId, Watermark(w.db, docId), None, w.db.lastId)
  {
    SameSelection(w.db.rows, docId, 0, Watermark(w.db, docId), w.db.lastId);
  }

  lemma {:induction false} SameSelection(rows: map<nat, Row>, docId: DocId, a: nat, b: nat, upTo: nat)
    requires forall id | id in rows && rows[id].docId == docId :: (a < id <==> b < id) || id == 0
    ensures SelectIds(rows, docId, a, None, upTo) == SelectIds(rows, docId, b, None, upTo)
  {
    if upTo > 0 { SameSelection(rows, docId, a, b, upTo - 1); }
  }

  /** The count that decides whether to compact is, at every point of every run, exactly the number of
      updates a load has to apply. */
  lemma {:induction false} CountIsTheTail(now: int, steps: seq<Step>, n: nat, docId: DocId)
    requires n <= |steps| && Legal(InitialWorld(now), steps)
    ensures var db := WorldAt(InitialWorld(now), steps, n).db; RowCount(db, docId) == |LoadFrom(db, docId).updates|
  {
    hide Next, Enabled, InitialWorld, SelectIds, UpdatesOf;
    RunKeeps(now, steps, n);
    var w := WorldAt(InitialWorld(now), steps, n);
    TailIsEveryRow(w, docId);
    hide Inv;
  }

  // ── A load that is not atomic ──────────────────────────────────────────────

  /** Rows that stand at or below a watermark are all there will ever be. */
  lemma {:induction false} Settled(now: int, steps: seq<Step>, m: nat, n: nat, docId: DocId)
    requires m <= n <= |steps| && Legal(InitialWorld(now), steps)
    ensures var w, v := WorldAt(InitialWorld(now), steps, m), WorldAt(InitialWorld(now), steps, n);
            && Watermark(w.db, docId) <= Watermark(v.db, docId)
            && (docId in w.db.snapshots ==> docId in v.db.snapshots && SnapshotSound(v, docId, w.db.snapshots[docId]))
    decreases n
  {
    hide Inv, Next, Enabled, InitialWorld, SnapshotSound;
    RunKeeps(now, steps, n);
    if m == n {
      SnapshotIsSound(WorldAt(InitialWorld(now), steps, n), docId);
    } else {
      Settled(now, steps, m, n - 1, docId);
      RunKeeps(now, steps, n - 1);
      var u := WorldAt(InitialWorld(now), steps, n - 1);
      StepRaisesRank(u, steps[n - 1], docId);
      if docId in WorldAt(InitialWorld(now), steps, m).db.snapshots {
        StepSettles(u, steps[n - 1], docId, WorldAt(InitialWorld(now), steps, m).db.snapshots[docId]);
      }
    }
  }

  lemma {:induction false} SnapshotIsSound(w: World, docId: DocId)
    requires Inv(w)
    ensures docId in w.db.snapshots ==> SnapshotSound(w, docId, w.db.snapshots[docId])
  {
    hide SnapshotSound;
  }

  lemma {:induction false} StepSettles(w: World, step: Step, docId: DocId, s: Snapshot)
    requires Inv(w) && Enabled(w, step) && docId in w.db.snapshots && SnapshotSound(w, docId, s)
    ensures SnapshotSound(Next(w, step), docId, s)
  {
    NextKeeps(w, step);
    hide Inv, Enabled, Next, SnapshotSound;
    SnapshotSoundFrame(w, Next(w, step), docId, s);
  }

  /** Both queries of a load, at the state the second one sees. */
  lemma {:induction false} SplitLoadIn(at: Db, v: World, docId: DocId)
    requires Inv(v) && Watermark(at, docId) <= Watermark(v.db, docId)
    requires docId in at.snapshots ==> SnapshotSound(v, docId, at.snapshots[docId])
    ensures var loaded := Rebuilt(LoadSplit(at, v.db, docId));
            var old_ := if docId in at.snapshots then HistoryThrough(v, docId, Watermark(at, docId)) else {};
            && loaded == old_ + OpsBetween(v.archive, docId, Watermark(v.db, docId), v.db.lastId)
  {
    hide LoadSplit, Forward, AllHeldSound, OpsBetween, HistoryThrough;
    InvTail(v);
    LoadRebuilds(at, v.db, docId);
    TailOps(v, docId, Watermark(at, docId));
  }

  lemma {:induction false} InvTail(w: World)
    requires Inv(w)
    ensures RowsAreTail(w) && IdsIssued(w) && WellFormed(w.db)
  {
  }

  /** What the history consists of, cut at two watermarks. */
  lemma {:induction false} HistoryInThree(v: World, docId: DocId, a: nat, b: nat)
    requires a <= b <= v.db.lastId
    ensures History(v, docId) == SeedOf(v, docId) + OpsBetween(v.archive, docId, 0, a)
              + OpsBetween(v.archive, docId, a, b) + OpsBetween(v.archive, docId, b, v.db.lastId)
    ensures OpsBetween(v.archive, docId, a, a) == {}
  {
    SplitOps(v.archive, docId, b, v.db.lastId);
    SplitOps(v.archive, docId, a, b);
    NoOpsBetween(v.archive, docId, a);
    hide OpsBetween;
  }

  lemma {:induction false} NoOpsBetween(rows: map<nat, Row>, docId: DocId, a: nat)
    ensures OpsBetween(rows, docId, a, a) == {}
  {
  }

  /** `load` asks for the snapshot and then for the tail. If a seed or compactions commit in
      between, it returns the older snapshot with the shorter tail: what was folded between the
      two queries is what it does not read. With the token unchanged it is complete. */
  lemma {:induction false} SplitLoad(now: int, steps: seq<Step>, m: nat, n: nat, docId: DocId)
    requires m <= n <= |steps| && Legal(InitialWorld(now), steps)
    ensures var w, v := WorldAt(InitialWorld(now), steps, m), WorldAt(InitialWorld(now), steps, n);
            var loaded := Rebuilt(LoadSplit(w.db, v.db, docId));
            var old_ := if docId in w.db.snapshots then HistoryThrough(v, docId, Watermark(w.db, docId)) else {};
            var between := OpsBetween(v.archive, docId, Watermark(w.db, docId), Watermark(v.db, docId));
            && loaded == old_ + OpsBetween(v.archive, docId, Watermark(v.db, docId), v.db.lastId)
            && loaded + between + SeedOf(v, docId) == History(v, docId)
            && (Token(w.db, docId) == Token(v.db, docId) ==> loaded == History(v, docId))
  {
    hide Next, Enabled, InitialWorld, LoadSplit, Inv, SnapshotSound, OpsBetween, History;
    var w, v := WorldAt(InitialWorld(now), steps, m), WorldAt(InitialWorld(now), steps, n);
    RunKeeps(now, steps, n);
    Settled(now, steps, m, n, docId);
    SplitLoadIn(w.db, v, docId);
    WatermarkIsIssued(v, docId);
    HistoryInThree(v, docId, Watermark(w.db, docId), Watermark(v.db, docId));
    if docId !in w.db.snapshots {
      NoOpsBetween(v.archive, docId, 0);
      if docId !in v.db.snapshots { UnseededHasNoSeed(v, docId); }
    }
  }

  lemma {:induction false} WatermarkIsIssued(w: World, docId: DocId)
    requires Inv(w)
    ensures Watermark(w.db, docId) <= w.db.lastId
  {
    hide Forward, AllHeldSound;
    WatermarkIssued(w, docId);
  }

  lemma {:induction false} UnseededHasNoSeed(w: World, docId: DocId)
    requires Inv(w) && docId !in w.db.snapshots
    ensures SeedOf(w, docId) == {}
  {
    hide Forward, AllHeldSound, SnapshotSound;
  }

  // ── Where the assumptions bite ─────────────────────────────────────────────

  /** Candidates are chosen by age and rows are deleted by id. Compacting straight after
      reading deletes exactly what was folded if and only if every row of the document at or
      below the boundary lies past the watermark and is older than the cutoff. */
  lemma {:induction false} DeletesWhatItFoldedExactlyWhen(db: Db, docId: DocId, cutoff: int, ids: seq<nat>)
    requires WellFormed(db) && ids != []
    requires ids == SelectIds(db.rows, docId, Watermark(db, docId), Some(cutoff), db.lastId)
    ensures var through := ids[|ids| - 1];
            var c := CandidateFrom(db, docId, cutoff);
            var (after, outcome) := CompactIn(db, docId, Fold(c), through, c.expectedUpdateId);
            && outcome.Won?
            && ((forall id | id in db.rows :: id !in after.rows <==> id in ids)
                <==> (forall id | id in db.rows && db.rows[id].docId == docId && id <= through ::
                        Watermark(db, docId) < id && db.rows[id].createdAt < cutoff))
  {
    CompactedRows(db, docId, cutoff, ids);
    hide SelectIds, CandidateFrom, CompactIn, Fold, Watermark;
    var through, c := ids[|ids| - 1], CandidateFrom(db, docId, cutoff);
    var kept := CompactIn(db, docId, Fold(c), through, c.expectedUpdateId).0;
    DeletionMatches(db.rows, kept.rows, docId, Watermark(db, docId), through, cutoff, ids);
  }

  lemma {:induction false} CompactedRows(db: Db, docId: DocId, cutoff: int, ids: seq<nat>)
    requires WellFormed(db) && ids != []
    requires ids == SelectIds(db.rows, docId, Watermark(db, docId), Some(cutoff), db.lastId)
    ensures var after, through, c := Watermark(db, docId), ids[|ids| - 1], CandidateFrom(db, docId, cutoff);
            var (kept, outcome) := CompactIn(db, docId, Fold(c), through, c.expectedUpdateId);
            && outcome.Won?
            && (forall id | id in ids :: id <= through && Selected(db.rows, docId, after, Some(cutoff), id))
            && (forall id | id in db.rows && Selected(db.rows, docId, after, Some(cutoff), id) :: id in ids)
            && (forall id | id in db.rows :: id !in kept.rows <==> db.rows[id].docId == docId && id <= through)
  {
    hide Fold;
    assert ids[|ids| - 1] in ids;
  }

  lemma {:induction false} DeletionMatches(
    rows: map<nat, Row>, kept: map<nat, Row>, docId: DocId, after: nat, through: nat, cutoff: int, ids: seq<nat>)
    requires forall id | id in ids :: id <= through && Selected(rows, docId, after, Some(cutoff), id)
    requires forall id | id in rows && Selected(rows, docId, after, Some(cutoff), id) :: id in ids
    requires forall id | id in rows :: id !in kept <==> rows[id].docId == docId && id <= through
    ensures (forall id | id in rows :: id !in kept <==> id in ids)
       <==> (forall id | id in rows && rows[id].docId == docId && id <= through ::
               after < id && rows[id].createdAt < cutoff)
  {
  }

  /** A row that commits late is seen by a load if and only if its id lies past the watermark, or what
      it carries is rebuilt from the rest anyway: at or below the watermark nothing reads it. */
  lemma {:induction false} LateCommitIsSeenExactlyWhen(db: Db, docId: DocId, id: nat, row: Row)
    requires WellFormed(db) && 0 < id <= db.lastId && id !in db.rows && row.docId == docId
    ensures var before, after := Rebuilt(LoadFrom(db, docId)), Rebuilt(LoadFrom(Committed(db, id, row), docId));
            && after == before + (if Watermark(db, docId) < id then row.update else {})
            && (row.update <= after <==> Watermark(db, docId) < id || row.update <= before)
  {
    var after, last := Watermark(db, docId), db.lastId;
    LoadRebuilds(db, db, docId);
    LoadRebuilds(Committed(db, id, row), Committed(db, id, row), docId);
    CommittedOps(db.rows, docId, after, last, id, row);
    hide LoadSplit, OpsBetween;
  }

  lemma {:induction false} CommittedOps(rows: map<nat, Row>, docId: DocId, after: nat, last: nat, id: nat, row: Row)
    requires id !in rows && row.docId == docId && id <= last
    ensures OpsBetween(rows[id := row], docId, after, last)
         == OpsBetween(rows, docId, after, last) + (if after < id then row.update else {})
  {
    var more := rows[id := row];
    forall op
      ensures op in OpsBetween(more, docId, after, last)
         <==> op in OpsBetween(rows, docId, after, last) || (after < id && op in row.update)
    {
      if after < id && op in row.update { assert more[id] == row; }
      if k :| k in rows && rows[k].docId == docId && after < k <= last && op in rows[k].update {
        assert more[k] == rows[k];
      }
    }
  }

  /** An instance with the steps written out: id 1 is allocated first and commits only after id 2 has
      been folded and the boundary moved past both, so no load sees it. */
  lemma {:induction false} LateCommitIsHidden(docId: DocId, late: Op, folded: Doc)
    requires late !in folded
    ensures var row := Row(docId, folded, 0);
            var db := Committed(Allocated(Allocated(EmptyDb)), 2, row);
            var c := CandidateFrom(db, docId, 1);
            && c.throughUpdateId == Some(2)
            && var after := CompactIn(db, docId, Fold(c), 2, c.expectedUpdateId).0;
            var end := Committed(after, 1, Row(docId, {late}, 0));
            late !in Rebuilt(LoadFrom(end, docId))
  {
    var rows := map[2 := Row(docId, folded, 0)];
    assert SelectIds(rows, docId, 0, Some(1), 1) == [];
    var ids := SelectIds(rows, docId, 0, Some(1), 2);
    assert ids == [2];
    UnionOfRows(rows, ids);
    var db := Db(rows, map[], 2);
    var after := CompactIn(db, docId, Union(UpdatesOf(rows, ids)), 2, None).0;
    var end := Committed(after, 1, Row(docId, {late}, 0));
    LoadRebuilds(end, end, docId);
  }

  /** `writeSnapshot` is an unguarded upsert. When a second process that also found nothing stored
      seeds a document again, the first seed survives if and only if the second seed and the rows
      written since contain it; over a document without rows, if and only if the second contains it. */
  lemma {:induction false} SecondSeedKeepsTheFirstExactlyWhen(db: Db, docId: DocId, first: Doc, second: Doc)
    requires WellFormed(db)
    ensures var twice := WithSnapshot(WithSnapshot(db, docId, first, 0), docId, second, 0);
            var written := OpsBetween(db.rows, docId, 0, db.lastId);
            && Rebuilt(LoadFrom(twice, docId)) == second + written
            && (first <= Rebuilt(LoadFrom(twice, docId)) <==> first <= second + written)
            && ((forall id | id in db.rows :: db.rows[id].docId != docId) ==>
                  (first <= Rebuilt(LoadFrom(twice, docId)) <==> first <= second))
  {
    var twice := WithSnapshot(WithSnapshot(db, docId, first, 0), docId, second, 0);
    LoadRebuilds(twice, twice, docId);
    hide LoadSplit;
  }
}
