/** The document store over PostgreSQL: an append-only update log and one snapshot per
    document. `Db` is the two tables as a value; `PostgresDocStore` updates them in place. */
module DocStore {
  import opened Wrappers
  import opened Yjs

  type DocId = string

  /** One `DocUpdate` row. Its id is the key it is stored under. */
  datatype Row = Row(docId: DocId, update: Doc, createdAt: int)

  /** One `DocSnapshot` row: `updateId` is the highest log id folded into `state`. */
  datatype Snapshot = Snapshot(state: Doc, updateId: nat)

  /** `lastId` is the id sequence, which all documents share. */
  datatype Db = Db(rows: map<nat, Row>, snapshots: map<DocId, Snapshot>, lastId: nat)

  datatype LoadedDoc = LoadedDoc(exists_: bool, snapshot: Option<Doc>, updates: seq<Doc>, lastUpdateId: Option<nat>)

  datatype Candidate = Candidate(
    snapshot: Option<Doc>, expectedUpdateId: Option<nat>, updates: seq<Doc>, throughUpdateId: Option<nat>)

  /** `compact` answers true or false, or throws because the boundary does not advance. */
  datatype CompactOutcome = Won | Lost | BoundaryError

  const EmptyDb := Db(map[], map[], 0)

  ghost predicate WellFormed(db: Db) {
    forall id | id in db.rows :: 0 < id <= db.lastId
  }

  function Token(db: Db, docId: DocId): Option<nat> {
    if docId in db.snapshots then Some(db.snapshots[docId].updateId) else None
  }

  /** `snapshot?.updateId ?? 0n` */
  function Watermark(db: Db, docId: DocId): nat {
    if docId in db.snapshots then db.snapshots[docId].updateId else 0
  }

  function SnapshotState(db: Db, docId: DocId): Option<Doc> {
    if docId in db.snapshots then Some(db.snapshots[docId].state) else None
  }

  function DocOr(doc: Option<Doc>): Doc {
    if doc.Some? then doc.value else {}
  }

  /** The `where` of both reads: this document, past the watermark, and, for a compaction,
      older than the cutoff. */
  predicate Selected(rows: map<nat, Row>, docId: DocId, after: nat, cutoff: Option<int>, id: nat) {
    && after < id
    && id in rows
    && rows[id].docId == docId
    && (cutoff.Some? ==> rows[id].createdAt < cutoff.value)
  }

  predicate Ascending(ids: seq<nat>) {
    forall i, j | 0 <= i < j < |ids| :: ids[i] < ids[j]
  }

  /** `findMany` with `orderBy: { id: 'asc' }`, scanning the ids up to `upTo`. */
  function SelectIds(rows: map<nat, Row>, docId: DocId, after: nat, cutoff: Option<int>, upTo: nat): (ids: seq<nat>)
    ensures forall i | 0 <= i < |ids| :: ids[i] <= upTo && Selected(rows, docId, after, cutoff, ids[i])
    ensures forall id: nat | id <= upTo && Selected(rows, docId, after, cutoff, id) :: id in ids
    ensures Ascending(ids)
  {
    if upTo == 0 then []
    else
      var below := SelectIds(rows, docId, after, cutoff, upTo - 1);
      if Selected(rows, docId, after, cutoff, upTo) then below + [upTo] else below
  }

  function UpdatesOf(rows: map<nat, Row>, ids: seq<nat>): (updates: seq<Doc>)
    requires forall id | id in ids :: id in rows
    ensures |updates| == |ids|
    ensures forall i | 0 <= i < |ids| :: updates[i] == rows[ids[i]].update
  {
    seq(|ids|, i requires 0 <= i < |ids| && ids[i] in rows => rows[ids[i]].update)
  }

  function LastOf(ids: seq<nat>): Option<nat> {
    if ids == [] then None else Some(ids[|ids| - 1])
  }

  /** The snapshot as read first, then the tail as read second: two queries, so `at` and
      `db` are different moments unless nothing commits between them. */
  function LoadSplit(at: Db, db: Db, docId: DocId): LoadedDoc {
    var ids := SelectIds(db.rows, docId, Watermark(at, docId), None, db.lastId);
    LoadedDoc(docId in at.snapshots || ids != [],
              SnapshotState(at, docId),
              UpdatesOf(db.rows, ids),
              if ids != [] then LastOf(ids) else Token(at, docId))
  }

  function LoadFrom(db: Db, docId: DocId): LoadedDoc {
    LoadSplit(db, db, docId)
  }

  /** What a reader rebuilds from a loaded document: the snapshot, then each update. */
  function Rebuilt(loaded: LoadedDoc): Doc {
    DocOr(loaded.snapshot) + Union(loaded.updates)
  }

  function CandidateFrom(db: Db, docId: DocId, cutoff: int): Candidate {
    var ids := SelectIds(db.rows, docId, Watermark(db, docId), Some(cutoff), db.lastId);
    Candidate(SnapshotState(db, docId), Token(db, docId), UpdatesOf(db.rows, ids), LastOf(ids))
  }

  /** The compare-and-set and the delete it guards. A null token is decided by the unique
      index on the snapshot's document id. */
  function CompactIn(db: Db, docId: DocId, state: Doc, through: nat, expected: Option<nat>): (Db, CompactOutcome) {
    if expected.Some? && through <= expected.value then (db, BoundaryError)
    else if Token(db, docId) != expected then (db, Lost)
    else
      var kept := map id | id in db.rows && !(db.rows[id].docId == docId && id <= through) :: db.rows[id];
      (db.(rows := kept, snapshots := db.snapshots[docId := Snapshot(state, through)]), Won)
  }

  /** The sequence hands out an id before the row it belongs to is visible. */
  function Allocated(db: Db): Db {
    db.(lastId := db.lastId + 1)
  }

  function Committed(db: Db, id: nat, row: Row): Db {
    db.(rows := db.rows[id := row])
  }

  function WithSnapshot(db: Db, docId: DocId, state: Doc, through: nat): Db {
    db.(snapshots := db.snapshots[docId := Snapshot(state, through)])
  }

  function IdSet(ids: seq<nat>): set<nat> {
    set id | id in ids
  }

  lemma {:induction false} IdSetOfConcat(ids: seq<nat>, last: nat)
    ensures IdSet(ids + [last]) == IdSet(ids) + {last} && IdSet([]) == {}
  {
  }

  lemma {:induction false} CountOfAscending(ids: seq<nat>)
    requires Ascending(ids)
    ensures |IdSet(ids)| == |ids|
    decreases |ids|
  {
    if ids == [] {
      IdSetOfConcat([], 0);
    } else {
      var last, rest := ids[|ids| - 1], ids[..|ids| - 1];
      CountOfAscending(rest);
      IdSetOfConcat(rest, last);
      assert ids == rest + [last];
      assert last !in rest;
      assert last !in IdSet(rest);
    }
  }

  /** How many rows of a document the log has. */
  function RowCount(db: Db, docId: DocId): nat {
    |LoadFrom(db.(snapshots := map[]), docId).updates|
  }

  /** The operations this document's rows with an id in `(after, through]` carry. */
  ghost function OpsBetween(rows: map<nat, Row>, docId: DocId, after: nat, through: nat): (ops: Doc)
    ensures forall op :: op in ops <==>
      exists id :: id in rows && rows[id].docId == docId && after < id <= through && op in rows[id].update
  {
    set id, op | id in rows && rows[id].docId == docId && after < id <= through && op in rows[id].update :: op
  }

  lemma UnionOfRows(rows: map<nat, Row>, ids: seq<nat>)
    requires forall id | id in ids :: id in rows
    ensures forall op :: op in Union(UpdatesOf(rows, ids)) <==> exists id :: id in ids && op in rows[id].update
  {
    var updates := UpdatesOf(rows, ids);
    forall op
      ensures op in Union(updates) <==> exists id :: id in ids && op in rows[id].update
    {
      if id :| id in ids && op in rows[id].update {
        var i :| 0 <= i < |ids| && ids[i] == id;
        assert op in updates[i];
      }
      if op in Union(updates) {
        var i :| 0 <= i < |updates| && op in updates[i];
        assert ids[i] in ids && op in rows[ids[i]].update;
      }
    }
  }

  /** Reading the snapshot and the whole tail rebuilds the snapshot plus every later row. */
  lemma LoadRebuilds(at: Db, db: Db, docId: DocId)
    requires WellFormed(db)
    ensures Rebuilt(LoadSplit(at, db, docId))
         == DocOr(SnapshotState(at, docId)) + OpsBetween(db.rows, docId, Watermark(at, docId), db.lastId)
  {
    var after := Watermark(at, docId);
    var ids := SelectIds(db.rows, docId, after, None, db.lastId);
    UnionOfRows(db.rows, ids);
    assert Union(UpdatesOf(db.rows, ids)) == OpsBetween(db.rows, docId, after, db.lastId) by {
      forall op
        ensures op in Union(UpdatesOf(db.rows, ids)) <==> op in OpsBetween(db.rows, docId, after, db.lastId)
      {
        if id :| id in db.rows && db.rows[id].docId == docId && after < id <= db.lastId && op in db.rows[id].update {
          assert id in ids;
        }
      }
    }
  }

  /** What a load returns besides: the tail in id order, whether there is anything, and the highest id it
      accounts for, which is where the next read has to go on. */
  lemma {:induction false} LoadIsTheTail(db: Db, docId: DocId)
    requires WellFormed(db)
    ensures var loaded := LoadFrom(db, docId);
            && (exists ids :: IsTail(db, docId, ids) && loaded.updates == UpdatesOf(db.rows, ids))
            && (loaded.exists_ <==> docId in db.snapshots || loaded.updates != [])
            && (loaded.lastUpdateId.None? <==> !loaded.exists_)
            && (loaded.exists_ ==>
                  && Watermark(db, docId) <= loaded.lastUpdateId.value
                  && (forall id | id in db.rows && db.rows[id].docId == docId :: id <= loaded.lastUpdateId.value)
                  && (loaded.lastUpdateId == Token(db, docId)
                      || (loaded.lastUpdateId.value in db.rows && db.rows[loaded.lastUpdateId.value].docId == docId)))
  {
    var ids := SelectIds(db.rows, docId, Watermark(db, docId), None, db.lastId);
    assert IsTail(db, docId, ids);
    if ids != [] { assert ids[|ids| - 1] in ids; }
    forall id | id in db.rows && db.rows[id].docId == docId && Watermark(db, docId) < id
      ensures ids != [] && id <= ids[|ids| - 1]
    {
      assert Selected(db.rows, docId, Watermark(db, docId), None, id);
    }
  }

  /** The ids of the document's rows past its watermark, all of them and in order. */
  ghost predicate IsTail(db: Db, docId: DocId, ids: seq<nat>) {
    && Ascending(ids)
    && forall id :: id in ids <==> id in db.rows && db.rows[id].docId == docId && Watermark(db, docId) < id
  }

  /** A compaction wins exactly when the token is the one expected and the boundary goes past it, so that no
      compaction moves a boundary back; and it touches no other document. */
  lemma {:induction false} CompactWinsExactlyWhen(
    db: Db, docId: DocId, state: Doc, through: nat, expected: Option<nat>, other: DocId)
    ensures var (after, outcome) := CompactIn(db, docId, state, through, expected);
            && (outcome.Won? <==>
                  Token(db, docId) == expected && (docId in db.snapshots ==> Watermark(db, docId) < through))
            && (outcome.BoundaryError? <==> expected.Some? && through <= expected.value)
            && (outcome.Won? ==> Token(after, docId) == Some(through) && SnapshotState(after, docId) == Some(state))
            && (!outcome.Won? ==> after == db)
            && (other != docId ==>
                  && Token(after, other) == Token(db, other) && SnapshotState(after, other) == SnapshotState(db, other)
                  && forall id | id in db.rows && db.rows[id].docId == other ::
                      id in after.rows && after.rows[id] == db.rows[id])
  {
  }

  /** The two tables, updated in place. Each method is one transaction or one statement. */
  class PostgresDocStore {
    var rows: map<nat, Row>
    var snapshots: map<DocId, Snapshot>
    var lastId: nat

    ghost function State(): Db
      reads this
    {
      Db(rows, snapshots, lastId)
    }

    ghost predicate Valid()
      reads this
    {
      WellFormed(State())
    }

    constructor ()
      ensures Valid() && State() == EmptyDb
    {
      rows, snapshots, lastId := map[], map[], 0;
    }

    method Load(docId: DocId) returns (loaded: LoadedDoc)
      requires Valid()
      ensures loaded == LoadFrom(State(), docId)
      ensures loaded.exists_ <==> docId in snapshots || exists id :: id in rows && rows[id].docId == docId
    {
      var after := if docId in snapshots then snapshots[docId].updateId else 0;
      var ids := SelectIds(rows, docId, after, None, lastId);
      var last: Option<nat> := if docId in snapshots then Some(after) else None;
      if |ids| > 0 {
        last := Some(ids[|ids| - 1]);
        assert ids[|ids| - 1] in ids;
      }
      if id :| id in rows && rows[id].docId == docId && docId !in snapshots {
        assert id in ids;
      }
      loaded := LoadedDoc(docId in snapshots || |ids| > 0,
                          if docId in snapshots then Some(snapshots[docId].state) else None,
                          UpdatesOf(rows, ids), last);
    }

    method AppendUpdate(docId: DocId, update: Doc, createdAt: int) returns (id: nat)
      requires Valid()
      modifies this
      ensures Valid()
      ensures id == old(lastId) + 1 && id !in old(rows)
      ensures State() == Committed(Allocated(old(State())), id, Row(docId, update, createdAt))
    {
      lastId := lastId + 1;
      id := lastId;
      rows := rows[id := Row(docId, update, createdAt)];
    }

    method WriteSnapshot(docId: DocId, snapshot: Doc, throughUpdateId: nat)
      requires Valid()
      modifies this`snapshots
      ensures Valid()
      ensures State() == WithSnapshot(old(State()), docId, snapshot, throughUpdateId)
    {
      snapshots := snapshots[docId := Snapshot(snapshot, throughUpdateId)];
    }

    method ReadForCompaction(docId: DocId, cutoff: int) returns (candidate: Candidate)
      requires Valid()
      ensures candidate == CandidateFrom(State(), docId, cutoff)
    {
      var snapshot: Option<Doc>, expected: Option<nat>, after := None, None, 0;
      if docId in snapshots {
        snapshot := Some(snapshots[docId].state);
        expected := Some(snapshots[docId].updateId);
        after := snapshots[docId].updateId;
      }
      var ids := SelectIds(rows, docId, after, Some(cutoff), lastId);
      candidate := Candidate(
        snapshot, expected, UpdatesOf(rows, ids), if |ids| > 0 then Some(ids[|ids| - 1]) else None);
    }

    method Compact(docId: DocId, snapshot: Doc, throughUpdateId: nat, expectedUpdateId: Option<nat>)
      returns (outcome: CompactOutcome)
      requires Valid()
      modifies this
      ensures Valid()
      ensures (State(), outcome) == CompactIn(old(State()), docId, snapshot, throughUpdateId, expectedUpdateId)
      ensures !outcome.Won? ==> State() == old(State())
      ensures outcome.Won? ==> forall id | id in old(rows) && id !in rows ::
          id <= throughUpdateId == Watermark(State(), docId)
    {
      if expectedUpdateId.Some? && throughUpdateId <= expectedUpdateId.value {
        return BoundaryError;
      }
      if expectedUpdateId.None? {
        // The unique index: a snapshot that is already there rolls the transaction back.
        if docId in snapshots {
          return Lost;
        }
        snapshots := snapshots[docId := Snapshot(snapshot, throughUpdateId)];
      } else {
        var matched := docId in snapshots && snapshots[docId].updateId == expectedUpdateId.value;
        if !matched {
          return Lost;
        }
        snapshots := snapshots[docId := Snapshot(snapshot, throughUpdateId)];
      }
      rows := map id | id in rows && !(rows[id].docId == docId && id <= throughUpdateId) :: rows[id];
      outcome := Won;
    }

    /** As many rows as a reader without a snapshot would have to apply. */
    method CountUpdates(docId: DocId) returns (count: nat)
      requires Valid()
      ensures count == |LoadFrom(State().(snapshots := map[]), docId).updates|
    {
      count := |set id | id in rows && rows[id].docId == docId|;
      ghost var ids := SelectIds(rows, docId, 0, None, lastId);
      CountOfAscending(ids);
      assert (set id | id in rows && rows[id].docId == docId) == IdSet(ids);
    }
  }
}
