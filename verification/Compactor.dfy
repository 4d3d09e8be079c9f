/** Keeping the log short: past a threshold, the snapshot and the rows older than the margin
    are folded into one snapshot. Nothing here looks at a live document. */
module Compactor {
  import opened Wrappers
  import opened Yjs
  import opened DocStore
  import opened LogProtocol

  /** Rows, not bytes. */
  const COMPACT_AFTER := 200

  method FoldCandidate(candidate: Candidate) returns (folded: Doc)
    ensures folded == Fold(candidate)
  {
    folded := {};
    if candidate.snapshot.Some? {
      folded := folded + candidate.snapshot.value;
    }
    for i := 0 to |candidate.updates|
      invariant folded == DocOr(candidate.snapshot) + Union(candidate.updates[..i])
    {
      folded := folded + candidate.updates[i];
      assert candidate.updates[..i + 1] == candidate.updates[..i] + [candidate.updates[i]];
      UnionOfConcat(candidate.updates[..i], [candidate.updates[i]]);
      UnionOfOne(candidate.updates[i]);
    }
    assert candidate.updates[..|candidate.updates|] == candidate.updates;
  }

  function MaybeCompacted(db: Db, docId: DocId, now: int): Db {
    var c := CandidateFrom(db, docId, now - COMPACT_LAG_MS);
    if RowCount(db, docId) <= COMPACT_AFTER || c.throughUpdateId.None? then db
    else CompactIn(db, docId, Fold(c), c.throughUpdateId.value, c.expectedUpdateId).0
  }

  method MaybeCompact(docId: DocId, store: PostgresDocStore, now: int)
    requires store.Valid()
    modifies store
    ensures store.Valid()
    ensures store.State() == MaybeCompacted(old(store.State()), docId, now)
  {
    var count := store.CountUpdates(docId);
    if count <= COMPACT_AFTER {
      return;
    }
    var candidate := store.ReadForCompaction(docId, now - COMPACT_LAG_MS);
    if candidate.throughUpdateId.None? {
      return;
    }
    var folded := FoldCandidate(candidate);
    var _ := store.Compact(docId, folded, candidate.throughUpdateId.value, candidate.expectedUpdateId);
  }

  /** A store one process has to itself: the document's rows all lie past its watermark, with
      stamps in id order. */
  ghost predicate InOrder(db: Db, docId: DocId) {
    && WellFormed(db)
    && (forall id | id in db.rows && db.rows[id].docId == docId :: Watermark(db, docId) < id)
    && (forall a, b | a in db.rows && b in db.rows && a < b && db.rows[a].docId == docId == db.rows[b].docId ::
          db.rows[a].createdAt <= db.rows[b].createdAt)
  }

  lemma {:induction false} RowsUpTo(db: Db, docId: DocId, cutoff: int, ids: seq<nat>, id: nat)
    requires InOrder(db, docId) && ids != []
    requires ids == SelectIds(db.rows, docId, Watermark(db, docId), Some(cutoff), db.lastId)
    requires id in db.rows && db.rows[id].docId == docId
    ensures id <= ids[|ids| - 1] <==> id in ids
    ensures id in ids <==> db.rows[id].createdAt < cutoff
  {
    var through := ids[|ids| - 1];
    assert through in ids;
    if id in ids {
      var i :| 0 <= i < |ids| && ids[i] == id;
    }
    if id <= through || db.rows[id].createdAt < cutoff {
      assert Selected(db.rows, docId, Watermark(db, docId), Some(cutoff), id);
    }
  }

  /** Compacting changes what is stored and not what a reader rebuilds, of this document or of
      any other; and when it fires, the rows left are exactly the ones inside the margin. */
  lemma {:induction false} CompactingKeepsDocuments(db: Db, docId: DocId, now: int, other: DocId)
    requires InOrder(db, docId) && WellFormed(db)
    ensures var after := MaybeCompacted(db, docId, now);
            && Rebuilt(LoadFrom(after, other)) == Rebuilt(LoadFrom(db, other))
            && InOrder(after, docId)
            && forall id | id in db.rows :: id !in after.rows <==>
                 && db.rows[id].docId == docId && RowCount(db, docId) > COMPACT_AFTER
                 && db.rows[id].createdAt < now - COMPACT_LAG_MS
  {
    var cutoff := now - COMPACT_LAG_MS;
    var c := CandidateFrom(db, docId, cutoff);
    var after := MaybeCompacted(db, docId, now);
    var low := Watermark(db, docId);
    var ids := SelectIds(db.rows, docId, low, Some(cutoff), db.lastId);
    hide SelectIds, RowCount, LoadSplit;
    if ids == [] {
      forall id | id in db.rows && db.rows[id].docId == docId
        ensures cutoff <= db.rows[id].createdAt
      {
        assert !Selected(db.rows, docId, low, Some(cutoff), id);
      }
    } else if RowCount(db, docId) > COMPACT_AFTER {
      CompactedTables(db, docId, cutoff, ids);
      hide MaybeCompacted, CandidateFrom, CompactIn;
      FoldedRebuilds(db, after, docId, ids, other);
    }
  }

  lemma {:induction false} CompactedTables(db: Db, docId: DocId, cutoff: int, ids: seq<nat>)
    requires InOrder(db, docId) && RowCount(db, docId) > COMPACT_AFTER && ids != []
    requires ids == SelectIds(db.rows, docId, Watermark(db, docId), Some(cutoff), db.lastId)
    ensures var after := MaybeCompacted(db, docId, cutoff + COMPACT_LAG_MS);
            && after.lastId == db.lastId
            && after.snapshots == db.snapshots[docId :=
                 Snapshot(DocOr(SnapshotState(db, docId)) + Union(UpdatesOf(db.rows, ids)), ids[|ids| - 1])]
            && (forall id | id in after.rows :: id in db.rows && after.rows[id] == db.rows[id])
            && (forall id | id in db.rows :: id !in after.rows <==> id in ids)
            && (forall id | id in db.rows ::
                  id in ids <==> db.rows[id].docId == docId && db.rows[id].createdAt < cutoff)
            && (forall id | id in db.rows && db.rows[id].docId == docId :: id <= ids[|ids| - 1] <==> id in ids)
  {
    hide Union, RowCount, LoadSplit;
    var through := ids[|ids| - 1];
    assert through in ids;
    forall id | id in db.rows
      ensures id in ids <==> db.rows[id].docId == docId && db.rows[id].createdAt < cutoff
      ensures db.rows[id].docId == docId ==> (id <= through <==> id in ids)
    {
      if db.rows[id].docId == docId { RowsUpTo(db, docId, cutoff, ids, id); }
    }
    hide SelectIds, InOrder;
  }

  lemma {:induction false} FoldedRebuilds(db: Db, after: Db, docId: DocId, ids: seq<nat>, other: DocId)
    requires WellFormed(db) && after.lastId == db.lastId && ids != []
    requires forall id | id in ids :: id in db.rows && db.rows[id].docId == docId && Watermark(db, docId) < id
    requires after.snapshots == db.snapshots[docId :=
      Snapshot(DocOr(SnapshotState(db, docId)) + Union(UpdatesOf(db.rows, ids)), ids[|ids| - 1])]
    requires forall id | id in after.rows :: id in db.rows && after.rows[id] == db.rows[id]
    requires forall id | id in db.rows :: id !in after.rows <==> id in ids
    requires forall id | id in db.rows && db.rows[id].docId == docId :: id <= ids[|ids| - 1] <==> id in ids
    ensures Rebuilt(LoadFrom(after, other)) == Rebuilt(LoadFrom(db, other))
  {
    hide LoadSplit;
    LoadRebuilds(db, db, other);
    LoadRebuilds(after, after, other);
    if other == docId {
      UnionOfRows(db.rows, ids);
      hide Union, UpdatesOf;
      var low, through := Watermark(db, docId), ids[|ids| - 1];
      assert OpsBetween(db.rows, docId, low, db.lastId)
          == Union(UpdatesOf(db.rows, ids)) + OpsBetween(after.rows, docId, through, db.lastId);
    } else {
      assert OpsBetween(db.rows, other, Watermark(db, other), db.lastId)
          == OpsBetween(after.rows, other, Watermark(db, other), db.lastId);
    }
  }
}
