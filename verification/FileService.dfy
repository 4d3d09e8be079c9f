/** The file operations as the service runs them: rows created, updated and deleted one at a time,
    with the unique constraint on paths, and the whole transaction undone when a step fails. */
module FileService {
  import opened Paths
  import opened FileTable

  /** The targets scan: does any moving row land on a row that stays? */
  method FindCollision(all: map<nat, Row>, id: nat, newPath: string) returns (found: bool)
    requires id in all
    ensures found <==> Collides(all, id, newPath)
  {
    var moving := Subtree(all, id);
    var occupied := set y | y in all && y !in moving :: all[y].path;
    var rest := moving;
    while rest != {}
      invariant rest <= moving
      invariant forall x | x in moving && x !in rest :: Target(all, id, newPath, x) !in occupied
      decreases |rest|
    {
      var x :| x in rest;
      if Target(all, id, newPath, x) in occupied {
        var y :| y in all && y !in moving && all[y].path == Target(all, id, newPath, x);
        return true;
      }
      rest := rest - {x};
    }
    forall x, y | x in moving && y in all && y !in moving
      ensures all[y].path != Target(all, id, newPath, x)
    {
      assert all[y].path in occupied;
    }
    found := false;
  }

  /** The rows below `k` ancestors have been looked up and created where missing. */
  ghost predicate Parenting(before: Table, t: Table, ancestors: seq<string>, k: nat) {
    && k <= |ancestors| && IdsBelow(t)
    && (forall id | id in before.rows :: id in t.rows && t.rows[id] == before.rows[id])
    && (forall id | id in t.rows && id !in before.rows :: exists i :: 0 <= i < k && ancestors[i] == t.rows[id].path)
  }

  /** Looking an ancestor up in the rows read at the start is as good as asking the table again. */
  lemma {:induction false} SnapshotIsCurrent(before: Table, t: Table, path: string, k: nat)
    requires Parenting(before, t, Ancestors(path), k) && k < |Ancestors(path)|
    ensures Taken(before.rows, Ancestors(path)[k]) == Taken(t.rows, Ancestors(path)[k])
    ensures DirAt(before.rows, Ancestors(path)[k]) == DirAt(t.rows, Ancestors(path)[k])
  {
    hide Ancestors;
    var ancestors := Ancestors(path);
    forall id | id in t.rows && id !in before.rows
      ensures t.rows[id].path != ancestors[k]
    {
      var i :| 0 <= i < k && ancestors[i] == t.rows[id].path;
      AncestorsGrow(path, i, k);
    }
  }

  lemma {:induction false} ParentingStep(before: Table, t: Table, ancestors: seq<string>, k: nat)
    requires Parenting(before, t, ancestors, k) && k < |ancestors|
    ensures Parenting(before, t, ancestors, k + 1)
    ensures Parenting(before, Inserted(t, ancestors[k], true), ancestors, k + 1)
  {
    var u := Inserted(t, ancestors[k], true);
    forall id | id in u.rows && id !in before.rows
      ensures exists i :: 0 <= i < k + 1 && ancestors[i] == u.rows[id].path
    {
      if id != t.nextId {
        assert u.rows[id] == t.rows[id];
        var i :| 0 <= i < k && ancestors[i] == t.rows[id].path;
      } else {
        assert ancestors[k] == u.rows[id].path;
      }
    }
  }

  class FileStore {
    var rows: map<nat, Row>
    var nextId: nat

    ghost function State(): Table
      reads this
    {
      Table(rows, nextId)
    }

    constructor ()
      ensures State() == EmptyTable && TreeInv(State())
    {
      rows, nextId := map[], 0;
    }

    /** One insert. The unique constraint on the path is the caller's obligation. */
    method InsertRow(path: string, isDir: bool)
      requires !Taken(rows, path)
      modifies this
      ensures State() == Inserted(old(State()), path, isDir)
    {
      rows, nextId := rows[nextId := Row(path, isDir)], nextId + 1;
    }

    /** One update. The unique constraint on the path is the caller's obligation. */
    method UpdatePath(id: nat, path: string)
      requires id in rows && forall other | other in rows && other != id :: rows[other].path != path
      modifies this
      ensures nextId == old(nextId) && rows == old(rows)[id := Row(path, old(rows)[id].isDir)]
    {
      rows := rows[id := Row(path, rows[id].isDir)];
    }

    /** Creates the missing parents of a new row, asking the table for each. */
    method CreateParents(path: string) returns (ok: bool)
      modifies this
      ensures (State(), ok) == AddAncestors(old(State()), Ancestors(path))
    {
      hide Ancestors;
      var ancestors := AncestorPaths(path);
      assert ancestors[0..] == ancestors;
      for k := 0 to |ancestors|
        invariant AddAncestors(State(), ancestors[k..]) == AddAncestors(old(State()), ancestors)
      {
        assert ancestors[k..][0] == ancestors[k] && ancestors[k..][1..] == ancestors[k + 1..];
        if !Taken(rows, ancestors[k]) {
          InsertRow(ancestors[k], true);
        } else if !DirAt(rows, ancestors[k]) {
          return false;
        }
      }
      assert ancestors[|ancestors|..] == [];
      ok := true;
    }

    method CreateFile(path: string, isDir: bool) returns (outcome: Outcome)
      requires TreeInv(State())
      modifies this
      ensures (State(), outcome) == AfterCreate(old(State()), path, isDir) && TreeInv(State())
    {
      hide Ancestors, ValidPath, TreeInv;
      ghost var before := State();
      CreateKeepsTree(before, path, isDir);
      var valid := AssertValidPath(path);
      if !valid {
        return InvalidPath;
      }
      if Taken(rows, path) {
        return PathExists;
      }
      var rowsAtBegin, nextIdAtBegin := rows, nextId;
      var ok := CreateParents(path);
      if !ok {
        rows, nextId := rowsAtBegin, nextIdAtBegin;
        return ParentNotDirectory;
      }
      PathStaysFree(before, path);
      outcome := Done(nextId);
      InsertRow(path, isDir);
    }

    /** Creates the missing parents of a moved row, asking the rows read at the start. */
    method CreateMissing(all: map<nat, Row>, path: string) returns (ok: bool)
      requires all == rows && IdsBelow(State())
      modifies this
      ensures (State(), ok) == AddAncestors(old(State()), Ancestors(path))
    {
      hide Ancestors, Taken, DirAt;
      ghost var before := State();
      var ancestors := AncestorPaths(path);
      assert ancestors[0..] == ancestors;
      for k := 0 to |ancestors|
        invariant AddAncestors(State(), ancestors[k..]) == AddAncestors(before, ancestors)
        invariant Parenting(before, State(), ancestors, k)
      {
        assert ancestors[k..][0] == ancestors[k] && ancestors[k..][1..] == ancestors[k + 1..];
        SnapshotIsCurrent(before, State(), path, k);
        ParentingStep(before, State(), ancestors, k);
        if !Taken(all, ancestors[k]) {
          InsertRow(ancestors[k], true);
        } else if !DirAt(all, ancestors[k]) {
          return false;
        }
      }
      assert ancestors[|ancestors|..] == [];
      ok := true;
    }

    /** The rewrite, one row at a time in any order. Each update meets the unique constraint. */
    method RewritePaths(ghost before: Table, all: map<nat, Row>, id: nat, newPath: string)
      requires all == before.rows && id in all && ReadyToMove(before, State(), id, newPath)
      modifies this
      ensures State() == old(State()).(rows := Rewritten(old(rows), all, id, newPath))
    {
      hide Ancestors, Subtree, Target, Movable, TreeInv;
      ghost var ready := State();
      var rest := Subtree(all, id);
      while rest != {}
        invariant rest <= Subtree(all, id)
        invariant nextId == ready.nextId
        invariant rows == Partly(ready.rows, all, id, newPath, Subtree(all, id) - rest)
        decreases |rest|
      {
        var x :| x in rest;
        ghost var moved := Subtree(all, id) - rest;
        NextUpdateIsFree(before, ready, id, newPath, moved, x);
        UpdatePath(x, Target(all, id, newPath, x));
        assert Subtree(all, id) - (rest - {x}) == moved + {x};
        rest := rest - {x};
      }
    }

    method MoveFile(id: nat, newPath: string) returns (outcome: Outcome)
      requires TreeInv(State())
      modifies this
      ensures (State(), outcome) == AfterMove(old(State()), id, newPath) && TreeInv(State())
    {
      hide Ancestors, ValidPath, Collides, Subtree, TreeInv;
      ghost var before := State();
      MoveKeepsTree(before, id, newPath);
      var valid := AssertValidPath(newPath);
      if !valid {
        return InvalidPath;
      }
      if id !in rows {
        return FileNotFound;
      }
      var file := rows[id];
      if file.path == newPath {
        return Done(id);
      }
      if file.isDir && IsDescendantOf(newPath, file.path) {
        return InvalidMove;
      }
      var all, nextIdAtBegin := rows, nextId;
      var collides := FindCollision(all, id, newPath);
      if collides {
        return PathExists;
      }
      TreeHasIdsBelow(before);
      var ok := CreateMissing(all, newPath);
      if !ok {
        rows, nextId := all, nextIdAtBegin;
        return ParentNotDirectory;
      }
      NamesOfValid(newPath);
      ParentsReady(before, newPath);
      RewritePaths(before, all, id, newPath);
      outcome := Done(id);
    }

    method DeleteFile(id: nat) returns (outcome: Outcome)
      requires TreeInv(State())
      modifies this
      ensures (State(), outcome) == AfterDelete(old(State()), id) && TreeInv(State())
    {
      hide TreeInv;
      DeleteKeepsTree(State(), id);
      if id !in rows {
        return FileNotFound;
      }
      var file := rows[id];
      if !file.isDir {
        rows := rows - {id};
        return Deleted({id});
      }
      var doomed := set x | x in rows && (x == id || IsDescendantOf(rows[x].path, file.path));
      rows := rows - doomed;
      outcome := Deleted(doomed);
    }
  }

  lemma {:induction false} TreeHasIdsBelow(t: Table)
    requires TreeInv(t)
    ensures IdsBelow(t)
  {
  }

  lemma {:induction false} NamesOfValid(path: string)
    requires ValidPath(path)
    ensures ValidSegments(path)
  {
  }

  /** The parents just created are not the new path itself. */
  lemma {:induction false} PathStaysFree(t: Table, path: string)
    requires TreeInv(t) && ValidPath(path) && !Taken(t.rows, path) && AddAncestors(t, Ancestors(path)).1
    ensures !Taken(AddAncestors(t, Ancestors(path)).0.rows, path)
  {
    hide Ancestors, TreeInv;
    NamesOfValid(path);
    ParentsReady(t, path);
    AncestorsAreSlashPrefixes(path, path);
  }

  lemma {:induction false} NextUpdateIsFree(t: Table, u: Table, id: nat, newPath: string, moved: set<nat>, x: nat)
    requires ReadyToMove(t, u, id, newPath) && moved < Subtree(t.rows, id) && x in Subtree(t.rows, id) && x !in moved
    ensures var rows := Partly(u.rows, t.rows, id, newPath, moved);
            var next := Partly(u.rows, t.rows, id, newPath, moved + {x});
            && x in rows
            && next == rows[x := Row(Target(t.rows, id, newPath, x), rows[x].isDir)]
            && (forall other | other in rows && other != x :: rows[other].path != Target(t.rows, id, newPath, x))
  {
    hide Ancestors, Subtree, Target, Collides;
    RewriteNeverCollides(t, u, id, newPath, moved + {x});
    var next := Partly(u.rows, t.rows, id, newPath, moved + {x});
    assert next[x].path == Target(t.rows, id, newPath, x);
  }
}
