/** The file rows of one project: flat, each with its full path, and changed only by creating,
    moving and deleting, each in one transaction. */
module FileTable {
  import opened Paths

  datatype Row = Row(path: string, isDir: bool)

  /** Ids are handed out by the store and never reused. */
  datatype Table = Table(rows: map<nat, Row>, nextId: nat)

  datatype Outcome =
    | Done(id: nat)
    | Deleted(ids: set<nat>)
    | InvalidPath
    | PathExists
    | ParentNotDirectory
    | FileNotFound
    | InvalidMove

  datatype Operation = Create(path: string, isDir: bool) | Move(id: nat, path: string) | Delete(id: nat)

  const EmptyTable := Table(map[], 0)

  predicate Taken(rows: map<nat, Row>, path: string) {
    exists id :: id in rows && rows[id].path == path
  }

  predicate DirAt(rows: map<nat, Row>, path: string) {
    exists id :: id in rows && rows[id].path == path && rows[id].isDir
  }

  // ── The operations ─────────────────────────────────────────────────────────

  function Inserted(t: Table, path: string, isDir: bool): Table {
    Table(t.rows[t.nextId := Row(path, isDir)], t.nextId + 1)
  }

  /** Missing parents are created, shallowest first; a file in the way is an error. */
  function AddAncestors(t: Table, ancestors: seq<string>): (Table, bool)
    decreases |ancestors|
  {
    if ancestors == [] then (t, true)
    else if !Taken(t.rows, ancestors[0]) then AddAncestors(Inserted(t, ancestors[0], true), ancestors[1..])
    else if !DirAt(t.rows, ancestors[0]) then (t, false)
    else AddAncestors(t, ancestors[1..])
  }

  function AfterCreate(t: Table, path: string, isDir: bool): (Table, Outcome) {
    if !ValidPath(path) then (t, InvalidPath)
    else if Taken(t.rows, path) then (t, PathExists)
    else
      var (parented, ok) := AddAncestors(t, Ancestors(path));
      if !ok then (t, ParentNotDirectory) else (Inserted(parented, path, isDir), Done(parented.nextId))
  }

  /** The row itself and, for a directory, everything under it. */
  function Subtree(rows: map<nat, Row>, id: nat): (ids: set<nat>)
    requires id in rows
    ensures id in ids && ids <= rows.Keys
  {
    if !rows[id].isDir then {id}
    else set x | x in rows && (x == id || IsDescendantOf(rows[x].path, rows[id].path))
  }

  function Target(rows: map<nat, Row>, id: nat, newPath: string, x: nat): string
    requires id in rows && x in Subtree(rows, id)
  {
    if x == id then newPath
    else DescendantMeans(rows[x].path, rows[id].path); ReplacePathPrefix(rows[x].path, rows[id].path, newPath)
  }

  predicate Collides(rows: map<nat, Row>, id: nat, newPath: string)
    requires id in rows
  {
    exists x, y ::
      && x in Subtree(rows, id) && y in rows && y !in Subtree(rows, id)
      && rows[y].path == Target(rows, id, newPath, x)
  }

  /** The rewrite of all moving rows, as one assignment. */
  function Rewritten(rows: map<nat, Row>, before: map<nat, Row>, id: nat, newPath: string): map<nat, Row>
    requires id in before
  {
    map x | x in rows ::
      if x in before && x in Subtree(before, id) then Row(Target(before, id, newPath, x), before[x].isDir) else rows[x]
  }

  function AfterMove(t: Table, id: nat, newPath: string): (Table, Outcome) {
    if !ValidPath(newPath) then (t, InvalidPath)
    else if id !in t.rows then (t, FileNotFound)
    else if t.rows[id].path == newPath then (t, Done(id))
    else if t.rows[id].isDir && IsDescendantOf(newPath, t.rows[id].path) then (t, InvalidMove)
    else if Collides(t.rows, id, newPath) then (t, PathExists)
    else
      var (parented, ok) := AddAncestors(t, Ancestors(newPath));
      if !ok then (t, ParentNotDirectory)
      else (parented.(rows := Rewritten(parented.rows, t.rows, id, newPath)), Done(id))
  }

  function AfterDelete(t: Table, id: nat): (Table, Outcome) {
    if id !in t.rows then (t, FileNotFound)
    else (t.(rows := t.rows - Subtree(t.rows, id)), Deleted(Subtree(t.rows, id)))
  }

  function After(t: Table, op: Operation): (Table, Outcome) {
    match op
    case Create(path, isDir) => AfterCreate(t, path, isDir)
    case Move(id, path) => AfterMove(t, id, path)
    case Delete(id) => AfterDelete(t, id)
  }

  // ── The tree invariant ─────────────────────────────────────────────────────

  ghost predicate UniquePaths(rows: map<nat, Row>) {
    forall a, b | a in rows && b in rows && rows[a].path == rows[b].path :: a == b
  }

  /** Every proper ancestor of a row exists and is a directory. */
  ghost predicate Parented(rows: map<nat, Row>) {
    forall id, directory | id in rows && IsDescendantOf(rows[id].path, directory) :: DirAt(rows, directory)
  }

  ghost predicate WellNamed(rows: map<nat, Row>) {
    forall id | id in rows :: ValidSegments(rows[id].path)
  }

  ghost predicate IdsBelow(t: Table) {
    forall id | id in t.rows :: id < t.nextId
  }

  ghost predicate TreeInv(t: Table) {
    UniquePaths(t.rows) && Parented(t.rows) && WellNamed(t.rows) && IdsBelow(t)
  }

  /** Files are leaves. */
  lemma {:induction false} NothingUnderAFile(t: Table, file: nat, id: nat)
    requires TreeInv(t) && file in t.rows && !t.rows[file].isDir && id in t.rows
    ensures !IsDescendantOf(t.rows[id].path, t.rows[file].path)
  {
    assert IsDescendantOf(t.rows[id].path, t.rows[file].path) ==> DirAt(t.rows, t.rows[file].path);
  }

  // ── Creating ───────────────────────────────────────────────────────────────

  /** Adding one row whose ancestors are all directories. */
  lemma {:induction false} InsertKeeps(t: Table, path: string, isDir: bool)
    requires TreeInv(t) && !Taken(t.rows, path) && ValidSegments(path)
    requires forall directory | IsDescendantOf(path, directory) :: DirAt(t.rows, directory)
    ensures TreeInv(Inserted(t, path, isDir))
  {
    var u := Inserted(t, path, isDir);
    assert t.nextId !in t.rows;
    forall id, directory | id in u.rows && IsDescendantOf(u.rows[id].path, directory)
      ensures DirAt(u.rows, directory)
    {
      assert DirAt(t.rows, directory);
      DirStays(t.rows, u.rows, directory);
    }
  }

  lemma {:induction false} DirStays(rows: map<nat, Row>, more: map<nat, Row>, path: string)
    requires DirAt(rows, path) && forall id | id in rows :: id in more && more[id] == rows[id]
    ensures DirAt(more, path)
  {
  }

  /** What creating parents leaves: the old rows as they were, and new directories only at
      ancestors that were missing. */
  ghost predicate OnlyParentsAdded(t: Table, u: Table, ancestors: seq<string>) {
    && t.nextId <= u.nextId
    && (forall id | id in t.rows :: id in u.rows && u.rows[id] == t.rows[id])
    && (forall id | id in u.rows && id !in t.rows ::
          t.nextId <= id && u.rows[id].isDir && u.rows[id].path in ancestors && !Taken(t.rows, u.rows[id].path))
  }

  lemma {:induction false} AddAncestorsKeeps(t: Table, path: string, k: nat)
    requires TreeInv(t) && ValidSegments(path) && k <= |Ancestors(path)|
    requires forall j | 0 <= j < k :: DirAt(t.rows, Ancestors(path)[j])
    ensures var (u, ok) := AddAncestors(t, Ancestors(path)[k..]);
            ok ==>
              && TreeInv(u) && OnlyParentsAdded(t, u, Ancestors(path))
              && forall j | 0 <= j < |Ancestors(path)| :: DirAt(u.rows, Ancestors(path)[j])
    decreases |Ancestors(path)| - k
  {
    hide Ancestors, ValidSegments, Parented, WellNamed, UniquePaths;
    var ancestors := Ancestors(path);
    if k < |ancestors| {
      assert ancestors[k..][1..] == ancestors[k + 1..];
      if !Taken(t.rows, ancestors[k]) {
        var next := Inserted(t, ancestors[k], true);
        MissingAncestorKeeps(t, path, k);
        AddAncestorsKeeps(next, path, k + 1);
        assert next.rows[t.nextId] == Row(ancestors[k], true);
        var (u, ok) := AddAncestors(next, ancestors[k + 1..]);
        if ok { ParentsAddedStep(t, next, u, ancestors, k); }
      } else if DirAt(t.rows, ancestors[k]) {
        AddAncestorsKeeps(t, path, k + 1);
      }
    }
  }

  lemma {:induction false} ParentsAddedStep(t: Table, next: Table, u: Table, ancestors: seq<string>, k: nat)
    requires k < |ancestors| && next == Inserted(t, ancestors[k], true) && !Taken(t.rows, ancestors[k])
    requires IdsBelow(t) && OnlyParentsAdded(next, u, ancestors)
    ensures OnlyParentsAdded(t, u, ancestors)
  {
    forall id | id in u.rows && id !in t.rows
      ensures t.nextId <= id && u.rows[id].isDir && u.rows[id].path in ancestors && !Taken(t.rows, u.rows[id].path)
    {
      TakenStays(t.rows, next.rows, u.rows[id].path);
      assert id == t.nextId ==> u.rows[id] == next.rows[id];
    }
  }

  lemma {:induction false} TakenStays(rows: map<nat, Row>, more: map<nat, Row>, path: string)
    requires forall id | id in rows :: id in more && more[id] == rows[id]
    ensures Taken(rows, path) ==> Taken(more, path)
  {
  }

  lemma {:induction false} MissingAncestorKeeps(t: Table, path: string, k: nat)
    requires TreeInv(t) && ValidSegments(path) && k < |Ancestors(path)| && !Taken(t.rows, Ancestors(path)[k])
    requires forall j | 0 <= j < k :: DirAt(t.rows, Ancestors(path)[j])
    ensures TreeInv(Inserted(t, Ancestors(path)[k], true))
    ensures forall j | 0 <= j < k + 1 :: DirAt(Inserted(t, Ancestors(path)[k], true).rows, Ancestors(path)[j])
  {
    hide Ancestors, ValidSegments, TreeInv;
    var ancestor := Ancestors(path)[k];
    var u := Inserted(t, ancestor, true);
    AncestorSegments(path, k);
    forall directory | IsDescendantOf(ancestor, directory)
      ensures DirAt(t.rows, directory)
    {
      AncestorsOfAncestor(path, k, directory);
    }
    InsertKeeps(t, ancestor, true);
    FreshId(t);
    assert u.rows[t.nextId] == Row(ancestor, true);
    forall j | 0 <= j < k
      ensures DirAt(u.rows, Ancestors(path)[j])
    {
      DirStays(t.rows, u.rows, Ancestors(path)[j]);
    }
  }

  lemma {:induction false} FreshId(t: Table)
    requires TreeInv(t)
    ensures t.nextId !in t.rows
  {
  }

  lemma {:induction false} ParentsReady(t: Table, path: string)
    requires TreeInv(t) && ValidSegments(path) && AddAncestors(t, Ancestors(path)).1
    ensures var u := AddAncestors(t, Ancestors(path)).0;
            && TreeInv(u) && OnlyParentsAdded(t, u, Ancestors(path))
            && forall directory | IsDescendantOf(path, directory) :: DirAt(u.rows, directory)
  {
    hide Ancestors, TreeInv;
    assert Ancestors(path)[0..] == Ancestors(path);
    AddAncestorsKeeps(t, path, 0);
    var u := AddAncestors(t, Ancestors(path)).0;
    forall directory | IsDescendantOf(path, directory)
      ensures DirAt(u.rows, directory)
    {
      AncestorsAreSlashPrefixes(path, directory);
    }
  }

  /** Creating keeps the tree: the new row, the parents it needed, and every old row as it was. */
  lemma {:induction false} CreateKeepsTree(t: Table, path: string, isDir: bool)
    requires TreeInv(t)
    ensures var (u, outcome) := AfterCreate(t, path, isDir);
            && TreeInv(u)
            && (!outcome.Done? ==> u == t)
            && (outcome.Done? ==>
                  && outcome.id !in t.rows && outcome.id in u.rows && u.rows[outcome.id] == Row(path, isDir)
                  && (forall id | id in t.rows :: id in u.rows && u.rows[id] == t.rows[id])
                  && (forall id | id in u.rows && id !in t.rows && id != outcome.id ::
                        u.rows[id].isDir && IsDescendantOf(path, u.rows[id].path)))
  {
    hide Ancestors;
    if ValidPath(path) && !Taken(t.rows, path) && AddAncestors(t, Ancestors(path)).1 {
      ParentsReady(t, path);
      var parented := AddAncestors(t, Ancestors(path)).0;
      forall id | id in parented.rows && id !in t.rows
        ensures IsDescendantOf(path, parented.rows[id].path) && parented.rows[id].path != path
      {
        AncestorsAreSlashPrefixes(path, parented.rows[id].path);
        DescendantMeans(path, parented.rows[id].path);
      }
      hide UniquePaths, Parented, WellNamed;
      assert !Taken(parented.rows, path);
      InsertKeeps(parented, path, isDir);
    }
  }

  // ── Moving ─────────────────────────────────────────────────────────────────

  /** A move that reaches its rewrite. */
  ghost predicate Movable(t: Table, id: nat, newPath: string) {
    && TreeInv(t) && ValidPath(newPath) && id in t.rows && t.rows[id].path != newPath
    && !(t.rows[id].isDir && IsDescendantOf(newPath, t.rows[id].path))
    && !Collides(t.rows, id, newPath)
  }

  lemma {:induction false} CollidesMeans(rows: map<nat, Row>, id: nat, newPath: string, x: nat, y: nat)
    requires id in rows && x in Subtree(rows, id) && y in rows && y !in Subtree(rows, id)
    requires !Collides(rows, id, newPath)
    ensures rows[y].path != Target(rows, id, newPath, x)
  {
  }

  /** The new place is not above the old one either: the directory there would collide. */
  lemma {:induction false} NotMovedUp(t: Table, id: nat, newPath: string)
    requires Movable(t, id, newPath)
    ensures !IsDescendantOf(t.rows[id].path, newPath)
    ensures !Taken(t.rows, newPath)
  {
    if Taken(t.rows, newPath) {
      var z :| z in t.rows && t.rows[z].path == newPath;
      assert z !in Subtree(t.rows, id) by { OutsideSubtree(t.rows, id, z, newPath); }
      CollidesMeans(t.rows, id, newPath, id, z);
      assert false;
    }
    assert IsDescendantOf(t.rows[id].path, newPath) ==> DirAt(t.rows, newPath);
  }

  lemma {:induction false} OutsideSubtree(rows: map<nat, Row>, id: nat, z: nat, newPath: string)
    requires id in rows && z in rows && rows[z].path == newPath && rows[id].path != newPath
    requires !(rows[id].isDir && IsDescendantOf(newPath, rows[id].path))
    ensures z !in Subtree(rows, id)
  {
  }

  /** A target is the new path or lies under it; only the moved row itself gets the new path. */
  lemma {:induction false} TargetIsUnder(rows: map<nat, Row>, id: nat, newPath: string, x: nat)
    requires id in rows && x in Subtree(rows, id)
    ensures x == id ==> Target(rows, id, newPath, x) == newPath
    ensures x != id ==>
      && IsDescendantOf(Target(rows, id, newPath, x), newPath)
      && rows[id].isDir && IsDescendantOf(rows[x].path, rows[id].path)
  {
    if x != id { ReplaceKeepsSuffix(rows[x].path, rows[id].path, newPath); }
  }

  /** No target is the present path of a moving row, so no update order can collide. */
  lemma {:induction false} TargetsAvoidOrigins(t: Table, id: nat, newPath: string, x: nat, y: nat)
    requires Movable(t, id, newPath) && x in Subtree(t.rows, id) && y in Subtree(t.rows, id)
    ensures Target(t.rows, id, newPath, x) != t.rows[y].path
  {
    hide Target;
    var q, p := t.rows[y].path, t.rows[id].path;
    NotMovedUp(t, id, newPath);
    TargetIsUnder(t.rows, id, newPath, x);
    TargetIsUnder(t.rows, id, newPath, y);
    if Target(t.rows, id, newPath, x) == q && x != id && y != id {
      AncestorsAreOrdered(q, newPath, p);
    }
  }

  lemma {:induction false} TargetsDiffer(t: Table, id: nat, newPath: string, x: nat, y: nat)
    requires UniquePaths(t.rows) && id in t.rows && x in Subtree(t.rows, id) && y in Subtree(t.rows, id) && x != y
    ensures Target(t.rows, id, newPath, x) != Target(t.rows, id, newPath, y)
  {
    var p := t.rows[id].path;
    TargetIsUnder(t.rows, id, newPath, x);
    TargetIsUnder(t.rows, id, newPath, y);
    if x != id {
      DescendantMeans(Target(t.rows, id, newPath, x), newPath);
      ReplaceKeepsSuffix(t.rows[x].path, p, newPath);
    }
    if y != id {
      DescendantMeans(Target(t.rows, id, newPath, y), newPath);
      ReplaceKeepsSuffix(t.rows[y].path, p, newPath);
    }
  }

  /** Targets are free of every row that stays, created parents included. */
  lemma {:induction false} TargetsAvoidOthers(t: Table, u: Table, id: nat, newPath: string, x: nat, y: nat)
    requires Movable(t, id, newPath) && OnlyParentsAdded(t, u, Ancestors(newPath))
    requires x in Subtree(t.rows, id) && y in u.rows && y !in Subtree(t.rows, id)
    ensures u.rows[y].path != Target(t.rows, id, newPath, x)
  {
    hide Ancestors;
    if y in t.rows {
      CollidesMeans(t.rows, id, newPath, x, y);
    } else {
      hide Target;
      AncestorsAreSlashPrefixes(newPath, u.rows[y].path);
      DescendantMeans(newPath, u.rows[y].path);
      TargetIsUnder(t.rows, id, newPath, x);
      DescendantMeans(Target(t.rows, id, newPath, x), newPath);
    }
  }

  /** The table after the rows in `moved` have been updated and the other moving rows have not. */
  function Partly(rows: map<nat, Row>, before: map<nat, Row>, id: nat, newPath: string, moved: set<nat>): map<nat, Row>
    requires id in before && moved <= Subtree(before, id)
  {
    map x | x in rows ::
      if x in before && x in moved then Row(Target(before, id, newPath, x), before[x].isDir) else rows[x]
  }

  /** The one-row-at-a-time rewrite never holds a path twice, whichever rows went first. */
  lemma {:induction false} RewriteNeverCollides(t: Table, u: Table, id: nat, newPath: string, moved: set<nat>)
    requires Movable(t, id, newPath) && TreeInv(u) && OnlyParentsAdded(t, u, Ancestors(newPath))
    requires moved <= Subtree(t.rows, id)
    ensures UniquePaths(Partly(u.rows, t.rows, id, newPath, moved))
  {
    hide Ancestors, Target;
    var rows := Partly(u.rows, t.rows, id, newPath, moved);
    forall a, b | a in rows && b in rows && a != b
      ensures rows[a].path != rows[b].path
    {
      PairNeverCollides(t, u, id, newPath, moved, a, b);
    }
  }

  lemma {:induction false} PairNeverCollides(t: Table, u: Table, id: nat, newPath: string, moved: set<nat>, a: nat,
      b: nat)
    requires Movable(t, id, newPath) && TreeInv(u) && OnlyParentsAdded(t, u, Ancestors(newPath))
    requires moved <= Subtree(t.rows, id) && a in u.rows && b in u.rows && a != b
    ensures var rows := Partly(u.rows, t.rows, id, newPath, moved); rows[a].path != rows[b].path
  {
    hide Ancestors, Target, Subtree, Collides, Taken;
    if a in moved && b in moved {
      TargetsDiffer(t, id, newPath, a, b);
    } else if a in moved {
      OneMoved(t, u, id, newPath, a, b);
    } else if b in moved {
      OneMoved(t, u, id, newPath, b, a);
    }
  }

  lemma {:induction false} OneMoved(t: Table, u: Table, id: nat, newPath: string, x: nat, y: nat)
    requires Movable(t, id, newPath) && OnlyParentsAdded(t, u, Ancestors(newPath))
    requires x in Subtree(t.rows, id) && y in u.rows
    ensures Target(t.rows, id, newPath, x) != u.rows[y].path
  {
    hide Ancestors, Target, Movable;
    if y in Subtree(t.rows, id) {
      TargetsAvoidOrigins(t, id, newPath, x, y);
    } else {
      TargetsAvoidOthers(t, u, id, newPath, x, y);
    }
  }

  /** A directory outside the moved subtree that a path outside it passes through stays put. */
  lemma {:induction false} NotThroughTheMoved(t: Table, u: Table, id: nat, path: string, directory: string, z: nat)
    requires UniquePaths(u.rows) && DirAt(u.rows, directory) && id in t.rows && z in Subtree(t.rows, id)
    requires z in u.rows && u.rows[z] == t.rows[z]
    requires IsDescendantOf(path, directory) && !(t.rows[id].isDir && IsDescendantOf(path, t.rows[id].path))
    ensures t.rows[z].path != directory
  {
    if t.rows[z].path == directory && z != id {
      Transitive(path, directory, t.rows[id].path);
    }
  }

  lemma {:induction false} DirStaysInPlace(t: Table, u: Table, id: nat, newPath: string, path: string,
      directory: string)
    requires UniquePaths(u.rows) && DirAt(u.rows, directory) && id in t.rows
    requires forall z | z in t.rows :: z in u.rows && u.rows[z] == t.rows[z]
    requires IsDescendantOf(path, directory) && !(t.rows[id].isDir && IsDescendantOf(path, t.rows[id].path))
    ensures DirAt(Rewritten(u.rows, t.rows, id, newPath), directory)
  {
    hide Subtree, Target, UniquePaths;
    var z :| z in u.rows && u.rows[z].path == directory && u.rows[z].isDir;
    if z in t.rows && z in Subtree(t.rows, id) {
      NotThroughTheMoved(t, u, id, path, directory, z);
    }
    assert Rewritten(u.rows, t.rows, id, newPath)[z] == u.rows[z];
  }

  /** The state between creating the parents and rewriting the paths. */
  ghost predicate ReadyToMove(t: Table, u: Table, id: nat, newPath: string) {
    && Movable(t, id, newPath) && TreeInv(u) && OnlyParentsAdded(t, u, Ancestors(newPath))
    && forall directory | IsDescendantOf(newPath, directory) :: DirAt(u.rows, directory)
  }

  /** A row that stays was not under the moving directory. */
  lemma {:induction false} StayingIsOutside(t: Table, u: Table, id: nat, newPath: string, x: nat)
    requires ReadyToMove(t, u, id, newPath) && x in u.rows && !(x in t.rows && x in Subtree(t.rows, id))
    ensures !(t.rows[id].isDir && IsDescendantOf(u.rows[x].path, t.rows[id].path))
  {
    hide Ancestors, TreeInv, Collides;
    if x !in t.rows && IsDescendantOf(u.rows[x].path, t.rows[id].path) {
      AncestorsAreSlashPrefixes(newPath, u.rows[x].path);
      Transitive(newPath, u.rows[x].path, t.rows[id].path);
    }
  }

  lemma {:induction false} MovedInsideParented(t: Table, u: Table, id: nat, newPath: string, x: nat, directory: string)
    requires ReadyToMove(t, u, id, newPath) && x in Subtree(t.rows, id) && x != id
    requires IsDescendantOf(Target(t.rows, id, newPath, x), directory) && IsDescendantOf(directory, newPath)
    ensures DirAt(Rewritten(u.rows, t.rows, id, newPath), directory)
  {
    hide Ancestors, Collides, UniquePaths, WellNamed;
    var p := t.rows[id].path;
    DescendantMeans(t.rows[x].path, p);
    DescendantMeans(directory, newPath);
    AncestorsAfterReplace(t.rows[x].path, p, newPath, directory);
    DescendantMeans(newPath, directory);
    var origin := ReplacePathPrefix(directory, newPath, p);
    assert DirAt(t.rows, origin);
    var z :| z in t.rows && t.rows[z].path == origin && t.rows[z].isDir;
    DescendantMeans(origin, p);
    assert z in Subtree(t.rows, id) && z != id;
    assert Rewritten(u.rows, t.rows, id, newPath)[z] == Row(directory, true);
  }

  lemma {:induction false} MovedParented(t: Table, u: Table, id: nat, newPath: string, x: nat, directory: string)
    requires ReadyToMove(t, u, id, newPath) && x in u.rows
    requires IsDescendantOf(Rewritten(u.rows, t.rows, id, newPath)[x].path, directory)
    ensures DirAt(Rewritten(u.rows, t.rows, id, newPath), directory)
  {
    hide Ancestors, Collides, Subtree, DirAt, UniquePaths, WellNamed;
    var rows := Rewritten(u.rows, t.rows, id, newPath);
    if !(x in t.rows && x in Subtree(t.rows, id)) {
      StayingIsOutside(t, u, id, newPath, x);
      DirStaysInPlace(t, u, id, newPath, u.rows[x].path, directory);
    } else {
      TargetIsUnder(t.rows, id, newPath, x);
      if IsDescendantOf(newPath, directory) {
        DirStaysInPlace(t, u, id, newPath, newPath, directory);
      } else if directory == newPath {
        MovedRoot(t, u, id, newPath);
      } else {
        AncestorsAreOrdered(Target(t.rows, id, newPath, x), newPath, directory);
        MovedInsideParented(t, u, id, newPath, x, directory);
      }
    }
  }

  lemma {:induction false} MovedRoot(t: Table, u: Table, id: nat, newPath: string)
    requires id in t.rows && id in u.rows && t.rows[id].isDir
    ensures DirAt(Rewritten(u.rows, t.rows, id, newPath), newPath)
  {
    assert Rewritten(u.rows, t.rows, id, newPath)[id] == Row(newPath, true);
  }

  /** What a move changes: the moved rows get the new directory and keep the rest of their paths,
      ids and kinds stay, other rows stay, and only missing parents are added. */
  ghost predicate MovedExactly(t: Table, u: Table, id: nat, newPath: string)
    requires id in t.rows
  {
    var p := t.rows[id].path;
    && (forall x | x in t.rows :: x in u.rows && u.rows[x].isDir == t.rows[x].isDir)
    && (forall x | x in t.rows && x !in Subtree(t.rows, id) :: u.rows[x] == t.rows[x])
    && (forall x | x in Subtree(t.rows, id) :: p <= t.rows[x].path && u.rows[x].path == newPath + t.rows[x].path[|p|..])
    && (forall x | x in u.rows && x !in t.rows ::
          u.rows[x].isDir && IsDescendantOf(newPath, u.rows[x].path) && !Taken(t.rows, u.rows[x].path))
  }

  lemma {:induction false} RewrittenMoves(t: Table, u: Table, id: nat, newPath: string)
    requires ReadyToMove(t, u, id, newPath)
    ensures MovedExactly(t, u.(rows := Rewritten(u.rows, t.rows, id, newPath)), id, newPath)
  {
    hide Ancestors, Collides, TreeInv, Taken;
    forall x | x in Subtree(t.rows, id)
      ensures t.rows[id].path <= t.rows[x].path
      ensures Target(t.rows, id, newPath, x) == newPath + t.rows[x].path[|t.rows[id].path|..]
    {
      if x != id { DescendantMeans(t.rows[x].path, t.rows[id].path); }
    }
    forall x | x in u.rows && x !in t.rows
      ensures IsDescendantOf(newPath, u.rows[x].path)
    {
      AncestorsAreSlashPrefixes(newPath, u.rows[x].path);
    }
  }

  lemma {:induction false} RewrittenKeepsTree(t: Table, u: Table, id: nat, newPath: string)
    requires ReadyToMove(t, u, id, newPath)
    ensures TreeInv(u.(rows := Rewritten(u.rows, t.rows, id, newPath)))
  {
    hide Ancestors, Collides, Subtree, DirAt, ValidSegments, Target;
    var rows := Rewritten(u.rows, t.rows, id, newPath);
    RewriteNeverCollides(t, u, id, newPath, Subtree(t.rows, id));
    assert rows == Partly(u.rows, t.rows, id, newPath, Subtree(t.rows, id));
    forall x, directory | x in rows && IsDescendantOf(rows[x].path, directory)
      ensures DirAt(rows, directory)
    {
      MovedParented(t, u, id, newPath, x, directory);
    }
    forall x | x in Subtree(t.rows, id)
      ensures ValidSegments(Target(t.rows, id, newPath, x))
    {
      TargetIsNamed(t.rows, id, newPath, x);
    }
  }

  lemma {:induction false} TargetIsNamed(rows: map<nat, Row>, id: nat, newPath: string, x: nat)
    requires id in rows && x in Subtree(rows, id) && WellNamed(rows) && ValidSegments(newPath)
    ensures ValidSegments(Target(rows, id, newPath, x))
  {
    hide ValidSegments;
    if x != id { MovedIsWellNamed(rows[x].path, rows[id].path, newPath); }
  }

  /** Moving keeps the tree, and moves exactly the subtree. */
  lemma {:induction false} MoveKeepsTree(t: Table, id: nat, newPath: string)
    requires TreeInv(t)
    ensures var (u, outcome) := AfterMove(t, id, newPath);
            && TreeInv(u)
            && (outcome.Done? ==> id in t.rows && outcome.id == id)
            && (!outcome.Done? || t.rows[id].path == newPath ==> u == t)
            && (outcome.Done? && t.rows[id].path != newPath ==> MovedExactly(t, u, id, newPath))
  {
    hide Ancestors, Collides, Subtree, TreeInv, MovedExactly;
    if Movable(t, id, newPath) && AddAncestors(t, Ancestors(newPath)).1 {
      ParentsReady(t, newPath);
      var u := AddAncestors(t, Ancestors(newPath)).0;
      RewrittenKeepsTree(t, u, id, newPath);
      RewrittenMoves(t, u, id, newPath);
    }
  }

  // ── When the operations succeed ────────────────────────────────────────────

  /** Only a file in the way stops the parents from being created. */
  lemma {:induction false} ParentsSucceed(t: Table, path: string, k: nat)
    requires k <= |Ancestors(path)| && IdsBelow(t)
    ensures AddAncestors(t, Ancestors(path)[k..]).1 <==>
      forall j | k <= j < |Ancestors(path)| && Taken(t.rows, Ancestors(path)[j]) :: DirAt(t.rows, Ancestors(path)[j])
    decreases |Ancestors(path)| - k
  {
    hide Ancestors, Taken, DirAt;
    var ancestors := Ancestors(path);
    if k < |ancestors| {
      assert ancestors[k..][1..] == ancestors[k + 1..];
      var next := if Taken(t.rows, ancestors[k]) then t else Inserted(t, ancestors[k], true);
      forall j | k < j < |ancestors|
        ensures Taken(next.rows, ancestors[j]) == Taken(t.rows, ancestors[j])
        ensures DirAt(next.rows, ancestors[j]) == DirAt(t.rows, ancestors[j])
      {
        AncestorsGrow(path, k, j);
        InsertedElsewhere(t, ancestors[k], ancestors[j]);
      }
      ParentsSucceed(next, path, k + 1);
    }
  }

  lemma {:induction false} InsertedElsewhere(t: Table, path: string, other: string)
    requires IdsBelow(t) && path != other
    ensures Taken(Inserted(t, path, true).rows, other) == Taken(t.rows, other)
    ensures DirAt(Inserted(t, path, true).rows, other) == DirAt(t.rows, other)
  {
    var rows := Inserted(t, path, true).rows;
    assert forall id | id in t.rows :: rows[id] == t.rows[id];
  }

  /** Scanning the targets of a whole subtree finds a collision exactly when the new path itself is taken. */
  lemma {:induction false} CollidesExactlyWhenTaken(t: Table, id: nat, newPath: string)
    requires TreeInv(t) && id in t.rows && t.rows[id].path != newPath
    requires !(t.rows[id].isDir && IsDescendantOf(newPath, t.rows[id].path))
    ensures Collides(t.rows, id, newPath) <==> Taken(t.rows, newPath)
  {
    hide Target;
    if Taken(t.rows, newPath) {
      var z :| z in t.rows && t.rows[z].path == newPath;
      OutsideSubtree(t.rows, id, z, newPath);
      TargetIsUnder(t.rows, id, newPath, id);
      assert t.rows[z].path == Target(t.rows, id, newPath, id);
    }
    if Collides(t.rows, id, newPath) {
      var x, y :|
        && x in Subtree(t.rows, id) && y in t.rows && y !in Subtree(t.rows, id)
        && t.rows[y].path == Target(t.rows, id, newPath, x);
      TargetIsUnder(t.rows, id, newPath, x);
      assert x != id ==> DirAt(t.rows, newPath);
    }
  }

  predicate FileAbove(rows: map<nat, Row>, path: string) {
    exists id :: id in rows && !rows[id].isDir && IsDescendantOf(path, rows[id].path)
  }

  lemma {:induction false} ParentsSucceedExactlyWhen(t: Table, path: string)
    requires TreeInv(t)
    ensures AddAncestors(t, Ancestors(path)).1 <==> !FileAbove(t.rows, path)
  {
    hide Ancestors;
    var ancestors := Ancestors(path);
    assert ancestors[0..] == ancestors;
    ParentsSucceed(t, path, 0);
    forall j | 0 <= j < |ancestors|
      ensures IsDescendantOf(path, ancestors[j])
    {
      assert ancestors[j] in ancestors;
      AncestorsAreSlashPrefixes(path, ancestors[j]);
    }
    if FileAbove(t.rows, path) {
      var id :| id in t.rows && !t.rows[id].isDir && IsDescendantOf(path, t.rows[id].path);
      AncestorsAreSlashPrefixes(path, t.rows[id].path);
      var j :| 0 <= j < |ancestors| && ancestors[j] == t.rows[id].path;
      assert Taken(t.rows, ancestors[j]) && !DirAt(t.rows, ancestors[j]);
    }
  }

  /** Creating succeeds exactly when the path is valid, free, and not under a file. */
  lemma {:induction false} CreateSucceedsExactlyWhen(t: Table, path: string, isDir: bool)
    requires TreeInv(t)
    ensures AfterCreate(t, path, isDir).1.Done? <==> ValidPath(path) && !Taken(t.rows, path) && !FileAbove(t.rows, path)
  {
    hide Ancestors, TreeInv, Taken, FileAbove;
    ParentsSucceedExactlyWhen(t, path);
  }

  /** Moving to another path succeeds exactly when the new path is valid, free, not under a file,
      and not inside the moved directory. */
  lemma {:induction false} MoveSucceedsExactlyWhen(t: Table, id: nat, newPath: string)
    requires TreeInv(t) && id in t.rows && t.rows[id].path != newPath
    ensures AfterMove(t, id, newPath).1.Done? <==>
      && ValidPath(newPath) && !Taken(t.rows, newPath) && !FileAbove(t.rows, newPath)
      && !(t.rows[id].isDir && IsDescendantOf(newPath, t.rows[id].path))
  {
    hide Ancestors, TreeInv, Taken, FileAbove, Collides;
    ParentsSucceedExactlyWhen(t, newPath);
    if !(t.rows[id].isDir && IsDescendantOf(newPath, t.rows[id].path)) {
      CollidesExactlyWhenTaken(t, id, newPath);
    }
  }

  /** Which error an operation reports, when several would do: the path, then the file, then the place. */
  lemma {:induction false} OutcomeIs(t: Table, id: nat, path: string, isDir: bool)
    requires TreeInv(t)
    ensures var created, moved := AfterCreate(t, path, isDir).1, AfterMove(t, id, path).1;
            && (created == InvalidPath <==> !ValidPath(path))
            && (created == PathExists <==> ValidPath(path) && Taken(t.rows, path))
            && (created == ParentNotDirectory <==> ValidPath(path) && !Taken(t.rows, path) && FileAbove(t.rows, path))
            && (moved == InvalidPath <==> !ValidPath(path))
            && (moved == FileNotFound <==> ValidPath(path) && id !in t.rows)
            && (ValidPath(path) && id in t.rows ==>
                  var inside := t.rows[id].isDir && IsDescendantOf(path, t.rows[id].path);
                  && (t.rows[id].path == path ==> moved == Done(id))
                  && (moved == InvalidMove <==> t.rows[id].path != path && inside)
                  && (moved == PathExists <==> t.rows[id].path != path && !inside && Taken(t.rows, path))
                  && (moved == ParentNotDirectory <==>
                        t.rows[id].path != path && !inside && !Taken(t.rows, path) && FileAbove(t.rows, path)))
  {
    hide Ancestors, TreeInv, Taken, FileAbove, Collides, ValidPath;
    ParentsSucceedExactlyWhen(t, path);
    if id in t.rows && t.rows[id].path != path && !(t.rows[id].isDir && IsDescendantOf(path, t.rows[id].path)) {
      CollidesExactlyWhenTaken(t, id, path);
    }
  }

  // ── Moving back ────────────────────────────────────────────────────────────

  /** A completed move to another path. */
  ghost predicate Moved(t: Table, v: Table, id: nat, newPath: string) {
    TreeInv(t) && id in t.rows && t.rows[id].path != newPath && AfterMove(t, id, newPath) == (v, Done(id))
  }

  lemma {:induction false} MovedFacts(t: Table, v: Table, id: nat, newPath: string)
    requires Moved(t, v, id, newPath)
    ensures TreeInv(v) && MovedExactly(t, v, id, newPath) && Movable(t, id, newPath)
  {
    hide Ancestors, Collides, Subtree, TreeInv, MovedExactly, Rewritten;
    MoveKeepsTree(t, id, newPath);
  }

  lemma {:induction false} SameSubtree(t: Table, v: Table, id: nat, newPath: string)
    requires TreeInv(t) && Movable(t, id, newPath) && MovedExactly(t, v, id, newPath)
    ensures Subtree(v.rows, id) == Subtree(t.rows, id)
  {
    hide Collides, WellNamed, UniquePaths;
    var p := t.rows[id].path;
    NotMovedUp(t, id, newPath);
    if t.rows[id].isDir {
      forall x | x in v.rows && x != id
        ensures IsDescendantOf(v.rows[x].path, newPath) <==> x in Subtree(t.rows, id)
      {
        DescendantMeans(v.rows[x].path, newPath);
        DescendantMeans(newPath, v.rows[x].path);
        if x in Subtree(t.rows, id) {
          DescendantMeans(t.rows[x].path, p);
        } else if x in t.rows {
          assert IsDescendantOf(t.rows[x].path, newPath) ==> DirAt(t.rows, newPath);
        }
      }
    }
  }

  lemma {:induction false} BackTargets(t: Table, v: Table, id: nat, newPath: string, x: nat)
    requires id in t.rows && MovedExactly(t, v, id, newPath) && Subtree(v.rows, id) == Subtree(t.rows, id)
    requires x in Subtree(t.rows, id)
    ensures Target(v.rows, id, t.rows[id].path, x) == t.rows[x].path
  {
    var p := t.rows[id].path;
    if x != id {
      assert v.rows[id].path == newPath;
      DescendantMeans(v.rows[x].path, newPath);
      assert (newPath + t.rows[x].path[|p|..])[|newPath|..] == t.rows[x].path[|p|..];
    }
  }

  lemma {:induction false} BackIsFree(t: Table, v: Table, id: nat, newPath: string)
    requires TreeInv(t) && id in t.rows && MovedExactly(t, v, id, newPath) && Subtree(v.rows, id) == Subtree(t.rows, id)
    ensures !Collides(v.rows, id, t.rows[id].path)
  {
    hide Subtree, Target, Parented, WellNamed;
    forall x, y | x in Subtree(v.rows, id) && y in v.rows && y !in Subtree(v.rows, id)
      ensures v.rows[y].path != Target(v.rows, id, t.rows[id].path, x)
    {
      BackTargets(t, v, id, newPath, x);
    }
  }

  lemma {:induction false} OldParentsRemain(t: Table, v: Table, id: nat, newPath: string)
    requires TreeInv(t) && id in t.rows && MovedExactly(t, v, id, newPath)
    ensures forall directory | IsDescendantOf(t.rows[id].path, directory) :: DirAt(v.rows, directory)
  {
    hide UniquePaths, WellNamed;
    var p := t.rows[id].path;
    forall directory | IsDescendantOf(p, directory)
      ensures DirAt(v.rows, directory)
    {
      assert DirAt(t.rows, directory);
      var z :| z in t.rows && t.rows[z].path == directory && t.rows[z].isDir;
      DescendantMeans(p, directory);
      DescendantMeans(directory, p);
      assert v.rows[z] == t.rows[z];
    }
  }

  lemma {:induction false} NothingToAdd(t: Table, ancestors: seq<string>)
    requires forall j | 0 <= j < |ancestors| :: DirAt(t.rows, ancestors[j])
    ensures AddAncestors(t, ancestors) == (t, true)
    decreases |ancestors|
  {
    if ancestors != [] {
      assert DirAt(t.rows, ancestors[0]);
      NothingToAdd(t, ancestors[1..]);
    }
  }

  /** Moving back succeeds exactly when the old path is one a user could type, and then every row
      is as it was; only directories that the first move created remain. */
  lemma {:induction false} MoveBackRestores(t: Table, v: Table, id: nat, newPath: string)
    requires Moved(t, v, id, newPath)
    ensures var (w, outcome) := AfterMove(v, id, t.rows[id].path);
            && (outcome.Done? <==> ValidPath(t.rows[id].path))
            && (outcome.Done? ==>
                  && w.nextId == v.nextId && w.rows.Keys == v.rows.Keys
                  && (forall x | x in t.rows :: x in w.rows && w.rows[x] == t.rows[x])
                  && (forall x | x in w.rows && x !in t.rows :: w.rows[x] == v.rows[x]))
  {
    hide Ancestors, Collides, Subtree, TreeInv, Target, Taken;
    var p := t.rows[id].path;
    MovedFacts(t, v, id, newPath);
    NotMovedUp(t, id, newPath);
    SameSubtree(t, v, id, newPath);
    BackIsFree(t, v, id, newPath);
    OldParentsRemain(t, v, id, newPath);
    forall j | 0 <= j < |Ancestors(p)|
      ensures DirAt(v.rows, Ancestors(p)[j])
    {
      assert Ancestors(p)[j] in Ancestors(p);
      AncestorsAreSlashPrefixes(p, Ancestors(p)[j]);
    }
    NothingToAdd(v, Ancestors(p));
    RootMoved(t, v, id, newPath);
    forall x | x in Subtree(t.rows, id)
      ensures Target(v.rows, id, p, x) == t.rows[x].path
    {
      BackTargets(t, v, id, newPath, x);
    }
  }

  lemma {:induction false} RootMoved(t: Table, v: Table, id: nat, newPath: string)
    requires id in t.rows && MovedExactly(t, v, id, newPath)
    ensures v.rows[id] == Row(newPath, t.rows[id].isDir)
  {
    assert t.rows[id].path[|t.rows[id].path|..] == "";
  }

  // ── Deleting ───────────────────────────────────────────────────────────────

  /** Deleting keeps the tree, and removes the row and, only for a directory, what lies under it. */
  lemma {:induction false} DeleteKeepsTree(t: Table, id: nat)
    requires TreeInv(t)
    ensures var (u, outcome) := AfterDelete(t, id);
            && TreeInv(u) && u.nextId == t.nextId
            && (id !in t.rows ==> u == t && outcome == FileNotFound)
            && (id in t.rows ==>
                  && outcome.Deleted? && u.rows == t.rows - outcome.ids
                  && (forall x :: x in outcome.ids <==>
                        x in t.rows && (x == id || IsDescendantOf(t.rows[x].path, t.rows[id].path))))
  {
    if id in t.rows {
      var u := AfterDelete(t, id).0;
      forall x | x in t.rows && !t.rows[id].isDir
        ensures !IsDescendantOf(t.rows[x].path, t.rows[id].path)
      {
        NothingUnderAFile(t, id, x);
      }
      forall x, directory | x in u.rows && IsDescendantOf(u.rows[x].path, directory)
        ensures DirAt(u.rows, directory)
      {
        SurvivorKeepsParents(t, id, x, directory);
      }
    }
  }

  lemma {:induction false} SurvivorKeepsParents(t: Table, id: nat, x: nat, directory: string)
    requires TreeInv(t) && id in t.rows && x in t.rows && x !in Subtree(t.rows, id)
    requires IsDescendantOf(t.rows[x].path, directory)
    ensures DirAt(t.rows - Subtree(t.rows, id), directory)
  {
    hide WellNamed;
    assert DirAt(t.rows, directory);
    var z :| z in t.rows && t.rows[z].path == directory && t.rows[z].isDir;
    if z in Subtree(t.rows, id) && z != id {
      Transitive(t.rows[x].path, directory, t.rows[id].path);
    }
    assert z in t.rows - Subtree(t.rows, id);
  }

  // ── Whole runs ─────────────────────────────────────────────────────────────

  function Run(t: Table, ops: seq<Operation>): Table
    decreases |ops|
  {
    if ops == [] then t else Run(After(t, ops[0]).0, ops[1..])
  }

  /** Every sequence of creates, moves and deletes keeps the tree, failures included. */
  lemma {:induction false} RunKeepsTree(t: Table, ops: seq<Operation>)
    requires TreeInv(t)
    ensures TreeInv(Run(t, ops))
    decreases |ops|
  {
    hide TreeInv, AfterCreate, AfterMove, AfterDelete, MovedExactly;
    if ops != [] {
      match ops[0] {
        case Create(path, isDir) => CreateKeepsTree(t, path, isDir);
        case Move(id, path) => MoveKeepsTree(t, id, path);
        case Delete(id) => DeleteKeepsTree(t, id);
      }
      RunKeepsTree(After(t, ops[0]).0, ops[1..]);
    }
  }

  /** What a project's operations have built from nothing is a tree, whatever they were. */
  lemma {:induction false} EveryTableIsATree(ops: seq<Operation>)
    ensures TreeInv(Run(EmptyTable, ops))
  {
    RunKeepsTree(EmptyTable, ops);
  }
}
