/** The nested tree that the file explorer shows, assembled from the flat rows. */
module FileTree {
  import opened Wrappers
  import opened Paths
  import Table = FileTable

  datatype Record = Record(id: nat, path: string, isDir: bool)

  datatype Tree = Tree(record: Record, children: seq<Tree>)

  /** How names compare in the user's locale. Any total order with ties is one of these. */
  type Collation = string -> real

  ghost predicate UniquePaths(rows: seq<Record>) {
    forall i, j | 0 <= i < |rows| && 0 <= j < |rows| && rows[i].path == rows[j].path :: i == j
  }

  // ── Sorting siblings ───────────────────────────────────────────────────────

  /** Directories before files, then by name. */
  predicate Precedes(a: Record, b: Record, collate: Collation) {
    if a.isDir != b.isDir then a.isDir else collate(BaseName(a.path)) <= collate(BaseName(b.path))
  }

  function InsertInOrder(r: Record, sorted: seq<Record>, collate: Collation): (out: seq<Record>)
    ensures multiset(out) == multiset([r]) + multiset(sorted)
    ensures forall x :: x in out <==> x == r || x in sorted
  {
    if sorted == [] then [r]
    else if Precedes(r, sorted[0], collate) then [r] + sorted
    else
      assert sorted == [sorted[0]] + sorted[1..];
      [sorted[0]] + InsertInOrder(r, sorted[1..], collate)
  }

  /** A stable sort. */
  function Sort(rows: seq<Record>, collate: Collation): (out: seq<Record>)
    ensures multiset(out) == multiset(rows)
    ensures forall x :: x in out <==> x in rows
  {
    if rows == [] then [] else
      assert rows == [rows[0]] + rows[1..];
      InsertInOrder(rows[0], Sort(rows[1..], collate), collate)
  }

  ghost predicate Ordered(rows: seq<Record>, collate: Collation) {
    forall i, j | 0 <= i < j < |rows| :: Precedes(rows[i], rows[j], collate)
  }

  lemma {:induction false} InsertIsOrdered(r: Record, sorted: seq<Record>, collate: Collation)
    requires Ordered(sorted, collate)
    ensures Ordered(InsertInOrder(r, sorted, collate), collate)
  {
    if sorted != [] && !Precedes(r, sorted[0], collate) {
      var rest := InsertInOrder(r, sorted[1..], collate);
      InsertIsOrdered(r, sorted[1..], collate);
      forall j | 0 <= j < |rest|
        ensures Precedes(sorted[0], rest[j], collate)
      {
        assert rest[j] in multiset(rest);
        assert rest[j] == r || rest[j] in sorted[1..];
      }
    }
  }

  lemma {:induction false} SortIsOrdered(rows: seq<Record>, collate: Collation)
    ensures Ordered(Sort(rows, collate), collate)
  {
    if rows != [] {
      SortIsOrdered(rows[1..], collate);
      InsertIsOrdered(rows[0], Sort(rows[1..], collate), collate);
    }
  }

  // ── Parents and children ───────────────────────────────────────────────────

  predicate Present(rows: seq<Record>, path: string) {
    exists i :: 0 <= i < |rows| && rows[i].path == path
  }

  /** The path of the row a row hangs under, if that row exists. A row without one is a root. */
  function ParentKey(rows: seq<Record>, r: Record): Option<string> {
    match ParentPath(r.path)
    case Root => None
    case Directory(p) => if Present(rows, p) then Some(p) else None
  }

  function Under(rows: seq<Record>, among: seq<Record>, key: Option<string>): seq<Record> {
    if among == [] then []
    else (if ParentKey(rows, among[0]) == key then [among[0]] else []) + Under(rows, among[1..], key)
  }

  lemma {:induction false} UnderMeans(rows: seq<Record>, among: seq<Record>, key: Option<string>)
    ensures forall r :: r in Under(rows, among, key) <==> r in among && ParentKey(rows, r) == key
  {
    hide ParentKey;
    if among != [] {
      assert among == [among[0]] + among[1..];
      UnderMeans(rows, among[1..], key);
    }
  }

  function Siblings(rows: seq<Record>, key: Option<string>, collate: Collation): (kids: seq<Record>)
    ensures forall r :: r in kids <==> r in rows && ParentKey(rows, r) == key
  {
    UnderMeans(rows, rows, key);
    Sort(Under(rows, rows, key), collate)
  }

  lemma {:induction false} KidsAreLonger(rows: seq<Record>, r: Record, path: string)
    requires ParentKey(rows, r) == Some(path)
    ensures |path| < |r.path| && IsDescendantOf(r.path, path)
  {
    ParentIsDeepestAncestor(r.path, path);
    DescendantMeans(r.path, path);
  }

  function Longest(rows: seq<Record>): (n: nat)
    ensures forall r | r in rows :: |r.path| <= n
  {
    if rows == [] then 0
    else
      assert rows == [rows[0]] + rows[1..];
      var n := Longest(rows[1..]);
      if n < |rows[0].path| then |rows[0].path| else n
  }

  function Kids(rows: seq<Record>, r: Record, collate: Collation): (kids: seq<Record>)
    ensures forall k | k in kids :: k in rows && ParentKey(rows, k) == Some(r.path) && |r.path| < |k.path|
  {
    var kids := Siblings(rows, Some(r.path), collate);
    assert forall k | k in kids :: |r.path| < |k.path| by {
      forall k | k in kids ensures |r.path| < |k.path| { KidsAreLonger(rows, k, r.path); }
    }
    kids
  }

  function TreeAt(rows: seq<Record>, r: Record, collate: Collation): (t: Tree)
    requires r in rows
    ensures t.record == r && |t.children| == |Kids(rows, r, collate)|
    decreases Longest(rows) - |r.path|
  {
    var kids := Kids(rows, r, collate);
    Tree(r, seq(|kids|, i requires 0 <= i < |kids| => assert kids[i] in kids; TreeAt(rows, kids[i], collate)))
  }

  /** The whole tree. */
  function Forest(rows: seq<Record>, collate: Collation): seq<Tree> {
    var roots := Siblings(rows, None, collate);
    seq(|roots|, i requires 0 <= i < |roots| => assert roots[i] in roots; TreeAt(rows, roots[i], collate))
  }

  function Records(nodes: seq<Tree>): seq<Record> {
    seq(|nodes|, i requires 0 <= i < |nodes| => nodes[i].record)
  }

  /** Every node of the tree carries a row and has that row's children, in order. */
  ghost predicate Grown(nodes: seq<Tree>, rows: seq<Record>, collate: Collation)
    decreases nodes
  {
    forall i | 0 <= i < |nodes| ::
      && nodes[i].record in rows
      && Records(nodes[i].children) == Kids(rows, nodes[i].record, collate)
      && Grown(nodes[i].children, rows, collate)
  }

  lemma {:induction false} TreeAtIsGrown(rows: seq<Record>, r: Record, collate: Collation)
    requires r in rows
    ensures Grown([TreeAt(rows, r, collate)], rows, collate)
    decreases Longest(rows) - |r.path|
  {
    hide Kids, Longest;
    var tree, kids := TreeAt(rows, r, collate), Kids(rows, r, collate);
    forall i | 0 <= i < |kids|
      ensures Grown([tree.children[i]], rows, collate)
    {
      assert kids[i] in kids;
      TreeAtIsGrown(rows, kids[i], collate);
    }
    GrownFromOnes(tree.children, rows, collate);
    assert Records(tree.children) == kids;
  }

  lemma {:induction false} GrownFromOnes(nodes: seq<Tree>, rows: seq<Record>, collate: Collation)
    requires forall i | 0 <= i < |nodes| :: Grown([nodes[i]], rows, collate)
    ensures Grown(nodes, rows, collate)
  {
    hide Kids;
    forall i | 0 <= i < |nodes|
      ensures nodes[i].record in rows && Records(nodes[i].children) == Kids(rows, nodes[i].record, collate)
      ensures Grown(nodes[i].children, rows, collate)
    {
      assert [nodes[i]][0] == nodes[i];
    }
  }

  lemma {:induction false} ForestIsGrown(rows: seq<Record>, collate: Collation)
    ensures Grown(Forest(rows, collate), rows, collate)
    ensures Records(Forest(rows, collate)) == Siblings(rows, None, collate)
  {
    hide Siblings, TreeAt, Grown;
    var roots, forest := Siblings(rows, None, collate), Forest(rows, collate);
    forall i | 0 <= i < |roots|
      ensures Grown([forest[i]], rows, collate)
    {
      assert roots[i] in roots;
      TreeAtIsGrown(rows, roots[i], collate);
    }
    GrownFromOnes(forest, rows, collate);
  }

  // ── Flattening gives the rows back ─────────────────────────────────────────

  function Flatten(nodes: seq<Tree>): seq<Record>
    decreases nodes
  {
    if nodes == [] then [] else [nodes[0].record] + Flatten(nodes[0].children) + Flatten(nodes[1..])
  }

  ghost predicate NoRepeats(rows: seq<Record>) {
    forall i, j | 0 <= i < j < |rows| :: rows[i] != rows[j]
  }

  ghost function At(rows: seq<Record>, path: string): (r: Record)
    requires Present(rows, path)
    ensures r in rows && r.path == path
  {
    var i :| 0 <= i < |rows| && rows[i].path == path;
    rows[i]
  }

  /** Following parents from `r` reaches `c`. */
  ghost predicate Chain(rows: seq<Record>, r: Record, c: Record)
    decreases |r.path|
  {
    r == c || (ParentKey(rows, r).Some? &&
               (KidsAreLonger(rows, r, ParentKey(rows, r).value); Chain(rows, At(rows, ParentKey(rows, r).value), c)))
  }

  lemma {:induction false} OnlyRowAt(rows: seq<Record>, r: Record)
    requires UniquePaths(rows) && r in rows
    ensures Present(rows, r.path) && At(rows, r.path) == r
  {
  }

  lemma {:induction false} ChainIsShorter(rows: seq<Record>, r: Record, c: Record)
    requires Chain(rows, r, c)
    ensures r == c || |c.path| < |r.path|
    decreases |r.path|
  {
    if r != c {
      var key := ParentKey(rows, r).value;
      KidsAreLonger(rows, r, key);
      ChainIsShorter(rows, At(rows, key), c);
    }
  }

  /** A chain that is not already at `c` arrives there through exactly one of the rows under `c`. */
  lemma {:induction false} ChainThroughKid(rows: seq<Record>, r: Record, c: Record, collate: Collation)
    requires UniquePaths(rows) && r in rows && c in rows && Chain(rows, r, c) && r != c
    ensures exists k :: k in Kids(rows, c, collate) && Chain(rows, r, k)
    decreases |r.path|
  {
    hide Siblings;
    var q := At(rows, ParentKey(rows, r).value);
    KidsAreLonger(rows, r, q.path);
    if q == c {
      InKids(rows, r, c, collate);
      assert Chain(rows, r, r);
    } else {
      ChainThroughKid(rows, q, c, collate);
      var k :| k in Kids(rows, c, collate) && Chain(rows, q, k);
      assert Chain(rows, r, k);
    }
  }

  lemma {:induction false} InKids(rows: seq<Record>, r: Record, c: Record, collate: Collation)
    ensures r in Kids(rows, c, collate) <==> r in rows && ParentKey(rows, r) == Some(c.path)
  {
  }

  lemma {:induction false} ChainFromKid(rows: seq<Record>, r: Record, k: Record, c: Record, collate: Collation)
    requires UniquePaths(rows) && c in rows && k in Kids(rows, c, collate) && Chain(rows, r, k)
    ensures Chain(rows, r, c) && r != c
    decreases |r.path|
  {
    hide Siblings;
    OnlyRowAt(rows, c);
    ChainIsShorter(rows, r, k);
    if r != k {
      var q := At(rows, ParentKey(rows, r).value);
      KidsAreLonger(rows, r, q.path);
      ChainFromKid(rows, q, k, c, collate);
    }
  }

  /** A row is on one branch only. */
  lemma {:induction false} ChainIsLinear(rows: seq<Record>, r: Record, a: Record, b: Record)
    requires Chain(rows, r, a) && Chain(rows, r, b)
    ensures Chain(rows, a, b) || Chain(rows, b, a)
    decreases |r.path|
  {
    if r != a && r != b {
      var q := At(rows, ParentKey(rows, r).value);
      KidsAreLonger(rows, r, q.path);
      ChainIsLinear(rows, q, a, b);
    }
  }

  ghost predicate ReachesSome(rows: seq<Record>, r: Record, nodes: seq<Tree>) {
    exists i :: 0 <= i < |nodes| && Chain(rows, r, nodes[i].record)
  }

  lemma {:induction false} ReachesSomeUnfold(rows: seq<Record>, r: Record, nodes: seq<Tree>)
    requires nodes != []
    ensures ReachesSome(rows, r, nodes) <==> Chain(rows, r, nodes[0].record) || ReachesSome(rows, r, nodes[1..])
  {
    hide Chain;
    if i :| 0 <= i < |nodes| && Chain(rows, r, nodes[i].record) {
      assert i > 0 ==> nodes[1..][i - 1] == nodes[i];
    }
    if i :| 0 <= i < |nodes[1..]| && Chain(rows, r, nodes[1..][i].record) {
      assert nodes[1..][i] == nodes[i + 1];
    }
  }

  lemma {:induction false} ReachesThroughChildren(rows: seq<Record>, r: Record, node: Tree, collate: Collation)
    requires UniquePaths(rows) && r in rows && Grown([node], rows, collate)
    ensures Chain(rows, r, node.record) <==> r == node.record || ReachesSome(rows, r, node.children)
  {
    hide Chain, Kids, UniquePaths;
    var c, kids := node.record, Kids(rows, node.record, collate);
    assert [node][0] == node && Records(node.children) == kids;
    if Chain(rows, r, c) && r != c {
      ChainThroughKid(rows, r, c, collate);
      var k :| k in kids && Chain(rows, r, k);
      var i :| 0 <= i < |kids| && kids[i] == k;
      assert node.children[i].record == k;
    }
    if i :| 0 <= i < |node.children| && Chain(rows, r, node.children[i].record) {
      assert kids[i] in kids;
      ChainFromKid(rows, r, kids[i], c, collate);
    }
    if r == c { ChainToItself(rows, r); }
  }

  lemma {:induction false} ChainToItself(rows: seq<Record>, r: Record)
    ensures Chain(rows, r, r)
  {
  }

  lemma {:induction false} GrownParts(nodes: seq<Tree>, rows: seq<Record>, collate: Collation)
    requires Grown(nodes, rows, collate) && nodes != []
    ensures Grown([nodes[0]], rows, collate) && Grown(nodes[0].children, rows, collate)
    ensures Grown(nodes[1..], rows, collate)
    ensures nodes[0].record in rows && Records(nodes[0].children) == Kids(rows, nodes[0].record, collate)
  {
    hide Kids;
    var first, rest := [nodes[0]], nodes[1..];
    assert first[0] == nodes[0];
    assert forall i | 0 <= i < |rest| :: rest[i] == nodes[i + 1];
  }

  /** The rows in a part of the tree are those whose parents lead into it. */
  lemma {:induction false} InFlatten(nodes: seq<Tree>, rows: seq<Record>, r: Record, collate: Collation)
    requires UniquePaths(rows) && Grown(nodes, rows, collate)
    ensures r in Flatten(nodes) <==> r in rows && ReachesSome(rows, r, nodes)
    decreases nodes
  {
    hide Chain, Kids, UniquePaths, Grown, ReachesSome;
    if nodes != [] {
      GrownParts(nodes, rows, collate);
      InFlatten(nodes[0].children, rows, r, collate);
      InFlatten(nodes[1..], rows, r, collate);
      ReachesSomeUnfold(rows, r, nodes);
      if r in rows { ReachesThroughChildren(rows, r, nodes[0], collate); }
    } else {
      ReachesNone(rows, r);
    }
  }

  lemma {:induction false} ReachesNone(rows: seq<Record>, r: Record)
    ensures !ReachesSome(rows, r, [])
  {
  }

  /** No node of the list lies under another. */
  ghost predicate Unrelated(rows: seq<Record>, nodes: seq<Tree>) {
    forall i, j | 0 <= i < |nodes| && 0 <= j < |nodes| && i != j :: !Chain(rows, nodes[i].record, nodes[j].record)
  }

  lemma {:induction false} UnderKeepsApart(rows: seq<Record>, among: seq<Record>, key: Option<string>)
    requires NoRepeats(among)
    ensures NoRepeats(Under(rows, among, key))
  {
    if among != [] {
      var rest := Under(rows, among[1..], key);
      UnderKeepsApart(rows, among[1..], key);
      UnderMeans(rows, among[1..], key);
      assert forall i | 0 <= i < |rest| :: rest[i] in rest;
      assert forall i | 1 <= i < |among| :: among[i] == among[1..][i - 1];
    }
  }

  lemma {:induction false} NoRepeatsOfCons(first: Record, rest: seq<Record>)
    ensures NoRepeats([first] + rest) <==> NoRepeats(rest) && first !in rest
  {
    var rows := [first] + rest;
    assert forall i | 0 <= i < |rest| :: rows[i + 1] == rest[i];
    if NoRepeats(rows) {
      forall i | 0 <= i < |rest| ensures rest[i] != first { assert rows[0] != rows[i + 1]; }
      forall i, j | 0 <= i < j < |rest| ensures rest[i] != rest[j] { assert rows[i + 1] != rows[j + 1]; }
    }
  }

  /** Without repeats, a row counts once if it is there. */
  lemma {:induction false} CountsOf(rows: seq<Record>)
    ensures NoRepeats(rows) <==> forall r :: multiset(rows)[r] <= 1
  {
    hide NoRepeats;
    if rows == [] {
      NoRepeatsOfNone();
    } else {
      var first, rest := rows[0], rows[1..];
      assert rows == [first] + rest;
      NoRepeatsOfCons(first, rest);
      CountsOf(rest);
      assert forall r :: multiset(rows)[r] == multiset(rest)[r] + (if r == first then 1 else 0);
      assert first in rest <==> multiset(rest)[first] > 0;
      if forall r :: multiset(rows)[r] <= 1 {
        assert multiset(rows)[first] <= 1;
        forall r ensures multiset(rest)[r] <= 1 { assert multiset(rows)[r] <= 1; }
      }
    }
  }

  lemma {:induction false} NoRepeatsOfNone()
    ensures NoRepeats([])
  {
  }

  lemma {:induction false} SiblingsDiffer(rows: seq<Record>, key: Option<string>, collate: Collation)
    requires UniquePaths(rows)
    ensures NoRepeats(Siblings(rows, key, collate))
  {
    UnderKeepsApart(rows, rows, key);
    CountsOf(Under(rows, rows, key));
    CountsOf(Siblings(rows, key, collate));
  }

  lemma {:induction false} SiblingsAreUnrelated(rows: seq<Record>, key: Option<string>, nodes: seq<Tree>,
      collate: Collation)
    requires UniquePaths(rows) && Records(nodes) == Siblings(rows, key, collate)
    ensures Unrelated(rows, nodes)
  {
    hide Siblings, UniquePaths;
    SiblingsDiffer(rows, key, collate);
    forall i, j | 0 <= i < |nodes| && 0 <= j < |nodes| && i != j
      ensures !Chain(rows, nodes[i].record, nodes[j].record)
    {
      var a, b := Records(nodes)[i], Records(nodes)[j];
      assert a in Records(nodes) && b in Records(nodes) && a != b;
      if Chain(rows, a, b) {
        KidsAreLonger(rows, a, key.value);
        KidsAreLonger(rows, b, key.value);
        ChainIsShorter(rows, At(rows, key.value), b);
      }
    }
  }

  lemma {:induction false} FlattenHasNoRepeats(nodes: seq<Tree>, rows: seq<Record>, collate: Collation)
    requires UniquePaths(rows) && Grown(nodes, rows, collate) && Unrelated(rows, nodes)
    ensures NoRepeats(Flatten(nodes))
    decreases nodes
  {
    hide Chain, Siblings, UniquePaths, Grown, ReachesSome;
    if nodes != [] {
      var c, inner, rest := nodes[0].record, nodes[0].children, nodes[1..];
      GrownParts(nodes, rows, collate);
      SiblingsAreUnrelated(rows, Some(c.path), inner, collate);
      FlattenHasNoRepeats(inner, rows, collate);
      assert Unrelated(rows, rest) by {
        assert forall i | 0 <= i < |rest| :: rest[i] == nodes[i + 1];
      }
      FlattenHasNoRepeats(rest, rows, collate);
      forall r | r in rows
        ensures r == c ==> !ReachesSome(rows, r, inner) && !ReachesSome(rows, r, rest)
        ensures ReachesSome(rows, r, inner) ==> !ReachesSome(rows, r, rest)
      {
        BranchesApart(nodes, rows, r, collate);
      }
      forall r
        ensures r in Flatten(inner) <==> r in rows && ReachesSome(rows, r, inner)
        ensures r in Flatten(rest) <==> r in rows && ReachesSome(rows, r, rest)
      {
        InFlatten(inner, rows, r, collate);
        InFlatten(rest, rows, r, collate);
      }
      NoRepeatsInParts(c, Flatten(inner), Flatten(rest));
    }
  }

  lemma {:induction false} NoRepeatsInParts(c: Record, a: seq<Record>, b: seq<Record>)
    requires NoRepeats(a) && NoRepeats(b) && c !in a && c !in b && forall r | r in a :: r !in b
    ensures NoRepeats([c] + a + b)
  {
    var all := [c] + a + b;
    forall i, j | 0 <= i < j < |all|
      ensures all[i] != all[j]
    {
      assert 0 < j <= |a| ==> all[j] == a[j - 1] && all[j] in a;
      assert |a| < j ==> all[j] == b[j - 1 - |a|] && all[j] in b;
      assert 0 < i <= |a| ==> all[i] == a[i - 1] && all[i] in a;
      assert |a| < i ==> all[i] == b[i - 1 - |a|] && all[i] in b;
    }
  }

  lemma {:induction false} BranchesApart(nodes: seq<Tree>, rows: seq<Record>, r: Record, collate: Collation)
    requires UniquePaths(rows) && nodes != [] && Grown(nodes, rows, collate) && Unrelated(rows, nodes) && r in rows
    ensures r == nodes[0].record ==> !ReachesSome(rows, r, nodes[0].children) && !ReachesSome(rows, r, nodes[1..])
    ensures ReachesSome(rows, r, nodes[0].children) ==> !ReachesSome(rows, r, nodes[1..])
  {
    hide Chain, Siblings, UniquePaths, Grown;
    GrownParts(nodes, rows, collate);
    var c, inner, rest := nodes[0].record, nodes[0].children, nodes[1..];
    ReachesThroughChildren(rows, r, nodes[0], collate);
    if j :| 0 <= j < |rest| && Chain(rows, r, rest[j].record) {
      assert rest[j] == nodes[j + 1];
      if Chain(rows, r, c) { ChainIsLinear(rows, r, c, rest[j].record); }
    }
    if r == c {
      if i :| 0 <= i < |inner| && Chain(rows, r, inner[i].record) {
        assert Records(inner)[i] in Kids(rows, c, collate);
        ChainIsShorter(rows, r, inner[i].record);
      }
      ChainToItself(rows, r);
    }
  }

  lemma {:induction false} EveryRowHasARoot(rows: seq<Record>, r: Record, collate: Collation)
    requires r in rows
    ensures ReachesSome(rows, r, Forest(rows, collate))
    decreases |r.path|
  {
    hide Siblings, TreeAt;
    var forest, roots := Forest(rows, collate), Siblings(rows, None, collate);
    if ParentKey(rows, r).None? {
      var i :| 0 <= i < |roots| && roots[i] == r;
      ChainToItself(rows, r);
      assert forest[i].record == r;
    } else {
      var q := At(rows, ParentKey(rows, r).value);
      KidsAreLonger(rows, r, q.path);
      EveryRowHasARoot(rows, q, collate);
      var i :| 0 <= i < |forest| && Chain(rows, q, forest[i].record);
      assert Chain(rows, r, forest[i].record);
    }
  }

  lemma {:induction false} SameCounts(a: seq<Record>, b: seq<Record>)
    requires NoRepeats(a) && NoRepeats(b) && forall r :: r in a <==> r in b
    ensures multiset(a) == multiset(b)
  {
    CountsOf(a);
    CountsOf(b);
    forall r ensures multiset(a)[r] == multiset(b)[r] {
      assert r in a <==> r in multiset(a);
      assert r in b <==> r in multiset(b);
    }
  }

  /** The tree holds every row exactly once, rows without a parent row included. */
  lemma {:induction false} FlattenIsPermutation(rows: seq<Record>, collate: Collation)
    requires UniquePaths(rows)
    ensures multiset(Flatten(Forest(rows, collate))) == multiset(rows)
  {
    hide Forest, Chain, Flatten, ReachesSome;
    var forest := Forest(rows, collate);
    ForestIsGrown(rows, collate);
    SiblingsAreUnrelated(rows, None, forest, collate);
    FlattenHasNoRepeats(forest, rows, collate);
    forall r
      ensures r in Flatten(forest) <==> r in rows
    {
      InFlatten(forest, rows, r, collate);
      if r in rows { EveryRowHasARoot(rows, r, collate); }
    }
    SameCounts(Flatten(forest), rows);
  }

  /** A node's children: each row one level below it exactly once, directories first, then by name. */
  lemma {:induction false} ChildrenAreTheRowsBelow(rows: seq<Record>, r: Record, collate: Collation)
    requires UniquePaths(rows) && r in rows
    ensures var kids := Records(TreeAt(rows, r, collate).children);
            && NoRepeats(kids) && Ordered(kids, collate)
            && (forall k :: k in kids <==> k in rows && ParentPath(k.path) == Directory(r.path))
  {
    hide Sort, Under, Longest;
    TreeAtIsGrown(rows, r, collate);
    SiblingsDiffer(rows, Some(r.path), collate);
    SortIsOrdered(Under(rows, rows, Some(r.path)), collate);
    assert [TreeAt(rows, r, collate)][0] == TreeAt(rows, r, collate);
  }

  /** As the explorer shows a level: all directories, then all files, each by name. */
  ghost predicate Explorer(rows: seq<Record>, collate: Collation) {
    && (forall i, j | 0 <= i < j < |rows| && rows[j].isDir :: rows[i].isDir)
    && (forall i, j | 0 <= i < j < |rows| && rows[i].isDir == rows[j].isDir ::
          collate(BaseName(rows[i].path)) <= collate(BaseName(rows[j].path)))
  }

  /** The roots: each row whose parent has no row exactly once, and every level, theirs and the children of
      any row, in the explorer's order. */
  lemma {:induction false} LevelsAreOrdered(rows: seq<Record>, r: Record, collate: Collation)
    requires UniquePaths(rows) && r in rows
    ensures var roots := Records(Forest(rows, collate));
            && NoRepeats(roots) && Explorer(roots, collate)
            && forall k :: k in roots <==>
                k in rows && (ParentPath(k.path).Directory? ==> !Present(rows, ParentPath(k.path).path))
    ensures Explorer(Records(TreeAt(rows, r, collate).children), collate)
  {
    hide Sort, Under, Longest;
    ForestIsGrown(rows, collate);
    SiblingsDiffer(rows, None, collate);
    SortIsOrdered(Under(rows, rows, None), collate);
    OrderedIsExplorer(Siblings(rows, None, collate), collate);
    ChildrenAreTheRowsBelow(rows, r, collate);
    OrderedIsExplorer(Records(TreeAt(rows, r, collate).children), collate);
  }

  lemma {:induction false} OrderedIsExplorer(rows: seq<Record>, collate: Collation)
    requires Ordered(rows, collate)
    ensures Explorer(rows, collate)
  {
  }

  function One(r: Record, isDir: bool, name: real, collate: Collation): seq<Record> {
    if r.isDir == isDir && collate(BaseName(r.path)) == name then [r] else []
  }

  /** The rows that sort alike, in the order they stand in. */
  function Alike(rows: seq<Record>, isDir: bool, name: real, collate: Collation): seq<Record> {
    if rows == [] then [] else One(rows[0], isDir, name, collate) + Alike(rows[1..], isDir, name, collate)
  }

  lemma {:induction false} AlikeOfCons(
    first: Record, rest: seq<Record>, isDir: bool, name: real, collate: Collation)
    ensures Alike([first] + rest, isDir, name, collate)
         == One(first, isDir, name, collate) + Alike(rest, isDir, name, collate)
  {
    assert ([first] + rest)[1..] == rest;
  }

  /** Passing a row that does not sort alike changes nothing among those that do. */
  lemma {:induction false} PassingKeepsAlike(
    r: Record, first: Record, rest: seq<Record>, isDir: bool, name: real, collate: Collation)
    requires !Precedes(r, first, collate)
    ensures One(first, isDir, name, collate) + (One(r, isDir, name, collate) + rest)
         == One(r, isDir, name, collate) + (One(first, isDir, name, collate) + rest)
  {
    var a, b := One(r, isDir, name, collate), One(first, isDir, name, collate);
    assert a == [] || b == [];
    hide One;
    if a == [] {
      assert a + rest == rest && a + (b + rest) == b + rest;
    } else {
      assert b + rest == rest && b + (a + rest) == a + rest;
    }
  }

  lemma {:induction false} InsertKeepsAlike(
    r: Record, sorted: seq<Record>, isDir: bool, name: real, collate: Collation)
    ensures Alike(InsertInOrder(r, sorted, collate), isDir, name, collate)
         == One(r, isDir, name, collate) + Alike(sorted, isDir, name, collate)
    decreases |sorted|
  {
    hide One, Precedes;
    if sorted == [] {
      AlikeOfCons(r, [], isDir, name, collate);
      assert [r] + [] == [r];
    } else if Precedes(r, sorted[0], collate) {
      AlikeOfCons(r, sorted, isDir, name, collate);
    } else {
      var rest := InsertInOrder(r, sorted[1..], collate);
      InsertKeepsAlike(r, sorted[1..], isDir, name, collate);
      AlikeOfCons(sorted[0], rest, isDir, name, collate);
      PassingKeepsAlike(r, sorted[0], Alike(sorted[1..], isDir, name, collate), isDir, name, collate);
    }
  }

  /** Rows that sort alike keep the order the listing had them in. */
  lemma {:induction false} SortIsStable(rows: seq<Record>, isDir: bool, name: real, collate: Collation)
    ensures Alike(Sort(rows, collate), isDir, name, collate) == Alike(rows, isDir, name, collate)
    decreases |rows|
  {
    if rows != [] {
      SortIsStable(rows[1..], isDir, name, collate);
      InsertKeepsAlike(rows[0], Sort(rows[1..], collate), isDir, name, collate);
    }
  }

  // ── The ids under a node ───────────────────────────────────────────────────

  function Find(nodes: seq<Tree>, id: nat): Option<Tree>
    decreases nodes
  {
    if nodes == [] then None
    else if nodes[0].record.id == id then Some(nodes[0])
    else
      var found := Find(nodes[0].children, id);
      if found.Some? then found else Find(nodes[1..], id)
  }

  function Collect(nodes: seq<Tree>): seq<nat>
    decreases nodes
  {
    if nodes == [] then [] else [nodes[0].record.id] + Collect(nodes[0].children) + Collect(nodes[1..])
  }

  /** The client's `subtreeIds`. The tree may not have loaded. */
  function SubtreeIds(tree: Option<seq<Tree>>, fileId: nat): seq<nat> {
    var target := if tree.Some? then Find(tree.value, fileId) else None;
    if target.Some? then Collect([target.value]) else [fileId]
  }

  lemma {:induction false} FindMeans(nodes: seq<Tree>, rows: seq<Record>, id: nat, collate: Collation)
    requires Grown(nodes, rows, collate)
    ensures match Find(nodes, id)
            case Some(node) => Grown([node], rows, collate) && node.record in rows && node.record.id == id
            case None => forall r | r in Flatten(nodes) :: r.id != id
    decreases nodes
  {
    hide Grown, Kids;
    if nodes != [] {
      GrownParts(nodes, rows, collate);
      FindMeans(nodes[0].children, rows, id, collate);
      FindMeans(nodes[1..], rows, id, collate);
    }
  }

  lemma {:induction false} CollectIsFlatten(nodes: seq<Tree>)
    ensures |Collect(nodes)| == |Flatten(nodes)|
    ensures forall i | 0 <= i < |Flatten(nodes)| :: Collect(nodes)[i] == Flatten(nodes)[i].id
    decreases nodes
  {
    if nodes != [] {
      CollectIsFlatten(nodes[0].children);
      CollectIsFlatten(nodes[1..]);
    }
  }

  /** When every ancestor is a row, parents lead through exactly the ancestors. */
  lemma {:induction false} ChainIsDescent(rows: seq<Record>, r: Record, c: Record)
    requires UniquePaths(rows) && r in rows && c in rows
    requires forall x, directory | x in rows && IsDescendantOf(x.path, directory) :: Present(rows, directory)
    ensures Chain(rows, r, c) <==> r == c || IsDescendantOf(r.path, c.path)
    decreases |r.path|
  {
    hide UniquePaths;
    ParentIsDeepestAncestor(r.path, c.path);
    if ParentPath(r.path).Directory? {
      var q := At(rows, ParentPath(r.path).path);
      KidsAreLonger(rows, r, q.path);
      ChainIsDescent(rows, q, c);
      OnlyRowAt(rows, c);
      if IsDescendantOf(q.path, c.path) { Transitive(r.path, q.path, c.path); }
    }
  }

  /** The rows of a project, read in some order. */
  ghost predicate Lists(rows: map<nat, Table.Row>, listing: seq<Record>) {
    NoRepeats(listing) && forall r :: r in listing <==> r.id in rows && rows[r.id] == Table.Row(r.path, r.isDir)
  }

  lemma {:induction false} ListingIsATree(t: Table.Table, listing: seq<Record>)
    requires Table.TreeInv(t) && Lists(t.rows, listing)
    ensures UniquePaths(listing)
    ensures forall x, directory | x in listing && IsDescendantOf(x.path, directory) :: Present(listing, directory)
  {
    forall i, j | 0 <= i < |listing| && 0 <= j < |listing| && listing[i].path == listing[j].path
      ensures i == j
    {
      assert listing[i] in listing && listing[j] in listing;
    }
    forall x, directory | x in listing && IsDescendantOf(x.path, directory)
      ensures Present(listing, directory)
    {
      assert IsDescendantOf(t.rows[x.id].path, directory);
      assert Table.DirAt(t.rows, directory);
      var z :| z in t.rows && t.rows[z].path == directory && t.rows[z].isDir;
      var i :| 0 <= i < |listing| && listing[i] == Record(z, directory, true);
    }
  }

  lemma {:induction false} CollectedIds(t: Table.Table, listing: seq<Record>, node: Tree, collate: Collation)
    requires Table.TreeInv(t) && Lists(t.rows, listing) && Grown([node], listing, collate) && node.record in listing
    ensures forall r ::
        r in Flatten([node]) <==> r in listing && (r == node.record || IsDescendantOf(r.path, node.record.path))
    ensures NoRepeats(Flatten([node]))
  {
    hide Grown, Flatten, Chain, Kids, Table.TreeInv;
    ListingIsATree(t, listing);
    FlattenHasNoRepeats([node], listing, collate);
    forall r
      ensures r in Flatten([node]) <==> r in listing && (r == node.record || IsDescendantOf(r.path, node.record.path))
    {
      InFlatten([node], listing, r, collate);
      if r in listing {
        ChainIsDescent(listing, r, node.record);
        ReachesSomeUnfold(listing, r, [node]);
        ReachesNone(listing, r);
        assert [node][1..] == [];
      }
    }
  }

  lemma {:induction false} FoundInForest(t: Table.Table, listing: seq<Record>, id: nat, collate: Collation)
    requires Table.TreeInv(t) && Lists(t.rows, listing) && id in t.rows
    ensures var found := Find(Forest(listing, collate), id);
            && found.Some? && Grown([found.value], listing, collate) && found.value.record in listing
            && found.value.record == Record(id, t.rows[id].path, t.rows[id].isDir)
  {
    hide Forest, Flatten, Table.TreeInv, Grown, NoRepeats, ReachesSome;
    var forest, record := Forest(listing, collate), Record(id, t.rows[id].path, t.rows[id].isDir);
    ForestIsGrown(listing, collate);
    FindMeans(forest, listing, id, collate);
    ListingIsATree(t, listing);
    assert record in listing;
    InFlatten(forest, listing, record, collate);
    EveryRowHasARoot(listing, record, collate);
  }

  /** What the client works out from its tree is exactly what the server deletes, each id once. */
  lemma {:induction false} SubtreeIdsAreTheDeletedRows(t: Table.Table, listing: seq<Record>, id: nat,
      collate: Collation)
    requires Table.TreeInv(t) && Lists(t.rows, listing) && id in t.rows
    ensures var ids := SubtreeIds(Some(Forest(listing, collate)), id);
            && Table.AfterDelete(t, id).1 == Table.Deleted(set x | x in ids)
            && forall i, j | 0 <= i < j < |ids| :: ids[i] != ids[j]
  {
    hide Forest, Flatten, Collect, Table.TreeInv, Grown, NoRepeats, Lists, Find;
    FoundInForest(t, listing, id, collate);
    var node := Find(Forest(listing, collate), id).value;
    CollectedIds(t, listing, node, collate);
    CollectIsFlatten([node]);
    Table.DeleteKeepsTree(t, id);
    IdsOfRows(t, listing, node.record, Flatten([node]), Collect([node]));
  }

  lemma {:induction false} IdsOfRows(t: Table.Table, listing: seq<Record>, record: Record, rows: seq<Record>,
      ids: seq<nat>)
    requires Lists(t.rows, listing) && record in listing && NoRepeats(rows) && |ids| == |rows|
    requires forall i | 0 <= i < |rows| :: ids[i] == rows[i].id
    requires forall r :: r in rows <==> r in listing && (r == record || IsDescendantOf(r.path, record.path))
    ensures forall x :: x in ids <==> x in t.rows && (x == record.id || IsDescendantOf(t.rows[x].path, record.path))
    ensures forall i, j | 0 <= i < j < |ids| :: ids[i] != ids[j]
  {
    forall i | 0 <= i < |rows|
      ensures rows[i] in listing && t.rows[ids[i]] == Table.Row(rows[i].path, rows[i].isDir)
      ensures rows[i] == record || IsDescendantOf(rows[i].path, record.path)
    {
      assert rows[i] in rows;
    }
    forall x | x in t.rows && (x == record.id || IsDescendantOf(t.rows[x].path, record.path))
      ensures x in ids
    {
      var r := Record(x, t.rows[x].path, t.rows[x].isDir);
      assert r in listing;
      var i :| 0 <= i < |rows| && rows[i] == r;
      assert ids[i] == x;
    }
    assert forall x | x in ids :: exists i :: 0 <= i < |ids| && ids[i] == x;
  }

  /** An id that the tree does not hold is its own answer. */
  lemma {:induction false} SubtreeIdsOfAnUnknownId(t: Table.Table, listing: seq<Record>, id: nat, collate: Collation)
    requires Table.TreeInv(t) && Lists(t.rows, listing) && id !in t.rows
    ensures SubtreeIds(Some(Forest(listing, collate)), id) == [id]
  {
    hide Forest, Flatten, Table.TreeInv, Grown, NoRepeats;
    ForestIsGrown(listing, collate);
    FindMeans(Forest(listing, collate), listing, id, collate);
  }

  // ── Building the tree in place ─────────────────────────────────────────────

  class TreeNode {
    const record: Record
    var children: seq<TreeNode>

    constructor (record: Record)
      ensures this.record == record && children == []
    {
      this.record, children := record, [];
    }
  }

  function InsertNode(node: TreeNode, sorted: seq<TreeNode>, collate: Collation): seq<TreeNode> {
    if sorted == [] then [node]
    else if Precedes(node.record, sorted[0].record, collate) then [node] + sorted
    else [sorted[0]] + InsertNode(node, sorted[1..], collate)
  }

  function SortNodes(nodes: seq<TreeNode>, collate: Collation): seq<TreeNode> {
    if nodes == [] then [] else InsertNode(nodes[0], SortNodes(nodes[1..], collate), collate)
  }

  /** Each of the rows has its node, found by path. */
  ghost predicate Covers(nodes: map<string, TreeNode>, rows: seq<Record>) {
    forall r | r in rows :: r.path in nodes && nodes[r.path].record == r
  }

  ghost function NodesOf(nodes: map<string, TreeNode>, rows: seq<Record>): seq<TreeNode>
    requires Covers(nodes, rows)
  {
    seq(|rows|, i requires 0 <= i < |rows| => assert rows[i] in rows; nodes[rows[i].path])
  }

  lemma {:induction false} NodesOfCons(nodes: map<string, TreeNode>, first: Record, rest: seq<Record>)
    requires Covers(nodes, [first]) && Covers(nodes, rest)
    ensures Covers(nodes, [first] + rest) && first.path in nodes && nodes[first.path].record == first
    ensures NodesOf(nodes, [first] + rest) == [nodes[first.path]] + NodesOf(nodes, rest)
  {
    assert first in [first];
  }

  lemma {:induction false} CoversParts(nodes: map<string, TreeNode>, rows: seq<Record>)
    requires Covers(nodes, rows) && rows != []
    ensures Covers(nodes, [rows[0]]) && Covers(nodes, rows[1..]) && rows == [rows[0]] + rows[1..]
  {
  }

  lemma {:induction false} InsertCommutes(nodes: map<string, TreeNode>, r: Record, sorted: seq<Record>,
      collate: Collation)
    requires Covers(nodes, [r]) && Covers(nodes, sorted)
    ensures Covers(nodes, InsertInOrder(r, sorted, collate)) && r.path in nodes
    ensures InsertNode(nodes[r.path], NodesOf(nodes, sorted), collate)
         == NodesOf(nodes, InsertInOrder(r, sorted, collate))
  {
    NodesOfCons(nodes, r, []);
    assert [r] + [] == [r];
    if sorted != [] {
      var first, rest := sorted[0], sorted[1..];
      CoversParts(nodes, sorted);
      NodesOfCons(nodes, first, rest);
      hide NodesOf, Covers, Precedes;
      if Precedes(r, first, collate) {
        NodesOfCons(nodes, r, sorted);
      } else {
        InsertCommutes(nodes, r, rest, collate);
        NodesOfCons(nodes, first, InsertInOrder(r, rest, collate));
      }
    }
  }

  lemma {:induction false} SortCommutes(nodes: map<string, TreeNode>, rows: seq<Record>, collate: Collation)
    requires Covers(nodes, rows)
    ensures SortNodes(NodesOf(nodes, rows), collate) == NodesOf(nodes, Sort(rows, collate))
  {
    if rows != [] {
      assert rows[0] in rows;
      assert NodesOf(nodes, rows)[1..] == NodesOf(nodes, rows[1..]);
      SortCommutes(nodes, rows[1..], collate);
      InsertCommutes(nodes, rows[0], Sort(rows[1..], collate), collate);
    }
  }

  lemma {:induction false} UnderOfLast(rows: seq<Record>, among: seq<Record>, last: Record, key: Option<string>)
    ensures Under(rows, among + [last], key)
         == Under(rows, among, key) + (if ParentKey(rows, last) == key then [last] else [])
  {
    hide ParentKey;
    var longer := among + [last];
    if among == [] {
      assert longer == [last] && longer[1..] == [];
    } else {
      var first := if ParentKey(rows, among[0]) == key then [among[0]] else [];
      var end := if ParentKey(rows, last) == key then [last] else [];
      UnderOfLast(rows, among[1..], last, key);
      assert longer[0] == among[0] && longer[1..] == among[1..] + [last];
      assert Under(rows, longer, key) == first + (Under(rows, among[1..], key) + end);
    }
  }

  /** The node and everything below it hold exactly this tree. */
  ghost predicate Represents(node: TreeNode, tree: Tree, heap: set<TreeNode>)
    reads heap
    decreases tree
  {
    && node in heap && node.record == tree.record && |node.children| == |tree.children|
    && forall i | 0 <= i < |node.children| :: Represents(node.children[i], tree.children[i], heap)
  }

  lemma {:induction false} NodeRepresents(nodes: map<string, TreeNode>, rows: seq<Record>, r: Record,
      collate: Collation)
    requires Covers(nodes, rows) && r in rows
    requires forall x | x in rows :: nodes[x.path].children == NodesOf(nodes, Kids(rows, x, collate))
    ensures Represents(nodes[r.path], TreeAt(rows, r, collate), nodes.Values)
    decreases Longest(rows) - |r.path|
  {
    hide Siblings, Longest;
    var kids := Kids(rows, r, collate);
    forall i | 0 <= i < |kids|
      ensures Represents(nodes[kids[i].path], TreeAt(rows, kids[i], collate), nodes.Values)
    {
      assert kids[i] in kids;
      NodeRepresents(nodes, rows, kids[i], collate);
    }
  }

  lemma {:induction false} PresentWithLast(rows: seq<Record>, k: nat, path: string)
    requires k < |rows|
    ensures Present(rows[..k + 1], path) <==> Present(rows[..k], path) || rows[k].path == path
  {
    var before, after := rows[..k], rows[..k + 1];
    if i :| 0 <= i < |after| && after[i].path == path { assert i < k ==> before[i] == after[i]; }
    if i :| 0 <= i < |before| && before[i].path == path { assert after[i] == before[i]; }
    if rows[k].path == path { assert after[k].path == path; }
  }

  lemma {:induction false} CoversWithLast(nodes: map<string, TreeNode>, rows: seq<Record>, k: nat, node: TreeNode)
    requires k < |rows| && Covers(nodes, rows[..k]) && node.record == rows[k] && UniquePaths(rows)
    ensures Covers(nodes[rows[k].path := node], rows[..k + 1])
  {
    forall r | r in rows[..k + 1]
      ensures r == rows[k] || (r in rows[..k] && r.path != rows[k].path)
    {
      var i :| 0 <= i < k + 1 && rows[..k + 1][i] == r;
      if i < k { assert rows[..k][i] == r; }
    }
  }

  method MakeNodes(rows: seq<Record>) returns (nodes: map<string, TreeNode>)
    requires UniquePaths(rows)
    ensures fresh(nodes.Values) && Covers(nodes, rows)
    ensures forall path | path in nodes :: Present(rows, path) && nodes[path].children == []
  {
    hide Covers, Present, UniquePaths;
    nodes := map[];
    NothingCovered(nodes);
    for k := 0 to |rows|
      invariant Covers(nodes, rows[..k])
      invariant forall path | path in nodes :: Present(rows[..k], path)
      invariant forall path | path in nodes :: fresh(nodes[path])
      invariant forall path | path in nodes :: nodes[path].children == []
    {
      var node := new TreeNode(rows[k]);
      CoversWithLast(nodes, rows, k, node);
      nodes := nodes[rows[k].path := node];
      forall path | path in nodes ensures Present(rows[..k + 1], path) {
        PresentWithLast(rows, k, path);
      }
    }
    assert rows[..|rows|] == rows;
  }

  lemma {:induction false} NothingCovered(nodes: map<string, TreeNode>)
    ensures Covers(nodes, [])
  {
  }

  lemma {:induction false} NodesOfLast(nodes: map<string, TreeNode>, rows: seq<Record>, last: Record)
    requires Covers(nodes, rows) && Covers(nodes, [last])
    ensures Covers(nodes, rows + [last]) && last.path in nodes
    ensures NodesOf(nodes, rows + [last]) == NodesOf(nodes, rows) + [nodes[last.path]]
  {
    assert last in [last];
  }

  /** The rows above `k` have been attached. */
  ghost predicate Attached(nodes: map<string, TreeNode>, rows: seq<Record>, k: nat, roots: seq<TreeNode>)
    requires k <= |rows| && Covers(nodes, rows)
    reads nodes.Values
  {
    && (forall r | r in rows :: Covers(nodes, Under(rows, rows[..k], Some(r.path))))
    && (forall r | r in rows :: nodes[r.path].children == NodesOf(nodes, Under(rows, rows[..k], Some(r.path))))
    && Covers(nodes, Under(rows, rows[..k], None))
    && roots == NodesOf(nodes, Under(rows, rows[..k], None))
  }

  lemma {:induction false} NextUnder(nodes: map<string, TreeNode>, rows: seq<Record>, k: nat, key: Option<string>)
    requires k < |rows| && Covers(nodes, rows) && Covers(nodes, Under(rows, rows[..k], key))
    ensures Covers(nodes, Under(rows, rows[..k + 1], key)) && rows[k].path in nodes
    ensures NodesOf(nodes, Under(rows, rows[..k + 1], key))
         == NodesOf(nodes, Under(rows, rows[..k], key))
            + (if ParentKey(rows, rows[k]) == key then [nodes[rows[k].path]] else [])
  {
    hide Under, ParentKey;
    assert rows[..k + 1] == rows[..k] + [rows[k]];
    UnderOfLast(rows, rows[..k], rows[k], key);
    assert Covers(nodes, [rows[k]]) by { assert rows[k] in rows; }
    NodesOfLast(nodes, Under(rows, rows[..k], key), rows[k]);
    assert Under(rows, rows[..k], key) + [] == Under(rows, rows[..k], key);
  }

  /** Each node goes to its parent's children, or to the roots when the parent has no row. */
  method AttachOne(rows: seq<Record>, nodes: map<string, TreeNode>, k: nat, roots: seq<TreeNode>)
    returns (grown: seq<TreeNode>)
    requires UniquePaths(rows) && Covers(nodes, rows) && k < |rows| && Attached(nodes, rows, k, roots)
    requires forall path | path in nodes :: Present(rows, path)
    modifies nodes.Values
    ensures Attached(nodes, rows, k + 1, grown)
  {
    hide Under, NodesOf, Present, UniquePaths;
    assert rows[k] in rows;
    var node := nodes[rows[k].path];
    forall r | r in rows
      ensures Covers(nodes, Under(rows, rows[..k + 1], Some(r.path)))
      ensures NodesOf(nodes, Under(rows, rows[..k + 1], Some(r.path)))
           == NodesOf(nodes, Under(rows, rows[..k], Some(r.path)))
              + (if ParentKey(rows, rows[k]) == Some(r.path) then [node] else [])
    {
      NextUnder(nodes, rows, k, Some(r.path));
    }
    NextUnder(nodes, rows, k, None);
    var parent := ParentPath(node.record.path);
    if parent.Directory? && parent.path in nodes {
      var parentNode := nodes[parent.path];
      assert Present(rows, parent.path) && ParentKey(rows, rows[k]) == Some(parent.path);
      assert parentNode.record == At(rows, parent.path);
      parentNode.children := parentNode.children + [node];
      grown := roots;
    } else {
      grown := roots + [node];
      AbsentWithoutNode(rows, nodes, parent);
    }
  }

  lemma {:induction false} AbsentWithoutNode(rows: seq<Record>, nodes: map<string, TreeNode>, parent: Parent)
    requires Covers(nodes, rows) && (parent.Directory? ==> parent.path !in nodes)
    ensures parent.Directory? ==> !Present(rows, parent.path)
  {
    if parent.Directory? {
      assert forall i | 0 <= i < |rows| :: rows[i] in rows;
    }
  }

  method Attach(rows: seq<Record>, nodes: map<string, TreeNode>) returns (roots: seq<TreeNode>)
    requires UniquePaths(rows) && Covers(nodes, rows)
    requires forall path | path in nodes :: Present(rows, path) && nodes[path].children == []
    modifies nodes.Values
    ensures Attached(nodes, rows, |rows|, roots)
  {
    roots := [];
    for k := 0 to |rows|
      invariant Attached(nodes, rows, k, roots)
    {
      roots := AttachOne(rows, nodes, k, roots);
    }
  }

  method SortAll(rows: seq<Record>, nodes: map<string, TreeNode>, collate: Collation)
    requires UniquePaths(rows) && Covers(nodes, rows)
    modifies nodes.Values
    ensures forall r | r in rows :: nodes[r.path].children == SortNodes(old(nodes[r.path].children), collate)
  {
    for k := 0 to |rows|
      invariant forall i | 0 <= i < k ::
          nodes[rows[i].path].children == SortNodes(old(nodes[rows[i].path].children), collate)
      invariant forall i | k <= i < |rows| :: nodes[rows[i].path].children == old(nodes[rows[i].path].children)
    {
      var node := nodes[rows[k].path];
      assert forall i | 0 <= i < |rows| && i != k :: rows[i] in rows && nodes[rows[i].path] != node;
      node.children := SortNodes(node.children, collate);
    }
  }

  /** `buildTree`: the nodes hold exactly the specified tree. */
  method BuildTree(rows: seq<Record>, collate: Collation) returns (roots: seq<TreeNode>, ghost heap: set<TreeNode>)
    requires UniquePaths(rows)
    ensures fresh(heap) && |roots| == |Forest(rows, collate)|
    ensures forall i | 0 <= i < |roots| :: Represents(roots[i], Forest(rows, collate)[i], heap)
  {
    var nodes := MakeNodes(rows);
    heap := nodes.Values;
    roots := Attach(rows, nodes);
    assert rows[..|rows|] == rows;
    SortAll(rows, nodes, collate);
    roots := SortNodes(roots, collate);
    forall r | r in rows
      ensures nodes[r.path].children == NodesOf(nodes, Kids(rows, r, collate))
    {
      SortCommutes(nodes, Under(rows, rows, Some(r.path)), collate);
    }
    SortCommutes(nodes, Under(rows, rows, None), collate);
    forall r | r in rows
      ensures Represents(nodes[r.path], TreeAt(rows, r, collate), heap)
    {
      NodeRepresents(nodes, rows, r, collate);
    }
  }
}
