/** Filtering the file tree by name. */
module TreeFilter {
  import opened Wrappers
  import opened Text
  import opened Paths
  import opened FileTree
  import opened Search
  import opened NameSearch
  import Table = FileTable

  /** `matchPath` on the node's name finds something. */
  predicate Hit(r: Record, query: string, fold: Folding) {
    query != "" && Greedy(Lower(BaseName(r.path), fold), Lower(query, fold), 0).Some?
  }

  /** A directory that matches keeps its whole subtree; one that does not is kept for what it holds. */
  function Walk(nodes: seq<Tree>, query: string, fold: Folding): seq<Tree>
    decreases nodes
  {
    if nodes == [] then []
    else
      var node, rest := nodes[0], Walk(nodes[1..], query, fold);
      if Hit(node.record, query, fold) then [node] + rest
      else if !node.record.isDir then rest
      else
        var children := Walk(node.children, query, fold);
        if children != [] then [Tree(node.record, children)] + rest else rest
  }

  function FilterTree(tree: seq<Tree>, query: string, fold: Folding): seq<Tree> {
    if Trim(query) == "" then tree else Walk(tree, Trim(query), fold)
  }

  /** `r` matches, or lies under a match, or above one. */
  ghost predicate Shown(rows: seq<Record>, among: seq<Record>, query: string, fold: Folding, r: Record) {
    exists m :: m in among && Hit(m, query, fold) && (Chain(rows, r, m) || Chain(rows, m, r))
  }

  /** Only directories have children. */
  ghost predicate FilesAreLeaves(rows: seq<Record>) {
    forall r | r in rows && ParentKey(rows, r).Some? :: At(rows, ParentKey(rows, r).value).isDir
  }

  lemma {:induction false} ChainIsTransitive(rows: seq<Record>, a: Record, b: Record, c: Record)
    requires Chain(rows, a, b) && Chain(rows, b, c)
    ensures Chain(rows, a, c)
    decreases |a.path|
  {
    if a != b {
      var q := At(rows, ParentKey(rows, a).value);
      KidsAreLonger(rows, a, q.path);
      ChainIsTransitive(rows, q, b, c);
    }
  }

  /** Rows of different branches are not above one another. */
  lemma {:induction false} BranchesDoNotMix(rows: seq<Record>, nodes: seq<Tree>, x: Record, y: Record)
    requires nodes != [] && Unrelated(rows, nodes) && Chain(rows, x, nodes[0].record)
    requires ReachesSome(rows, y, nodes[1..])
    ensures !Chain(rows, x, y) && !Chain(rows, y, x)
  {
    hide Chain;
    var c, rest := nodes[0].record, nodes[1..];
    var j :| 0 <= j < |rest| && Chain(rows, y, rest[j].record);
    var d := rest[j].record;
    assert rest[j] == nodes[j + 1];
    if Chain(rows, x, y) {
      ChainIsTransitive(rows, x, y, d);
      ChainIsLinear(rows, x, c, d);
    }
    if Chain(rows, y, x) {
      ChainIsTransitive(rows, y, x, c);
      ChainIsLinear(rows, y, c, d);
    }
  }

  /** The rows of the first node's part of the tree. */
  lemma {:induction false} FirstPart(nodes: seq<Tree>, rows: seq<Record>, r: Record, collate: Collation)
    requires UniquePaths(rows) && nodes != [] && Grown(nodes, rows, collate)
    ensures r == nodes[0].record || r in Flatten(nodes[0].children) <==> r in rows && Chain(rows, r, nodes[0].record)
  {
    hide Chain, Kids, UniquePaths, Grown, ReachesSome, Flatten;
    GrownParts(nodes, rows, collate);
    InFlatten(nodes[0].children, rows, r, collate);
    if r in rows { ReachesThroughChildren(rows, r, nodes[0], collate); }
  }

  /** Whether a row is shown is decided within its own branch. */
  lemma {:induction false} ShownInOwnBranch(nodes: seq<Tree>, rows: seq<Record>, query: string, fold: Folding,
      r: Record, collate: Collation)
    requires UniquePaths(rows) && nodes != [] && Grown(nodes, rows, collate) && Unrelated(rows, nodes) && r in rows
    ensures var first, rest := [nodes[0].record] + Flatten(nodes[0].children), Flatten(nodes[1..]);
            && (r in first ==> (Shown(rows, Flatten(nodes), query, fold, r) <==> Shown(rows, first, query, fold, r)))
            && (r in rest ==> (Shown(rows, Flatten(nodes), query, fold, r) <==> Shown(rows, rest, query, fold, r)))
  {
    hide Chain, UniquePaths, Grown, Hit, Unrelated;
    GrownParts(nodes, rows, collate);
    var first, rest := [nodes[0].record] + Flatten(nodes[0].children), Flatten(nodes[1..]);
    assert Flatten(nodes) == first + rest;
    hide Flatten, ReachesSome;
    forall x, y | x in first && y in rest
      ensures !Chain(rows, x, y) && !Chain(rows, y, x)
    {
      FirstPart(nodes, rows, x, collate);
      InFlatten(nodes[1..], rows, y, collate);
      BranchesDoNotMix(rows, nodes, x, y);
    }
  }

  lemma {:induction false} WholeSubtreeIsShown(nodes: seq<Tree>, rows: seq<Record>, query: string, fold: Folding,
      r: Record, collate: Collation)
    requires UniquePaths(rows) && nodes != [] && Grown(nodes, rows, collate) && Hit(nodes[0].record, query, fold)
    requires r in [nodes[0].record] + Flatten(nodes[0].children)
    ensures Shown(rows, [nodes[0].record] + Flatten(nodes[0].children), query, fold, r)
  {
    hide Chain, UniquePaths, Grown, Hit, Flatten;
    FirstPart(nodes, rows, r, collate);
  }

  /** A directory that does not match itself is shown, as its contents are, for the matches inside. */
  lemma {:induction false} ShownThroughChildren(nodes: seq<Tree>, rows: seq<Record>, query: string, fold: Folding,
      r: Record, collate: Collation)
    requires UniquePaths(rows) && nodes != [] && Grown(nodes, rows, collate) && !Hit(nodes[0].record, query, fold)
    ensures var c, inner := nodes[0].record, Flatten(nodes[0].children);
            && (r in inner ==> (Shown(rows, [c] + inner, query, fold, r) <==> Shown(rows, inner, query, fold, r)))
            && (Shown(rows, [c] + inner, query, fold, c) <==> exists m :: m in inner && Hit(m, query, fold))
  {
    hide Chain, UniquePaths, Grown, Hit, Flatten;
    var c, inner := nodes[0].record, Flatten(nodes[0].children);
    forall m | m in inner
      ensures Chain(rows, m, c)
    {
      FirstPart(nodes, rows, m, collate);
    }
  }

  lemma {:induction false} HitsAreShown(rows: seq<Record>, among: seq<Record>, query: string, fold: Folding, m: Record)
    requires m in among && Hit(m, query, fold)
    ensures Shown(rows, among, query, fold, m)
  {
    ChainToItself(rows, m);
  }

  lemma {:induction false} FlattenOfNothing(nodes: seq<Tree>)
    ensures Flatten(nodes) == [] <==> nodes == []
  {
  }

  lemma {:induction false} FlattenOfConcat(a: seq<Tree>, b: seq<Tree>)
    ensures Flatten(a + b) == Flatten(a) + Flatten(b)
    decreases |a|
  {
    if a == [] {
      assert a + b == b;
    } else {
      var first, rest := a[0], a[1..];
      FlattenOfConcat(rest, b);
      assert (a + b)[0] == first && (a + b)[1..] == rest + b;
      var head := [first.record] + Flatten(first.children);
      assert Flatten(a + b) == head + (Flatten(rest) + Flatten(b));
      assert Flatten(a) == head + Flatten(rest);
    }
  }

  lemma {:induction false} FlattenOfOne(node: Tree)
    ensures Flatten([node]) == [node.record] + Flatten(node.children)
  {
    assert [node][1..] == [];
  }

  lemma {:induction false} WalkOnlyDrops(nodes: seq<Tree>, query: string, fold: Folding, r: Record)
    ensures r in Flatten(Walk(nodes, query, fold)) ==> r in Flatten(nodes)
    decreases nodes
  {
    hide Hit;
    if nodes != [] {
      WalkOnlyDrops(nodes[0].children, query, fold, r);
      WalkOnlyDrops(nodes[1..], query, fold, r);
    }
  }

  lemma {:induction false} RestIsUnrelated(rows: seq<Record>, nodes: seq<Tree>)
    requires nodes != [] && Unrelated(rows, nodes)
    ensures Unrelated(rows, nodes[1..])
  {
    hide Chain;
    var rest := nodes[1..];
    assert forall i | 0 <= i < |rest| :: rest[i] == nodes[i + 1];
  }

  lemma {:induction false} FilesHaveNoChildren(nodes: seq<Tree>, rows: seq<Record>, collate: Collation)
    requires UniquePaths(rows) && FilesAreLeaves(rows) && nodes != [] && Grown(nodes, rows, collate)
    ensures nodes[0].record.isDir || nodes[0].children == []
  {
    hide Siblings, UniquePaths;
    GrownParts(nodes, rows, collate);
    var c, inner := nodes[0].record, nodes[0].children;
    OnlyRowAt(rows, c);
    if inner != [] {
      assert inner[0].record == Records(inner)[0] && Records(inner)[0] in Kids(rows, c, collate);
    }
  }

  /** What is left of a node that does not match itself. */
  function Pruned(node: Tree, query: string, fold: Folding): seq<Tree> {
    var children := Walk(node.children, query, fold);
    if node.record.isDir && children != [] then [Tree(node.record, children)] else []
  }

  lemma {:induction false} PrunedIsShown(nodes: seq<Tree>, rows: seq<Record>, query: string, fold: Folding, r: Record,
      collate: Collation)
    requires UniquePaths(rows) && FilesAreLeaves(rows) && nodes != [] && Grown(nodes, rows, collate)
    requires !Hit(nodes[0].record, query, fold) && r in rows
    requires forall x | x in rows ::
               x in Flatten(Walk(nodes[0].children, query, fold)) <==>
               x in Flatten(nodes[0].children) && Shown(rows, Flatten(nodes[0].children), query, fold, x)
    ensures var first := [nodes[0].record] + Flatten(nodes[0].children);
            r in Flatten(Pruned(nodes[0], query, fold)) <==> r in first && Shown(rows, first, query, fold, r)
  {
    hide Chain, UniquePaths, Grown, Hit, Shown, FilesAreLeaves, Walk, Flatten;
    var node, c, inner := nodes[0], nodes[0].record, nodes[0].children;
    var children := Walk(inner, query, fold);
    ShownThroughChildren(nodes, rows, query, fold, r, collate);
    FilesHaveNoChildren(nodes, rows, collate);
    FlattenOfNothing(inner);
    FlattenOfNothing(children);
    FlattenOfNothing([]);
    FlattenOfOne(Tree(c, children));
    KeepsSomethingExactlyWhen(nodes, rows, query, fold, collate);
  }

  lemma {:induction false} KeepsSomethingExactlyWhen(nodes: seq<Tree>, rows: seq<Record>, query: string,
      fold: Folding, collate: Collation)
    requires UniquePaths(rows) && nodes != [] && Grown(nodes, rows, collate)
    requires forall x | x in rows ::
               x in Flatten(Walk(nodes[0].children, query, fold)) <==>
               x in Flatten(nodes[0].children) && Shown(rows, Flatten(nodes[0].children), query, fold, x)
    ensures Walk(nodes[0].children, query, fold) != [] <==>
              exists m :: m in Flatten(nodes[0].children) && Hit(m, query, fold)
  {
    hide Chain, UniquePaths, Grown, Hit, Walk, Flatten;
    var inner := nodes[0].children;
    var children := Walk(inner, query, fold);
    GrownParts(nodes, rows, collate);
    FlattenOfNothing(children);
    if children != [] {
      var x := Flatten(children)[0];
      WalkOnlyDrops(inner, query, fold, x);
      InFlatten(inner, rows, x, collate);
    }
    if m :| m in Flatten(inner) && Hit(m, query, fold) {
      InFlatten(inner, rows, m, collate);
      HitsAreShown(rows, Flatten(inner), query, fold, m);
    }
  }

  lemma {:induction false} OnlyOneBranch(nodes: seq<Tree>, rows: seq<Record>, r: Record, collate: Collation)
    requires UniquePaths(rows) && nodes != [] && Grown(nodes, rows, collate) && Unrelated(rows, nodes) && r in rows
    ensures r in [nodes[0].record] + Flatten(nodes[0].children) ==> r !in Flatten(nodes[1..])
    ensures Flatten(nodes) == [nodes[0].record] + Flatten(nodes[0].children) + Flatten(nodes[1..])
  {
    GrownParts(nodes, rows, collate);
    hide Chain, UniquePaths, Grown, Unrelated, ReachesSome;
    if r in [nodes[0].record] + Flatten(nodes[0].children) && r in Flatten(nodes[1..]) {
      FirstPart(nodes, rows, r, collate);
      InFlatten(nodes[1..], rows, r, collate);
      BranchesDoNotMix(rows, nodes, r, r);
      ChainToItself(rows, r);
    }
  }

  lemma {:induction false} WalkUnfold(nodes: seq<Tree>, query: string, fold: Folding)
    requires nodes != []
    ensures var first := if Hit(nodes[0].record, query, fold) then [nodes[0]] else Pruned(nodes[0], query, fold);
            Walk(nodes, query, fold) == first + Walk(nodes[1..], query, fold)
  {
    hide Hit;
    assert [] + Walk(nodes[1..], query, fold) == Walk(nodes[1..], query, fold);
  }

  /** The filtered tree holds exactly the rows that match, lie under a match, or lie above one. */
  lemma {:induction false} WalkKeepsTheShown(nodes: seq<Tree>, rows: seq<Record>, query: string, fold: Folding,
      r: Record, collate: Collation)
    requires UniquePaths(rows) && FilesAreLeaves(rows) && Grown(nodes, rows, collate) && Unrelated(rows, nodes)
    requires r in rows
    ensures r in Flatten(Walk(nodes, query, fold)) <==>
        r in Flatten(nodes) && Shown(rows, Flatten(nodes), query, fold, r)
    decreases nodes
  {
    hide Chain, Kids, UniquePaths, Grown, Hit, Shown, FilesAreLeaves, Unrelated, Pruned, Walk, Flatten;
    if nodes == [] {
      NothingToWalk(query, fold);
    } else {
      var node, c, inner, rest := nodes[0], nodes[0].record, nodes[0].children, Walk(nodes[1..], query, fold);
      GrownParts(nodes, rows, collate);
      RestIsUnrelated(rows, nodes);
      WalkKeepsTheShown(nodes[1..], rows, query, fold, r, collate);
      ShownInOwnBranch(nodes, rows, query, fold, r, collate);
      OnlyOneBranch(nodes, rows, r, collate);
      WalkUnfold(nodes, query, fold);
      if Hit(c, query, fold) {
        FlattenOfConcat([node], rest);
        FlattenOfOne(node);
        if r in [c] + Flatten(inner) { WholeSubtreeIsShown(nodes, rows, query, fold, r, collate); }
      } else {
        FlattenOfConcat(Pruned(node, query, fold), rest);
        SiblingsAreUnrelatedBelow(node, rows, collate);
        forall x | x in rows
          ensures x in Flatten(Walk(inner, query, fold)) <==>
              x in Flatten(inner) && Shown(rows, Flatten(inner), query, fold, x)
        {
          WalkKeepsTheShown(inner, rows, query, fold, x, collate);
        }
        PrunedIsShown(nodes, rows, query, fold, r, collate);
      }
    }
  }

  lemma {:induction false} SiblingsAreUnrelatedBelow(node: Tree, rows: seq<Record>, collate: Collation)
    requires UniquePaths(rows) && Records(node.children) == Kids(rows, node.record, collate)
    ensures Unrelated(rows, node.children)
  {
    hide UniquePaths, Unrelated, Siblings;
    SiblingsAreUnrelated(rows, Some(node.record.path), node.children, collate);
  }

  lemma {:induction false} NothingToWalk(query: string, fold: Folding)
    ensures Flatten(Walk([], query, fold)) == [] && Flatten([]) == []
  {
  }

  // ── Over the rows of a project ─────────────────────────────────────────────

  lemma {:induction false} ListingHasLeaves(t: Table.Table, listing: seq<Record>)
    requires Table.TreeInv(t) && Lists(t.rows, listing)
    ensures FilesAreLeaves(listing)
  {
    ListingIsATree(t, listing);
    forall r | r in listing && ParentKey(listing, r).Some?
      ensures At(listing, ParentKey(listing, r).value).isDir
    {
      var q := At(listing, ParentKey(listing, r).value);
      KidsAreLonger(listing, r, q.path);
      assert t.rows[r.id].path == r.path && Table.DirAt(t.rows, q.path);
      var z :| z in t.rows && t.rows[z].path == q.path && t.rows[z].isDir;
      assert z == q.id;
    }
  }

  /** `filterTree` on a project's tree: a row stays exactly when its name matches, or it lies under
      a row whose name matches, or above one. */
  lemma {:induction false} FilterKeepsExactly(t: Table.Table, listing: seq<Record>, query: string, fold: Folding,
      r: Record, collate: Collation)
    requires Table.TreeInv(t) && Lists(t.rows, listing) && r in listing && Trim(query) != ""
    ensures r in Flatten(FilterTree(Forest(listing, collate), query, fold)) <==>
              exists m :: m in listing && Hit(m, Trim(query), fold)
                && (r == m || IsDescendantOf(r.path, m.path) || IsDescendantOf(m.path, r.path))
  {
    hide Chain, UniquePaths, Grown, Hit, FilesAreLeaves, Unrelated, Walk, Flatten, Forest, Table.TreeInv, Lists,
         Siblings, Trim;
    var forest := Forest(listing, collate);
    ListingIsATree(t, listing);
    ListingHasLeaves(t, listing);
    ForestIsGrown(listing, collate);
    SiblingsAreUnrelated(listing, None, forest, collate);
    WalkKeepsTheShown(forest, listing, Trim(query), fold, r, collate);
    forall m
      ensures m in Flatten(forest) <==> m in listing
      ensures m in listing ==> (Chain(listing, r, m) <==> r == m || IsDescendantOf(r.path, m.path))
      ensures m in listing ==> (Chain(listing, m, r) <==> r == m || IsDescendantOf(m.path, r.path))
    {
      InFlatten(forest, listing, m, collate);
      if m in listing {
        EveryRowHasARoot(listing, m, collate);
        ChainIsDescent(listing, r, m);
        ChainIsDescent(listing, m, r);
      }
    }
  }

  /** The filter's idea of a match is the one the name search has. */
  lemma {:induction false} HitIsANameMatch(r: Record, query: string, fold: Folding)
    ensures Hit(r, query, fold) <==> query != "" && IsSubsequence(Lower(BaseName(r.path), fold), Lower(query, fold), 0)
  {
    hide Greedy, IsSubsequence, Lower;
    GreedyFindsExactlySubsequences(Lower(BaseName(r.path), fold), Lower(query, fold), 0);
  }

  /** Filtering adds nothing, and a blank query keeps the tree as it is. */
  lemma {:induction false} FilterOnlyDrops(tree: seq<Tree>, query: string, fold: Folding, r: Record)
    ensures r in Flatten(FilterTree(tree, query, fold)) ==> r in Flatten(tree)
    ensures Trim(query) == "" ==> FilterTree(tree, query, fold) == tree
  {
    WalkOnlyDrops(tree, Trim(query), fold, r);
  }

  // ── Nesting ────────────────────────────────────────────────────────────────

  /** The tree cut down to some of its rows: every node that stays keeps its place, and its children that
      stay, in their order. */
  function Cut(nodes: seq<Tree>, kept: set<Record>): seq<Tree>
    decreases nodes
  {
    if nodes == [] then []
    else
      (if nodes[0].record in kept then [Tree(nodes[0].record, Cut(nodes[0].children, kept))] else [])
      + Cut(nodes[1..], kept)
  }

  lemma {:induction false} CutOfAll(nodes: seq<Tree>, kept: set<Record>)
    requires forall r | r in Flatten(nodes) :: r in kept
    ensures Cut(nodes, kept) == nodes
    decreases nodes
  {
    if nodes != [] {
      CutOfAll(nodes[0].children, kept);
      CutOfAll(nodes[1..], kept);
      assert nodes == [nodes[0]] + nodes[1..];
    }
  }

  /** Parts of a forest without repeats have none, and share no row. */
  lemma {:induction false} PartsAreApart(nodes: seq<Tree>)
    requires nodes != [] && NoRepeats(Flatten(nodes))
    ensures var c, a, b := nodes[0].record, Flatten(nodes[0].children), Flatten(nodes[1..]);
            && NoRepeats(a) && NoRepeats(b) && c !in a && c !in b && (forall r | r in a :: r !in b)
            && Flatten(nodes) == [c] + a + b
  {
    var c, a, b := nodes[0].record, Flatten(nodes[0].children), Flatten(nodes[1..]);
    var all := Flatten(nodes);
    hide Flatten;
    assert forall i | 0 <= i < |a| :: all[1 + i] == a[i];
    assert forall i | 0 <= i < |b| :: all[1 + |a| + i] == b[i];
    forall i, j | 0 <= i < j < |a| ensures a[i] != a[j] { assert all[1 + i] != all[1 + j]; }
    forall i, j | 0 <= i < j < |b| ensures b[i] != b[j] { assert all[1 + |a| + i] != all[1 + |a| + j]; }
    forall i | 0 <= i < |a| ensures a[i] != c { assert all[0] != all[1 + i]; }
    forall i | 0 <= i < |b| ensures b[i] != c { assert all[0] != all[1 + |a| + i]; }
    forall r | r in a
      ensures r !in b
    {
      var i :| 0 <= i < |a| && a[i] == r;
      forall j | 0 <= j < |b| ensures b[j] != r { assert all[1 + i] != all[1 + |a| + j]; }
    }
  }

  function FirstKept(node: Tree, query: string, fold: Folding): seq<Tree> {
    if Hit(node.record, query, fold) then [node] else Pruned(node, query, fold)
  }

  /** What is left of a node comes from it. */
  lemma {:induction false} FirstIsFromNode(node: Tree, query: string, fold: Folding, r: Record)
    ensures r in Flatten(FirstKept(node, query, fold)) ==> r == node.record || r in Flatten(node.children)
  {
    hide Hit, Walk, Flatten;
    var children := Walk(node.children, query, fold);
    FlattenOfOne(node);
    FlattenOfOne(Tree(node.record, children));
    FlattenOfNothing([]);
    WalkOnlyDrops(node.children, query, fold, r);
  }

  /** The filter is a cut: what stays is nested and ordered as it was. */
  lemma {:induction false} WalkIsACut(nodes: seq<Tree>, query: string, fold: Folding, kept: set<Record>)
    requires NoRepeats(Flatten(nodes))
    requires forall r | r in Flatten(nodes) :: r in kept <==> r in Flatten(Walk(nodes, query, fold))
    ensures Walk(nodes, query, fold) == Cut(nodes, kept)
    decreases nodes, 1
  {
    if nodes != [] {
      var node, rest := nodes[0], nodes[1..];
      var first := FirstKept(node, query, fold);
      PartsAreApart(nodes);
      WalkUnfold(nodes, query, fold);
      FlattenOfConcat(first, Walk(rest, query, fold));
      hide Walk, Flatten, FirstKept, NoRepeats;
      forall r
        ensures r in Flatten(Walk(rest, query, fold)) ==> r in Flatten(rest)
        ensures r in Flatten(first) ==> r == node.record || r in Flatten(node.children)
      {
        WalkOnlyDrops(rest, query, fold, r);
        FirstIsFromNode(node, query, fold, r);
      }
      WalkIsACut(rest, query, fold, kept);
      FirstIsACut(nodes, query, fold, kept);
    }
  }

  lemma {:induction false} FirstIsACut(nodes: seq<Tree>, query: string, fold: Folding, kept: set<Record>)
    requires nodes != [] && NoRepeats(Flatten(nodes[0].children))
    requires nodes[0].record !in Flatten(nodes[0].children)
    requires forall r | r == nodes[0].record || r in Flatten(nodes[0].children) ::
      r in kept <==> r in Flatten(FirstKept(nodes[0], query, fold))
    ensures FirstKept(nodes[0], query, fold) ==
      if nodes[0].record in kept then [Tree(nodes[0].record, Cut(nodes[0].children, kept))] else []
    decreases nodes, 0
  {
    hide Hit, Walk, Flatten, Cut, NoRepeats;
    var node, inner := nodes[0], nodes[0].children;
    var children := Walk(inner, query, fold);
    FlattenOfOne(node);
    FlattenOfOne(Tree(node.record, children));
    FlattenOfNothing([]);
    if Hit(node.record, query, fold) {
      CutOfAll(inner, kept);
    } else if node.record.isDir && children != [] {
      WalkIsACut(inner, query, fold, kept);
    }
  }

  /** The filtered tree of a project is its tree cut down to the rows that match or lie under or above a
      match: each of them under the same parent and in the same order as before. */
  lemma {:induction false} FilteredTreeIsACut(t: Table.Table, listing: seq<Record>, query: string, fold: Folding,
      kept: set<Record>, collate: Collation)
    requires Table.TreeInv(t) && Lists(t.rows, listing) && Trim(query) != ""
    requires forall r | r in listing :: r in kept <==>
      exists m :: m in listing && Hit(m, Trim(query), fold)
        && (r == m || IsDescendantOf(r.path, m.path) || IsDescendantOf(m.path, r.path))
    ensures FilterTree(Forest(listing, collate), query, fold) == Cut(Forest(listing, collate), kept)
  {
    hide Hit, Walk, Flatten, Cut, Forest, Table.TreeInv, Lists, Trim, UniquePaths;
    var forest := Forest(listing, collate);
    ListingIsATree(t, listing);
    FlattenIsPermutation(listing, collate);
    ForestHasNoRepeats(listing, collate);
    forall r | r in Flatten(forest)
      ensures r in kept <==> r in Flatten(Walk(forest, Trim(query), fold))
    {
      assert r in multiset(Flatten(forest));
      FilterKeepsExactly(t, listing, query, fold, r, collate);
    }
    WalkIsACut(forest, Trim(query), fold, kept);
  }

  lemma {:induction false} ForestHasNoRepeats(rows: seq<Record>, collate: Collation)
    requires UniquePaths(rows)
    ensures NoRepeats(Flatten(Forest(rows, collate)))
  {
    hide Forest, Chain, Flatten, ReachesSome, Grown, Unrelated;
    ForestIsGrown(rows, collate);
    SiblingsAreUnrelated(rows, None, Forest(rows, collate), collate);
    FlattenHasNoRepeats(Forest(rows, collate), rows, collate);
  }

  /** `flattenTree`: depth first, in the server's order. */
  method FlattenTree(nodes: seq<Tree>, before: seq<Record>) returns (out: seq<Record>)
    ensures out == before + Flatten(nodes)
    decreases nodes
  {
    hide Flatten;
    out := before;
    FlattenOfNothing([]);
    assert nodes[..0] == [];
    for k := 0 to |nodes|
      invariant out == before + Flatten(nodes[..k])
    {
      var node := nodes[k];
      out := out + [node.record];
      out := FlattenTree(node.children, out);
      FlattenOfOne(node);
      FlattenOfConcat(nodes[..k], [node]);
      assert nodes[..k + 1] == nodes[..k] + [node];
    }
    assert nodes[..|nodes|] == nodes;
  }
}
