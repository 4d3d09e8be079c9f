/** Yjs as this repository uses it: a document is the set of operations it holds, and an
    encoded update is the set of operations it carries. Applying an update and merging
    updates are union; encoding the whole document returns the set itself. */
module Yjs {

  type Op = nat

  type Doc = set<Op>

  /** Everything a list of updates carries: what `mergeUpdates` returns. */
  function Union(updates: seq<Doc>): (all: Doc)
    ensures forall op :: op in all <==> exists i :: 0 <= i < |updates| && op in updates[i]
  {
    set i, op | 0 <= i < |updates| && op in updates[i] :: op
  }

  lemma UnionOfConcat(a: seq<Doc>, b: seq<Doc>)
    ensures Union(a + b) == Union(a) + Union(b)
  {
    forall op | op in Union(a) + Union(b)
      ensures op in Union(a + b)
    {
      if op in Union(a) {
        var i :| 0 <= i < |a| && op in a[i];
        assert (a + b)[i] == a[i];
      } else {
        var i :| 0 <= i < |b| && op in b[i];
        assert (a + b)[|a| + i] == b[i];
      }
    }
  }

  lemma UnionOfOne(update: Doc)
    ensures Union([update]) == update
  {
    assert forall op :: op in update ==> op in [update][0];
  }
}
