/** Searching names: a contiguous hit, or else a subsequence found greedily from the left. */
module NameSearch {
  import opened Wrappers
  import opened Text
  import opened Search

  /** The pieces of `text` that the ranges mark, joined. */
  function Marked(text: string, ranges: seq<Range>): string
    requires InBounds(text, ranges)
  {
    if ranges == [] then "" else
    var last := ranges[|ranges| - 1];
    Marked(text, ranges[..|ranges| - 1]) + text[last.start..last.end]
  }

  predicate InBounds(text: string, ranges: seq<Range>) {
    forall i | 0 <= i < |ranges| :: 0 <= ranges[i].start <= ranges[i].end <= |text|
  }

  /** In order, none empty, and a gap between each two. */
  ghost predicate Apart(ranges: seq<Range>) {
    && (forall i | 0 <= i < |ranges| :: ranges[i].start < ranges[i].end)
    && (forall i, j | 0 <= i < j < |ranges| :: ranges[i].end < ranges[j].start)
  }

  // ── Subsequences ───────────────────────────────────────────────────────────

  /** `at` picks the characters of `needle` out of `haystack` in order, from `from` on. */
  ghost predicate Picks(haystack: string, needle: string, from: nat, at: seq<nat>) {
    && |at| == |needle|
    && (forall i | 0 <= i < |at| :: from <= at[i] < |haystack| && haystack[at[i]] == needle[i])
    && (forall i, j | 0 <= i < j < |at| :: at[i] < at[j])
  }

  ghost predicate IsSubsequence(haystack: string, needle: string, from: nat) {
    exists at :: Picks(haystack, needle, from, at)
  }

  /** The first place for each character after the place of the one before. */
  function Greedy(haystack: string, needle: string, from: nat): Option<seq<nat>>
    decreases |needle|
  {
    if needle == "" then Some([])
    else if from > |haystack| then None
    else
      var found := IndexOfChar(haystack, needle[0], from);
      if found == -1 then None
      else
        var rest := Greedy(haystack, needle[1..], found + 1);
        if rest.None? then None else Some([found] + rest.value)
  }

  lemma {:induction false} GreedyPicks(haystack: string, needle: string, from: nat)
    ensures Greedy(haystack, needle, from).Some? ==> Picks(haystack, needle, from, Greedy(haystack, needle, from).value)
    decreases |needle|
  {
    if needle != "" && from <= |haystack| {
      var found := IndexOfChar(haystack, needle[0], from);
      if found != -1 {
        GreedyPicks(haystack, needle[1..], found + 1);
      }
    }
  }

  lemma {:induction false} PickFirst(haystack: string, needle: string, from: nat, at: seq<nat>)
    requires Picks(haystack, needle, from, at) && needle != ""
    ensures at != [] && from <= at[0] < |haystack|
    ensures var found := IndexOfChar(haystack, needle[0], from);
            0 <= found <= at[0] && Picks(haystack, needle[1..], found + 1, at[1..])
  {
    var tail := at[1..];
    assert forall i | 0 <= i < |tail| :: tail[i] == at[i + 1] && at[0] < at[i + 1];
  }

  /** If there is any way to pick the needle, the greedy one exists and runs no later at any character. */
  lemma {:induction false} GreedyIsEarliest(haystack: string, needle: string, from: nat, at: seq<nat>)
    requires Picks(haystack, needle, from, at)
    ensures Greedy(haystack, needle, from).Some? && |Greedy(haystack, needle, from).value| == |at|
    ensures forall i | 0 <= i < |at| :: Greedy(haystack, needle, from).value[i] <= at[i]
    decreases |needle|
  {
    if needle != "" {
      PickFirst(haystack, needle, from, at);
      hide Picks;
      var found := IndexOfChar(haystack, needle[0], from);
      GreedyIsEarliest(haystack, needle[1..], found + 1, at[1..]);
      var rest := Greedy(haystack, needle[1..], found + 1).value;
      hide Greedy;
      var all := [found] + rest;
      forall i | 0 <= i < |at|
        ensures all[i] <= at[i]
      {
        if i > 0 { assert all[i] == rest[i - 1] <= at[1..][i - 1]; }
      }
    }
  }

  /** The greedy search succeeds exactly when the needle is a subsequence. */
  lemma {:induction false} GreedyFindsExactlySubsequences(haystack: string, needle: string, from: nat)
    ensures Greedy(haystack, needle, from).Some? <==> IsSubsequence(haystack, needle, from)
  {
    GreedyPicks(haystack, needle, from);
    if IsSubsequence(haystack, needle, from) {
      var at :| Picks(haystack, needle, from, at);
      GreedyIsEarliest(haystack, needle, from, at);
    }
  }

  // ── Ranges ─────────────────────────────────────────────────────────────────

  /** One more character: it extends the last range when it is adjacent. */
  function WithChar(ranges: seq<Range>, found: nat): seq<Range> {
    if ranges != [] && ranges[|ranges| - 1].end == found
    then ranges[|ranges| - 1 := Range(ranges[|ranges| - 1].start, found + 1)]
    else ranges + [Range(found, found + 1)]
  }

  function RangesOf(at: seq<nat>): seq<Range> {
    if at == [] then [] else WithChar(RangesOf(at[..|at| - 1]), at[|at| - 1])
  }

  lemma {:induction false} MarkedSnoc(text: string, ranges: seq<Range>, last: Range)
    requires InBounds(text, ranges + [last])
    ensures InBounds(text, ranges) && 0 <= last.start <= last.end <= |text|
    ensures Marked(text, ranges + [last]) == Marked(text, ranges) + text[last.start..last.end]
  {
    var all := ranges + [last];
    assert all[|ranges|] == last && all[..|ranges|] == ranges;
    assert forall i | 0 <= i < |ranges| :: all[i] == ranges[i];
  }

  lemma {:induction false} ExtendedMarks(text: string, init: seq<Range>, last: Range)
    requires InBounds(text, init + [last]) && Apart(init + [last]) && 0 <= last.end < |text|
    ensures var more := init + [Range(last.start, last.end + 1)];
            InBounds(text, more) && Apart(more) && Marked(text, more) == Marked(text, init + [last]) + [text[last.end]]
  {
    hide Marked;
    var all, more := init + [last], init + [Range(last.start, last.end + 1)];
    assert all[|init|] == last && forall i | 0 <= i < |init| :: all[i] == init[i] == more[i];
    MarkedSnoc(text, init, last);
    MarkedSnoc(text, init, Range(last.start, last.end + 1));
    assert text[last.start..last.end + 1] == text[last.start..last.end] + [text[last.end]];
  }

  lemma {:induction false} AddedMarks(text: string, ranges: seq<Range>, found: nat)
    requires InBounds(text, ranges) && Apart(ranges) && found < |text|
    requires ranges != [] ==> ranges[|ranges| - 1].end < found
    ensures var more := ranges + [Range(found, found + 1)];
            InBounds(text, more) && Apart(more) && Marked(text, more) == Marked(text, ranges) + [text[found]]
  {
    hide Marked;
    var more := ranges + [Range(found, found + 1)];
    assert forall i | 0 <= i < |ranges| :: more[i] == ranges[i] && ranges[i].end < found;
    MarkedSnoc(text, ranges, Range(found, found + 1));
    assert text[found..found + 1] == [text[found]];
  }

  lemma {:induction false} WithCharMarks(text: string, ranges: seq<Range>, found: nat)
    requires InBounds(text, ranges) && Apart(ranges) && found < |text|
    requires ranges != [] ==> ranges[|ranges| - 1].end <= found
    ensures var more := WithChar(ranges, found);
            && more != [] && more[|more| - 1].end == found + 1
            && InBounds(text, more) && Apart(more) && Marked(text, more) == Marked(text, ranges) + [text[found]]
  {
    hide Marked, Apart, InBounds;
    if ranges != [] && ranges[|ranges| - 1].end == found {
      var init, last := ranges[..|ranges| - 1], ranges[|ranges| - 1];
      assert ranges == init + [last];
      assert WithChar(ranges, found) == init + [Range(last.start, found + 1)];
      ExtendedMarks(text, init, last);
    } else {
      AddedMarks(text, ranges, found);
    }
  }

  /** The ranges of a pick are in order, apart, and mark exactly the needle. */
  lemma {:induction false} RangesSpell(haystack: string, needle: string, from: nat, at: seq<nat>)
    requires Picks(haystack, needle, from, at)
    ensures var ranges := RangesOf(at);
            && InBounds(haystack, ranges) && Apart(ranges) && Marked(haystack, ranges) == needle
            && (ranges != [] <==> at != []) && (at != [] ==> ranges[|ranges| - 1].end == at[|at| - 1] + 1)
    decreases |at|
  {
    hide WithChar, Marked, InBounds, Apart;
    if at == [] {
      NothingMarked(haystack);
    } else {
      var n := |at| - 1;
      RangesSpell(haystack, needle[..n], from, at[..n]);
      WithCharMarks(haystack, RangesOf(at[..n]), at[n]);
      assert needle == needle[..n] + [needle[n]];
    }
  }

  lemma {:induction false} NothingMarked(text: string)
    ensures InBounds(text, []) && Apart([]) && Marked(text, []) == ""
  {
  }

  lemma {:induction false} RangesOfSnoc(at: seq<nat>, found: nat)
    ensures RangesOf(at + [found]) == WithChar(RangesOf(at), found)
  {
    assert (at + [found])[..|at|] == at;
  }

  datatype Subsequence = Subsequence(ranges: seq<Range>, spread: int)

  lemma {:induction false} GreedyStep(haystack: string, needle: string, from: nat, k: nat, at: seq<nat>, cursor: nat)
    requires k < |needle| && cursor <= |haystack|
    requires Greedy(haystack, needle, from) ==
             (var rest := Greedy(haystack, needle[k..], cursor); if rest.None? then None else Some(at + rest.value))
    ensures var found := IndexOfChar(haystack, needle[k], cursor);
            Greedy(haystack, needle, from) ==
              if found == -1 then None
              else
                var rest := Greedy(haystack, needle[k + 1..], found + 1);
                if rest.None? then None else Some(at + [found] + rest.value)
  {
    assert needle[k..][1..] == needle[k + 1..] && needle[k..][0] == needle[k];
    var found := IndexOfChar(haystack, needle[k], cursor);
    if found != -1 {
      var rest := Greedy(haystack, needle[k + 1..], found + 1);
      if rest.Some? { assert at + ([found] + rest.value) == at + [found] + rest.value; }
    }
  }

  lemma {:induction false} NoRanges(haystack: string, cursor: nat)
    ensures RangesOf([]) == [] && Greedy(haystack, "", cursor) == Some([])
  {
  }

  /** `subsequenceRanges`. `spread` counts the characters between the first and the last matched one
      that were not matched. */
  method SubsequenceRanges(haystack: string, needle: string, from: nat) returns (result: Option<Subsequence>)
    requires from <= |haystack|
    ensures result.Some? <==> Greedy(haystack, needle, from).Some?
    ensures result.Some? ==> result.value.ranges == RangesOf(Greedy(haystack, needle, from).value)
    ensures result.Some? && needle != "" ==>
      var at := Greedy(haystack, needle, from).value;
      at != [] && result.value.spread == at[|at| - 1] + 1 - at[0] - |needle|
  {
    hide Greedy, RangesOf, WithChar;
    var ranges: seq<Range> := [];
    NoRanges(haystack, from);
    var cursor, first: int := from, -1;
    ghost var at: seq<nat> := [];
    assert needle[0..] == needle;
    assert forall s: seq<nat> :: [] + s == s;
    for k := 0 to |needle|
      invariant from <= cursor <= |haystack| && |at| == k && ranges == RangesOf(at)
      invariant if k == 0 then first == -1 else first == at[0] && cursor == at[k - 1] + 1
      invariant Greedy(haystack, needle, from) ==
                (var rest := Greedy(haystack, needle[k..], cursor); if rest.None? then None else Some(at + rest.value))
    {
      GreedyStep(haystack, needle, from, k, at, cursor);
      var found := IndexOfChar(haystack, needle[k], cursor);
      if found == -1 {
        return None;
      }
      if first == -1 {
        first := found;
      }
      RangesOfSnoc(at, found);
      ranges := WithChar(ranges, found);
      cursor := found + 1;
      at := at + [found];
    }
    assert at + [] == at && needle[|needle|..] == "";
    NoRanges(haystack, cursor);
    result := Some(Subsequence(ranges, cursor - first - |needle|));
  }

  // ── Matching a path ────────────────────────────────────────────────────────

  datatype NameMatch = NameMatch(score: int, ranges: seq<Range>)

  lemma {:induction false} SubstringIsSubsequence(haystack: string, needle: string, at: nat)
    requires Occurs(haystack, needle, at)
    ensures IsSubsequence(haystack, needle, 0)
  {
    var picks := seq(|needle|, i requires 0 <= i < |needle| => at + i);
    forall i | 0 <= i < |needle|
      ensures haystack[picks[i]] == needle[i]
    {
      assert haystack[at..at + |needle|][i] == needle[i];
    }
    assert Picks(haystack, needle, 0, picks);
  }

  lemma {:induction false} LaterIsSubsequence(haystack: string, needle: string, from: nat)
    ensures IsSubsequence(haystack, needle, from) ==> IsSubsequence(haystack, needle, 0)
  {
    if IsSubsequence(haystack, needle, from) {
      var at :| Picks(haystack, needle, from, at);
      assert Picks(haystack, needle, 0, at);
    }
  }

  /** What every name match promises: ranges in order, apart, within the path, spelling the query. */
  ghost predicate Spelled(path: string, query: string, fold: Folding, ranges: seq<Range>) {
    InBounds(Lower(path, fold), ranges) && Apart(ranges) && Marked(Lower(path, fold), ranges) == Lower(query, fold)
  }

  lemma {:induction false} DirectIsSpelled(path: string, query: string, fold: Folding, at: nat)
    requires query != "" && Occurs(Lower(path, fold), Lower(query, fold), at)
    ensures Spelled(path, query, fold, [Range(at, at + |query|)])
  {
    hide Lower;
    MarkedSnoc(Lower(path, fold), [], Range(at, at + |query|));
  }

  lemma {:induction false} GreedyIsSpelled(path: string, query: string, fold: Folding, from: nat)
    requires Greedy(Lower(path, fold), Lower(query, fold), from).Some?
    ensures Spelled(path, query, fold, RangesOf(Greedy(Lower(path, fold), Lower(query, fold), from).value))
  {
    hide Greedy, Lower, Marked, InBounds, Apart, Picks, RangesOf;
    GreedyPicks(Lower(path, fold), Lower(query, fold), from);
    RangesSpell(Lower(path, fold), Lower(query, fold), from, Greedy(Lower(path, fold), Lower(query, fold), from).value);
  }

  /** A hit at the start of the name, elsewhere in the name, or in a folder above it. */
  function DirectBase(at: nat, nameStart: nat): int {
    if at < nameStart then 300 else if at == nameStart then 0 else 100
  }

  /** The characters between the first and the last picked one that were not picked. */
  function Spread(at: seq<nat>): int
    requires at != []
  {
    at[|at| - 1] + 1 - at[0] - |at|
  }

  lemma {:induction false} GreedyLength(haystack: string, needle: string, from: nat)
    ensures Greedy(haystack, needle, from).Some? ==> |Greedy(haystack, needle, from).value| == |needle|
  {
    hide Greedy;
    GreedyPicks(haystack, needle, from);
  }

  /** How a path ranks for a query; lower is better. */
  function Score(path: string, query: string, fold: Folding): (score: Option<int>)
    ensures query != "" && IndexOf(Lower(path, fold), Lower(query, fold), 0).Some? ==> score.Some?
    ensures score.Some? ==> query != ""
  {
    var haystack, needle, nameStart := Lower(path, fold), Lower(query, fold), LastIndexOfChar(path, '/') + 1;
    var direct := IndexOf(haystack, needle, 0);
    GreedyLength(haystack, needle, nameStart);
    GreedyLength(haystack, needle, 0);
    var inName, anywhere := Greedy(haystack, needle, nameStart), Greedy(haystack, needle, 0);
    if query == "" then None
    else if direct.Some? then Some(direct.value + DirectBase(direct.value, nameStart))
    else if inName.Some? then Some(1000 + Spread(inName.value))
    else if anywhere.Some? then Some(2000 + Spread(anywhere.value))
    else None
  }

  /** `matchPath`: a match exactly when the query is a subsequence of the path. A contiguous hit comes
      before a subsequence in the name, and that before one anywhere. */
  method MatchPath(path: string, query: string, fold: Folding) returns (result: Option<NameMatch>)
    ensures result.Some? <==> query != "" && IsSubsequence(Lower(path, fold), Lower(query, fold), 0)
    ensures result.Some? ==> Spelled(path, query, fold, result.value.ranges)
    ensures Score(path, query, fold) == if result.Some? then Some(result.value.score) else None
    ensures query != "" ==>
      var direct := IndexOf(Lower(path, fold), Lower(query, fold), 0);
      direct.Some? ==> result.Some? && result.value.ranges == [Range(direct.value, direct.value + |query|)]
    ensures result.Some? && IndexOf(Lower(path, fold), Lower(query, fold), 0).None? ==>
      var inName := Greedy(Lower(path, fold), Lower(query, fold), LastIndexOfChar(path, '/') + 1);
      var at := if inName.Some? then inName else Greedy(Lower(path, fold), Lower(query, fold), 0);
      at.Some? && result.value.ranges == RangesOf(at.value)
  {
    hide Greedy, Lower, Spelled, RangesOf, IsSubsequence, Occurs;
    if query == "" {
      return None;
    }
    var haystack, needle := Lower(path, fold), Lower(query, fold);
    var nameStart: nat := LastIndexOfChar(path, '/') + 1;
    var direct := IndexOf(haystack, needle, 0);
    if direct.Some? {
      var base := if direct.value >= nameStart then if direct.value == nameStart then 0 else 100 else 300;
      SubstringIsSubsequence(haystack, needle, direct.value);
      DirectIsSpelled(path, query, fold, direct.value);
      return Some(NameMatch(base + direct.value, [Range(direct.value, direct.value + |needle|)]));
    }
    GreedyFindsExactlySubsequences(haystack, needle, nameStart);
    GreedyFindsExactlySubsequences(haystack, needle, 0);
    LaterIsSubsequence(haystack, needle, nameStart);
    GreedyLength(haystack, needle, nameStart);
    GreedyLength(haystack, needle, 0);
    var inName := SubsequenceRanges(haystack, needle, nameStart);
    if inName.Some? {
      GreedyIsSpelled(path, query, fold, nameStart);
      return Some(NameMatch(1000 + inName.value.spread, inName.value.ranges));
    }
    var anywhere := SubsequenceRanges(haystack, needle, 0);
    if anywhere.Some? {
      GreedyIsSpelled(path, query, fold, 0);
      return Some(NameMatch(2000 + anywhere.value.spread, anywhere.value.ranges));
    }
    result := None;
  }
}
