/** Drawing a text with some of its slices marked. */
module Highlight {
  import opened Search
  import opened NameSearch

  datatype Part = Part(text: string, marked: bool)

  /** Where a slice bound falls: negative bounds count from the end, and all are clamped. */
  function Place(text: string, bound: int): (at: nat)
    ensures at <= |text|
  {
    if bound < 0 then if |text| + bound < 0 then 0 else |text| + bound
    else if bound < |text| then bound else |text|
  }

  function SliceOf(text: string, start: int, end: int): string {
    if Place(text, start) < Place(text, end) then text[Place(text, start)..Place(text, end)] else ""
  }

  /** A range that starts before the cursor or ends past the text is skipped. */
  predicate Accepted(text: string, range: Range, cursor: int) {
    range.start >= cursor && range.end <= |text|
  }

  function PartsFrom(text: string, ranges: seq<Range>, cursor: int): seq<Part>
    decreases |ranges|
  {
    if ranges == [] then if cursor < |text| then [Part(SliceOf(text, cursor, |text|), false)] else []
    else if !Accepted(text, ranges[0], cursor) then PartsFrom(text, ranges[1..], cursor)
    else
      (if ranges[0].start > cursor then [Part(SliceOf(text, cursor, ranges[0].start), false)] else [])
      + [Part(SliceOf(text, ranges[0].start, ranges[0].end), true)]
      + PartsFrom(text, ranges[1..], ranges[0].end)
  }

  /** The loop that turns ranges into parts. */
  method Parts(text: string, ranges: seq<Range>) returns (parts: seq<Part>)
    ensures parts == PartsFrom(text, ranges, 0)
  {
    parts := [];
    var cursor := 0;
    assert ranges[0..] == ranges;
    for k := 0 to |ranges|
      invariant PartsFrom(text, ranges, 0) == parts + PartsFrom(text, ranges[k..], cursor)
    {
      var range := ranges[k];
      assert ranges[k..][0] == range && ranges[k..][1..] == ranges[k + 1..];
      if range.start < cursor || range.end > |text| {
        continue;
      }
      if range.start > cursor {
        parts := parts + [Part(SliceOf(text, cursor, range.start), false)];
      }
      parts := parts + [Part(SliceOf(text, range.start, range.end), true)];
      cursor := range.end;
    }
    assert ranges[|ranges|..] == [];
    if cursor < |text| {
      parts := parts + [Part(SliceOf(text, cursor, |text|), false)];
    }
  }

  function Rendered(parts: seq<Part>): string {
    if parts == [] then "" else parts[0].text + Rendered(parts[1..])
  }

  function MarkedText(parts: seq<Part>): string {
    if parts == [] then "" else (if parts[0].marked then parts[0].text else "") + MarkedText(parts[1..])
  }

  lemma {:induction false} RenderedOfCons(first: Part, rest: seq<Part>)
    ensures Rendered([first] + rest) == first.text + Rendered(rest)
    ensures MarkedText([first] + rest) == (if first.marked then first.text else "") + MarkedText(rest)
  {
    assert ([first] + rest)[1..] == rest;
  }

  lemma {:induction false} RenderedOfConcat(a: seq<Part>, b: seq<Part>)
    ensures Rendered(a + b) == Rendered(a) + Rendered(b) && MarkedText(a + b) == MarkedText(a) + MarkedText(b)
  {
    hide Rendered, MarkedText;
    if a == [] {
      assert a + b == b;
      NothingRendered();
      assert "" + Rendered(b) == Rendered(b) && "" + MarkedText(b) == MarkedText(b);
    } else {
      var first, rest := a[0], a[1..];
      RenderedOfConcat(rest, b);
      RenderedOfCons(first, rest + b);
      RenderedOfCons(first, rest);
      assert a == [first] + rest && a + b == [first] + (rest + b);
      var m := if first.marked then first.text else "";
      assert first.text + (Rendered(rest) + Rendered(b)) == (first.text + Rendered(rest)) + Rendered(b);
      assert m + (MarkedText(rest) + MarkedText(b)) == (m + MarkedText(rest)) + MarkedText(b);
    }
  }

  lemma {:induction false} NothingRendered()
    ensures Rendered([]) == "" && MarkedText([]) == ""
  {
  }

  lemma {:induction false} RenderedOfOne(part: Part)
    ensures Rendered([part]) == part.text && MarkedText([part]) == (if part.marked then part.text else "")
  {
    assert [part][1..] == [];
  }

  /** Each accepted range leads forward in the text. */
  predicate Forward(text: string, ranges: seq<Range>, cursor: int)
    decreases |ranges|
  {
    ranges == [] ||
    if Accepted(text, ranges[0], cursor)
    then
      && Place(text, cursor) <= Place(text, ranges[0].start) <= Place(text, ranges[0].end)
      && Forward(text, ranges[1..], ranges[0].end)
    else Forward(text, ranges[1..], cursor)
  }

  lemma {:induction false} PartsUnfold(text: string, ranges: seq<Range>, cursor: int)
    requires ranges != []
    ensures var r, rest := ranges[0], ranges[1..];
            if Accepted(text, r, cursor) then
              && Rendered(PartsFrom(text, ranges, cursor))
                 == SliceOf(text, cursor, r.start) + SliceOf(text, r.start, r.end)
                    + Rendered(PartsFrom(text, rest, r.end))
              && MarkedText(PartsFrom(text, ranges, cursor))
                 == SliceOf(text, r.start, r.end) + MarkedText(PartsFrom(text, rest, r.end))
            else PartsFrom(text, ranges, cursor) == PartsFrom(text, rest, cursor)
  {
    hide SliceOf, Rendered, MarkedText;
    var r, rest := ranges[0], ranges[1..];
    if Accepted(text, r, cursor) {
      var gap := Part(SliceOf(text, cursor, r.start), false);
      var mark, more := Part(SliceOf(text, r.start, r.end), true), PartsFrom(text, rest, r.end);
      var whole := PartsFrom(text, ranges, cursor);
      RenderedOfCons(mark, more);
      if r.start > cursor {
        assert whole == [gap] + ([mark] + more);
        hide PartsFrom;
        RenderedOfCons(gap, [mark] + more);
      } else {
        assert whole == [mark] + more;
        hide PartsFrom;
        RenderedOfNone(text, cursor);
        assert SliceOf(text, cursor, r.start) + mark.text == mark.text;
      }
    }
  }

  lemma {:induction false} RenderedOfNone(text: string, cursor: int)
    ensures Rendered([]) == "" && MarkedText([]) == "" && SliceOf(text, cursor, cursor) == ""
  {
  }

  lemma {:induction false} RenderedAtEnd(text: string, cursor: int)
    ensures Rendered(PartsFrom(text, [], cursor)) == text[Place(text, cursor)..]
    ensures MarkedText(PartsFrom(text, [], cursor)) == ""
  {
    if cursor < |text| { RenderedOfOne(Part(SliceOf(text, cursor, |text|), false)); }
  }

  /** Nothing is lost, and what is drawn is the rest of the text exactly when every step goes forward;
      any step back draws something twice. */
  lemma {:induction false} InThree(text: string, a: nat, b: nat, c: nat)
    requires a <= b <= c <= |text|
    ensures text[a..] == text[a..b] + text[b..c] + text[c..]
  {
  }

  lemma {:induction false} RendersRest(text: string, ranges: seq<Range>, cursor: int)
    ensures var drawn, rest := Rendered(PartsFrom(text, ranges, cursor)), text[Place(text, cursor)..];
            && |drawn| >= |rest|
            && (Forward(text, ranges, cursor) ==> drawn == rest)
            && (!Forward(text, ranges, cursor) ==> |drawn| > |rest|)
    decreases |ranges|
  {
    hide PartsFrom, Rendered, Place;
    if ranges == [] {
      RenderedAtEnd(text, cursor);
    } else {
      PartsUnfold(text, ranges, cursor);
      var r := ranges[0];
      RendersRest(text, ranges[1..], if Accepted(text, r, cursor) then r.end else cursor);
      var a, b, c := Place(text, cursor), Place(text, r.start), Place(text, r.end);
      if Accepted(text, r, cursor) && a <= b <= c { InThree(text, a, b, c); }
    }
  }

  /** The drawn text is the given text exactly when every accepted range leads forward. */
  lemma {:induction false} RendersTheTextExactlyWhen(text: string, ranges: seq<Range>)
    ensures Rendered(PartsFrom(text, ranges, 0)) == text <==> Forward(text, ranges, 0)
  {
    hide PartsFrom, Rendered, Forward;
    RendersRest(text, ranges, 0);
    assert text[0..] == text;
  }

  predicate AcceptsInverted(text: string, ranges: seq<Range>, cursor: int)
    decreases |ranges|
  {
    ranges != [] &&
    if Accepted(text, ranges[0], cursor)
    then
      || (ranges[0].end < ranges[0].start && ranges[0].end < |text|)
      || AcceptsInverted(text, ranges[1..], ranges[0].end)
    else AcceptsInverted(text, ranges[1..], cursor)
  }

  /** For ranges of offsets, leading forward means that no accepted range ends before it starts
      and before the text does. */
  lemma {:induction false} OffsetsLeadForwardExactlyWhen(text: string, ranges: seq<Range>, cursor: int)
    requires 0 <= cursor <= |text| && forall i | 0 <= i < |ranges| :: 0 <= ranges[i].start && 0 <= ranges[i].end
    ensures Forward(text, ranges, cursor) <==> !AcceptsInverted(text, ranges, cursor)
    decreases |ranges|
  {
    if ranges != [] {
      var next := if Accepted(text, ranges[0], cursor) then ranges[0].end else cursor;
      OffsetsLeadForwardExactlyWhen(text, ranges[1..], next);
    }
  }

  /** A range that ends before it starts is not skipped, and draws part of the text twice. */
  lemma {:induction false} InvertedRangeDrawsTwice()
    ensures Rendered(PartsFrom("ab", [Range(1, 0)], 0)) == "aab"
  {
    hide PartsFrom, Rendered, MarkedText;
    PartsUnfold("ab", [Range(1, 0)], 0);
    RenderedAtEnd("ab", 0);
    assert [Range(1, 0)][1..] == [] && SliceOf("ab", 0, 1) == "a" && SliceOf("ab", 1, 0) == "";
  }

  lemma {:induction false} InOrderUnfold(text: string, ranges: seq<Range>, cursor: nat)
    requires ranges != [] && cursor <= ranges[0].start < ranges[0].end <= |text|
    ensures var r, rest := ranges[0], PartsFrom(text, ranges[1..], ranges[0].end);
            && Rendered(PartsFrom(text, ranges, cursor))
               == text[cursor..r.start] + text[r.start..r.end] + Rendered(rest)
            && MarkedText(PartsFrom(text, ranges, cursor)) == text[r.start..r.end] + MarkedText(rest)
  {
    hide PartsFrom, Rendered, MarkedText;
    PartsUnfold(text, ranges, cursor);
  }

  /** Ranges that are in order and in bounds are all marked, and the rest of the text is drawn around them. */
  lemma {:induction false} OrderedRangesAreMarked(text: string, ranges: seq<Range>, k: nat, cursor: nat)
    requires InBounds(text, ranges) && Apart(ranges) && k <= |ranges| && cursor <= |text|
    requires forall i | k <= i < |ranges| :: cursor <= ranges[i].start
    ensures Rendered(PartsFrom(text, ranges[k..], cursor)) == text[cursor..]
    ensures Marked(text, ranges) == Marked(text, ranges[..k]) + MarkedText(PartsFrom(text, ranges[k..], cursor))
    decreases |ranges| - k
  {
    hide PartsFrom, Rendered, MarkedText, Marked;
    if k == |ranges| {
      assert ranges[k..] == [] && ranges[..k] == ranges;
      RenderedAtEnd(text, cursor);
    } else {
      var r := ranges[k];
      assert ranges[k..][1..] == ranges[k + 1..] && ranges[..k + 1] == ranges[..k] + [r];
      InOrderUnfold(text, ranges[k..], cursor);
      OrderedRangesAreMarked(text, ranges, k + 1, r.end);
      MarkedSnoc(text, ranges[..k], r);
      InThree(text, cursor, r.start, r.end);
    }
  }

  /** Ranges in order and in bounds make no empty part. */
  lemma {:induction false} OrderedPartsAreNotEmpty(text: string, ranges: seq<Range>, k: nat, cursor: nat)
    requires InBounds(text, ranges) && Apart(ranges) && k <= |ranges| && cursor <= |text|
    requires forall i | k <= i < |ranges| :: cursor <= ranges[i].start
    ensures forall part | part in PartsFrom(text, ranges[k..], cursor) :: part.text != ""
    decreases |ranges| - k
  {
    if k < |ranges| {
      assert ranges[k..][1..] == ranges[k + 1..];
      OrderedPartsAreNotEmpty(text, ranges, k + 1, ranges[k].end);
    }
  }

  lemma {:induction false} MarkedOfLower(text: string, ranges: seq<Range>, fold: Folding)
    requires InBounds(text, ranges)
    ensures InBounds(Lower(text, fold), ranges)
    ensures Marked(Lower(text, fold), ranges) == Lower(Marked(text, ranges), fold)
    decreases |ranges|
  {
    if ranges != [] {
      var last := ranges[|ranges| - 1];
      MarkedOfLower(text, ranges[..|ranges| - 1], fold);
      LowerOfSlice(text, fold, last.start, last.end);
    }
  }

  /** From search to screen: a name match is drawn as the whole path with the query marked in it. */
  lemma {:induction false} NameMatchesAreDrawnWhole(path: string, query: string, fold: Folding, ranges: seq<Range>)
    requires Spelled(path, query, fold, ranges)
    ensures Rendered(PartsFrom(path, ranges, 0)) == path
    ensures Lower(MarkedText(PartsFrom(path, ranges, 0)), fold) == Lower(query, fold)
  {
    hide PartsFrom, Rendered, MarkedText, Marked, Lower;
    OrderedRangesAreMarked(path, ranges, 0, 0);
    assert ranges[0..] == ranges && ranges[..0] == [] && path[0..] == path;
    NothingMarked(path);
    MarkedOfLower(path, ranges, fold);
    assert "" + MarkedText(PartsFrom(path, ranges, 0)) == MarkedText(PartsFrom(path, ranges, 0));
  }

  lemma {:induction false} OneRangeIsMarked(text: string, range: Range)
    requires 0 <= range.start < range.end <= |text|
    ensures Rendered(PartsFrom(text, [range], 0)) == text
    ensures MarkedText(PartsFrom(text, [range], 0)) == text[range.start..range.end]
  {
    hide Rendered, MarkedText, PartsFrom;
    PartsUnfold(text, [range], 0);
    RenderedAtEnd(text, range.end);
    assert [range][1..] == [];
    var rest := text[range.end..];
    assert text == text[..range.start] + text[range.start..range.end] + rest;
    assert text[range.start..range.end] + "" == text[range.start..range.end];
  }

  /** The same for a line found in a file: the whole snippet, with the query marked in it. */
  lemma {:induction false} ContentMatchesAreDrawnWhole(m: ContentMatch, needle: string, fold: Folding)
    requires Spells(m, needle, fold) && needle != ""
    ensures Rendered(PartsFrom(m.snippet, [m.range], 0)) == m.snippet
    ensures Lower(MarkedText(PartsFrom(m.snippet, [m.range], 0)), fold) == needle
  {
    hide PartsFrom, Rendered, MarkedText;
    assert |Lower(m.snippet[m.range.start..m.range.end], fold)| == m.range.end - m.range.start;
    OneRangeIsMarked(m.snippet, m.range);
  }
}
