/** Searching file contents: one result per line, found by one pass over the whole text. */
module Search {
  import opened Wrappers
  import opened Text

  const SNIPPET_BEFORE: nat := 32
  const SNIPPET_AFTER: nat := 120
  const ELLIPSIS: string := "\U{2026}"

  datatype Range = Range(start: int, end: int)

  datatype ContentMatch = ContentMatch(line: nat, snippet: string, range: Range, offset: nat)

  /** Case is folded character by character. */
  type Folding = char -> char

  /** Folding touches neither newlines nor white space. */
  ghost predicate KeepsSpace(fold: Folding) {
    forall c: char :: (fold(c) == '\n' <==> c == '\n') && IsSpace(fold(c)) == IsSpace(c)
  }

  function Lower(s: string, fold: Folding): (t: string)
    ensures |t| == |s|
  {
    seq(|s|, i requires 0 <= i < |s| => fold(s[i]))
  }

  // ── Occurrences ────────────────────────────────────────────────────────────

  predicate Occurs(text: string, needle: string, i: nat) {
    i + |needle| <= |text| && text[i..i + |needle|] == needle
  }

  /** The first occurrence at or after `from`. */
  function IndexOf(text: string, needle: string, from: nat): (found: Option<nat>)
    ensures found.Some? ==> from <= found.value && Occurs(text, needle, found.value)
    ensures found.Some? ==> forall j | from <= j < found.value :: !Occurs(text, needle, j)
    ensures found.None? ==> forall j | from <= j :: !Occurs(text, needle, j)
    decreases |text| - from
  {
    if from + |needle| > |text| then None
    else if text[from..from + |needle|] == needle then Some(from)
    else IndexOf(text, needle, from + 1)
  }

  /** A slice with the source language's clamping. */
  function Slice(s: string, from: nat, to: nat): string {
    var end := if to < |s| then to else |s|;
    if from < end then s[from..end] else ""
  }

  function Max(a: int, b: int): int {
    if a < b then b else a
  }

  function Min(a: int, b: int): int {
    if a < b then a else b
  }

  /** The result for one line, clipped around the match and without its indentation. */
  function Found(raw: string, column: nat, width: nat, line: nat, offset: nat): ContentMatch {
    var indent := |raw| - |TrimStart(raw)|;
    var from, to := Max(indent, column - SNIPPET_BEFORE), Min(|raw|, column + width + SNIPPET_AFTER);
    var prefix, suffix := if from > indent then ELLIPSIS else "", if to < |raw| then ELLIPSIS else "";
    var start := |prefix| + (column - from);
    ContentMatch(line, prefix + Slice(raw, from, to) + suffix, Range(start, start + width), offset)
  }

  // ── What a search should return ────────────────────────────────────────────

  /** The first occurrence on each of the first `limit` matching lines. */
  function LineMatches(lines: seq<string>, needle: string, fold: Folding, line: nat, offset: nat, limit: nat)
    : seq<ContentMatch>
    decreases |lines|
  {
    if lines == [] || limit == 0 then []
    else
      var column := IndexOf(Lower(lines[0], fold), needle, 0);
      var next := offset + |lines[0]| + 1;
      if column.None? then LineMatches(lines[1..], needle, fold, line + 1, next, limit)
      else
        [Found(lines[0], column.value, |needle|, line, offset + column.value)]
        + LineMatches(lines[1..], needle, fold, line + 1, next, limit - 1)
  }

  // ── One pass finds the same ────────────────────────────────────────────────

  function LineAt(content: string, i: nat): nat
    requires i <= |content|
  {
    if i == 0 then 1 else LineAt(content, i - 1) + (if content[i - 1] == '\n' then 1 else 0)
  }

  function LineStart(content: string, i: nat): (start: nat)
    requires i <= |content|
    ensures start <= i && '\n' !in content[start..i] && (start > 0 ==> content[start - 1] == '\n')
  {
    if i == 0 || content[i - 1] == '\n' then i
    else
      var start := LineStart(content, i - 1);
      assert content[start..i] == content[start..i - 1] + [content[i - 1]];
      start
  }

  function LineEnd(content: string, i: nat): (end: nat)
    requires i <= |content|
    ensures i <= end <= |content| && '\n' !in content[i..end] && (end < |content| ==> content[end] == '\n')
  {
    var found := IndexOfChar(content, '\n', i);
    if found == -1 then |content| else found
  }

  lemma {:induction false} SameLine(content: string, i: nat, j: nat)
    requires i <= j <= |content| && '\n' !in content[i..j]
    ensures LineAt(content, j) == LineAt(content, i) && LineStart(content, j) == LineStart(content, i)
    decreases j
  {
    if i < j {
      assert content[i..j] == content[i..j - 1] + [content[j - 1]];
      SameLine(content, i, j - 1);
    }
  }

  lemma {:induction false} LinesFrom(content: string, start: nat)
    requires start <= |content|
    ensures var end := LineEnd(content, start);
            Split(content[start..], '\n') ==
              [content[start..end]] + (if end == |content| then [] else Split(content[end + 1..], '\n'))
  {
    var rest, end := content[start..], LineEnd(content, start);
    if end == |content| {
      assert content[start..end] == rest;
      SplitOfPlain(rest, '\n');
    } else {
      assert rest == content[start..end] + ['\n'] + content[end + 1..];
      SplitAtFirst(content[start..end], content[end + 1..], '\n');
    }
  }

  lemma {:induction false} LowerOfSlice(s: string, fold: Folding, i: nat, j: nat)
    requires i <= j <= |s|
    ensures Lower(s[i..j], fold) == Lower(s, fold)[i..j]
  {
  }

  /** An occurrence within a line is an occurrence in the text. */
  lemma {:induction false} OccursInSlice(text: string, needle: string, i: nat, j: nat, column: nat)
    requires i <= j <= |text| && column + |needle| <= j - i
    ensures Occurs(text[i..j], needle, column) <==> Occurs(text, needle, i + column)
  {
    var line, width := text[i..j], |needle|;
    var a, b := line[column..column + width], text[i + column..i + column + width];
    assert |a| == |b| && forall k | 0 <= k < width :: a[k] == line[column + k] == b[k];
  }

  /** A query without newlines is found within one line. */
  lemma {:induction false} WithinLine(content: string, needle: string, fold: Folding, found: nat, i: nat)
    requires KeepsSpace(fold) && '\n' !in needle && Occurs(Lower(content, fold), needle, found)
    requires found <= i < found + |needle|
    ensures i < |content| && content[i] != '\n'
  {
    assert needle[i - found] == Lower(content, fold)[i];
    assert needle[i - found] in needle;
  }

  ghost predicate FirstFrom(text: string, needle: string, from: nat, found: nat) {
    from <= found && Occurs(text, needle, found) && forall j | from <= j < found :: !Occurs(text, needle, j)
  }

  /** What is still to be found from the start of a line. */
  ghost function Remaining(content: string, needle: string, fold: Folding, cursor: nat, limit: nat): seq<ContentMatch> {
    if cursor > |content| then []
    else LineMatches(Split(content[cursor..], '\n'), needle, fold, LineAt(content, cursor), cursor, limit)
  }

  /** The next line either holds the next match or is passed over. */
  lemma {:induction false} RemainingStep(content: string, needle: string, fold: Folding, start: nat, limit: nat)
    requires start <= |content| && limit > 0
    ensures var end := LineEnd(content, start);
            var column := IndexOf(Lower(content[start..end], fold), needle, 0);
            Remaining(content, needle, fold, start, limit) ==
              if column.None? then Remaining(content, needle, fold, end + 1, limit)
              else [Found(content[start..end], column.value, |needle|, LineAt(content, start), start + column.value)]
                   + Remaining(content, needle, fold, end + 1, limit - 1)
  {
    hide Split, TrimStart, Found, IndexOf, LineMatches, LineAt, LineEnd, LineStart, Lower, Occurs;
    var end := LineEnd(content, start);
    var rest := if end == |content| then [] else Split(content[end + 1..], '\n');
    LinesFrom(content, start);
    SameLine(content, start, end);
    if end < |content| { NextChar(content, end); }
    OneLine(content[start..end], rest, needle, fold, LineAt(content, start), start, limit);
  }

  /** What a search from the start of a line returns next: the line of the first occurrence, then
      the lines after it. */
  lemma {:induction false} NextMatch(content: string, needle: string, fold: Folding, start: nat, found: nat, limit: nat)
    requires KeepsSpace(fold) && '\n' !in needle && needle != "" && limit > 0
    requires start <= |content| && LineStart(content, start) == start
    requires FirstFrom(Lower(content, fold), needle, start, found)
    ensures found < |content|
    ensures var first, end := LineStart(content, found), LineEnd(content, found);
            Remaining(content, needle, fold, start, limit) ==
              [Found(content[first..end], found - first, |needle|, LineAt(content, found), found)]
              + Remaining(content, needle, fold, end + 1, limit - 1)
    decreases |content| - start
  {
    hide Split, TrimStart, KeepsSpace, Found, IndexOf, LineAt, LineEnd, LineStart, Lower, Occurs, Remaining;
    WithinLine(content, needle, fold, found, found);
    var end := LineEnd(content, start);
    RemainingStep(content, needle, fold, start, limit);
    if found < end {
      MatchOnThisLine(content, needle, fold, start, found);
    } else {
      if found == end { WithinLine(content, needle, fold, found, end); }
      NoMatchOnThisLine(content, needle, fold, start, found);
      NextMatch(content, needle, fold, end + 1, found, limit);
    }
  }

  lemma {:induction false} OneLine(line: string, rest: seq<string>, needle: string, fold: Folding, number: nat,
      offset: nat, limit: nat)
    requires limit > 0
    ensures var column, next := IndexOf(Lower(line, fold), needle, 0), offset + |line| + 1;
            LineMatches([line] + rest, needle, fold, number, offset, limit) ==
              if column.None? then LineMatches(rest, needle, fold, number + 1, next, limit)
              else [Found(line, column.value, |needle|, number, offset + column.value)]
                   + LineMatches(rest, needle, fold, number + 1, next, limit - 1)
    ensures forall n: nat, o: nat, l: nat :: LineMatches([], needle, fold, n, o, l) == []
  {
    hide Found, IndexOf, Lower;
    assert ([line] + rest)[1..] == rest;
  }

  lemma {:induction false} MatchOnThisLine(content: string, needle: string, fold: Folding, start: nat, found: nat)
    requires KeepsSpace(fold) && '\n' !in needle && needle != ""
    requires start <= |content| && LineStart(content, start) == start
    requires FirstFrom(Lower(content, fold), needle, start, found)
    requires found < LineEnd(content, start)
    ensures LineEnd(content, found) == LineEnd(content, start)
    ensures LineStart(content, found) == start && LineAt(content, found) == LineAt(content, start)
    ensures IndexOf(Lower(content[start..LineEnd(content, start)], fold), needle, 0) == Some(found - start)
  {
    hide Split, TrimStart, KeepsSpace, LineEnd, LineStart, IndexOf;
    var end := LineEnd(content, start);
    assert content[start..found] == content[start..end][..found - start];
    SameLine(content, start, found);
    SameEnd(content, start, found);
    OccurrenceStaysInLine(content, needle, fold, found, end);
    LowerOfSlice(content, fold, start, end);
    FirstInSlice(Lower(content, fold), needle, start, end, found);
  }

  lemma {:induction false} FirstInSlice(text: string, needle: string, start: nat, end: nat, found: nat)
    requires FirstFrom(text, needle, start, found) && found + |needle| <= end <= |text|
    ensures IndexOf(text[start..end], needle, 0) == Some(found - start)
  {
    var index := IndexOf(text[start..end], needle, 0);
    hide IndexOf;
    OccursInSlice(text, needle, start, end, found - start);
    if index.Some? && index.value < found - start {
      OccurrenceFits(text[start..end], needle, index.value);
      OccursInSlice(text, needle, start, end, index.value);
    }
  }

  lemma {:induction false} SameEnd(content: string, i: nat, j: nat)
    requires i <= |content| && i <= j <= LineEnd(content, i)
    ensures LineEnd(content, j) == LineEnd(content, i)
  {
  }

  lemma {:induction false} OccurrenceStaysInLine(content: string, needle: string, fold: Folding, found: nat, end: nat)
    requires KeepsSpace(fold) && '\n' !in needle && Occurs(Lower(content, fold), needle, found)
    requires found < end <= |content| && (end < |content| ==> content[end] == '\n')
    ensures found + |needle| <= end
  {
    if end < found + |needle| {
      WithinLine(content, needle, fold, found, end);
    }
  }

  lemma {:induction false} NoMatchOnThisLine(content: string, needle: string, fold: Folding, start: nat, found: nat)
    requires needle != "" && start <= |content| && LineStart(content, start) == start
    requires FirstFrom(Lower(content, fold), needle, start, found) && found < |content|
    requires LineEnd(content, start) < found
    ensures var end := LineEnd(content, start);
            && IndexOf(Lower(content[start..end], fold), needle, 0) == None
            && LineStart(content, end + 1) == end + 1 && LineAt(content, end + 1) == LineAt(content, start) + 1
            && FirstFrom(Lower(content, fold), needle, end + 1, found)
  {
    hide Split, TrimStart;
    var end := LineEnd(content, start);
    LowerOfSlice(content, fold, start, end);
    SameLine(content, start, end);
    var index := IndexOf(Lower(content[start..end], fold), needle, 0);
    if index.Some? {
      OccursInSlice(Lower(content, fold), needle, start, end, index.value);
    }
  }

  lemma {:induction false} NoMatches(content: string, needle: string, fold: Folding, start: nat, line: nat, limit: nat)
    requires needle != "" && start <= |content| && forall j | start <= j :: !Occurs(Lower(content, fold), needle, j)
    ensures LineMatches(Split(content[start..], '\n'), needle, fold, line, start, limit) == []
    decreases |content| - start
  {
    hide Split, TrimStart, Occurs;
    var end := LineEnd(content, start);
    LinesFrom(content, start);
    LowerOfSlice(content, fold, start, end);
    var index := IndexOf(Lower(content[start..end], fold), needle, 0);
    if index.Some? {
      OccurrenceFits(Lower(content, fold)[start..end], needle, index.value);
      OccursInSlice(Lower(content, fold), needle, start, end, index.value);
    }
    var lines := Split(content[start..], '\n');
    if end < |content| {
      NoMatches(content, needle, fold, end + 1, line + 1, limit);
      assert lines[1..] == Split(content[end + 1..], '\n');
    }
  }

  lemma {:induction false} OccurrenceFits(text: string, needle: string, i: nat)
    requires Occurs(text, needle, i)
    ensures i + |needle| <= |text|
  {
  }

  /** Walks the newlines forward to the match. */
  method AdvanceTo(content: string, from: nat, lineFrom: nat, startFrom: nat, found: nat)
    returns (scanned: nat, line: nat, lineStart: nat)
    requires from <= |content| && found <= |content|
    requires lineFrom == LineAt(content, from) && startFrom == LineStart(content, from)
    ensures scanned == (if from < found then found else from)
    ensures line == LineAt(content, scanned) && lineStart == LineStart(content, scanned)
  {
    hide LineAt, LineStart;
    scanned, line, lineStart := from, lineFrom, startFrom;
    while scanned < found
      invariant from <= scanned && (scanned <= found || scanned == from)
      invariant line == LineAt(content, scanned) && lineStart == LineStart(content, scanned)
    {
      NextChar(content, scanned);
      if content[scanned] == '\n' {
        line := line + 1;
        lineStart := scanned + 1;
      }
      scanned := scanned + 1;
    }
  }

  /** `matches` is what the search has returned so far, and `cursor` is where a line starts. */
  ghost predicate Progress(content: string, query: string, fold: Folding, limit: nat, matches: seq<ContentMatch>,
      cursor: nat) {
    && |matches| <= limit && (cursor <= |content| ==> LineStart(content, cursor) == cursor)
    && (query != "" && '\n' !in query && KeepsSpace(fold) ==>
          LineMatches(Split(content, '\n'), Lower(query, fold), fold, 1, 0, limit)
          == matches + Remaining(content, Lower(query, fold), fold, cursor, limit - |matches|))
  }

  /** `matchContent`. The line number is kept by counting newlines once, alongside the search. */
  method MatchContent(content: string, query: string, fold: Folding, limit: nat) returns (matches: seq<ContentMatch>)
    ensures query == "" ==> matches == []
    ensures query != "" && '\n' !in query && KeepsSpace(fold) ==>
      matches == LineMatches(Split(content, '\n'), Lower(query, fold), fold, 1, 0, limit)
  {
    hide *;
    matches := [];
    if query == "" {
      return;
    }
    var haystack, needle := Lower(content, fold), Lower(query, fold);
    var cursor: nat, line: nat, lineStart: nat, scanned: nat := 0, 1, 0, 0;
    StartOfText(content, needle, fold, limit);
    StartsWithNothing(content, query, fold, limit);
    while |matches| < limit
      invariant Progress(content, query, fold, limit, matches, cursor)
      invariant |matches| <= limit && scanned <= cursor && scanned <= |content|
      invariant line == LineAt(content, scanned) && lineStart == LineStart(content, scanned)
      decreases limit - |matches|
    {
      var next := IndexOf(haystack, needle, cursor);
      if next.None? {
        NothingRemains(content, query, fold, limit, matches, cursor);
        return;
      }
      var found := next.value;
      OccurrenceFits(haystack, needle, found);
      scanned, line, lineStart := AdvanceTo(content, scanned, line, lineStart, found);
      var lineEnd := IndexOfChar(content, '\n', found);
      if lineEnd == -1 {
        lineEnd := |content|;
      }
      EndOfLine(content, found);
      OneRemainsLess(content, query, fold, limit, matches, cursor, found);
      matches := matches + [Found(content[lineStart..lineEnd], found - lineStart, |needle|, line, found)];
      cursor := lineEnd + 1;
    }
    LimitReached(content, query, fold, limit, matches, cursor);
  }

  lemma {:induction false} StartsWithNothing(content: string, query: string, fold: Folding, limit: nat)
    ensures Progress(content, query, fold, limit, [], 0)
  {
    hide LineMatches, Split, KeepsSpace, Lower, Remaining;
    StartOfText(content, Lower(query, fold), fold, limit);
  }

  lemma {:induction false} NothingRemains(content: string, query: string, fold: Folding, limit: nat,
      matches: seq<ContentMatch>, cursor: nat)
    requires Progress(content, query, fold, limit, matches, cursor) && query != ""
    requires IndexOf(Lower(content, fold), Lower(query, fold), cursor) == None
    ensures '\n' !in query && KeepsSpace(fold) ==>
      matches == LineMatches(Split(content, '\n'), Lower(query, fold), fold, 1, 0, limit)
  {
    hide KeepsSpace, Split, LineMatches;
    if cursor <= |content| {
      assert |Lower(query, fold)| == |query|;
      NoMatches(content, Lower(query, fold), fold, cursor, LineAt(content, cursor), limit - |matches|);
    }
  }

  lemma {:induction false} LimitReached(content: string, query: string, fold: Folding, limit: nat,
      matches: seq<ContentMatch>, cursor: nat)
    requires Progress(content, query, fold, limit, matches, cursor) && query != "" && |matches| == limit
    ensures '\n' !in query && KeepsSpace(fold) ==>
      matches == LineMatches(Split(content, '\n'), Lower(query, fold), fold, 1, 0, limit)
  {
    hide KeepsSpace, Split, Lower;
  }

  lemma {:induction false} RemainingUnfold(content: string, needle: string, fold: Folding, cursor: nat, found: nat,
      limit: nat)
    requires KeepsSpace(fold) && '\n' !in needle && needle != "" && limit > 0
    requires cursor <= |content| && LineStart(content, cursor) == cursor
    requires IndexOf(Lower(content, fold), needle, cursor) == Some(found)
    ensures found < |content|
    ensures var first, end := LineStart(content, found), LineEnd(content, found);
            && Remaining(content, needle, fold, cursor, limit) ==
                 [Found(content[first..end], found - first, |needle|, LineAt(content, found), found)]
                 + Remaining(content, needle, fold, end + 1, limit - 1)
            && cursor <= first
            && (end < |content| ==>
                  LineStart(content, end + 1) == end + 1 && LineAt(content, end + 1) == LineAt(content, found) + 1)
  {
    hide Split, TrimStart, Found, LineMatches, KeepsSpace, Lower, IndexOf, LineAt, LineStart, LineEnd, Occurs;
    NextMatch(content, needle, fold, cursor, found, limit);
    var end := LineEnd(content, found);
    SameLine(content, found, end);
    StartsNoEarlier(content, cursor, found);
    if end < |content| { NextChar(content, end); }
  }

  lemma {:induction false} OneRemainsLess(content: string, query: string, fold: Folding, limit: nat,
      matches: seq<ContentMatch>, cursor: nat, found: nat)
    requires Progress(content, query, fold, limit, matches, cursor) && query != "" && |matches| < limit
    requires IndexOf(Lower(content, fold), Lower(query, fold), cursor) == Some(found)
    ensures found < |content|
    ensures var first, end, width := LineStart(content, found), LineEnd(content, found), |Lower(query, fold)|;
            var next := Found(content[first..end], found - first, width, LineAt(content, found), found);
            Progress(content, query, fold, limit, matches + [next], end + 1)
  {
    hide Split, TrimStart, Found, LineMatches, KeepsSpace, Lower, IndexOf, LineAt, LineStart, LineEnd, Occurs,
         Remaining;
    var needle := Lower(query, fold);
    assert |needle| > 0;
    OccurrenceFits(Lower(content, fold), needle, found);
    var first, end := LineStart(content, found), LineEnd(content, found);
    var next := Found(content[first..end], found - first, |needle|, LineAt(content, found), found);
    if end < |content| { NextChar(content, end); }
    if '\n' !in query && KeepsSpace(fold) {
      FoldedQuery(query, fold);
      RemainingUnfold(content, needle, fold, cursor, found, limit - |matches|);
      var rest := Remaining(content, needle, fold, end + 1, limit - |matches| - 1);
      assert matches + ([next] + rest) == (matches + [next]) + rest;
    }
  }

  lemma {:induction false} FoldedQuery(query: string, fold: Folding)
    requires '\n' !in query && KeepsSpace(fold)
    ensures '\n' !in Lower(query, fold) && (query != "" ==> Lower(query, fold) != "")
  {
    forall i | 0 <= i < |query| ensures fold(query[i]) != '\n' { assert query[i] in query; }
  }

  lemma {:induction false} StartOfText(content: string, needle: string, fold: Folding, limit: nat)
    ensures LineAt(content, 0) == 1 && LineStart(content, 0) == 0
    ensures Remaining(content, needle, fold, 0, limit) == LineMatches(Split(content, '\n'), needle, fold, 1, 0, limit)
  {
    assert content[0..] == content;
  }

  lemma {:induction false} NextChar(content: string, i: nat)
    requires i < |content|
    ensures LineAt(content, i + 1) == LineAt(content, i) + (if content[i] == '\n' then 1 else 0)
    ensures LineStart(content, i + 1) == (if content[i] == '\n' then i + 1 else LineStart(content, i))
  {
  }

  lemma {:induction false} EndOfLine(content: string, i: nat)
    requires i <= |content|
    ensures var next := IndexOfChar(content, '\n', i);
            LineEnd(content, i) == if next == -1 then |content| else next
  {
  }

  // ── What each result means ─────────────────────────────────────────────────

  /** The result names a real occurrence: its offset, its line number, the first on its line. */
  ghost predicate IsTrue(content: string, needle: string, fold: Folding, m: ContentMatch) {
    && m.offset < |content| && m.line == LineAt(content, m.offset)
    && FirstFrom(Lower(content, fold), needle, LineStart(content, m.offset), m.offset)
  }

  /** Every result is true, and results are on different lines in increasing order. */
  lemma {:induction false} ResultsAreTrue(content: string, needle: string, fold: Folding, cursor: nat, limit: nat)
    requires KeepsSpace(fold) && '\n' !in needle && needle != ""
    requires cursor <= |content| ==> LineStart(content, cursor) == cursor
    ensures var ms := Remaining(content, needle, fold, cursor, limit);
            && (forall k | 0 <= k < |ms| :: IsTrue(content, needle, fold, ms[k]) && cursor <= ms[k].offset)
            && (forall j, k | 0 <= j < k < |ms| :: ms[j].line < ms[k].line)
    decreases limit
  {
    hide Split, TrimStart, LineMatches, KeepsSpace, Lower, LineAt, Occurs, IndexOf, LineEnd, LineStart, Remaining,
         IsTrue, Found;
    var ms := Remaining(content, needle, fold, cursor, limit);
    if limit == 0 {
      NoneWanted(content, needle, fold, cursor);
    } else if cursor <= |content| {
      var index := IndexOf(Lower(content, fold), needle, cursor);
      if index.None? {
        NothingFrom(content, needle, fold, cursor, limit);
      } else {
        var found := index.value;
        RemainingUnfold(content, needle, fold, cursor, found, limit);
        var first, end := LineStart(content, found), LineEnd(content, found);
        var next := Found(content[first..end], found - first, |needle|, LineAt(content, found), found);
        NextIsTrue(content, needle, fold, cursor, found);
        ResultsAreTrue(content, needle, fold, end + 1, limit - 1);
        FoundKeeps(content[first..end], found - first, |needle|, LineAt(content, found), found);
        OneMoreIsTrue(content, needle, fold, cursor, end, next, Remaining(content, needle, fold, end + 1, limit - 1));
      }
    } else {
      NothingPastTheEnd(content, needle, fold, cursor, limit);
    }
  }

  lemma {:induction false} FoundKeeps(raw: string, column: nat, width: nat, line: nat, offset: nat)
    ensures Found(raw, column, width, line, offset).line == line
    ensures Found(raw, column, width, line, offset).offset == offset
  {
  }

  lemma {:induction false} NextIsTrue(content: string, needle: string, fold: Folding, cursor: nat, found: nat)
    requires cursor <= found < |content| && cursor <= LineStart(content, found)
    requires IndexOf(Lower(content, fold), needle, cursor) == Some(found)
    ensures forall m: ContentMatch | m.line == LineAt(content, found) && m.offset == found ::
        IsTrue(content, needle, fold, m)
  {
    hide LineStart, LineAt, IndexOf, Lower, Occurs;
  }

  lemma {:induction false} NothingPastTheEnd(content: string, needle: string, fold: Folding, cursor: nat, limit: nat)
    requires cursor > |content|
    ensures Remaining(content, needle, fold, cursor, limit) == []
  {
  }

  lemma {:induction false} NothingFrom(content: string, needle: string, fold: Folding, cursor: nat, limit: nat)
    requires needle != "" && cursor <= |content| && IndexOf(Lower(content, fold), needle, cursor) == None
    ensures Remaining(content, needle, fold, cursor, limit) == []
  {
    NoMatches(content, needle, fold, cursor, LineAt(content, cursor), limit);
  }

  lemma {:induction false} OneMoreIsTrue(content: string, needle: string, fold: Folding, cursor: nat, end: nat,
                                         next: ContentMatch, rest: seq<ContentMatch>)
    requires cursor <= next.offset <= end <= |content| && IsTrue(content, needle, fold, next)
    requires end < |content| ==> LineAt(content, end + 1) > next.line
    requires forall k | 0 <= k < |rest| :: IsTrue(content, needle, fold, rest[k]) && end + 1 <= rest[k].offset
    requires forall j, k | 0 <= j < k < |rest| :: rest[j].line < rest[k].line
    ensures var ms := [next] + rest;
            && (forall k | 0 <= k < |ms| :: IsTrue(content, needle, fold, ms[k]) && cursor <= ms[k].offset)
            && (forall j, k | 0 <= j < k < |ms| :: ms[j].line < ms[k].line)
  {
    hide FirstFrom, LineAt, LineStart;
    var ms := [next] + rest;
    forall k | 0 < k < |ms|
      ensures ms[k] == rest[k - 1] && next.line < ms[k].line && IsTrue(content, needle, fold, ms[k])
    {
      assert IsTrue(content, needle, fold, rest[k - 1]);
      LinesGrow(content, end + 1, rest[k - 1].offset);
    }
  }

  lemma {:induction false} NoneWanted(content: string, needle: string, fold: Folding, cursor: nat)
    ensures Remaining(content, needle, fold, cursor, 0) == []
  {
  }

  lemma {:induction false} StartsNoEarlier(content: string, i: nat, j: nat)
    requires i <= j <= |content| && LineStart(content, i) == i
    ensures i <= LineStart(content, j)
    decreases j
  {
    if i < j { StartsNoEarlier(content, i, j - 1); }
  }

  lemma {:induction false} LinesGrow(content: string, i: nat, j: nat)
    requires i <= j <= |content|
    ensures LineAt(content, i) <= LineAt(content, j)
    decreases j
  {
    if i < j { LinesGrow(content, i, j - 1); }
  }

  lemma {:induction false} Bare(s: string)
    ensures "" + s + "" == s
  {
  }

  /** The snippet is one piece of the line around the match, `before` characters of it and `after`: everything
      from the end of the indentation to the end of the line, as far as the margins allow; an ellipsis stands
      where, and only where, more than indentation is cut off. */
  lemma {:induction false} SnippetShowsTheLine(raw: string, column: nat, width: nat, line: nat, offset: nat)
    requires |raw| - |TrimStart(raw)| <= column && column + width <= |raw| && 0 < width
    ensures var m, code := Found(raw, column, width, line, offset), TrimStart(raw);
            var before, after := column - (|raw| - |code|), |raw| - (column + width);
            var left, right := Min(before, SNIPPET_BEFORE), Min(after, SNIPPET_AFTER);
            && m.snippet ==
                 (if before > SNIPPET_BEFORE then ELLIPSIS else "")
                 + raw[column - left..column + width + right]
                 + (if after > SNIPPET_AFTER then ELLIPSIS else "")
            && m.range.start == left + (if before > SNIPPET_BEFORE then |ELLIPSIS| else 0)
            && m.range.end == m.range.start + width
            && (before <= SNIPPET_BEFORE && after <= SNIPPET_AFTER ==> m.snippet == code)
  {
    hide TrimStart;
    var code := TrimStart(raw);
    var indent := |raw| - |code|;
    assert code == raw[indent..] == raw[indent..|raw|];
    Bare(code);
    var from, to := Max(indent, column - SNIPPET_BEFORE), Min(|raw|, column + width + SNIPPET_AFTER);
    assert from == column - Min(column - indent, SNIPPET_BEFORE);
    assert to == column + width + Min(|raw| - (column + width), SNIPPET_AFTER);
    assert Slice(raw, from, to) == raw[from..to];
    hide Max, Min, Slice;
  }

  /** The highlighted part of the snippet is the query. */
  ghost predicate Spells(m: ContentMatch, needle: string, fold: Folding) {
    0 <= m.range.start <= m.range.end <= |m.snippet| && Lower(m.snippet[m.range.start..m.range.end], fold) == needle
  }

  /** Clipping keeps the highlight on the query exactly when the match does not begin in the indentation. */
  lemma {:induction false} SpellsExactlyWhen(raw: string, column: nat, needle: string, fold: Folding, line: nat,
      offset: nat)
    requires needle != "" && Occurs(Lower(raw, fold), needle, column)
    ensures Spells(Found(raw, column, |needle|, line, offset), needle, fold) <==> |raw| - |TrimStart(raw)| <= column
  {
    hide Lower, TrimStart;
    if |raw| - |TrimStart(raw)| <= column {
      ClippedSpells(raw, column, needle, fold, line, offset);
    } else {
      StartsBefore(raw, column, |needle|, line, offset);
      hide Found;
    }
  }

  lemma {:induction false} StartsBefore(raw: string, column: nat, width: nat, line: nat, offset: nat)
    requires column < |raw| - |TrimStart(raw)|
    ensures Found(raw, column, width, line, offset).range.start < 0
  {
    hide TrimStart, Slice;
  }

  lemma {:induction false} ClippedSpells(raw: string, column: nat, needle: string, fold: Folding, line: nat,
      offset: nat)
    requires needle != "" && Occurs(Lower(raw, fold), needle, column) && |raw| - |TrimStart(raw)| <= column
    ensures Spells(Found(raw, column, |needle|, line, offset), needle, fold)
  {
    hide Lower, TrimStart, Slice;
    var m, width := Found(raw, column, |needle|, line, offset), |needle|;
    var indent := |raw| - |TrimStart(raw)|;
    var from, to := Max(indent, column - SNIPPET_BEFORE), Min(|raw|, column + width + SNIPPET_AFTER);
    var prefix, suffix := if from > indent then ELLIPSIS else "", if to < |raw| then ELLIPSIS else "";
    InSnippet(prefix, raw, from, to, suffix, column, width);
    LowerOfSlice(raw, fold, column, column + width);
    assert m.snippet == prefix + Slice(raw, from, to) + suffix && m.range.start == |prefix| + (column - from);
    hide Found, Max, Min, Occurs;
  }

  lemma {:induction false} InSnippet(prefix: string, raw: string, from: nat, to: nat, suffix: string, column: nat,
      width: nat)
    requires from <= column && column + width <= to <= |raw| && from < to
    ensures Slice(raw, from, to) == raw[from..to]
    ensures var snippet, start := prefix + Slice(raw, from, to) + suffix, |prefix| + (column - from);
            start + width <= |snippet| && snippet[start..start + width] == raw[column..column + width]
  {
    var part := raw[from..to];
    var snippet, start := prefix + part + suffix, |prefix| + (column - from);
    var a, b := snippet[start..start + width], raw[column..column + width];
    assert forall i | 0 <= i < width ::
        a[i] == snippet[start + i] == part[column - from + i] == raw[column + i] == b[i];
    assert a == b;
  }

  ghost predicate AllSpell(ms: seq<ContentMatch>, needle: string, fold: Folding) {
    forall k | 0 <= k < |ms| :: Spells(ms[k], needle, fold)
  }

  lemma {:induction false} AfterIndent(raw: string, column: nat)
    requires column < |raw| && !IsSpace(raw[column])
    ensures |raw| - |TrimStart(raw)| <= column
  {
  }

  lemma {:induction false} AllSpellOfCons(first: ContentMatch, rest: seq<ContentMatch>, needle: string, fold: Folding)
    requires Spells(first, needle, fold) && AllSpell(rest, needle, fold)
    ensures AllSpell([first] + rest, needle, fold)
  {
    hide Spells;
  }

  lemma {:induction false} TrimmedSpells(lines: seq<string>, needle: string, fold: Folding, line: nat, offset: nat,
      limit: nat)
    requires KeepsSpace(fold) && needle != "" && !IsSpace(needle[0])
    ensures AllSpell(LineMatches(lines, needle, fold, line, offset, limit), needle, fold)
    decreases |lines|
  {
    hide Found, AllSpell, Spells, TrimStart, KeepsSpace, LineMatches, IndexOf, Lower;
    if lines == [] || limit == 0 {
      NoLinesSpell(lines, needle, fold, line, offset, limit);
    } else {
      var first, rest, next := lines[0], lines[1..], offset + |lines[0]| + 1;
      assert lines == [first] + rest;
      OneLine(first, rest, needle, fold, line, offset, limit);
      TrimmedSpells(rest, needle, fold, line + 1, next, limit);
      TrimmedSpells(rest, needle, fold, line + 1, next, limit - 1);
      var column := IndexOf(Lower(first, fold), needle, 0);
      if column.Some? {
        FirstCharIsNoSpace(first, needle, fold, column.value);
        AfterIndent(first, column.value);
        SpellsExactlyWhen(first, column.value, needle, fold, line, offset + column.value);
        var found := Found(first, column.value, |needle|, line, offset + column.value);
        AllSpellOfCons(found, LineMatches(rest, needle, fold, line + 1, next, limit - 1), needle, fold);
      }
    }
  }

  lemma {:induction false} NoLinesSpell(lines: seq<string>, needle: string, fold: Folding, line: nat, offset: nat,
      limit: nat)
    requires lines == [] || limit == 0
    ensures AllSpell(LineMatches(lines, needle, fold, line, offset, limit), needle, fold)
  {
  }

  lemma {:induction false} FirstCharIsNoSpace(raw: string, needle: string, fold: Folding, column: nat)
    requires KeepsSpace(fold) && needle != "" && !IsSpace(needle[0]) && Occurs(Lower(raw, fold), needle, column)
    ensures column < |raw| && !IsSpace(raw[column])
  {
    assert needle[0] == Lower(raw, fold)[column];
  }

  /** A query that begins with white space is highlighted wrongly on a line that consists of it. */
  lemma {:induction false} IndentedQueryMisses(query: string, fold: Folding)
    requires KeepsSpace(fold) && '\n' !in query && query != "" && IsSpace(query[0])
    ensures !AllSpell(LineMatches(Split(query, '\n'), Lower(query, fold), fold, 1, 0, 1), Lower(query, fold), fold)
  {
    hide KeepsSpace, Spells, Found, Split;
    var needle := Lower(query, fold);
    SplitOfPlain(query, '\n');
    assert Occurs(needle, needle, 0);
    hide LineMatches;
    OneLine(query, [], needle, fold, 1, 0, 1);
    assert [query] + [] == [query];
    NoIndentMatch(query);
    SpellsExactlyWhen(query, 0, needle, fold, 1, 0);
    var ms := LineMatches(Split(query, '\n'), needle, fold, 1, 0, 1);
    assert ms[0] == Found(query, 0, |needle|, 1, 0);
  }

  lemma {:induction false} NoIndentMatch(raw: string)
    requires raw != "" && IsSpace(raw[0])
    ensures |raw| - |TrimStart(raw)| > 0
  {
  }

  ghost predicate HighlightsSpell(content: string, query: string, fold: Folding, limit: nat) {
    AllSpell(LineMatches(Split(content, '\n'), Lower(query, fold), fold, 1, 0, limit), Lower(query, fold), fold)
  }

  /** The highlighted range spells the query, on every text, exactly when the query does not begin
      with white space. */
  lemma {:induction false} HighlightsSpellExactlyWhenTrimmed(query: string, fold: Folding)
    requires KeepsSpace(fold) && '\n' !in query && query != ""
    ensures (forall content: string, limit: nat :: HighlightsSpell(content, query, fold, limit)) <==> !IsSpace(query[0])
  {
    hide AllSpell, LineMatches, Split;
    var needle := Lower(query, fold);
    if IsSpace(query[0]) {
      IndentedQueryMisses(query, fold);
      assert !HighlightsSpell(query, query, fold, 1);
    } else {
      forall content: string, limit: nat
        ensures HighlightsSpell(content, query, fold, limit)
      {
        TrimmedSpells(Split(content, '\n'), needle, fold, 1, 0, limit);
      }
    }
  }
}
