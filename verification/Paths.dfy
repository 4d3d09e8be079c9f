/** Path rules for project files. A path is relative to the project root, its segments
    separated by slashes. */
module Paths {
  import opened Text
  import opened Wrappers

  const MAX_PATH_LENGTH := 1024
  const MAX_SEGMENT_LENGTH := 255
  const MAX_DEPTH := 32

  /** NUL through US, and DEL. */
  predicate IsControl(c: char) {
    c as int <= 0x1F || c as int == 0x7F
  }

  predicate HasControl(s: string) {
    exists i :: 0 <= i < |s| && IsControl(s[i])
  }

  /** What every segment of a stored path satisfies. */
  predicate ValidSegment(segment: string) {
    && 0 < |segment| <= MAX_SEGMENT_LENGTH
    && segment != "." && segment != ".."
    && !IsSpace(segment[0]) && !IsSpace(segment[|segment| - 1])
    && !HasControl(segment) && '\\' !in segment
  }

  predicate ValidSegments(path: string) {
    forall i | 0 <= i < |Split(path, '/')| :: ValidSegment(Split(path, '/')[i])
  }

  /** The rule in one sentence: short enough, not too deep, and every segment valid. */
  predicate ValidPath(path: string) {
    |path| <= MAX_PATH_LENGTH && |Split(path, '/')| <= MAX_DEPTH && ValidSegments(path)
  }

  ghost predicate EndsMatch(path: string, parts: seq<string>)
    requires path != "" && parts != []
  {
    var first, last := parts[0], parts[|parts| - 1];
    && (path[0] == '/' <==> first == "") && (first != "" ==> first[0] == path[0])
    && (path[|path| - 1] == '/' <==> last == "") && (last != "" ==> last[|last| - 1] == path[|path| - 1])
  }

  lemma {:induction false} EndsOfConcat(head: string, tail: string, parts: seq<string>)
    requires '/' !in head && parts != [] && (if tail == "" then parts == [""] else EndsMatch(tail, parts))
    ensures EndsMatch(head + "/" + tail, [head] + parts)
  {
    var path := head + "/" + tail;
    assert path[|head|] == '/';
    if head != "" { assert path[0] == head[0] && head[0] in head; }
    if tail != "" { assert path[|path| - 1] == tail[|tail| - 1]; }
  }

  /** The first and last characters belong to the first and last segments. */
  lemma {:induction false} EndsOfSplit(path: string)
    requires path != ""
    ensures EndsMatch(path, Split(path, '/'))
    decreases |path|
  {
    hide Split, EndsMatch;
    var i := IndexOfChar(path, '/', 0);
    if i == -1 {
      SplitOfPlain(path, '/');
      PlainEndsMatch(path);
    } else {
      var head, tail := path[..i], path[i + 1..];
      assert path == head + "/" + tail;
      SplitAtFirst(head, tail, '/');
      if tail == "" {
        SplitOfPlain("", '/');
      } else {
        EndsOfSplit(tail);
      }
      EndsOfConcat(head, tail, Split(tail, '/'));
    }
  }

  lemma {:induction false} PlainEndsMatch(path: string)
    requires path != "" && '/' !in path
    ensures EndsMatch(path, [path])
  {
    assert path[0] in path && path[|path| - 1] in path;
  }

  /** The checks on the whole path follow from the segments being valid. */
  lemma {:induction false} WholeFollowsFromSegments(path: string)
    requires path != "" && ValidSegments(path)
    ensures path == Trim(path) && !HasControl(path) && '\\' !in path && path[0] != '/' && path[|path| - 1] != '/'
  {
    hide Split, Trim;
    var parts := Split(path, '/');
    EndsOfSplit(path);
    TrimmedMeans(path);
    assert ValidSegment(parts[0]) && ValidSegment(parts[|parts| - 1]);
    CharsOfSplit(path, '/', '\\');
    if HasControl(path) {
      var i :| 0 <= i < |path| && IsControl(path[i]);
      CharsOfSplit(path, '/', path[i]);
    }
  }

  /** Once the whole path has passed, a segment's own checks decide whether it is valid. */
  lemma {:induction false} SegmentChecks(path: string, k: nat)
    requires !HasControl(path) && '\\' !in path && k < |Split(path, '/')|
    ensures var segment := Split(path, '/')[k];
            ValidSegment(segment) <==>
              && segment != "" && segment != "." && segment != ".."
              && |segment| <= MAX_SEGMENT_LENGTH && segment == Trim(segment)
  {
    hide Split, Trim;
    var segment := Split(path, '/')[k];
    TrimmedMeans(segment);
    CharsOfSplit(path, '/', '\\');
    forall i | 0 <= i < |segment|
      ensures segment[i] in path
    {
      assert segment[i] in segment;
      CharsOfSplit(path, '/', segment[i]);
    }
  }

  /** `assertValidPath`: each check in the order of the source, and together exactly the rule. */
  method AssertValidPath(input: string) returns (ok: bool)
    ensures ok <==> ValidPath(input)
  {
    hide Split, Trim, ValidSegment, HasControl;
    if input == "" {
      EmptyIsInvalid();
      return false;
    }
    if ValidSegments(input) {
      WholeFollowsFromSegments(input);
    }
    if |input| > MAX_PATH_LENGTH || input != Trim(input) || HasControl(input) || '\\' in input
       || input[0] == '/' || input[|input| - 1] == '/' {
      return false;
    }
    var segments := Split(input, '/');
    if |segments| > MAX_DEPTH {
      return false;
    }
    for k := 0 to |segments|
      invariant forall j | 0 <= j < k :: ValidSegment(segments[j])
    {
      var segment := segments[k];
      SegmentChecks(input, k);
      if segment == "" || segment == "." || segment == ".."
         || |segment| > MAX_SEGMENT_LENGTH || segment != Trim(segment) {
        return false;
      }
    }
    ok := true;
  }

  lemma {:induction false} EmptyIsInvalid()
    ensures !ValidPath("")
  {
    assert Split("", '/') == [""];
    assert !ValidSegment(Split("", '/')[0]);
  }

  // ── Ancestors ──────────────────────────────────────────────────────────────

  /** Containment is decided on `directory/`, so `src2/a` does not count as inside `src`. */
  predicate IsDescendantOf(path: string, directory: string) {
    directory + "/" <= path
  }

  function ReplacePathPrefix(path: string, fromDir: string, toDir: string): string
    requires |fromDir| <= |path|
  {
    toDir + path[|fromDir|..]
  }

  function BaseName(path: string): string {
    path[LastIndexOfChar(path, '/') + 1..]
  }

  datatype Parent = Root | Directory(path: string)

  function ParentPath(path: string): Parent {
    var i := LastIndexOfChar(path, '/');
    if i == -1 then Root else Directory(path[..i])
  }

  /** A name is the last segment, and parent and name together are the path. */
  lemma {:induction false} NameIsLastSegment(path: string)
    ensures var segments := Split(path, '/'); BaseName(path) == segments[|segments| - 1]
    ensures path == (if ParentPath(path).Root? then "" else ParentPath(path).path + "/") + BaseName(path)
  {
    var i := LastIndexOfChar(path, '/');
    if i == -1 {
      SplitOfPlain(path, '/');
    } else {
      var head, tail := path[..i], path[i + 1..];
      assert path == head + "/" + tail;
      SplitOfConcat(head, tail, '/');
      SplitOfPlain(tail, '/');
    }
    hide Split, LastIndexOfChar;
  }

  /** What a user may call a file: up to 255 characters, none of them a control character or a backslash, no
      white space at either end, and neither of the two names that mean a directory. */
  predicate AllowedName(name: string) {
    && name !in ["", ".", ".."] && |name| <= 255
    && (forall i | 0 <= i < |name| :: 31 < name[i] as int != 127 && name[i] != '\\')
    && name == Trim(name)
  }

  /** A path put together from names is valid exactly when each name is allowed, there are at most 32 of
      them, and they come to at most 1024 characters with their slashes. */
  lemma {:induction false} BuiltPathIsValidExactlyWhen(names: seq<string>)
    requires names != [] && forall i | 0 <= i < |names| :: '/' !in names[i]
    ensures ValidPath(Join(names, '/')) <==>
      |Join(names, '/')| <= 1024 && |names| <= 32 && forall i | 0 <= i < |names| :: AllowedName(names[i])
  {
    SplitOfJoin(names, '/');
    forall i | 0 <= i < |names|
      ensures AllowedName(names[i]) <==> ValidSegment(names[i])
    {
      AllowedIsValid(names[i]);
    }
    hide Split, Join, AllowedName, ValidSegment;
  }

  lemma {:induction false} AllowedIsValid(name: string)
    ensures AllowedName(name) <==> ValidSegment(name)
  {
    TrimmedMeans(name);
    hide Trim;
  }

  // ── Where a path leads ─────────────────────────────────────────────────────

  /** Following the segments of a path from the project root, with the usual meaning of an empty segment,
      of one dot and of two; `None` when it leaves the root. */
  function Followed(segments: seq<string>, at: seq<string>): Option<seq<string>>
    decreases |segments|
  {
    if segments == [] then Some(at)
    else if segments[0] == "" || segments[0] == "." then Followed(segments[1..], at)
    else if segments[0] == ".." then if at == [] then None else Followed(segments[1..], at[..|at| - 1])
    else Followed(segments[1..], at + [segments[0]])
  }

  /** A valid path leads to exactly the place its segments name, so never out of the project, and two valid
      paths lead to the same place only if they are the same. */
  lemma {:induction false} ValidPathsStayInside(path: string, other: string)
    requires ValidPath(path) && ValidPath(other)
    ensures Followed(Split(path, '/'), []) == Some(Split(path, '/'))
    ensures Followed(Split(path, '/'), []) == Followed(Split(other, '/'), []) ==> path == other
  {
    hide Split;
    FollowsItself(Split(path, '/'), []);
    FollowsItself(Split(other, '/'), []);
    JoinOfSplit(path, '/');
    JoinOfSplit(other, '/');
    assert [] + Split(path, '/') == Split(path, '/') && [] + Split(other, '/') == Split(other, '/');
  }

  lemma {:induction false} FollowsItself(segments: seq<string>, at: seq<string>)
    requires forall i | 0 <= i < |segments| :: ValidSegment(segments[i])
    ensures Followed(segments, at) == Some(at + segments)
    decreases |segments|
  {
    if segments == [] {
      assert at + [] == at;
    } else {
      assert ValidSegment(segments[0]);
      FollowsItself(segments[1..], at + [segments[0]]);
      assert at + [segments[0]] + segments[1..] == at + segments;
    }
  }

  /** The directories a path lies in, built one segment at a time. */
  method AncestorPaths(path: string) returns (ancestors: seq<string>)
    ensures ancestors == Ancestors(path)
  {
    var segments := Split(path, '/');
    segments := segments[..|segments| - 1];
    ancestors := [];
    for i := 0 to |segments|
      invariant ancestors == seq(i, k requires 0 <= k < i <= |segments| => Join(segments[..k + 1], '/'))
    {
      ancestors := ancestors + [Join(segments[..i + 1], '/')];
    }
  }

  function Ancestors(path: string): (ancestors: seq<string>)
    ensures |ancestors| == |Split(path, '/')| - 1
  {
    var segments := Split(path, '/');
    seq(|segments| - 1, k requires 0 <= k < |segments| - 1 => Join(segments[..|segments| - 1][..k + 1], '/'))
  }

  function Under(head: string, inner: seq<string>): seq<string> {
    seq(|inner|, k requires 0 <= k < |inner| => head + inner[k])
  }

  /** The first ancestor ends before the first slash, and the others are the ancestors of what
      follows it. */
  lemma {:induction false} AncestorsUnfold(path: string)
    ensures var i := IndexOfChar(path, '/', 0);
            Ancestors(path) == if i == -1 then [] else [path[..i]] + Under(path[..i] + "/", Ancestors(path[i + 1..]))
  {
    var i := IndexOfChar(path, '/', 0);
    if i != -1 {
      var rest, all := Split(path[i + 1..], '/'), Split(path, '/');
      var init, whole := rest[..|rest| - 1], all[..|all| - 1];
      assert all == [path[..i]] + rest;
      assert whole == [path[..i]] + init;
      hide Split, Join;
      assert whole[..1] == [path[..i]];
      JoinOfOne(path[..i], '/');
      var outer, under := Ancestors(path), Under(path[..i] + "/", Ancestors(path[i + 1..]));
      forall k | 0 <= k < |init|
        ensures under[k] == outer[k + 1]
      {
        assert whole[..k + 2] == [path[..i]] + init[..k + 1];
        JoinOfCons(path[..i], init[..k + 1], '/');
      }
    }
  }

  lemma {:induction false} MembersUnder(inner: seq<string>, head: string, x: string)
    ensures head + x in Under(head, inner) <==> x in inner
    ensures forall y | y in Under(head, inner) :: head <= y
  {
    if head + x in Under(head, inner) {
      var k :| 0 <= k < |inner| && Under(head, inner)[k] == head + x;
      assert (head + inner[k])[|head|..] == inner[k] && (head + x)[|head|..] == x;
    }
    if x in inner {
      var k :| 0 <= k < |inner| && inner[k] == x;
      assert Under(head, inner)[k] == head + x;
    }
  }

  lemma {:induction false} DescendantUnder(head: string, path: string, directory: string)
    ensures IsDescendantOf(head + path, head + directory) <==> IsDescendantOf(path, directory)
  {
    assert head + directory + "/" == head + (directory + "/");
    if IsDescendantOf(head + path, head + directory) {
      assert forall k | 0 <= k < |directory| + 1 ::
          (directory + "/")[k] == (head + (directory + "/"))[|head| + k] == path[k];
    }
  }

  /** A path whose first slash is at `i` has one ancestor that ends there, and no shorter one. */
  lemma {:induction false} FirstAncestor(path: string, i: nat, directory: string)
    requires i < |path| && path[i] == '/' && (forall j | 0 <= j < i :: path[j] != '/')
    requires !(path[..i + 1] <= directory)
    ensures IsDescendantOf(path, directory) <==> directory == path[..i]
  {
    DescendantMeans(path, directory);
  }

  /** The split-and-join loop returns exactly the slash-bounded proper prefixes. */
  lemma {:induction false} AncestorsAreSlashPrefixes(path: string, directory: string)
    ensures directory in Ancestors(path) <==> IsDescendantOf(path, directory)
    decreases |path|
  {
    hide Ancestors, Split, IsDescendantOf;
    var i := IndexOfChar(path, '/', 0);
    AncestorsUnfold(path);
    DescendantMeans(path, directory);
    if i != -1 {
      var head, tail := path[..i + 1], path[i + 1..];
      assert head == path[..i] + "/" && path == head + tail;
      if head <= directory {
        var inner := directory[|head|..];
        assert directory == head + inner;
        AncestorsAreSlashPrefixes(tail, inner);
        DescendantUnder(head, tail, inner);
        MembersUnder(Ancestors(tail), head, inner);
      } else {
        FirstAncestor(path, i, directory);
        MembersUnder(Ancestors(tail), head, "");
      }
    }
  }

  // ── Slash-bounded prefixes ─────────────────────────────────────────────────

  lemma {:induction false} DescendantMeans(path: string, directory: string)
    ensures IsDescendantOf(path, directory) <==>
      |directory| < |path| && path[|directory|] == '/' && directory == path[..|directory|]
  {
    if IsDescendantOf(path, directory) {
      assert path[|directory|] == (directory + "/")[|directory|];
      assert forall k | 0 <= k < |directory| :: path[k] == (directory + "/")[k];
    }
  }

  lemma {:induction false} Transitive(a: string, b: string, c: string)
    requires IsDescendantOf(a, b) && IsDescendantOf(b, c)
    ensures IsDescendantOf(a, c)
  {
    DescendantMeans(a, b);
    DescendantMeans(b, c);
    DescendantMeans(a, c);
  }

  /** Two ancestors of one path are ordered. */
  lemma {:induction false} AncestorsAreOrdered(path: string, a: string, b: string)
    requires IsDescendantOf(path, a) && IsDescendantOf(path, b)
    ensures a == b || IsDescendantOf(a, b) || IsDescendantOf(b, a)
  {
    DescendantMeans(path, a);
    DescendantMeans(path, b);
    DescendantMeans(a, b);
    DescendantMeans(b, a);
  }

  /** Moving a descendant keeps it under the directory, keeps its suffix, and is undone by the
      move back. */
  lemma {:induction false} ReplaceKeepsSuffix(path: string, from: string, to: string)
    requires IsDescendantOf(path, from)
    ensures IsDescendantOf(ReplacePathPrefix(path, from, to), to)
    ensures ReplacePathPrefix(path, from, to)[|to|..] == path[|from|..]
    ensures ReplacePathPrefix(ReplacePathPrefix(path, from, to), to, from) == path
  {
    DescendantMeans(path, from);
    DescendantMeans(ReplacePathPrefix(path, from, to), to);
  }

  /** The ancestors of a moved path: those of the new directory, the directory itself, and the
      moved ancestors that lay inside it. */
  lemma {:induction false} AncestorsAfterReplace(path: string, from: string, to: string, directory: string)
    requires IsDescendantOf(path, from) && IsDescendantOf(ReplacePathPrefix(path, from, to), directory)
    ensures directory == to || IsDescendantOf(to, directory)
      || (IsDescendantOf(directory, to)
          && IsDescendantOf(path, ReplacePathPrefix(directory, to, from))
          && IsDescendantOf(ReplacePathPrefix(directory, to, from), from)
          && ReplacePathPrefix(ReplacePathPrefix(directory, to, from), from, to) == directory)
  {
    var moved := ReplacePathPrefix(path, from, to);
    ReplaceKeepsSuffix(path, from, to);
    AncestorsAreOrdered(moved, directory, to);
    if IsDescendantOf(directory, to) {
      ReplaceKeepsSuffix(directory, to, from);
      DescendantMeans(moved, directory);
      DescendantMeans(path, ReplacePathPrefix(directory, to, from));
      DescendantMeans(directory, to);
      DescendantMeans(path, from);
    }
  }

  /** The parent is the deepest ancestor. */
  lemma {:induction false} ParentIsDeepestAncestor(path: string, directory: string)
    ensures ParentPath(path).Root? ==> !IsDescendantOf(path, directory)
    ensures ParentPath(path).Directory? ==>
      && IsDescendantOf(path, ParentPath(path).path)
      && (IsDescendantOf(path, directory) ==>
            directory == ParentPath(path).path || IsDescendantOf(ParentPath(path).path, directory))
  {
    var i := LastIndexOfChar(path, '/');
    DescendantMeans(path, directory);
    if i != -1 {
      DescendantMeans(path, path[..i]);
      DescendantMeans(path[..i], directory);
    }
  }

  /** An ancestor's segments are the first segments of the path. */
  lemma {:induction false} AncestorSegments(path: string, k: nat)
    requires k < |Ancestors(path)|
    ensures Split(Ancestors(path)[k], '/') == Split(path, '/')[..k + 1]
    ensures ValidSegments(path) ==> ValidSegments(Ancestors(path)[k])
  {
    var parts := Split(path, '/');
    assert parts[..|parts| - 1][..k + 1] == parts[..k + 1];
    SplitOfJoin(parts[..k + 1], '/');
    hide Split, Join;
  }

  lemma {:induction false} AncestorsGrow(path: string, j: nat, k: nat)
    requires j < k < |Ancestors(path)|
    ensures |Ancestors(path)[j]| < |Ancestors(path)[k]|
    decreases |path|
  {
    hide Ancestors, Split;
    var i := IndexOfChar(path, '/', 0);
    AncestorsUnfold(path);
    if j > 0 {
      AncestorsGrow(path[i + 1..], j - 1, k - 1);
    }
  }

  /** The ancestors of an ancestor come before it. */
  lemma {:induction false} AncestorsOfAncestor(path: string, k: nat, directory: string)
    requires k < |Ancestors(path)| && IsDescendantOf(Ancestors(path)[k], directory)
    ensures exists j :: 0 <= j < k && Ancestors(path)[j] == directory
  {
    hide Ancestors;
    var ancestors := Ancestors(path);
    assert ancestors[k] in ancestors;
    AncestorsAreSlashPrefixes(path, ancestors[k]);
    Transitive(path, ancestors[k], directory);
    AncestorsAreSlashPrefixes(path, directory);
    var j :| 0 <= j < |ancestors| && ancestors[j] == directory;
    DescendantMeans(ancestors[k], directory);
    if k < j { AncestorsGrow(path, k, j); }
  }

  lemma {:induction false} SegmentsOfConcat(a: string, b: string)
    ensures ValidSegments(a + "/" + b) <==> ValidSegments(a) && ValidSegments(b)
  {
    SplitOfConcat(a, b, '/');
    hide Split, ValidSegment;
    var whole, left, right := Split(a + "/" + b, '/'), Split(a, '/'), Split(b, '/');
    assert forall i | 0 <= i < |left| :: whole[i] == left[i];
    assert forall i | 0 <= i < |right| :: right[i] == whole[|left| + i];
    if ValidSegments(a + "/" + b) {
      forall i | 0 <= i < |right| ensures ValidSegment(right[i]) { assert ValidSegment(whole[|left| + i]); }
    }
  }

  lemma {:induction false} MovedIsWellNamed(path: string, from: string, to: string)
    requires IsDescendantOf(path, from) && ValidSegments(path) && ValidSegments(to)
    ensures |from| <= |path| && ValidSegments(ReplacePathPrefix(path, from, to))
  {
    hide ValidSegments;
    DescendantMeans(path, from);
    var rest := path[|from| + 1..];
    SegmentsOfConcat(from, rest);
    SegmentsOfConcat(to, rest);
    assert path == from + "/" + rest && ReplacePathPrefix(path, from, to) == to + "/" + rest;
  }
}
