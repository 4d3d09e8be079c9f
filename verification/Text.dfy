/** The string operations of the source language that the model needs. */
module Text {

  /** White space and line terminators, which `trim` removes. */
  predicate IsSpace(c: char) {
    var code := c as int;
    || 9 <= code <= 13 || code == 0x20 || code == 0xA0 || code == 0x1680 || 0x2000 <= code <= 0x200A
    || code == 0x2028 || code == 0x2029 || code == 0x202F || code == 0x205F || code == 0x3000 || code == 0xFEFF
  }

  function TrimStart(s: string): (t: string)
    ensures |t| <= |s| && t == s[|s| - |t|..]
    ensures t != "" ==> !IsSpace(t[0])
    ensures forall i | 0 <= i < |s| - |t| :: IsSpace(s[i])
  {
    if s == "" || !IsSpace(s[0]) then s else TrimStart(s[1..])
  }

  function TrimEnd(s: string): (t: string)
    ensures |t| <= |s| && t == s[..|t|]
    ensures t != "" ==> !IsSpace(t[|t| - 1])
    ensures s != "" && !IsSpace(s[|s| - 1]) ==> t == s
    ensures forall i | |t| <= i < |s| :: IsSpace(s[i])
  {
    if s == "" || !IsSpace(s[|s| - 1]) then s else TrimEnd(s[..|s| - 1])
  }

  function Trim(s: string): string {
    TrimEnd(TrimStart(s))
  }

  lemma {:induction false} TrimmedMeans(s: string)
    ensures s == Trim(s) <==> s == "" || (!IsSpace(s[0]) && !IsSpace(s[|s| - 1]))
  {
    var t := TrimStart(s);
    if s == Trim(s) {
      assert |Trim(s)| <= |t| <= |s|;
      assert t == s;
    }
  }

  function IndexOfChar(s: string, c: char, from: nat): (i: int)
    requires from <= |s|
    ensures -1 <= i < |s|
    ensures i == -1 ==> forall j | from <= j < |s| :: s[j] != c
    ensures i != -1 ==> from <= i && s[i] == c && forall j | from <= j < i :: s[j] != c
    decreases |s| - from
  {
    if from == |s| then -1 else if s[from] == c then from else IndexOfChar(s, c, from + 1)
  }

  function LastIndexOfChar(s: string, c: char): (i: int)
    ensures -1 <= i < |s|
    ensures i != -1 ==> s[i] == c
    ensures forall j | i < j < |s| :: s[j] != c
  {
    if s == "" then -1 else if s[|s| - 1] == c then |s| - 1 else LastIndexOfChar(s[..|s| - 1], c)
  }

  /** `split` on one character. */
  function Split(s: string, c: char): (parts: seq<string>)
    ensures |parts| >= 1
    ensures forall i | 0 <= i < |parts| :: c !in parts[i]
    decreases |s|
  {
    var i := IndexOfChar(s, c, 0);
    if i == -1 then [s] else [s[..i]] + Split(s[i + 1..], c)
  }

  function Join(parts: seq<string>, c: char): string {
    if parts == [] then "" else if |parts| == 1 then parts[0] else parts[0] + [c] + Join(parts[1..], c)
  }

  lemma {:induction false} JoinOfCons(first: string, rest: seq<string>, c: char)
    requires rest != []
    ensures Join([first] + rest, c) == first + [c] + Join(rest, c)
  {
    assert ([first] + rest)[1..] == rest;
  }

  /** Splitting is undone by joining. */
  lemma {:induction false} JoinOfSplit(s: string, c: char)
    ensures Join(Split(s, c), c) == s
    decreases |s|
  {
    hide Join;
    var i := IndexOfChar(s, c, 0);
    if i == -1 {
      JoinOfOne(s, c);
    } else {
      JoinOfSplit(s[i + 1..], c);
      JoinOfCons(s[..i], Split(s[i + 1..], c), c);
      assert s == s[..i] + [c] + s[i + 1..];
    }
  }

  lemma {:induction false} JoinOfOne(s: string, c: char)
    ensures Join([s], c) == s
  {
  }

  lemma {:induction false} SplitOfPlain(s: string, c: char)
    requires c !in s
    ensures Split(s, c) == [s]
  {
  }

  lemma {:induction false} SplitAtFirst(head: string, tail: string, c: char)
    requires c !in head
    ensures Split(head + [c] + tail, c) == [head] + Split(tail, c)
  {
    var s := head + [c] + tail;
    var i := IndexOfChar(s, c, 0);
    assert s[|head|] == c;
    assert i == |head| by { assert forall j | 0 <= j < |head| :: s[j] == head[j] && head[j] in head; }
    assert s[..i] == head && s[i + 1..] == tail;
  }

  ghost predicate InSome(parts: seq<string>, x: char) {
    exists i :: 0 <= i < |parts| && x in parts[i]
  }

  lemma {:induction false} InSomeOfCons(first: string, rest: seq<string>, x: char)
    ensures InSome([first] + rest, x) <==> x in first || InSome(rest, x)
  {
    var parts := [first] + rest;
    assert parts[0] == first && forall k | 0 <= k < |rest| :: parts[k + 1] == rest[k];
    if k :| 0 <= k < |parts| && x in parts[k] {
      assert k > 0 ==> x in rest[k - 1];
    }
    if k :| 0 <= k < |rest| && x in rest[k] {
      assert x in parts[k + 1];
    }
  }

  /** The characters of a string are the separators and the characters of its parts. */
  lemma {:induction false} CharsOfSplit(s: string, c: char, x: char)
    requires x != c
    ensures x in s <==> InSome(Split(s, c), x)
    decreases |s|
  {
    hide Split, InSome;
    var i := IndexOfChar(s, c, 0);
    NothingIn(x);
    if i == -1 {
      SplitOfPlain(s, c);
      InSomeOfCons(s, [], x);
      assert [s] + [] == [s];
    } else {
      var head, tail := s[..i], s[i + 1..];
      CharsOfSplit(tail, c, x);
      assert s == head + [c] + tail;
      SplitAtFirst(head, tail, c);
      InSomeOfCons(head, Split(tail, c), x);
    }
  }

  lemma {:induction false} NothingIn(x: char)
    ensures !InSome([], x)
  {
  }

  lemma {:induction false} SplitOfConcat(a: string, b: string, c: char)
    ensures Split(a + [c] + b, c) == Split(a, c) + Split(b, c)
    decreases |a|
  {
    hide Split;
    var i := IndexOfChar(a, c, 0);
    if i == -1 {
      SplitOfPlain(a, c);
      SplitAtFirst(a, b, c);
    } else {
      var head, tail := a[..i], a[i + 1..];
      SplitOfConcat(tail, b, c);
      SplitAtFirst(head, tail, c);
      SplitAtFirst(head, tail + [c] + b, c);
      assert a == head + [c] + tail;
      assert a + [c] + b == head + [c] + (tail + [c] + b);
    }
  }

  /** Joining parts without separators is undone by splitting. */
  lemma {:induction false} SplitOfJoin(parts: seq<string>, c: char)
    requires parts != [] && forall i | 0 <= i < |parts| :: c !in parts[i]
    ensures Split(Join(parts, c), c) == parts
    decreases |parts|
  {
    hide Split;
    if |parts| == 1 {
      SplitOfPlain(parts[0], c);
    } else {
      SplitOfJoin(parts[1..], c);
      SplitAtFirst(parts[0], Join(parts[1..], c), c);
    }
  }
}
