/** How name matches rank against each other: contiguous hits are meant to come before scattered ones. */
module Ranking {
  import opened Wrappers
  import opened Text
  import opened Paths
  import opened Search
  import opened NameSearch

  /** Folding leaves lower-case letters and digits alone, and makes a slash of a slash only. */
  ghost predicate KeepsPlain(fold: Folding) {
    && (forall c: char | 'a' <= c <= 'z' || '0' <= c <= '9' :: fold(c) == c)
    && (forall c: char :: fold(c) == '/' <==> c == '/')
  }

  predicate Contiguous(path: string, query: string, fold: Folding) {
    query != "" && IndexOf(Lower(path, fold), Lower(query, fold), 0).Some?
  }

  predicate Scattered(path: string, query: string, fold: Folding) {
    Score(path, query, fold).Some? && !Contiguous(path, query, fold)
  }

  // ── Scattered picks ────────────────────────────────────────────────────────

  lemma {:induction false} PicksAdvance(haystack: string, needle: string, from: nat, at: seq<nat>, i: nat)
    requires Picks(haystack, needle, from, at) && i < |at|
    ensures at[0] + i <= at[i]
    decreases i
  {
    if i > 0 { PicksAdvance(haystack, needle, from, at, i - 1); }
  }

  lemma {:induction false} TailAdvance(haystack: string, needle: string, from: nat, at: seq<nat>, i: nat)
    requires Picks(haystack, needle, from, at) && i < |at|
    ensures at[i] + (|at| - 1 - i) <= at[|at| - 1]
    decreases |at| - i
  {
    if i < |at| - 1 { TailAdvance(haystack, needle, from, at, i + 1); }
  }

  /** A pick from a text that does not contain the needle leaves at least one character out. */
  lemma {:induction false} PickSpreads(haystack: string, needle: string, from: nat, at: seq<nat>)
    requires needle != "" && Picks(haystack, needle, from, at) && IndexOf(haystack, needle, 0).None?
    ensures at != [] && |needle| > 1 && Spread(at) >= 1
  {
    PicksAdvance(haystack, needle, from, at, |at| - 1);
    if |needle| == 1 || Spread(at) == 0 {
      forall i | 0 <= i < |at|
        ensures at[i] == at[0] + i
      {
        PicksAdvance(haystack, needle, from, at, i);
        TailAdvance(haystack, needle, from, at, i);
      }
      var start := at[0];
      assert haystack[start..start + |needle|] == needle;
      assert Occurs(haystack, needle, start);
    }
  }

  /** Where the tier of scattered matches begins for this query: a query with a slash is never picked
      out of a name alone. */
  function ScatteredBase(query: string, fold: Folding): int {
    if '/' in Lower(query, fold) then 2000 else 1000
  }

  lemma {:induction false} NoSlashInName(path: string, query: string, fold: Folding)
    requires KeepsPlain(fold) && '/' in Lower(query, fold)
    ensures Greedy(Lower(path, fold), Lower(query, fold), LastIndexOfChar(path, '/') + 1).None?
  {
    var haystack, needle, nameStart := Lower(path, fold), Lower(query, fold), LastIndexOfChar(path, '/') + 1;
    GreedyPicks(haystack, needle, nameStart);
    hide Greedy;
    var i :| 0 <= i < |needle| && needle[i] == '/';
    assert forall k | nameStart <= k < |path| :: haystack[k] == fold(path[k]) && haystack[k] != needle[i];
  }

  /** Every scattered match scores above the base of its tier, and needs two characters. */
  lemma {:induction false} ScatteredScores(path: string, query: string, fold: Folding)
    requires KeepsPlain(fold) && Scattered(path, query, fold)
    ensures |query| > 1 && Score(path, query, fold).value > ScatteredBase(query, fold)
  {
    var haystack, needle, nameStart := Lower(path, fold), Lower(query, fold), LastIndexOfChar(path, '/') + 1;
    GreedyPicks(haystack, needle, nameStart);
    GreedyPicks(haystack, needle, 0);
    hide Greedy, Picks, Lower, Spread;
    if '/' in needle { NoSlashInName(path, query, fold); }
    var inName, anywhere := Greedy(haystack, needle, nameStart), Greedy(haystack, needle, 0);
    if inName.Some? {
      PickSpreads(haystack, needle, nameStart, inName.value);
    } else {
      PickSpreads(haystack, needle, 0, anywhere.value);
    }
  }

  // ── A scattered match that scores as well as one can ───────────────────────

  /** The query with one digit put after its first character. */
  function Opened(query: string, digit: char): string
    requires query != ""
  {
    [query[0], digit] + query[1..]
  }

  lemma {:induction false} LowerOfOpened(query: string, digit: char, fold: Folding)
    requires query != "" && '0' <= digit <= '9' && KeepsPlain(fold)
    ensures Lower(Opened(query, digit), fold) == [Lower(query, fold)[0], digit] + Lower(query, fold)[1..]
  {
  }

  lemma {:induction false} OpenedIsNotFound(needle: string, digit: char)
    requires |needle| > 1 && digit != needle[0] && digit != needle[1]
    ensures IndexOf([needle[0], digit] + needle[1..], needle, 0).None?
  {
    var haystack := [needle[0], digit] + needle[1..];
    assert !Occurs(haystack, needle, 0) by { assert haystack[0..|needle|][1] == digit; }
    assert !Occurs(haystack, needle, 1) by { assert haystack[1..1 + |needle|][0] == digit; }
  }

  lemma {:induction false} PicksAroundTheDigit(needle: string, digit: char) returns (picks: seq<nat>)
    requires needle != ""
    ensures Picks([needle[0], digit] + needle[1..], needle, 0, picks)
    ensures |picks| == |needle| && picks[0] == 0 && picks[|picks| - 1] <= |needle|
  {
    var haystack := [needle[0], digit] + needle[1..];
    picks := seq(|needle|, i requires 0 <= i < |needle| => if i == 0 then 0 else i + 1);
    assert forall i | 1 <= i < |needle| :: haystack[i + 1] == needle[1..][i - 1] == needle[i];
  }

  lemma {:induction false} OpenedIsPicked(needle: string, digit: char)
    requires |needle| > 1 && digit != needle[0] && digit != needle[1]
    ensures var haystack := [needle[0], digit] + needle[1..];
            && IndexOf(haystack, needle, 0).None?
            && Greedy(haystack, needle, 0).Some?
            && var at := Greedy(haystack, needle, 0).value; at != [] && Spread(at) == 1
  {
    var haystack := [needle[0], digit] + needle[1..];
    OpenedIsNotFound(needle, digit);
    var picks := PicksAroundTheDigit(needle, digit);
    GreedyIsEarliest(haystack, needle, 0, picks);
    GreedyPicks(haystack, needle, 0);
    hide Greedy, IndexOf;
    var at := Greedy(haystack, needle, 0).value;
    assert at[0] <= picks[0] && at[|at| - 1] <= picks[|at| - 1];
    PickSpreads(haystack, needle, 0, at);
  }

  /** The best any scattered match of this query can do is one above the base of its tier, and some
      path does it. */
  lemma {:induction false} BestScattered(query: string, fold: Folding) returns (other: string)
    requires KeepsPlain(fold) && |query| > 1
    ensures Scattered(other, query, fold) && Score(other, query, fold) == Some(ScatteredBase(query, fold) + 1)
  {
    hide Greedy, Spread, Lower, IndexOf, Opened;
    var needle := Lower(query, fold);
    var digit: char :| digit in ['0', '1', '2'] && digit != needle[0] && digit != needle[1];
    other := Opened(query, digit);
    LowerOfOpened(query, digit, fold);
    OpenedIsPicked(needle, digit);
    if '/' in needle {
      NoSlashInName(other, query, fold);
    } else {
      NoSlashToFind(other, fold);
    }
  }

  lemma {:induction false} NoSlashToFind(path: string, fold: Folding)
    requires KeepsPlain(fold) && '/' !in Lower(path, fold)
    ensures LastIndexOfChar(path, '/') == -1
  {
    var text := Lower(path, fold);
    assert forall i | 0 <= i < |path| :: text[i] == fold(path[i]) && text[i] in text;
  }

  // ── The order of the tiers ─────────────────────────────────────────────────

  /** The contiguous hit ranks before every scattered match of the same query. */
  ghost predicate RanksFirst(path: string, query: string, fold: Folding)
    requires Contiguous(path, query, fold)
  {
    forall other | Scattered(other, query, fold) :: Score(path, query, fold).value < Score(other, query, fold).value
  }

  /** A contiguous hit comes before every scattered match of its query if and only if the query is a
      single character, which has no scattered match, or the hit is near enough to the start of the
      path that its own score does not pass the base of the scattered tier. */
  lemma {:induction false} TiersHoldExactlyWhen(path: string, query: string, fold: Folding)
    requires KeepsPlain(fold) && Contiguous(path, query, fold)
    ensures RanksFirst(path, query, fold) <==>
      |query| == 1 || Score(path, query, fold).value <= ScatteredBase(query, fold)
  {
    hide Score;
    if |query| == 1 || Score(path, query, fold).value <= ScatteredBase(query, fold) {
      forall other | Scattered(other, query, fold)
        ensures Score(path, query, fold).value < Score(other, query, fold).value
      {
        ScatteredScores(other, query, fold);
      }
    } else {
      var other := BestScattered(query, fold);
    }
  }

  // ── The order within a tier ────────────────────────────────────────────────

  /** Where a contiguous hit begins. */
  function HitAt(path: string, query: string, fold: Folding): nat
    requires Contiguous(path, query, fold)
  {
    IndexOf(Lower(path, fold), Lower(query, fold), 0).value
  }

  predicate StartsName(path: string, query: string, fold: Folding) {
    Contiguous(path, query, fold) && HitAt(path, query, fold) == LastIndexOfChar(path, '/') + 1
  }

  predicate InsideName(path: string, query: string, fold: Folding) {
    Contiguous(path, query, fold) && HitAt(path, query, fold) > LastIndexOfChar(path, '/') + 1
  }

  predicate InFolder(path: string, query: string, fold: Folding) {
    Contiguous(path, query, fold) && HitAt(path, query, fold) < LastIndexOfChar(path, '/') + 1
  }

  /** Picked out of the name alone, or only out of the whole path. */
  predicate FromName(path: string, query: string, fold: Folding) {
    && Scattered(path, query, fold)
    && Greedy(Lower(path, fold), Lower(query, fold), LastIndexOfChar(path, '/') + 1).Some?
  }

  predicate FromPath(path: string, query: string, fold: Folding) {
    Scattered(path, query, fold) && !FromName(path, query, fold)
  }

  lemma {:induction false} HitScores(path: string, query: string, fold: Folding)
    requires Contiguous(path, query, fold)
    ensures Score(path, query, fold) == Some(HitAt(path, query, fold)
      + (if StartsName(path, query, fold) then 0 else if InsideName(path, query, fold) then 100 else 300))
  {
    hide IndexOf, Lower, LastIndexOfChar, Greedy;
  }

  /** A path that begins with a digit and goes on with the query. */
  lemma {:induction false} BestInsideName(query: string, fold: Folding) returns (other: string)
    requires KeepsPlain(fold) && query != "" && '/' !in Lower(query, fold)
    ensures InsideName(other, query, fold) && Score(other, query, fold) == Some(101)
  {
    var needle := Lower(query, fold);
    var digit: char :| digit in ['0', '1'] && digit != needle[0];
    other := [digit] + query;
    var haystack := Lower(other, fold);
    assert haystack == [digit] + needle;
    assert '/' !in haystack;
    NoSlashToFind(other, fold);
    assert !Occurs(haystack, needle, 0) by { assert haystack[0..|needle|][0] == digit; }
    assert Occurs(haystack, needle, 1) by { assert haystack[1..1 + |needle|] == needle; }
    FirstIs(haystack, needle, 1);
    hide IndexOf, Lower, LastIndexOfChar, Greedy;
    HitScores(other, query, fold);
  }

  lemma {:induction false} FirstIs(haystack: string, needle: string, at: nat)
    requires Occurs(haystack, needle, at) && forall i: nat | i < at :: !Occurs(haystack, needle, i)
    ensures IndexOf(haystack, needle, 0) == Some(at)
  {
  }

  /** A path whose first folder is the query. */
  lemma {:induction false} BestInFolder(query: string, fold: Folding) returns (other: string)
    requires query != ""
    ensures InFolder(other, query, fold) && Score(other, query, fold) == Some(300)
  {
    other := query + "/" + "x";
    var haystack, needle := Lower(other, fold), Lower(query, fold);
    assert Occurs(haystack, needle, 0) by { assert haystack[0..|needle|] == needle; }
    FirstIs(haystack, needle, 0);
    assert other[|query|] == '/' && other[|query| + 1] == 'x' && |other| == |query| + 2;
    assert LastIndexOfChar(other, '/') == |query|;
    hide IndexOf, Lower, LastIndexOfChar, Greedy;
    HitScores(other, query, fold);
  }

  /** A hit at the start of the name comes before every hit further inside a name if and only if the name
      starts within the first hundred characters of its path; a hit in the name comes before every hit in
      a folder if and only if it scores below 300. */
  lemma {:induction false} NameHitsLeadExactlyWhen(path: string, query: string, fold: Folding)
    requires KeepsPlain(fold) && Contiguous(path, query, fold) && !InFolder(path, query, fold)
    ensures StartsName(path, query, fold) ==>
      ((forall other | InsideName(other, query, fold) ::
          Score(path, query, fold).value < Score(other, query, fold).value)
        <==> LastIndexOfChar(path, '/') + 1 <= 100)
    ensures
      (forall other | InFolder(other, query, fold) :: Score(path, query, fold).value < Score(other, query, fold).value)
        <==> Score(path, query, fold).value < 300
  {
    hide Score, IndexOf, Lower, LastIndexOfChar;
    HitScores(path, query, fold);
    forall other | Contiguous(other, query, fold)
      ensures InsideName(other, query, fold) ==> Score(other, query, fold).value >= 101
      ensures InFolder(other, query, fold) ==> Score(other, query, fold).value >= 300
    {
      HitScores(other, query, fold);
      NameStartIsNat(other);
    }
    if StartsName(path, query, fold) {
      HitInNameHasNoSlash(path, query, fold);
      var _ := BestInsideName(query, fold);
    }
    var _ := BestInFolder(query, fold);
  }

  lemma {:induction false} HitInNameHasNoSlash(path: string, query: string, fold: Folding)
    requires KeepsPlain(fold) && StartsName(path, query, fold)
    ensures '/' !in Lower(query, fold)
  {
    var haystack, needle, at := Lower(path, fold), Lower(query, fold), HitAt(path, query, fold);
    forall i | 0 <= i < |needle|
      ensures needle[i] != '/'
    {
      assert haystack[at..at + |needle|][i] == haystack[at + i] == fold(path[at + i]);
    }
  }

  /** A path with only the first character of the query before its name. */
  lemma {:induction false} BestFromPath(query: string, fold: Folding) returns (other: string)
    requires KeepsPlain(fold) && |query| > 1 && '/' !in Lower(query, fold)
    ensures FromPath(other, query, fold) && Score(other, query, fold) == Some(2001)
  {
    var needle := Lower(query, fold);
    other := Opened(query, '/');
    var haystack := Lower(other, fold);
    assert haystack == [needle[0], '/'] + needle[1..];
    OpenedIsPicked(needle, '/');
    forall i | 1 < i < |other|
      ensures other[i] != '/'
    {
      assert other[i] == query[i - 1] && needle[i - 1] == fold(query[i - 1]) && needle[i - 1] in needle;
    }
    assert LastIndexOfChar(other, '/') == 1;
    TooShortToPick(haystack, needle, 2);
    hide IndexOf, Lower, LastIndexOfChar, Greedy, Spread;
  }

  lemma {:induction false} TooShortToPick(haystack: string, needle: string, from: nat)
    requires needle != "" && from + |needle| > |haystack|
    ensures Greedy(haystack, needle, from).None?
  {
    GreedyPicks(haystack, needle, from);
    if Greedy(haystack, needle, from).Some? {
      var at := Greedy(haystack, needle, from).value;
      PicksAdvance(haystack, needle, from, at, |at| - 1);
    }
    hide Greedy;
  }

  /** A match picked out of a name comes before every match that needs the rest of the path if and only if
      it leaves out at most a thousand characters between. */
  lemma {:induction false} NamePicksLeadExactlyWhen(path: string, query: string, fold: Folding)
    requires KeepsPlain(fold) && FromName(path, query, fold)
    ensures
      (forall other | FromPath(other, query, fold) :: Score(path, query, fold).value < Score(other, query, fold).value)
        <==> Score(path, query, fold).value <= 2000
  {
    ScatteredScores(path, query, fold);
    if '/' in Lower(query, fold) { NoSlashInName(path, query, fold); }
    forall other | FromPath(other, query, fold)
      ensures Score(other, query, fold).value > 2000
    {
      FromPathScores(other, query, fold);
    }
    hide Score, Greedy, Lower, IndexOf;
    var _ := BestFromPath(query, fold);
  }

  lemma {:induction false} FromPathScores(path: string, query: string, fold: Folding)
    requires KeepsPlain(fold) && FromPath(path, query, fold)
    ensures Score(path, query, fold).value > 2000
  {
    var haystack, needle := Lower(path, fold), Lower(query, fold);
    GreedyPicks(haystack, needle, 0);
    hide Greedy, Picks, Lower, Spread;
    PickSpreads(haystack, needle, 0, Greedy(haystack, needle, 0).value);
  }

  lemma {:induction false} NameStartIsNat(path: string)
    ensures LastIndexOfChar(path, '/') + 1 >= 0
  {
  }

  // ── A path where the order inverts ─────────────────────────────────────────

  const LONG_NAME: string := seq(255, _ => 'a')
  const DEEP_PATH: string := LONG_NAME + "/" + LONG_NAME + "/" + LONG_NAME + "/" + "zz" + "/" + "a"

  lemma {:induction false} DeepPathIsValid()
    ensures Split(DEEP_PATH, '/') == [LONG_NAME, LONG_NAME, LONG_NAME, "zz", "a"]
    ensures ValidPath(DEEP_PATH) && |DEEP_PATH| == 772
  {
    hide Split;
    var l := LONG_NAME;
    assert forall i | 0 <= i < |l| :: l[i] == 'a';
    SplitOfPlain("a", '/');
    SplitAtFirst("zz", "a", '/');
    var one := "zz" + "/" + "a";
    SplitAtFirst(l, one, '/');
    var two := l + "/" + one;
    SplitAtFirst(l, two, '/');
    var three := l + "/" + two;
    SplitAtFirst(l, three, '/');
    assert DEEP_PATH == l + "/" + three;
    PlainIsValid(l);
    PlainIsValid("zz");
    PlainIsValid("a");
    var parts := [l, l, l, "zz", "a"];
    assert Split(DEEP_PATH, '/') == parts;
    hide ValidSegment;
    assert forall i | 0 <= i < |parts| :: ValidSegment(parts[i]);
  }

  lemma {:induction false} PlainIsValid(segment: string)
    requires 0 < |segment| <= MAX_SEGMENT_LENGTH && forall i | 0 <= i < |segment| :: 'a' <= segment[i] <= 'z'
    ensures ValidSegment(segment)
  {
    assert segment[0] != '.';
  }

  /** Paths a project can hold, where a contiguous hit ranks behind a scattered one. */
  lemma {:induction false} LateHitRanksBehind(fold: Folding)
    requires KeepsPlain(fold)
    ensures ValidPath(DEEP_PATH) && Contiguous(DEEP_PATH, "zz", fold) && Score(DEEP_PATH, "zz", fold) == Some(1068)
    ensures ValidPath("z0z") && Scattered("z0z", "zz", fold) && Score("z0z", "zz", fold) == Some(1001)
    ensures !RanksFirst(DEEP_PATH, "zz", fold)
  {
    DeepPathIsValid();
    DeepPathIsHitLate(fold);
    ShortPathIsValid();
    ShortPathIsScattered(fold);
    hide ValidPath, Score, Contiguous;
  }

  lemma {:induction false} DeepPathIsHitLate(fold: Folding)
    requires KeepsPlain(fold)
    ensures IndexOf(Lower(DEEP_PATH, fold), Lower("zz", fold), 0) == Some(768) && LastIndexOfChar(DEEP_PATH, '/') == 770
    ensures Contiguous(DEEP_PATH, "zz", fold) && Score(DEEP_PATH, "zz", fold) == Some(1068)
  {
    var path, text, needle := DEEP_PATH, Lower(DEEP_PATH, fold), Lower("zz", fold);
    assert |path| == 772 && path[768] == path[769] == 'z' && path[770] == '/' && path[771] == 'a';
    forall i | 0 <= i < 768
      ensures path[i] != 'z' && text[i] != 'z'
    {
      assert path[i] == 'a' || path[i] == '/';
    }
    assert text[768] == text[769] == 'z' && needle == "zz";
    assert text[768..770] == needle;
    assert Occurs(text, needle, 768);
    forall i: nat | i < 768
      ensures !Occurs(text, needle, i)
    {
      assert needle[0] == 'z' && (i + 2 <= |text| ==> text[i..i + 2][0] == text[i]);
    }
    hide IndexOf, LastIndexOfChar, Greedy;
  }

  lemma {:induction false} ShortPathIsValid()
    ensures ValidPath("z0z")
  {
    SplitOfPlain("z0z", '/');
    assert ValidSegment("z0z");
  }

  lemma {:induction false} ShortPathIsScattered(fold: Folding)
    requires KeepsPlain(fold)
    ensures Scattered("z0z", "zz", fold) && Score("z0z", "zz", fold) == Some(1001)
  {
    var path, needle := "z0z", Lower("zz", fold);
    assert path == Opened("zz", '0') && needle == "zz";
    LowerOfOpened("zz", '0', fold);
    OpenedIsPicked(needle, '0');
    assert '/' !in Lower(path, fold);
    NoSlashToFind(path, fold);
    hide IndexOf, LastIndexOfChar, Greedy, Spread, Lower;
  }

  const LATE_NAME: string := seq(199, _ => 'a') + "/" + "bzz"

  /** Paths a project can hold, where a hit in a file's own name ranks behind a hit in a folder. */
  lemma {:induction false} LateNameHitRanksBehind(fold: Folding)
    requires KeepsPlain(fold)
    ensures ValidPath(LATE_NAME) && InsideName(LATE_NAME, "zz", fold) && Score(LATE_NAME, "zz", fold) == Some(301)
    ensures ValidPath("zz/x") && InFolder("zz/x", "zz", fold) && Score("zz/x", "zz", fold) == Some(300)
  {
    TwoSegmentsAreValid(seq(199, _ => 'a'), "bzz");
    assert "zz" + "/" + "x" == "zz/x";
    TwoSegmentsAreValid("zz", "x");
    hide ValidPath;
    LateNameIsHit(fold);
    ShortFolderIsHit(fold);
    hide Score, IndexOf, Lower, LastIndexOfChar;
    HitScores(LATE_NAME, "zz", fold);
    HitScores("zz/x", "zz", fold);
  }

  lemma {:induction false} TwoSegmentsAreValid(directory: string, name: string)
    requires 0 < |directory| <= MAX_SEGMENT_LENGTH && forall i | 0 <= i < |directory| :: 'a' <= directory[i] <= 'z'
    requires 0 < |name| <= MAX_SEGMENT_LENGTH && forall i | 0 <= i < |name| :: 'a' <= name[i] <= 'z'
    ensures ValidPath(directory + "/" + name)
  {
    hide Split;
    SplitOfPlain(name, '/');
    SplitAtFirst(directory, name, '/');
    PlainIsValid(directory);
    PlainIsValid(name);
  }

  lemma {:induction false} LateNameIsHit(fold: Folding)
    requires KeepsPlain(fold)
    ensures IndexOf(Lower(LATE_NAME, fold), Lower("zz", fold), 0) == Some(201) && LastIndexOfChar(LATE_NAME, '/') == 199
  {
    var path, text, needle := LATE_NAME, Lower(LATE_NAME, fold), Lower("zz", fold);
    assert |path| == 203 && path[199] == '/' && path[200] == 'b' && path[201] == path[202] == 'z';
    forall i | 0 <= i < 201
      ensures path[i] != 'z' && text[i] != 'z'
    {
      assert path[i] == 'a' || path[i] == '/' || path[i] == 'b';
    }
    assert needle == "zz" && text[201..203] == needle;
    assert Occurs(text, needle, 201);
    forall i: nat | i < 201
      ensures !Occurs(text, needle, i)
    {
      assert i + 2 <= |text| ==> text[i..i + 2][0] == text[i];
    }
    FirstIs(text, needle, 201);
  }

  lemma {:induction false} ShortFolderIsHit(fold: Folding)
    requires KeepsPlain(fold)
    ensures IndexOf(Lower("zz/x", fold), Lower("zz", fold), 0) == Some(0) && LastIndexOfChar("zz/x", '/') == 2
  {
    var text, needle := Lower("zz/x", fold), Lower("zz", fold);
    assert text[0..2] == needle;
    FirstIs(text, needle, 0);
  }
}
