/**
  The package identifier the chat assistant looks for: the first match of the
  regular expression `\d{2,3}\.\w{1,2}\.\d{1,3}` in the user's text, as
  `String.prototype.match` finds it (leftmost start, greedy quantifiers,
  backtracking). `MatchAt` follows the engine's order of attempts; the lemmas
  show that it yields the longest identifier at the leftmost position where
  any identifier starts.
*/
module PackageId {
  import opened Wrappers
  import opened Text

  /** `n` characters from index `p` on are digits. */
  predicate DigitsAt(s: string, p: nat, n: nat) {
    p + n <= |s| && forall j | p <= j < p + n :: IsDigit(s[j])
  }

  /** `n` characters from index `p` on are word characters. */
  predicate WordCharsAt(s: string, p: nat, n: nat) {
    p + n <= |s| && forall j | p <= j < p + n :: IsWordChar(s[j])
  }

  predicate DotAt(s: string, p: nat) {
    p < |s| && s[p] == '.'
  }

  /** How many characters each of the three repeated groups took. */
  datatype Groups = Groups(a: nat, b: nat, c: nat) {
    function Length(): nat { a + b + c + 2 }
    predicate InRange() { 2 <= a <= 3 && 1 <= b <= 2 && 1 <= c <= 3 }
  }

  /** The pattern matches at index `i` of `s` with the group sizes `g`. */
  predicate ShapeAt(s: string, i: nat, g: Groups) {
    && g.InRange()
    && DigitsAt(s, i, g.a) && DotAt(s, i + g.a)
    && WordCharsAt(s, i + g.a + 1, g.b) && DotAt(s, i + g.a + 1 + g.b)
    && DigitsAt(s, i + g.a + 2 + g.b, g.c)
  }

  /** The whole of `t` is a package identifier. */
  ghost predicate IsPackageId(t: string) {
    exists g: Groups :: ShapeAt(t, 0, g) && g.Length() == |t|
  }

  // ---------------------------------------------------------------------------
  // the engine

  /** `\d{1,n}`, greedy, at `p`: the number of digits taken. */
  function LastGroup(s: string, p: nat, n: nat): (r: Option<nat>)
    ensures r.Some? ==> 1 <= r.value <= n && DigitsAt(s, p, r.value)
  {
    if n == 0 then None
    else if DigitsAt(s, p, n) then Some(n)
    else LastGroup(s, p, n - 1)
  }

  /** `\w{1,n}\.\d{1,3}` at `p`, backtracking into the `\w` group: the sizes of both groups. */
  function MiddleGroups(s: string, p: nat, n: nat): (r: Option<(nat, nat)>)
    ensures r.Some? ==> 1 <= r.value.0 <= n && 1 <= r.value.1 <= 3
    ensures r.Some? ==> WordCharsAt(s, p, r.value.0) && DotAt(s, p + r.value.0) && DigitsAt(s, p + r.value.0 + 1, r.value.1)
  {
    if n == 0 then None
    else if WordCharsAt(s, p, n) && DotAt(s, p + n) then
      match LastGroup(s, p + n + 1, 3)
      case Some(c) => Some((n, c))
      case None => MiddleGroups(s, p, n - 1)
    else MiddleGroups(s, p, n - 1)
  }

  /** `\d{2,n}\.` followed by the rest of the pattern at `i`, backtracking into the first group. */
  function MatchAt(s: string, i: nat, n: nat): (r: Option<Groups>)
    requires n <= 3
    ensures r.Some? ==> ShapeAt(s, i, r.value) && r.value.a <= n
  {
    if n < 2 then None
    else if DigitsAt(s, i, n) && DotAt(s, i + n) then
      match MiddleGroups(s, i + n + 1, 2)
      case Some((b, c)) => Some(Groups(n, b, c))
      case None => MatchAt(s, i, n - 1)
    else MatchAt(s, i, n - 1)
  }

  /** Where a match starts and how its groups were sized. */
  datatype Hit = Hit(start: nat, groups: Groups)

  /** The engine's scan: try each start position from `i` on, left to right. */
  function Search(s: string, i: nat): (r: Option<Hit>)
    ensures r.Some? ==> i <= r.value.start && MatchAt(s, r.value.start, 3) == Some(r.value.groups)
    decreases |s| - i
  {
    if i > |s| then None
    else
      match MatchAt(s, i, 3)
      case Some(g) => Some(Hit(i, g))
      case None => Search(s, i + 1)
  }

  /** `text.match(/\d{2,3}\.\w{1,2}\.\d{1,3}/)?.[0]`. */
  function FindPackageId(text: string): (m: Option<string>)
    ensures m.Some? ==> 6 <= |m.value| <= 10
  {
    match Search(text, 0)
    case Some(h) => Some(text[h.start..h.start + h.groups.Length()])
    case None => None
  }

  // ---------------------------------------------------------------------------
  // what the engine computes

  /** The group sizes at a start position are forced: a digit, a word character and '.' exclude each other. */
  lemma GroupSizesForced(s: string, i: nat, g: Groups, h: Groups)
    requires ShapeAt(s, i, g) && ShapeAt(s, i, h)
    ensures g.a == h.a && g.b == h.b
  {
    var j := i + 2;
    assert (g.a == 3 ==> IsDigit(s[j])) && (g.a == 2 ==> s[j] == '.');
    assert (h.a == 3 ==> IsDigit(s[j])) && (h.a == 2 ==> s[j] == '.');
    var k := i + g.a + 2;
    assert (g.b == 2 ==> IsWordChar(s[k])) && (g.b == 1 ==> s[k] == '.');
    assert (h.b == 2 ==> IsWordChar(s[k])) && (h.b == 1 ==> s[k] == '.');
  }

  lemma {:induction false} LastGroupGreedy(s: string, p: nat, n: nat, c: nat)
    requires 1 <= c <= n && DigitsAt(s, p, c)
    ensures LastGroup(s, p, n).Some? && LastGroup(s, p, n).value >= c
  {
    if !DigitsAt(s, p, n) {
      LastGroupGreedy(s, p, n - 1, c);
    }
  }

  /** With a match of sizes `g` at `i`, the engine finds one at `i` whose last group is at least as long. */
  lemma MatchAtFinds(s: string, i: nat, g: Groups)
    requires ShapeAt(s, i, g)
    ensures MatchAt(s, i, 3).Some?
    ensures MatchAt(s, i, 3).value.c >= g.c
  {
    var p := i + g.a + 1;
    LastGroupGreedy(s, p + g.b + 1, 3, g.c);
    var c := LastGroup(s, p + g.b + 1, 3).value;
    if g.b == 1 {
      assert !WordCharsAt(s, p, 2) by { assert s[p + 1] == '.'; }
    }
    assert MiddleGroups(s, p, 2) == Some((g.b, c));
    if g.a == 2 {
      assert !DigitsAt(s, i, 3) by { assert s[i + 2] == '.'; }
    }
    assert MatchAt(s, i, 3) == Some(Groups(g.a, g.b, c));
  }

  /** The identifier found at a start position is the longest one starting there. */
  lemma MatchAtLongest(s: string, i: nat, g: Groups)
    requires ShapeAt(s, i, g)
    ensures MatchAt(s, i, 3).Some? && MatchAt(s, i, 3).value.Length() >= g.Length()
  {
    MatchAtFinds(s, i, g);
    GroupSizesForced(s, i, g, MatchAt(s, i, 3).value);
  }

  /** A piece of `s` is an identifier exactly when the pattern matches `s` there. */
  lemma SliceShape(s: string, j: nat, k: nat, g: Groups)
    requires j + k <= |s| && g.Length() == k
    ensures ShapeAt(s[j..j + k], 0, g) <==> ShapeAt(s, j, g)
  {
    var t := s[j..j + k];
    assert forall x | 0 <= x < k :: t[x] == s[j + x];
  }

  lemma {:induction false} SearchLeftmost(s: string, i: nat, j: nat, g: Groups)
    requires i <= j && ShapeAt(s, j, g)
    ensures Search(s, i).Some? && Search(s, i).value.start <= j
    decreases |s| - i
  {
    if i < j && MatchAt(s, i, 3).None? {
      SearchLeftmost(s, i + 1, j, g);
    }
    if i == j {
      MatchAtFinds(s, j, g);
    }
  }

  /** The piece of `s` of length `k` at `j` is an identifier. */
  ghost predicate IdAt(s: string, j: nat, k: nat) {
    j + k <= |s| && IsPackageId(s[j..j + k])
  }

  lemma IdAtShape(s: string, j: nat, k: nat) returns (g: Groups)
    requires IdAt(s, j, k)
    ensures ShapeAt(s, j, g) && g.Length() == k
  {
    g :| ShapeAt(s[j..j + k], 0, g) && g.Length() == k;
    SliceShape(s, j, k, g);
  }

  /** No identifier starts before the position the scan stopped at. */
  lemma NoIdBefore(text: string)
    requires Search(text, 0).Some?
    ensures forall j: nat, k: nat | j < Search(text, 0).value.start :: !IdAt(text, j, k)
  {
    forall j: nat, k: nat | j < Search(text, 0).value.start
      ensures !IdAt(text, j, k)
    {
      if IdAt(text, j, k) {
        var g := IdAtShape(text, j, k);
        SearchLeftmost(text, 0, j, g);
      }
    }
  }

  /** No longer identifier starts where the scan stopped. */
  lemma NoLongerIdAtHit(text: string)
    requires Search(text, 0).Some?
    ensures var h := Search(text, 0).value;
      forall k: nat | k > h.groups.Length() :: !IdAt(text, h.start, k)
  {
    var h := Search(text, 0).value;
    forall k: nat | k > h.groups.Length()
      ensures !IdAt(text, h.start, k)
    {
      if IdAt(text, h.start, k) {
        var g := IdAtShape(text, h.start, k);
        MatchAtLongest(text, h.start, g);
      }
    }
  }

  /**
    The identifier found is an identifier, occurs in the text, starts at the
    leftmost position where any identifier starts, and is the longest one
    starting there.
  */
  lemma FoundIsLeftmostLongest(text: string)
    requires FindPackageId(text).Some?
    ensures var m := FindPackageId(text).value;
      exists st: nat :: OccursAt(text, m, st) && IdAt(text, st, |m|)
        && (forall j: nat, k: nat | j < st :: !IdAt(text, j, k))
        && (forall k: nat | k > |m| :: !IdAt(text, st, k))
  {
    var h := Search(text, 0).value;
    var st, n := h.start, h.groups.Length();
    var m := FindPackageId(text).value;
    assert ShapeAt(text, st, h.groups);
    assert m == text[st..st + n];
    SliceShape(text, st, n, h.groups);
    assert IdAt(text, st, n);
    assert OccursAt(text, m, st);
    NoIdBefore(text);
    NoLongerIdAtHit(text);
    assert |m| == n;
    assert (forall j: nat, k: nat | j < st :: !IdAt(text, j, k))
      && (forall k: nat | k > |m| :: !IdAt(text, st, k));
  }

  /** When nothing is found, no piece of the text is an identifier. */
  lemma NotFoundMeansNone(text: string)
    requires FindPackageId(text).None?
    ensures forall j: nat, k: nat :: !IdAt(text, j, k)
  {
    forall j: nat, k: nat
      ensures !IdAt(text, j, k)
    {
      if IdAt(text, j, k) {
        var g := IdAtShape(text, j, k);
        SearchLeftmost(text, 0, j, g);
      }
    }
  }
}
