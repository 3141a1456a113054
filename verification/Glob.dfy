/** The glob matcher (crdt/dataplane.go): a loop with one backtrack point against the recursive
    meaning of a pattern. */
module Glob {

  type Byte = n: nat | n < 256

  const STAR: Byte := 42
  const ANY: Byte := 63
  const OPEN: Byte := 91
  const CLOSE: Byte := 93
  const NEGATE: Byte := 94
  const ESCAPE: Byte := 92
  const DASH: Byte := 45

  // ---------- What a pattern means ----------

  /** Single characters and ranges of a class. */
  predicate InClass(b: Byte, members: seq<Byte>)
    decreases |members|
  {
    if members == [] then false
    else if |members| > 2 && members[1] == DASH then members[0] <= b <= members[2] || InClass(b, members[3..])
    else b == members[0] || InClass(b, members[1..])
  }

  /** The first closing bracket from position i on. */
  function CloseFrom(p: seq<Byte>, i: nat): (r: nat)
    requires i <= |p|
    ensures i <= r <= |p| && (r < |p| ==> p[r] == CLOSE)
    decreases |p| - i
  {
    if i == |p| || p[i] == CLOSE then i else CloseFrom(p, i + 1)
  }

  predicate Negated(p: seq<Byte>) {
    |p| > 1 && p[1] == NEGATE
  }

  function ClassStart(p: seq<Byte>): nat {
    if Negated(p) then 2 else 1
  }

  /** Length of the leading one-character token; 0 if it is malformed and matches nothing. */
  function TokenLength(p: seq<Byte>): (n: nat)
    requires p != []
    ensures n <= |p|
  {
    if p[0] == OPEN then
      var end := CloseFrom(p, ClassStart(p));
      if end < |p| then end + 1 else 0
    else if p[0] == ESCAPE then if |p| > 1 then 2 else 0
    else 1
  }

  /** The character a well-formed leading token accepts. */
  predicate Accepts(p: seq<Byte>, b: Byte)
    requires p != [] && TokenLength(p) > 0
  {
    if p[0] == OPEN then InClass(b, p[ClassStart(p)..TokenLength(p) - 1]) != Negated(p)
    else if p[0] == ESCAPE then b == p[1]
    else p[0] == ANY || b == p[0]
  }

  /** A star matches any run of characters; every other token matches one. */
  predicate Matches(s: seq<Byte>, p: seq<Byte>)
    decreases |p|, |s|
  {
    if p == [] then s == []
    else if p[0] == STAR then Matches(s, p[1..]) || (s != [] && Matches(s[1..], p))
    else s != [] && TokenLength(p) > 0 && Accepts(p, s[0]) && Matches(s[1..], p[TokenLength(p)..])
  }

  // ---------- Facts about stars and runs of tokens ----------

  predicate At(s: seq<Byte>, i: nat, p: seq<Byte>, j: nat)
    requires i <= |s| && j <= |p|
  {
    Matches(s[i..], p[j..])
  }

  /** A star absorbs whatever lies before a match of it. */
  lemma {:induction false} StarAbsorbs(s: seq<Byte>, i: nat, k: nat, p: seq<Byte>, j: nat)
    requires i <= k <= |s| && j < |p| && p[j] == STAR && At(s, k, p, j)
    ensures At(s, i, p, j)
    decreases k - i
  {
    if i < k {
      StarAbsorbs(s, i + 1, k, p, j);
      assert s[i..][1..] == s[i + 1..];
    }
  }

  /** From a to b the pattern holds exactly n one-character tokens. */
  predicate Run(p: seq<Byte>, a: nat, b: nat, n: nat)
    requires a <= |p|
    decreases n
  {
    if n == 0 then a == b else a < |p| && p[a] != STAR && TokenLength(p[a..]) > 0 && Run(p, a + TokenLength(p[a..]), b, n - 1)
  }

  lemma {:induction false} RunEnds(p: seq<Byte>, a: nat, b: nat, n: nat)
    requires a <= |p| && Run(p, a, b, n)
    ensures a <= b <= |p|
    decreases n
  {
    if n > 0 {
      RunEnds(p, a + TokenLength(p[a..]), b, n - 1);
    }
  }

  lemma {:induction false} RunExtends(p: seq<Byte>, a: nat, b: nat, n: nat)
    requires a <= |p| && Run(p, a, b, n) && b < |p| && p[b] != STAR && TokenLength(p[b..]) > 0
    ensures Run(p, a, b + TokenLength(p[b..]), n + 1)
    decreases n
  {
    if n > 0 {
      RunExtends(p, a + TokenLength(p[a..]), b, n - 1);
    }
  }

  /** A match of a run of n tokens has used n characters when it reaches the end of the run. */
  lemma {:induction false} RunConsumes(s: seq<Byte>, i: nat, p: seq<Byte>, a: nat, b: nat, n: nat)
    requires i <= |s| && a <= |p| && Run(p, a, b, n) && At(s, i, p, a)
    ensures i + n <= |s| && b <= |p| && At(s, i + n, p, b)
    decreases n
  {
    RunEnds(p, a, b, n);
    if n > 0 {
      var len := TokenLength(p[a..]);
      assert s[i..][1..] == s[i + 1..] && p[a..][len..] == p[a + len..];
      RunConsumes(s, i + 1, p, a + len, b, n - 1);
    }
  }

  // ---------- The loop ----------

  /** Another place for the latest star still leads to a match. */
  ghost predicate Elsewhere(s: seq<Byte>, p: seq<Byte>, after: nat, from: nat)
    requires after <= |p|
  {
    exists k :: from < k <= |s| && At(s, k, p, after)
  }

  /** Places for an earlier star add nothing once a later star has been reached. */
  lemma LaterStarCovers(s: seq<Byte>, si: nat, p: seq<Byte>, pi: nat, star: nat, from: nat)
    requires star < pi < |p| && from <= si <= |s| && p[pi] == STAR && Run(p, star + 1, pi, si - from) && Elsewhere(s, p, star + 1, from)
    ensures At(s, si, p, pi)
  {
    var k :| from < k <= |s| && At(s, k, p, star + 1);
    RunConsumes(s, k, p, star + 1, pi, si - from);
    StarAbsorbs(s, si, k + (si - from), p, pi);
  }

  /** At the end of the input no other place is left. */
  lemma NowhereElse(s: seq<Byte>, p: seq<Byte>, pi: nat, star: nat, from: nat)
    requires star < pi <= |p| && from <= |s| && Run(p, star + 1, pi, |s| - from)
    ensures !Elsewhere(s, p, star + 1, from)
  {
    var after := star + 1;
    forall k | from < k <= |s| ensures !At(s, k, p, after) {
      if At(s, k, p, after) {
        RunConsumes(s, k, p, after, pi, |s| - from);
      }
    }
  }

  /** What is still possible: from here, or from another place of the latest star. */
  ghost predicate Possible(s: seq<Byte>, si: nat, p: seq<Byte>, pi: nat, star: int, from: nat)
    requires si <= |s| && pi <= |p| && star < |p|
  {
    At(s, si, p, pi) || (star >= 0 && Elsewhere(s, p, star + 1, from))
  }

  lemma TokenStep(s: seq<Byte>, si: nat, p: seq<Byte>, pi: nat)
    requires si < |s| && pi < |p| && p[pi] != STAR
    ensures At(s, si, p, pi) <==> TokenLength(p[pi..]) > 0 && Accepts(p[pi..], s[si]) && At(s, si + 1, p, pi + TokenLength(p[pi..]))
  {
    assert s[si..][1..] == s[si + 1..] && p[pi..][TokenLength(p[pi..])..] == p[pi + TokenLength(p[pi..])..];
  }

  lemma StarStep(s: seq<Byte>, si: nat, p: seq<Byte>, pi: nat)
    requires si <= |s| && pi < |p| && p[pi] == STAR
    ensures At(s, si, p, pi) <==> At(s, si, p, pi + 1) || Elsewhere(s, p, pi + 1, si)
    decreases |s| - si
  {
    assert p[pi..][1..] == p[pi + 1..];
    if si < |s| {
      assert s[si..][1..] == s[si + 1..];
      StarStep(s, si + 1, p, pi);
    }
  }

  lemma Backtrack(s: seq<Byte>, p: seq<Byte>, star: nat, from: nat)
    requires star < |p| && from < |s|
    ensures Elsewhere(s, p, star + 1, from) <==> At(s, from + 1, p, star + 1) || Elsewhere(s, p, star + 1, from + 1)
  {
  }

  method MatchCharClass(b: Byte, members: seq<Byte>) returns (r: bool)
    ensures r <==> InClass(b, members)
  {
    var i := 0;
    while i < |members|
      invariant 0 <= i <= |members| && (InClass(b, members) <==> InClass(b, members[i..]))
    {
      var rest := members[i..];
      if i + 2 < |members| && members[i + 1] == DASH {
        assert rest[3..] == members[i + 3..];
        if members[i] <= b <= members[i + 2] {
          return true;
        }
        i := i + 3;
      } else {
        assert rest[1..] == members[i + 1..];
        if b == members[i] {
          return true;
        }
        i := i + 1;
      }
    }
    return false;
  }

  /** Whether the token at the front of the pattern accepts the character, and its length. */
  method MatchToken(b: Byte, pattern: seq<Byte>, pi: nat) returns (ok: bool, next: nat)
    requires pi < |pattern| && pattern[pi] != STAR
    ensures ok <==> TokenLength(pattern[pi..]) > 0 && Accepts(pattern[pi..], b)
    ensures ok ==> next == pi + TokenLength(pattern[pi..])
  {
    ghost var p := pattern[pi..];
    if pattern[pi] == ANY {
      return true, pi + 1;
    } else if pattern[pi] == OPEN {
      var start, negate := pi + 1, false;
      if start < |pattern| && pattern[start] == NEGATE {
        start, negate := start + 1, true;
      }
      assert start == pi + ClassStart(p) && negate == Negated(p);
      var end := start;
      while end < |pattern| && pattern[end] != CLOSE
        invariant start <= end <= |pattern| && CloseFrom(p, ClassStart(p)) == CloseFrom(p, end - pi)
      {
        end := end + 1;
      }
      assert CloseFrom(p, ClassStart(p)) == end - pi;
      if end >= |pattern| {
        return false, pi;
      }
      assert pattern[start..end] == p[ClassStart(p)..TokenLength(p) - 1];
      var matched := MatchCharClass(b, pattern[start..end]);
      return matched != negate, end + 1;
    } else if pattern[pi] == ESCAPE {
      if pi + 1 < |pattern| && b == pattern[pi + 1] {
        return true, pi + 2;
      }
      return false, pi;
    } else {
      return b == pattern[pi], pi + 1;
    }
  }

  method MatchGlobPattern(s: seq<Byte>, pattern: seq<Byte>) returns (r: bool)
    ensures r <==> Matches(s, pattern)
  {
    hide Matches, Elsewhere, At;
    var si, pi := 0, 0;
    var starIdx, matchIdx := -1, 0;
    WholeIsAt(s, pattern);
    while si < |s|
      invariant 0 <= si <= |s| && 0 <= pi <= |pattern| && -1 <= starIdx < |pattern| && 0 <= matchIdx <= si
      invariant starIdx >= 0 ==> starIdx < pi && Run(pattern, starIdx + 1, pi, si - matchIdx)
      invariant Matches(s, pattern) <==> Possible(s, si, pattern, pi, starIdx, matchIdx)
      decreases |pattern| - starIdx, |s| - matchIdx, |pattern| - pi
    {
      if pi < |pattern| && pattern[pi] == STAR {
        if starIdx >= 0 && Elsewhere(s, pattern, starIdx + 1, matchIdx) {
          LaterStarCovers(s, si, pattern, pi, starIdx, matchIdx);
        }
        StarStep(s, si, pattern, pi);
        starIdx, matchIdx := pi, si;
        pi := pi + 1;
        continue;
      }
      if pi < |pattern| {
        TokenStep(s, si, pattern, pi);
        var ok, next := MatchToken(s[si], pattern, pi);
        if ok {
          if starIdx >= 0 {
            RunExtends(pattern, starIdx + 1, pi, si - matchIdx);
          }
          si, pi := si + 1, next;
          continue;
        }
      } else {
        NothingLeft(s, si, pattern);
      }
      if starIdx < 0 {
        return false;
      }
      Backtrack(s, pattern, starIdx, matchIdx);
      matchIdx := matchIdx + 1;
      si, pi := matchIdx, starIdx + 1;
    }
    if starIdx >= 0 {
      NowhereElse(s, pattern, pi, starIdx, matchIdx);
    }
    r := AllStars(s, pattern, pi);
  }

  lemma WholeIsAt(s: seq<Byte>, p: seq<Byte>)
    ensures At(s, 0, p, 0) <==> Matches(s, p)
  {
    assert s[0..] == s && p[0..] == p;
  }

  lemma NothingLeft(s: seq<Byte>, si: nat, p: seq<Byte>)
    requires si < |s|
    ensures !At(s, si, p, |p|)
  {
  }

  /** Whether the rest of the pattern matches nothing at all. */
  method AllStars(s: seq<Byte>, pattern: seq<Byte>, from: nat) returns (r: bool)
    requires from <= |pattern|
    ensures r <==> At(s, |s|, pattern, from)
  {
    var pi := from;
    while pi < |pattern|
      invariant from <= pi <= |pattern| && (At(s, |s|, pattern, from) <==> At(s, |s|, pattern, pi))
    {
      if pattern[pi] != STAR {
        return false;
      }
      assert pattern[pi..][1..] == pattern[pi + 1..];
      pi := pi + 1;
    }
    return true;
  }
}
