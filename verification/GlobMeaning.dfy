/** What a glob pattern means, said on its parts: a pattern is a list of tokens written one after
    the other, and it matches a string exactly if the string splits into one part per token. */
module GlobMeaning {
  import opened Glob

  // ---------- Tokens ----------

  datatype Item = Single(b: Byte) | Range(lo: Byte, hi: Byte)

  datatype Token = Plain(b: Byte) | Escaped(b: Byte) | AnyOne | AnyRun | Class(items: seq<Item>, negated: bool)

  function ItemBytes(it: Item): seq<Byte> {
    match it
    case Single(b) => [b]
    case Range(lo, hi) => [lo, 45, hi]
  }

  function BodyBytes(items: seq<Item>): seq<Byte> {
    if items == [] then [] else ItemBytes(items[0]) + BodyBytes(items[1..])
  }

  /** How a token is written: `\`, `?`, `*`, `[`, `^` and `]` as ASCII. */
  function TokenBytes(t: Token): seq<Byte> {
    match t
    case Plain(b) => [b]
    case Escaped(b) => [92, b]
    case AnyOne => [63]
    case AnyRun => [42]
    case Class(items, negated) => [91] + (if negated then [94] else []) + BodyBytes(items) + [93]
  }

  function Print(ts: seq<Token>): seq<Byte> {
    if ts == [] then [] else TokenBytes(ts[0]) + Print(ts[1..])
  }

  /** A single character is not the start of what reads as a range, and no item closes the class. */
  predicate BodyReads(items: seq<Item>) {
    items == [] ||
    (93 !in ItemBytes(items[0]) && BodyReads(items[1..]) &&
     (items[0].Single? ==> var rest := BodyBytes(items[1..]); !(|rest| >= 2 && rest[0] == 45)))
  }

  /** The token, as written, reads as itself. */
  predicate Reads(t: Token) {
    match t
    case Plain(b) => b != 42 && b != 63 && b != 91 && b != 92
    case Class(items, negated) => BodyReads(items) && (!negated && items != [] ==> BodyBytes(items)[0] != 94)
    case _ => true
  }

  /** A class that is never closed, or an escape at the end. */
  predicate Malformed(tail: seq<Byte>) {
    tail == [92] || (tail != [] && tail[0] == 91 && 93 !in tail)
  }

  // ---------- Meaning ----------

  predicate Has(it: Item, b: Byte) {
    match it
    case Single(x) => b == x
    case Range(lo, hi) => lo <= b <= hi
  }

  predicate AnyHas(items: seq<Item>, b: Byte) {
    exists i :: 0 <= i < |items| && Has(items[i], b)
  }

  predicate PartFits(part: seq<Byte>, t: Token) {
    match t
    case Plain(b) => part == [b]
    case Escaped(b) => part == [b]
    case AnyOne => |part| == 1
    case AnyRun => true
    case Class(items, negated) => |part| == 1 && AnyHas(items, part[0]) != negated
  }

  function Joined(parts: seq<seq<Byte>>): seq<Byte> {
    if parts == [] then [] else parts[0] + Joined(parts[1..])
  }

  predicate Splits(s: seq<Byte>, ts: seq<Token>, parts: seq<seq<Byte>>) {
    |parts| == |ts| && Joined(parts) == s && forall i :: 0 <= i < |ts| ==> PartFits(parts[i], ts[i])
  }

  ghost predicate Fits(s: seq<Byte>, ts: seq<Token>) {
    exists parts :: Splits(s, ts, parts)
  }

  // ---------- Splitting off the first part ----------

  lemma FitsFirst(s: seq<Byte>, ts: seq<Token>, n: nat)
    requires ts != [] && n <= |s| && PartFits(s[..n], ts[0]) && Fits(s[n..], ts[1..])
    ensures Fits(s, ts)
  {
    var rest :| Splits(s[n..], ts[1..], rest);
    var parts := [s[..n]] + rest;
    assert parts[1..] == rest && Joined(parts) == s[..n] + s[n..] == s;
    forall i | 0 <= i < |ts| ensures PartFits(parts[i], ts[i]) {
      assert i > 0 ==> parts[i] == rest[i - 1] && ts[i] == ts[1..][i - 1];
    }
    assert Splits(s, ts, parts);
  }

  lemma FirstOf(s: seq<Byte>, ts: seq<Token>) returns (n: nat)
    requires ts != [] && Fits(s, ts)
    ensures n <= |s| && PartFits(s[..n], ts[0]) && Fits(s[n..], ts[1..])
  {
    var parts :| Splits(s, ts, parts);
    n := |parts[0]|;
    assert s == parts[0] + Joined(parts[1..]);
    assert s[..n] == parts[0] && s[n..] == Joined(parts[1..]);
    assert Splits(s[n..], ts[1..], parts[1..]);
  }

  lemma FitsRun(s: seq<Byte>, ts: seq<Token>)
    requires ts != [] && ts[0] == AnyRun
    ensures Fits(s, ts) <==> Fits(s, ts[1..]) || (s != [] && Fits(s[1..], ts))
  {
    if Fits(s, ts[1..]) {
      assert s[0..] == s;
      FitsFirst(s, ts, 0);
    }
    if s != [] && Fits(s[1..], ts) {
      var n := FirstOf(s[1..], ts);
      assert s[1..][n..] == s[n + 1..];
      FitsFirst(s, ts, n + 1);
    }
    if Fits(s, ts) {
      var n := FirstOf(s, ts);
      if n == 0 {
        assert s[0..] == s;
      } else {
        assert s[1..][n - 1..] == s[n..];
        FitsFirst(s[1..], ts, n - 1);
      }
    }
  }

  lemma FitsOne(s: seq<Byte>, ts: seq<Token>)
    requires ts != [] && ts[0] != AnyRun
    ensures Fits(s, ts) <==> s != [] && PartFits([s[0]], ts[0]) && Fits(s[1..], ts[1..])
  {
    if s != [] && PartFits([s[0]], ts[0]) && Fits(s[1..], ts[1..]) {
      assert s[..1] == [s[0]];
      FitsFirst(s, ts, 1);
    }
    if Fits(s, ts) {
      var n := FirstOf(s, ts);
      assert n == 1 && s[..1] == [s[0]];
    }
  }

  lemma FitsNone(s: seq<Byte>)
    ensures Fits(s, []) <==> s == []
  {
    assert s == [] ==> Splits(s, [], []);
  }

  // ---------- Reading a token ----------

  lemma {:induction false} ClassMeans(b: Byte, items: seq<Item>)
    requires BodyReads(items)
    ensures InClass(b, BodyBytes(items)) <==> AnyHas(items, b)
    decreases |items|
  {
    if items != [] {
      var body, rest := BodyBytes(items), BodyBytes(items[1..]);
      ClassMeans(b, items[1..]);
      AnyHasSplit(items, b);
      if items[0].Single? {
        assert body[1..] == rest;
      } else {
        assert body[3..] == rest;
      }
    }
  }

  lemma AnyHasSplit(items: seq<Item>, b: Byte)
    requires items != []
    ensures AnyHas(items, b) <==> Has(items[0], b) || AnyHas(items[1..], b)
  {
    if i :| 0 <= i < |items| && Has(items[i], b) {
      assert i > 0 ==> items[i] == items[1..][i - 1];
    }
    if i :| 0 <= i < |items[1..]| && Has(items[1..][i], b) {
      assert items[i + 1] == items[1..][i];
    }
  }

  lemma {:induction false} BodyIsOpen(items: seq<Item>)
    requires BodyReads(items)
    ensures 93 !in BodyBytes(items) && (items != [] ==> BodyBytes(items) != [])
    decreases |items|
  {
    if items != [] {
      BodyIsOpen(items[1..]);
    }
  }

  lemma {:induction false} ClosesAt(p: seq<Byte>, i: nat, k: nat)
    requires i <= k < |p| && p[k] == 93 && forall j :: i <= j < k ==> p[j] != 93
    ensures CloseFrom(p, i) == k
    decreases k - i
  {
    if i < k {
      ClosesAt(p, i + 1, k);
    }
  }

  lemma {:induction false} NeverCloses(p: seq<Byte>, i: nat)
    requires i <= |p| && 93 !in p
    ensures CloseFrom(p, i) == |p|
    decreases |p| - i
  {
    if i < |p| {
      NeverCloses(p, i + 1);
    }
  }

  lemma Sliced(head: seq<Byte>, body: seq<Byte>, rest: seq<Byte>, p: seq<Byte>)
    requires p == head + body + [93] + rest
    ensures |head| + |body| < |p| && p[|head|..|head| + |body|] == body && p[..|head|] == head && p[|head| + |body|] == 93
  {
    hide *;
    assert p == head + (body + ([93] + rest));
  }

  lemma SlicedCloses(p: seq<Byte>, from: nat, k: nat)
    requires from <= k < |p| && p[k] == 93 && 93 !in p[from..k]
    ensures CloseFrom(p, from) == k
  {
    forall j | from <= j < k ensures p[j] != 93 {
      assert p[j] == p[from..k][j - from];
    }
    ClosesAt(p, from, k);
  }

  lemma ClassToken(items: seq<Item>, negated: bool, rest: seq<Byte>, p: seq<Byte>)
    requires Reads(Class(items, negated)) && p == TokenBytes(Class(items, negated)) + rest
    ensures p[0] == 91 && Negated(p) == negated && TokenLength(p) == |TokenBytes(Class(items, negated))|
    ensures p[ClassStart(p)..TokenLength(p) - 1] == BodyBytes(items)
  {
    hide BodyBytes, BodyReads;
    var body, head := BodyBytes(items), [91] + if negated then [94] else [];
    assert 93 !in body && (items != [] ==> body != []) && (items == [] ==> body == []) by {
      BodyIsOpen(items);
      NoItems(items);
    }
    Sliced(head, body, rest, p);
    SlicedCloses(p, |head|, |head| + |body|);
    assert p[0] == head[0];
    if negated {
      assert p[1] == head[1];
    } else {
      assert p[1] == if body == [] then 93 else body[0];
    }
  }

  lemma NoItems(items: seq<Item>)
    ensures items == [] ==> BodyBytes(items) == []
  {
  }

  lemma TokenMeans(t: Token, rest: seq<Byte>, p: seq<Byte>, b: Byte)
    requires Reads(t) && t != AnyRun && p == TokenBytes(t) + rest
    ensures p != [] && p[0] != STAR && TokenLength(p) == |TokenBytes(t)| && p[TokenLength(p)..] == rest
    ensures Accepts(p, b) <==> PartFits([b], t)
  {
    if t.Class? {
      ClassToken(t.items, t.negated, rest, p);
      ClassMeans(b, t.items);
    }
  }

  lemma MalformedIsNothing(s: seq<Byte>, tail: seq<Byte>)
    requires Malformed(tail)
    ensures !Matches(s, tail)
  {
    if tail[0] == 91 {
      NeverCloses(tail, if Negated(tail) then 2 else 1);
    }
  }

  // ---------- Every pattern ----------

  /** A pattern of tokens, possibly followed by a malformed rest, matches exactly the strings that
      split into one part per token; with a malformed rest it matches nothing. */
  lemma {:induction false} PatternMeans(s: seq<Byte>, ts: seq<Token>, tail: seq<Byte>)
    requires (forall i :: 0 <= i < |ts| ==> Reads(ts[i])) && (tail == [] || Malformed(tail))
    ensures Matches(s, Print(ts) + tail) <==> tail == [] && Fits(s, ts)
    decreases |ts|, |s|
  {
    hide Fits, Accepts, TokenLength, PartFits, Reads, Malformed;
    var p := Print(ts) + tail;
    if ts == [] {
      assert p == tail;
      if tail != [] {
        MalformedIsNothing(s, tail);
      }
      FitsNone(s);
    } else {
      var rest := Print(ts[1..]) + tail;
      assert p == TokenBytes(ts[0]) + rest;
      if ts[0] == AnyRun {
        assert p[0] == 42 && p[1..] == rest;
        FitsRun(s, ts);
        PatternMeans(s, ts[1..], tail);
        if s != [] {
          PatternMeans(s[1..], ts, tail);
        }
      } else {
        FitsOne(s, ts);
        if s != [] {
          TokenMeans(ts[0], rest, p, s[0]);
          PatternMeans(s[1..], ts[1..], tail);
        } else {
          TokenMeans(ts[0], rest, p, 0);
        }
      }
    }
  }

  lemma {:induction false} BodyParses(members: seq<Byte>) returns (items: seq<Item>)
    requires 93 !in members
    ensures BodyBytes(items) == members && BodyReads(items)
    decreases |members|
  {
    if members == [] {
      items := [];
    } else if |members| > 2 && members[1] == 45 {
      var rest := BodyParses(members[3..]);
      items := [Range(members[0], members[2])] + rest;
      assert items[1..] == rest && members == [members[0], 45, members[2]] + members[3..];
    } else {
      var rest := BodyParses(members[1..]);
      items := [Single(members[0])] + rest;
      assert items[1..] == rest && members == [members[0]] + members[1..];
    }
  }

  lemma FirstToken(p: seq<Byte>) returns (t: Token, rest: seq<Byte>)
    requires p != [] && !Malformed(p)
    ensures Reads(t) && p == TokenBytes(t) + rest
  {
    if p[0] == 91 {
      t, rest := ClassParses(p);
    } else if p[0] == 92 {
      t, rest := Escaped(p[1]), p[2..];
    } else {
      t, rest := if p[0] == 63 then AnyOne else if p[0] == 42 then AnyRun else Plain(p[0]), p[1..];
    }
  }

  lemma ClassParses(p: seq<Byte>) returns (t: Token, rest: seq<Byte>)
    requires p != [] && p[0] == 91 && 93 in p
    ensures Reads(t) && p == TokenBytes(t) + rest
  {
    var k := FirstClose(p);
    var negated := p[1] == 94;
    var start := if negated then 2 else 1;
    var members := p[start..k];
    var items := BodyParses(members);
    t, rest := Class(items, negated), p[k + 1..];
    assert p == p[..start] + members + [93] + rest;
    assert p[..start] == [91] + if negated then [94] else [];
  }

  lemma FirstClose(p: seq<Byte>) returns (k: nat)
    requires p != [] && p[0] == 91 && 93 in p
    ensures 0 < k < |p| && p[k] == 93 && 93 !in p[..k]
  {
    k := 0;
    while p[k] != 93
      invariant k < |p| && 93 !in p[..k] && 93 in p[k..]
      decreases |p| - k
    {
      assert p[k..] == [p[k]] + p[k + 1..];
      assert p[..k + 1] == p[..k] + [p[k]];
      k := k + 1;
    }
  }

  /** Every pattern is such a list of tokens with or without a malformed rest. */
  lemma {:induction false} PatternParses(p: seq<Byte>) returns (ts: seq<Token>, tail: seq<Byte>)
    ensures p == Print(ts) + tail && (forall i :: 0 <= i < |ts| ==> Reads(ts[i])) && (tail == [] || Malformed(tail))
    decreases |p|
  {
    hide Reads, Malformed;
    if p == [] || Malformed(p) {
      ts, tail := [], p;
    } else {
      var t, rest := FirstToken(p);
      var more: seq<Token>;
      more, tail := PatternParses(rest);
      ts := [t] + more;
      assert ts[1..] == more;
      assert p == TokenBytes(t) + (Print(more) + tail) == TokenBytes(t) + Print(more) + tail;
    }
  }
}
