/** Historical cuts: the older frontier of a fixed set of effects (effects/historical.go). */
module Historical {
  import opened Effects
  import opened ChainClocks
  import opened Worklist

  /** What lies below an effect that the cut leaves out: below a bind, what it consumed on the key. */
  function Below<S>(key: Key, e: Effect<S>): seq<Tip> {
    if e.kind.Bind? then ConsumedTips(key, e.kind.keys) else e.deps
  }

  /** Every edge of the walk. */
  ghost function Walk<S>(h: History<S>, key: Key): Deps {
    map t | t in h :: Below(key, h[t])
  }

  /** The walk stops at members. */
  ghost function Cut<S>(h: History<S>, key: Key, member: Tip -> bool): Deps {
    map t | t in h && !member(t) :: Below(key, h[t])
  }

  /** The members reached through non-members, or None if an effect on the way is missing. */
  method HistoricalFrontier<S>(h: History<S>, key: Key, tips: seq<Tip>, member: Tip -> bool) returns (frontier: Option<seq<Tip>>)
    ensures frontier.None? <==> exists t :: FromRoots(Cut(h, key, member), tips, t) && t !in h
    ensures frontier.Some? ==> forall t :: t in frontier.value <==> FromRoots(Cut(h, key, member), tips, t) && member(t)
    ensures frontier.Some? ==> forall i, j :: 0 <= i < j < |frontier.value| ==> frontier.value[i] != frontier.value[j]
  {
    hide FromRoots, Exploring, Universe;
    ghost var g := Cut(h, key, member);
    var stack, seen, found: seq<Tip> := tips, {}, [];
    StartExploring(g, tips, stack);
    while stack != []
      invariant Exploring(g, tips, seen, stack) && (forall t :: t in seen ==> t in h)
      invariant (forall t :: t in found <==> t in seen && member(t)) && forall i, j :: 0 <= i < j < |found| ==> found[i] != found[j]
      decreases |Universe(g, tips) - seen|, |stack|
    {
      var t, rest := stack[|stack| - 1], stack[..|stack| - 1];
      assert stack == rest + [t];
      if t in seen {
        Skipped(g, tips, seen, rest, t);
        stack := rest;
        continue;
      }
      var more := if t in h && !member(t) then Below(key, h[t]) else [];
      Visited(g, tips, seen, rest, t, more);
      if t !in h {
        return None;
      }
      seen := seen + {t};
      if member(t) {
        found := found + [t];
      }
      stack := rest + more;
    }
    ExploredAll(g, tips, seen);
    return Some(found);
  }

  // ---------- The cut is exact ----------

  lemma {:induction false} CutStays<S>(h: History<S>, key: Key, member: Tip -> bool, p: seq<Tip>)
    requires Leads(Walk(h, key), p) && member(p[0]) && forall t, d :: member(t) && d in DepsOf(Walk(h, key), t) ==> member(d)
    ensures member(p[|p| - 1])
  {
    if |p| > 1 {
      assert p[0 + 1] in DepsOf(Walk(h, key), p[0]);
      CutStays(h, key, member, p[1..]);
    }
  }

  lemma CutPathIsPath<S>(h: History<S>, key: Key, member: Tip -> bool, a: Tip, b: Tip)
    requires Reaches(Cut(h, key, member), a, b)
    ensures Reaches(Walk(h, key), a, b)
  {
    var p :| Leads(Cut(h, key, member), p) && p[0] == a && p[|p| - 1] == b;
    forall i | 0 <= i < |p| - 1 ensures p[i + 1] in DepsOf(Walk(h, key), p[i]) {
      assert p[i + 1] in DepsOf(Cut(h, key, member), p[i]);
    }
    assert Leads(Walk(h, key), p);
  }

  /** The first member on a path is reached through non-members. */
  lemma {:induction false} FirstMember<S>(h: History<S>, key: Key, member: Tip -> bool, p: seq<Tip>) returns (m: Tip)
    requires Leads(Walk(h, key), p) && member(p[|p| - 1])
    ensures member(m) && Reaches(Cut(h, key, member), p[0], m) && Reaches(Walk(h, key), m, p[|p| - 1])
  {
    var g := Cut(h, key, member);
    if member(p[0]) {
      m := p[0];
      ReachesItself(g, m);
    } else {
      assert p[0 + 1] in DepsOf(Walk(h, key), p[0]);
      var q := p[1..];
      forall i | 0 <= i < |q| - 1 ensures q[i + 1] in DepsOf(Walk(h, key), q[i]) {
        assert p[i + 1 + 1] in DepsOf(Walk(h, key), p[i + 1]);
      }
      m := FirstMember(h, key, member, q);
      ReachesFirst(g, p[0], p[1], m);
    }
  }

  /** For a causally closed membership, what the older frontier leads to is exactly the members
      that the tips lead to. */
  lemma FrontierIsTheCut<S>(h: History<S>, key: Key, tips: seq<Tip>, member: Tip -> bool, frontier: seq<Tip>, t: Tip)
    requires forall u, d :: member(u) && d in DepsOf(Walk(h, key), u) ==> member(d)
    requires forall u :: u in frontier <==> FromRoots(Cut(h, key, member), tips, u) && member(u)
    ensures FromRoots(Walk(h, key), frontier, t) <==> FromRoots(Walk(h, key), tips, t) && member(t)
  {
    hide Reaches;
    if FromRoots(Walk(h, key), frontier, t) {
      var u :| u in frontier && Reaches(Walk(h, key), u, t);
      var r :| r in tips && Reaches(Cut(h, key, member), r, u);
      CutPathIsPath(h, key, member, r, u);
      ReachesOnward(Walk(h, key), r, u, t);
      MembersStay(h, key, member, u, t);
    }
    if FromRoots(Walk(h, key), tips, t) && member(t) {
      var r :| r in tips && Reaches(Walk(h, key), r, t);
      var m := MemberOnTheWay(h, key, member, r, t);
      assert FromRoots(Cut(h, key, member), tips, m);
    }
  }

  lemma MembersStay<S>(h: History<S>, key: Key, member: Tip -> bool, u: Tip, t: Tip)
    requires Reaches(Walk(h, key), u, t) && member(u) && forall v, d :: member(v) && d in DepsOf(Walk(h, key), v) ==> member(d)
    ensures member(t)
  {
    var p :| Leads(Walk(h, key), p) && p[0] == u && p[|p| - 1] == t;
    CutStays(h, key, member, p);
  }

  lemma MemberOnTheWay<S>(h: History<S>, key: Key, member: Tip -> bool, r: Tip, t: Tip) returns (m: Tip)
    requires Reaches(Walk(h, key), r, t) && member(t)
    ensures member(m) && Reaches(Cut(h, key, member), r, m) && Reaches(Walk(h, key), m, t)
  {
    var p :| Leads(Walk(h, key), p) && p[0] == r && p[|p| - 1] == t;
    m := FirstMember(h, key, member, p);
  }

  // ---------- What excluding an effect restores ----------

  /** Below an excluded bind lies what it consumed on the key, and nothing if it does not touch it;
      below any other effect lie its dependencies. */
  lemma BelowRestores<S>(key: Key, e: Effect<S>)
    ensures e.kind.Bind? ==> forall i: nat :: EntryFor(key, e.kind.keys, i) ==> Below(key, e) == e.kind.keys[i].consumed
    ensures e.kind.Bind? && (forall j :: 0 <= j < |e.kind.keys| ==> e.kind.keys[j].key != key) ==> Below(key, e) == []
    ensures !e.kind.Bind? ==> Below(key, e) == e.deps
  {
    forall i: nat | e.kind.Bind? && EntryFor(key, e.kind.keys, i) ensures Below(key, e) == e.kind.keys[i].consumed {
      BoundAt(key, e.kind.keys, i);
    }
    if e.kind.Bind? && forall j :: 0 <= j < |e.kind.keys| ==> e.kind.keys[j].key != key {
      NothingBound(key, e.kind.keys);
    }
  }

  /** Excluding a transaction whose bind is the only tip restores exactly the tips it consumed, and
      not its own write. */
  lemma ExcludedBindRestores<S>(h: History<S>, key: Key, b: Tip, i: nat, member: Tip -> bool, t: Tip)
    requires b in h && h[b].kind.Bind? && EntryFor(key, h[b].kind.keys, i) && !member(b) && forall d :: d in h[b].kind.keys[i].consumed ==> member(d)
    ensures FromRoots(Cut(h, key, member), [b], t) && member(t) <==> t in h[b].kind.keys[i].consumed
    ensures var w := h[b].kind.keys[i].newTip;
      w !in h[b].kind.keys[i].consumed ==> !(FromRoots(Cut(h, key, member), [b], w) && member(w))
  {
    hide Reaches;
    BelowRestores(key, h[b]);
    var g, consumed := Cut(h, key, member), h[b].kind.keys[i].consumed;
    assert b in [b];
    assert DepsOf(g, b) == consumed;
    forall u | Reaches(g, b, u) && member(u) ensures u in consumed {
      ReachesInside(g, {b} + (set d | d in consumed), b, u);
    }
    if t in consumed {
      ReachesItself(g, t);
      ReachesFirst(g, b, t, t);
    }
  }
}
