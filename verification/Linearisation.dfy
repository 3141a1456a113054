/** The emission order as a linearisation: complete, dependencies first, one block per tip, and
    the same for every listing of the tips exactly when the walk cuts at the same place. */
module Linearisation {
  import opened Effects
  import opened Sequences
  import opened PostOrder
  import opened Cutoff
  import opened DagSpec
  import opened DagOrder

  // ---------- Every collected effect, dependencies first ----------

  lemma {:induction false} PathSurvives<S(!new)>(h: History<S>, key: Key, tips: seq<Tip>, nodes: History<S>,
                                                 kept: History<S>, lca: Tip, p: seq<Tip>)
    requires Within(nodes, h) && Within(kept, h) && PathVia(h, key, tips, nodes.Keys - {lca}, p) && p[|p| - 1] in kept
    requires forall t :: t in nodes && t != lca && KeyDeps(key, nodes[t]) != [] ==> t in kept
    ensures ReachedFrom(ChildGraph(kept, key, lca), SortedWithin(kept, tips), p[|p| - 1])
  {
    var g := ChildGraph(kept, key, lca);
    forall i | 0 <= i < |p| - 1 ensures p[i] in kept && p[i + 1] in KeyDeps(key, h[p[i]]) && p[i] != lca {
      assert p[i] in nodes.Keys - {lca} && nodes[p[i]] == h[p[i]];
      assert p[i + 1] in KeyDeps(key, nodes[p[i]]);
    }
    forall i | 0 <= i < |p| ensures p[i] in g {
      if i < |p| - 1 {
        assert p[i] in kept;
      }
    }
    forall i | 0 <= i < |p| - 1 ensures p[i + 1] in g[p[i]] {
      assert p[i + 1] in kept;
    }
    assert IsPath(g, p);
    assert Reaches(g, p[0], p[|p| - 1]);
    assert p[0] in SortedWithin(kept, tips);
  }

  lemma KeptLeadOn<S(!new)>(h: History<S>, key: Key, tips: seq<Tip>, nodes: History<S>, lca: Tip, rank: Tip -> nat)
    requires ZERO_TIP !in h && Ranked(DepGraph(h, key), rank) && Collected(h, key, tips, nodes, lca)
    ensures Within(Trimmed(nodes, key, lca), h) && Within(nodes, h) && Trimmed(nodes, key, lca).Keys <= nodes.Keys
    ensures forall t :: t in nodes && t != lca && KeyDeps(key, nodes[t]) != [] ==> t in Trimmed(nodes, key, lca)
  {
    hide Discovered, Folded;
    if lca != ZERO_TIP {
      TrimmedWithin(h, key, tips, nodes, lca, rank);
    }
  }

  /** The order lists every effect left after trimming exactly once, each after its dependencies
      unless it is the cut. */
  lemma OrderIsComplete<S(!new)>(h: History<S>, key: Key, tips: seq<Tip>, nodes: History<S>, lca: Tip, rank: Tip -> nat)
    requires ZERO_TIP !in h && Ranked(DepGraph(h, key), rank) && Collected(h, key, tips, nodes, lca)
    ensures var kept := Trimmed(nodes, key, lca);
            var order := Order(kept, key, lca, tips);
            && Elems(order) == kept.Keys && Distinct(order)
            && ChildrenFirst(ChildGraph(kept, key, lca), order, {})
  {
    hide Trimmed, PathVia;
    var kept := Trimmed(nodes, key, lca);
    var g, todo := ChildGraph(kept, key, lca), SortedWithin(kept, tips);
    KeptLeadOn(h, key, tips, nodes, lca, rank);
    WalkFresh(g, todo, {});
    WalkIsReachability(g, todo, {});
    forall t | t in kept ensures t in Walk(g, todo, {}) {
      CollectedReached(h, key, tips, nodes, kept, lca, t);
    }
    KeptRanked(h, key, kept, lca, rank);
    WalkChildrenFirst(g, rank, todo, {});
  }

  lemma CollectedReached<S(!new)>(h: History<S>, key: Key, tips: seq<Tip>, nodes: History<S>, kept: History<S>, lca: Tip, t: Tip)
    requires Within(nodes, h) && Within(kept, h) && Discovered(h, key, tips, nodes.Keys - {lca}, t) && t in kept
    requires forall t :: t in nodes && t != lca && KeyDeps(key, nodes[t]) != [] ==> t in kept
    ensures ReachedFrom(ChildGraph(kept, key, lca), SortedWithin(kept, tips), t)
  {
    var p :| PathVia(h, key, tips, nodes.Keys - {lca}, p) && p[|p| - 1] == t;
    PathSurvives(h, key, tips, nodes, kept, lca, p);
  }

  lemma KeptRanked<S(!new)>(h: History<S>, key: Key, kept: History<S>, lca: Tip, rank: Tip -> nat)
    requires Within(kept, h) && Ranked(DepGraph(h, key), rank)
    ensures Ranked(ChildGraph(kept, key, lca), rank)
  {
    forall x, c | x in kept && c in ChildGraph(kept, key, lca)[x] ensures rank(c) < rank(x) {
      assert c in DepGraph(h, key)[x];
    }
  }

  // ---------- One contiguous block per tip ----------

  /** What the traversal has emitted before it starts on the i-th root, and what it then emits. */
  function Before(g: Graph<Tip>, todo: seq<Tip>, i: nat): seq<Tip>
    requires i <= |todo|
  {
    Walk(g, todo[..i], {})
  }

  function Block(g: Graph<Tip>, todo: seq<Tip>, i: nat): seq<Tip>
    requires i < |todo|
  {
    Walk(g, [todo[i]], Elems(Before(g, todo, i)))
  }

  lemma BlocksAppend(g: Graph<Tip>, todo: seq<Tip>, i: nat)
    requires i < |todo|
    ensures Before(g, todo, i + 1) == Before(g, todo, i) + Block(g, todo, i)
  {
    hide Walk, Elems;
    assert todo[..i + 1] == todo[..i] + [todo[i]];
    WalkSplit(g, todo[..i], [todo[i]], {});
    assert {} + Elems(Before(g, todo, i)) == Elems(Before(g, todo, i));
  }

  lemma BlockIsNewAncestry(g: Graph<Tip>, todo: seq<Tip>, i: nat)
    requires i < |todo|
    ensures forall t :: t in Before(g, todo, i) <==> ReachedFrom(g, todo[..i], t)
    ensures forall t :: t in Block(g, todo, i) <==> Reaches(g, todo[i], t) && !ReachedFrom(g, todo[..i], t)
  {
    hide Walk, Reaches;
    WalkIsReachability(g, todo[..i], {});
    WalkCloses(g, todo[..i], {});
    WalkIsReachability(g, [todo[i]], Elems(Before(g, todo, i)));
    assert forall t :: ReachedFrom(g, [todo[i]], t) <==> Reaches(g, todo[i], t) by {
      assert todo[i] in [todo[i]];
    }
  }

  /** The order is the concatenation of one block per tip, in fork-choice order, and each block
      is exactly the part of that tip's ancestry that no tip before it reaches: two concurrent
      chains never interleave. */
  lemma TipsEmitBlocks<S(!new)>(nodes: History<S>, key: Key, lca: Tip, tips: seq<Tip>)
    ensures var g, todo := ChildGraph(nodes, key, lca), SortedWithin(nodes, tips);
            && Order(nodes, key, lca, tips) == Before(g, todo, |todo|) && Before(g, todo, 0) == []
            && forall i :: 0 <= i < |todo| ==>
                 && Before(g, todo, i + 1) == Before(g, todo, i) + Block(g, todo, i)
                 && forall t :: t in Block(g, todo, i) <==> Reaches(g, todo[i], t) && !ReachedFrom(g, todo[..i], t)
  {
    hide Reaches, ReachedFrom, SortedWithin, ChildGraph;
    var g, todo := ChildGraph(nodes, key, lca), SortedWithin(nodes, tips);
    assert todo[..|todo|] == todo && todo[..0] == [];
    forall i | 0 <= i < |todo|
      ensures Before(g, todo, i + 1) == Before(g, todo, i) + Block(g, todo, i)
      ensures forall t :: t in Block(g, todo, i) <==> Reaches(g, todo[i], t) && !ReachedFrom(g, todo[..i], t)
    {
      BlocksAppend(g, todo, i);
      BlockIsNewAncestry(g, todo, i);
    }
  }

  // ---------- The listing of the tips ----------

  ghost predicate HashesDistinct<S>(h: History<S>) {
    forall a, b :: a in h && b in h && h[a].hash == h[b].hash ==> a == b
  }

  lemma MultisetTail(s: seq<Tip>)
    requires s != []
    ensures multiset(s[1..]) == multiset(s) - multiset{s[0]}
  {
    assert s == [s[0]] + s[1..];
  }

  lemma {:induction false} SortedUnique<S>(h: History<S>, a: seq<Tip>, b: seq<Tip>)
    requires (forall x :: x in a + b ==> x in h) && HashesDistinct(h) && multiset(a) == multiset(b)
    requires (forall x :: x in a ==> x in h) && (forall x :: x in b ==> x in h) && Ascending(h, a) && Ascending(h, b)
    ensures a == b
  {
    if a == [] {
      assert |multiset(b)| == 0;
    } else {
      assert |multiset(a)| == |multiset(b)| > 0;
      assert a[0] in multiset(b) && b[0] in multiset(a);
      assert h[a[0]].hash == h[b[0]].hash;
      MultisetTail(a);
      MultisetTail(b);
      SortedUnique(h, a[1..], b[1..]);
    }
  }

  lemma {:induction false} CollectablePermutes<S>(nodes: History<S>, a: seq<Tip>, t: Tip)
    ensures multiset(Collectable(nodes, a))[t] == if t in nodes then multiset(a)[t] else 0
  {
    if a != [] {
      CollectablePermutes(nodes, a[1..], t);
      assert a == [a[0]] + a[1..];
    }
  }

  /** With distinct hashes the sort does not depend on how the tips are listed. */
  lemma SortedPermutation<S(!new)>(h: History<S>, nodes: History<S>, a: seq<Tip>, b: seq<Tip>)
    requires Within(nodes, h) && HashesDistinct(h) && multiset(a) == multiset(b)
    ensures SortedWithin(nodes, a) == SortedWithin(nodes, b)
  {
    var x, y := Collectable(nodes, a), Collectable(nodes, b);
    forall t ensures multiset(x)[t] == multiset(y)[t] {
      CollectablePermutes(nodes, a, t);
      CollectablePermutes(nodes, b, t);
    }
    SortAscends(nodes, x);
    SortAscends(nodes, y);
    assert HashesDistinct(nodes);
    SortedUnique(nodes, SortByHash(nodes, x), SortByHash(nodes, y));
  }

  lemma {:induction false} PathStaysCollected<S(!new)>(h: History<S>, key: Key, tips: seq<Tip>, via: set<Tip>,
                                                       nodes: History<S>, lca: Tip, p: seq<Tip>)
    requires Within(nodes, h) && PathVia(h, key, tips, via, p) && lca !in via && forall t :: t in tips ==> t in nodes
    requires forall t, d :: t in nodes && t != lca && d in KeyDeps(key, nodes[t]) ==> d in nodes
    ensures p[|p| - 1] in nodes
  {
    if |p| > 1 {
      PathStaysCollected(h, key, tips, via, nodes, lca, p[..|p| - 1]);
      assert p[|p| - 2 + 1] in KeyDeps(key, h[p[|p| - 2]]);
    }
  }

  lemma CollectedClosed<S(!new)>(h: History<S>, key: Key, tips: seq<Tip>, nodes: History<S>, lca: Tip)
    requires Collected(h, key, tips, nodes, lca)
    ensures Within(nodes, h) && (forall t :: t in tips ==> t in nodes)
    ensures forall t, d :: t in nodes && t != lca && d in KeyDeps(key, nodes[t]) ==> d in nodes
  {
    hide Discovered, Referenced;
  }

  lemma SameTips(a: seq<Tip>, b: seq<Tip>)
    requires multiset(a) == multiset(b)
    ensures forall t :: t in a <==> t in b
  {
    forall t ensures t in a <==> t in b {
      assert t in a <==> t in multiset(a);
    }
  }

  /** Two walks that cut at the same place collect the same effects. */
  lemma SameCutCollectsSame<S(!new)>(h: History<S>, key: Key, tips1: seq<Tip>, tips2: seq<Tip>, nodes1: History<S>,
                                     nodes2: History<S>, lca: Tip)
    requires Collected(h, key, tips1, nodes1, lca) && Collected(h, key, tips2, nodes2, lca) && multiset(tips1) == multiset(tips2)
    ensures nodes1 == nodes2
  {
    hide Discovered, Converged, Uncut;
    SameTips(tips1, tips2);
    CollectedClosed(h, key, tips1, nodes1, lca);
    CollectedClosed(h, key, tips2, nodes2, lca);
    forall t | t in nodes1 ensures t in nodes2 {
      OtherCollects(h, key, tips1, tips2, nodes1, nodes2, lca, t);
    }
    forall t | t in nodes2 ensures t in nodes1 {
      OtherCollects(h, key, tips2, tips1, nodes2, nodes1, lca, t);
    }
  }

  lemma OtherCollects<S(!new)>(h: History<S>, key: Key, tips1: seq<Tip>, tips2: seq<Tip>, nodes1: History<S>,
                               nodes2: History<S>, lca: Tip, t: Tip)
    requires Discovered(h, key, tips1, nodes1.Keys - {lca}, t) && Within(nodes2, h) && (forall t :: t in tips1 ==> t in nodes2)
    requires forall t, d :: t in nodes2 && t != lca && d in KeyDeps(key, nodes2[t]) ==> d in nodes2
    ensures t in nodes2
  {
    var p :| PathVia(h, key, tips1, nodes1.Keys - {lca}, p) && p[|p| - 1] == t;
    PathStaysCollected(h, key, tips1, nodes1.Keys - {lca}, nodes2, lca, p);
  }

  lemma SameCutSameOrder<S(!new)>(h: History<S>, key: Key, tips1: seq<Tip>, tips2: seq<Tip>, nodes1: History<S>,
                                  nodes2: History<S>, lca: Tip, rank: Tip -> nat)
    requires ZERO_TIP !in h && Ranked(DepGraph(h, key), rank) && HashesDistinct(h) && multiset(tips1) == multiset(tips2)
    requires Collected(h, key, tips1, nodes1, lca) && Collected(h, key, tips2, nodes2, lca)
    ensures Order(Trimmed(nodes1, key, lca), key, lca, tips1) == Order(Trimmed(nodes2, key, lca), key, lca, tips2)
  {
    hide Collected, Trimmed, ChildGraph, SortedWithin;
    SameCutCollectsSame(h, key, tips1, tips2, nodes1, nodes2, lca);
    KeptLeadOn(h, key, tips1, nodes1, lca, rank);
    SortedPermutation(h, Trimmed(nodes1, key, lca), tips1, tips2);
  }

  lemma CutComesFirst<S(!new)>(h: History<S>, key: Key, tips: seq<Tip>, nodes: History<S>, lca: Tip, rank: Tip -> nat)
    requires ZERO_TIP !in h && Ranked(DepGraph(h, key), rank) && Collected(h, key, tips, nodes, lca) && lca != ZERO_TIP
    ensures var kept := Keep(Standalones(h), Order(Trimmed(nodes, key, lca), key, lca, tips)); kept != [] && kept[0] == lca
  {
    hide Collected, Trimmed, Keep, Order, Standalones;
    CutPreservesOrder(h, key, tips, nodes, lca, rank);
  }

  lemma DepsAreTrimmed<S>(cut: History<S>, key: Key, lca: Tip, d: Tip)
    requires lca in cut && IsStateSnapshot(cut[lca]) && lca != ZERO_TIP && d in cut[lca].deps
    ensures d !in Trimmed(cut, key, lca)
  {
    if d in cut {
      ReachesSelf(DepGraph(cut, key), d);
      assert Folded(cut, key, lca, d);
    }
  }

  lemma OnlyTheCutIsRoot<S(!new)>(h: History<S>, key: Key, tips: seq<Tip>, cut: History<S>, lca: Tip, uncut: History<S>)
    requires Within(cut, h) && Within(uncut, h) && Converged(key, tips, cut, lca) && lca != ZERO_TIP
    requires cut[lca].deps == [] && lca in uncut && uncut.Keys <= cut.Keys
    ensures Roots(uncut, key) == {lca}
  {
    forall r | r in Roots(uncut, key) ensures r == lca {
      if IsStandalone(uncut[r]) {
        var x :| x in uncut && x != ZERO_TIP && r in KeyDeps(key, uncut[x]);
        assert x in cut && x != lca && r in KeyDeps(key, cut[x]);
        assert Referenced(cut, key, lca, r);
      }
    }
    assert lca in Roots(uncut, key);
  }

  /** A walk that does not cut collects something that a walk cutting there leaves out. */
  lemma UncutIsNotCut<S(!new)>(h: History<S>, key: Key, tips: seq<Tip>, cut: History<S>, lca: Tip, uncut: History<S>)
    requires Within(cut, h) && Within(uncut, h) && Converged(key, tips, cut, lca) && lca != ZERO_TIP && Uncut(uncut, key)
    requires lca in uncut
    ensures uncut.Keys != Trimmed(cut, key, lca).Keys
  {
    hide Roots, Referenced, Folded;
    if cut[lca].deps != [] {
      DepsAreTrimmed(cut, key, lca, cut[lca].deps[0]);
      assert cut[lca].deps[0] in KeyDeps(key, uncut[lca]);
      assert cut[lca].deps[0] in uncut.Keys;
    } else if uncut.Keys <= cut.Keys {
      OnlyTheCutIsRoot(h, key, tips, cut, lca, uncut);
    }
  }

  lemma OnlyOneCut<S(!new)>(h: History<S>, key: Key, tips1: seq<Tip>, tips2: seq<Tip>, nodes1: History<S>,
                            nodes2: History<S>, lca: Tip, rank: Tip -> nat)
    requires ZERO_TIP !in h && Ranked(DepGraph(h, key), rank) && multiset(tips1) == multiset(tips2)
    requires Collected(h, key, tips1, nodes1, lca) && lca != ZERO_TIP && Collected(h, key, tips2, nodes2, ZERO_TIP)
    ensures Order(Trimmed(nodes1, key, lca), key, lca, tips1) != Order(Trimmed(nodes2, key, ZERO_TIP), key, ZERO_TIP, tips2)
  {
    hide Discovered, Order, Trimmed, Roots;
    OrderIsComplete(h, key, tips1, nodes1, lca, rank);
    OrderIsComplete(h, key, tips2, nodes2, ZERO_TIP, rank);
    NothingToTrim(nodes2, key);
    SameTips(tips1, tips2);
    CollectedClosed(h, key, tips2, nodes2, ZERO_TIP);
    assert lca in nodes2 by { OtherCollects'(h, key, tips1, nodes1.Keys - {lca}, nodes2, lca); }
    UncutIsNotCut(h, key, tips1, nodes1, lca, nodes2);
  }

  lemma NothingToTrim<S>(nodes: History<S>, key: Key)
    ensures Trimmed(nodes, key, ZERO_TIP) == nodes
  {}

  lemma OtherCollects'<S(!new)>(h: History<S>, key: Key, tips: seq<Tip>, via: set<Tip>, nodes: History<S>, t: Tip)
    requires Discovered(h, key, tips, via, t) && Within(nodes, h) && (forall t :: t in tips ==> t in nodes) && ZERO_TIP !in h
    requires forall t, d :: t in nodes && t != ZERO_TIP && d in KeyDeps(key, nodes[t]) ==> d in nodes
    ensures t in nodes
  {
    var p :| PathVia(h, key, tips, via, p) && p[|p| - 1] == t;
    forall i | 0 <= i < |p| - 1 ensures p[i] in via - {ZERO_TIP} {}
    assert PathVia(h, key, tips, via - {ZERO_TIP}, p);
    PathStaysCollected(h, key, tips, via - {ZERO_TIP}, nodes, ZERO_TIP, p);
  }

  /** Listing the same tips differently gives the same order exactly when both walks cut at the
      same place. */
  lemma SameOrderIffSameCut<S(!new)>(h: History<S>, key: Key, tips1: seq<Tip>, tips2: seq<Tip>, nodes1: History<S>, nodes2: History<S>,
                                     lca1: Tip, lca2: Tip, rank: Tip -> nat)
    requires ZERO_TIP !in h && Ranked(DepGraph(h, key), rank) && HashesDistinct(h) && multiset(tips1) == multiset(tips2)
    requires Collected(h, key, tips1, nodes1, lca1) && Collected(h, key, tips2, nodes2, lca2)
    ensures Order(Trimmed(nodes1, key, lca1), key, lca1, tips1) == Order(Trimmed(nodes2, key, lca2), key, lca2, tips2) <==> lca1 == lca2
  {
    hide Collected, Order, Trimmed, Ranked, HashesDistinct, Keep, Standalones;
    if lca1 == lca2 {
      SameCutSameOrder(h, key, tips1, tips2, nodes1, nodes2, lca1, rank);
    } else if lca1 == ZERO_TIP {
      OnlyOneCut(h, key, tips2, tips1, nodes2, nodes1, lca2, rank);
    } else if lca2 == ZERO_TIP {
      OnlyOneCut(h, key, tips1, tips2, nodes1, nodes2, lca1, rank);
    } else {
      CutComesFirst(h, key, tips1, nodes1, lca1, rank);
      CutComesFirst(h, key, tips2, nodes2, lca2, rank);
    }
  }

  /** The value read never depends on how the tips are listed, nor on where the walk cuts. */
  lemma ReadIgnoresListing<S(!new)>(h: History<S>, key: Key, f: (S, Effect<S>) -> S, init: S, tips1: seq<Tip>, tips2: seq<Tip>,
                                    nodes1: History<S>, nodes2: History<S>, lca1: Tip, lca2: Tip, rank: Tip -> nat)
    requires ZERO_TIP !in h && Ranked(DepGraph(h, key), rank) && HashesDistinct(h) && multiset(tips1) == multiset(tips2)
    requires IgnoresSubscriptions(f) && Faithful(h, key, f, init)
    requires Collected(h, key, tips1, nodes1, lca1) && Collected(h, key, tips2, nodes2, lca2)
    ensures CutValue(h, key, "", f, init, tips1, nodes1, lca1) == CutValue(h, key, "", f, init, tips2, nodes2, lca2)
         == FullValue(h, key, "", f, init, tips1)
  {
    hide Collected, Order, Trimmed, Ranked, HashesDistinct, IgnoresSubscriptions, Faithful, CutValue, Fold, SortedWithin;
    ReadsWholeHistory(h, key, f, init, tips1, nodes1, lca1, rank);
    ReadsWholeHistory(h, key, f, init, tips2, nodes2, lca2, rank);
    SameFullOrder(h, key, tips1, tips2);
  }

  lemma SameFullOrder<S(!new)>(h: History<S>, key: Key, tips1: seq<Tip>, tips2: seq<Tip>)
    requires HashesDistinct(h) && multiset(tips1) == multiset(tips2)
    ensures FullOrder(h, key, tips1) == FullOrder(h, key, tips2)
  {
    SortedPermutation(h, h, tips1, tips2);
  }

  ghost function MaxRank(rank: Tip -> nat, tips: seq<Tip>): (m: nat)
    ensures forall t :: t in tips ==> rank(t) < m
  {
    if tips == [] then 0
    else var m := MaxRank(rank, tips[1..]); if rank(tips[0]) < m then m else rank(tips[0]) + 1
  }

  /** Reading from a compacted history: for every acyclic history whose snapshots recorded what
      they read, and every set of tips, cutting at a snapshot is invisible to the reader. */
  lemma ReadsWholeHistory<S(!new)>(h: History<S>, key: Key, f: (S, Effect<S>) -> S, init: S, tips: seq<Tip>,
                                   nodes: History<S>, lca: Tip, rank: Tip -> nat)
    requires ZERO_TIP !in h && Ranked(DepGraph(h, key), rank) && IgnoresSubscriptions(f) && Faithful(h, key, f, init)
    requires Collected(h, key, tips, nodes, lca)
    ensures CutValue(h, key, "", f, init, tips, nodes, lca) == FullValue(h, key, "", f, init, tips)
  {
    hide Collected, Ranked, IgnoresSubscriptions, Faithful, CutValue, FullValue;
    CompactionIsTransparent(h, key, f, init, tips, nodes, lca, rank, MaxRank(rank, tips));
  }
}
