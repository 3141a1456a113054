/** What a read contains (effects/dag.go iterate and shouldEmit): which effects reach the reader,
    and what the reader never sees. */
module Reading {
  import opened Effects
  import opened Sequences
  import opened PostOrder
  import opened DagSpec
  import opened DagOrder

  // ---------- A read is a plain fold over what is visible ----------

  /** Folding effects in, one after the other. */
  function Over<S>(h: History<S>, f: (S, Effect<S>) -> S, st: S, ts: seq<Tip>): S
    requires forall t :: t in ts ==> t in h
  {
    if ts == [] then st else Over(h, f, f(st, h[ts[0]]), ts[1..])
  }

  ghost predicate Subsequence(a: seq<Tip>, b: seq<Tip>)
    decreases |b|
  {
    || a == []
    || (b != [] && a[0] == b[0] && Subsequence(a[1..], b[1..]))
    || (b != [] && Subsequence(a, b[1..]))
  }

  lemma {:induction false} SubsequenceKeeps(a: seq<Tip>, b: seq<Tip>)
    requires Subsequence(a, b) && Distinct(b)
    ensures Distinct(a) && forall t :: t in a ==> t in b
    decreases |b|
  {
    if a != [] {
      DistinctHead(b);
      assert Distinct(b[1..]);
      if a[0] == b[0] && Subsequence(a[1..], b[1..]) {
        SubsequenceKeeps(a[1..], b[1..]);
        assert a == [a[0]] + a[1..];
        assert a[0] !in a[1..];
      } else {
        SubsequenceKeeps(a, b[1..]);
      }
    }
  }

  /** Reading an order without a cut hands out no snapshot and, of transactions other than the
      reader's own, nothing but binds. */
  lemma {:induction false} FoldShows<S>(h: History<S>, active: string, f: (S, Effect<S>) -> S, st: S, order: seq<Tip>) returns (shown: seq<Tip>)
    requires ZERO_TIP !in h && forall t :: t in order ==> t in h
    ensures Subsequence(shown, order)
    ensures forall t :: t in shown <==> t in order && !h[t].kind.Snapshot? && (h[t].txn == "" || h[t].txn == active || h[t].kind.Bind?)
    ensures Fold(h, ZERO_TIP, active, f, st, order) == Over(h, f, st, shown)
    decreases |order|
  {
    if order == [] {
      shown := [];
    } else {
      var t := order[0];
      assert order == [t] + order[1..];
      var rest := FoldShows(h, active, f, Step(h, ZERO_TIP, active, f, st, t), order[1..]);
      if !h[t].kind.Snapshot? && (h[t].txn == "" || h[t].txn == active || h[t].kind.Bind?) {
        shown := [t] + rest;
        assert shown[1..] == rest;
      } else {
        shown := rest;
      }
    }
  }

  lemma ChildIff<S(!new)>(h: History<S>, key: Key, t: Tip, c: Tip)
    requires ZERO_TIP !in h && t in h && c in h
    ensures c in ChildGraph(h, key, ZERO_TIP)[t] <==> c in DepGraph(h, key)[t]
  {
  }

  lemma SamePaths<S(!new)>(h: History<S>, key: Key, p: seq<Tip>)
    requires ZERO_TIP !in h
    ensures IsPath(ChildGraph(h, key, ZERO_TIP), p) <==> IsPath(DepGraph(h, key), p)
  {
    var g1, g2 := ChildGraph(h, key, ZERO_TIP), DepGraph(h, key);
    assert g1.Keys == g2.Keys == h.Keys;
    forall t, c | t in h && c in h ensures c in g1[t] <==> c in g2[t] {
      ChildIff(h, key, t, c);
    }
    hide ChildGraph, DepGraph;
    PathsAgree(g1, g2, p);
  }

  lemma PathsAgree(g1: Graph<Tip>, g2: Graph<Tip>, p: seq<Tip>)
    requires g1.Keys == g2.Keys && forall t, c :: t in g1 && c in g1 ==> (c in g1[t] <==> c in g2[t])
    ensures IsPath(g1, p) <==> IsPath(g2, p)
  {
    if p != [] && forall i :: 0 <= i < |p| ==> p[i] in g1 {
      forall i | 0 <= i < |p| - 1 ensures p[i + 1] in g1[p[i]] <==> p[i + 1] in g2[p[i]] {
        assert p[i] in g1 && p[i + 1] in g1;
      }
    }
  }

  /** The whole history below the tips, each effect once. */
  lemma FullOrderReaches<S(!new)>(h: History<S>, key: Key, tips: seq<Tip>)
    requires ZERO_TIP !in h
    ensures Distinct(FullOrder(h, key, tips))
    ensures forall t :: t in FullOrder(h, key, tips) <==> ReachedFrom(DepGraph(h, key), tips, t)
    ensures forall t :: t in FullOrder(h, key, tips) ==> t in h
  {
    var g, todo := ChildGraph(h, key, ZERO_TIP), SortedWithin(h, tips);
    WalkFresh(g, todo, {});
    WalkIsReachability(g, todo, {});
    forall t ensures ReachedFrom(g, todo, t) <==> ReachedFrom(DepGraph(h, key), tips, t) {
      SameReach(h, key, tips, t);
    }
  }

  lemma SameReach<S(!new)>(h: History<S>, key: Key, tips: seq<Tip>, t: Tip)
    requires ZERO_TIP !in h
    ensures ReachedFrom(ChildGraph(h, key, ZERO_TIP), SortedWithin(h, tips), t) <==> ReachedFrom(DepGraph(h, key), tips, t)
  {
    var g, d := ChildGraph(h, key, ZERO_TIP), DepGraph(h, key);
    hide ChildGraph, DepGraph;
    DepKeys(h, key);
    forall p ensures IsPath(g, p) <==> IsPath(d, p) {
      SamePaths(h, key, p);
    }
    if a :| a in tips && Reaches(d, a, t) {
      var p :| IsPath(d, p) && p[0] == a && p[|p| - 1] == t;
      assert a in SortedWithin(h, tips) && Reaches(g, a, t);
    }
    if a :| a in SortedWithin(h, tips) && Reaches(g, a, t) {
      var p :| IsPath(g, p) && p[0] == a && p[|p| - 1] == t;
      assert Reaches(d, a, t);
    }
  }

  lemma DepKeys<S>(h: History<S>, key: Key)
    ensures DepGraph(h, key).Keys == h.Keys
  {
  }

  /** What an uncut read consists of: of everything the tips lead to, in order and each once, the
      effects that are no snapshot and belong to no transaction, to the reader's own, or are binds. */
  lemma ReadShows<S(!new)>(h: History<S>, key: Key, active: string, f: (S, Effect<S>) -> S, init: S, tips: seq<Tip>) returns (shown: seq<Tip>)
    requires ZERO_TIP !in h
    ensures Subsequence(shown, FullOrder(h, key, tips)) && Distinct(shown)
    ensures forall t :: t in shown <==>
      && ReachedFrom(DepGraph(h, key), tips, t) && t in h
      && !h[t].kind.Snapshot? && (h[t].txn == "" || h[t].txn == active || h[t].kind.Bind?)
    ensures FullValue(h, key, active, f, init, tips) == Over(h, f, init, shown)
  {
    hide ReachedFrom, Order;
    FullOrderReaches(h, key, tips);
    shown := FoldShows(h, active, f, init, FullOrder(h, key, tips));
    SubsequenceKeeps(shown, FullOrder(h, key, tips));
  }

  // ---------- What a read never depends on ----------

  /** The two effects differ at most in what a transaction that is not the reader's has written. */
  predicate Indistinguishable<S(==)>(a: Effect<S>, b: Effect<S>, active: string) {
    || a == b
    || (a.txn != "" && a.txn != active && a.kind.Data? && b.kind.Data? && b == a.(kind := b.kind))
  }

  ghost predicate SameFor<S>(h: History<S>, h2: History<S>, active: string) {
    h.Keys == h2.Keys && forall t :: t in h ==> Indistinguishable(h[t], h2[t], active)
  }

  lemma {:induction false} CollectSame<S>(h: History<S>, h2: History<S>, ts: seq<Tip>)
    requires h.Keys == h2.Keys
    ensures Collectable(h, ts) == Collectable(h2, ts)
    decreases |ts|
  {
    if ts != [] {
      CollectSame(h, h2, ts[1..]);
    }
  }

  lemma {:induction false} SortSame<S>(h: History<S>, h2: History<S>, active: string, ts: seq<Tip>)
    requires SameFor(h, h2, active) && forall t :: t in ts ==> t in h
    ensures SortByHash(h, ts) == SortByHash(h2, ts)
    decreases |ts|
  {
    hide Indistinguishable, InsertByHash;
    if ts != [] {
      SortSame(h, h2, active, ts[1..]);
      assert ts == [ts[0]] + ts[1..];
      InsertSame(h, h2, active, ts[0], SortByHash(h, ts[1..]));
    }
  }

  lemma {:induction false} InsertSame<S>(h: History<S>, h2: History<S>, active: string, t: Tip, ts: seq<Tip>)
    requires SameFor(h, h2, active) && t in h && forall x :: x in ts ==> x in h
    ensures InsertByHash(h, t, ts) == InsertByHash(h2, t, ts)
    decreases |ts|
  {
    if ts != [] {
      assert ts == [ts[0]] + ts[1..];
      InsertSame(h, h2, active, t, ts[1..]);
    }
  }

  lemma OrderSame<S>(h: History<S>, h2: History<S>, key: Key, active: string, tips: seq<Tip>)
    requires SameFor(h, h2, active)
    ensures FullOrder(h, key, tips) == FullOrder(h2, key, tips)
  {
    var g, g2 := ChildGraph(h, key, ZERO_TIP), ChildGraph(h2, key, ZERO_TIP);
    assert g == g2 by {
      forall t | t in h ensures g[t] == g2[t] {
        ChildrenSame(h, h2, key, active, t);
      }
    }
    SortedSame(h, h2, active, tips);
  }

  lemma ChildrenSame<S>(h: History<S>, h2: History<S>, key: Key, active: string, t: Tip)
    requires SameFor(h, h2, active) && t in h
    ensures ChildGraph(h, key, ZERO_TIP)[t] == ChildGraph(h2, key, ZERO_TIP)[t]
  {
    hide SortedWithin;
    SortedSame(h, h2, active, KeyDeps(key, h[t]));
  }

  lemma SortedSame<S>(h: History<S>, h2: History<S>, active: string, ts: seq<Tip>)
    requires SameFor(h, h2, active)
    ensures SortedWithin(h, ts) == SortedWithin(h2, ts)
  {
    hide SortByHash, Indistinguishable;
    CollectSame(h, h2, ts);
    SortSame(h, h2, active, Collectable(h, ts));
  }

  lemma {:induction false} FoldSame<S>(h: History<S>, h2: History<S>, active: string, f: (S, Effect<S>) -> S, st: S, order: seq<Tip>)
    requires SameFor(h, h2, active)
    ensures Fold(h, ZERO_TIP, active, f, st, order) == Fold(h2, ZERO_TIP, active, f, st, order)
    decreases |order|
  {
    if order != [] {
      FoldSame(h, h2, active, f, Step(h, ZERO_TIP, active, f, st, order[0]), order[1..]);
    }
  }

  /** No read sees what a transaction other than its own wrote; only the bind reaches it. */
  lemma NoDirtyRead<S>(h: History<S>, h2: History<S>, key: Key, active: string, f: (S, Effect<S>) -> S, init: S, tips: seq<Tip>)
    requires SameFor(h, h2, active)
    ensures FullValue(h, key, active, f, init, tips) == FullValue(h2, key, active, f, init, tips)
  {
    OrderSame(h, h2, key, active, tips);
    FoldSame(h, h2, active, f, init, FullOrder(h, key, tips));
  }

  // ---------- Reading inside a transaction ----------

  /** No write of the reader's own transaction lies below a state snapshot. */
  ghost predicate OwnOnTop<S(!new)>(h: History<S>, key: Key, active: string) {
    forall s, t :: s in h && IsStateSnapshot(h[s]) && ReachedFrom(DepGraph(h, key), h[s].deps, t) && t in h ==>
      h[t].txn == "" || h[t].kind.Bind? || h[t].txn != active
  }

  lemma {:induction false} FoldWithoutOwn<S>(h: History<S>, active: string, f: (S, Effect<S>) -> S, st: S, order: seq<Tip>)
    requires forall t :: t in order && t in h ==> h[t].txn == "" || h[t].kind.Bind? || h[t].txn != active
    ensures Fold(h, ZERO_TIP, active, f, st, order) == Fold(h, ZERO_TIP, "", f, st, order)
    decreases |order|
  {
    if order != [] {
      assert order[0] in order;
      FoldWithoutOwn(h, active, f, Step(h, ZERO_TIP, active, f, st, order[0]), order[1..]);
    }
  }

  lemma RecordedForReader<S(!new)>(h: History<S>, key: Key, active: string, f: (S, Effect<S>) -> S, init: S, lca: Tip)
    requires ZERO_TIP !in h && OwnOnTop(h, key, active) && lca in h && IsStateSnapshot(h[lca])
    ensures FullValue(h, key, active, f, init, h[lca].deps) == FullValue(h, key, "", f, init, h[lca].deps)
  {
    hide ReachedFrom;
    FullOrderReaches(h, key, h[lca].deps);
    FoldWithoutOwn(h, active, f, init, FullOrder(h, key, h[lca].deps));
  }

  /** A reader inside a transaction also sees the same value through every cut, its own writes
      included, as long as these lie above all snapshots. */
  lemma CompactionInsideTransaction<S(!new)>(
      h: History<S>, key: Key, active: string, f: (S, Effect<S>) -> S, init: S, tips: seq<Tip>, nodes: History<S>, lca: Tip,
      rank: Tip -> nat, bound: nat)
    requires ZERO_TIP !in h && Ranked(DepGraph(h, key), rank) && IgnoresSubscriptions(f) && Faithful(h, key, f, init)
    requires Collected(h, key, tips, nodes, lca) && OwnOnTop(h, key, active) && forall t :: t in tips ==> rank(t) < bound
    ensures CutValue(h, key, active, f, init, tips, nodes, lca) == FullValue(h, key, active, f, init, tips)
  {
    if lca == ZERO_TIP {
      UncutOrder(h, key, tips, nodes);
    } else {
      hide Collected, Ranked, Faithful, IgnoresSubscriptions, Order, Trimmed, Fold, SplitsAtCut, DepGraph, Distinct, OwnOnTop;
      CutBelowTips(h, key, rank, tips, nodes, lca, bound);
      var nodes', lca' := RecordedWalk(h, key, f, init, lca);
      CompactionIsTransparent(h, key, f, init, h[lca].deps, nodes', lca', rank, rank(lca));
      RecordedForReader(h, key, active, f, init, lca);
      CutPreservesOrder(h, key, tips, nodes, lca, rank);
      CutOrderDistinct(Trimmed(nodes, key, lca), key, lca, tips);
      CutPreservesValue(h, key, active, f, init, lca, FullOrder(h, key, tips), Order(Trimmed(nodes, key, lca), key, lca, tips));
    }
  }

  // ---------- Edges and fork choice ----------

  /** A read of a key goes from a bind to the bind's own write on that key and to nothing of other
      keys; from any other effect it goes to its dependencies. */
  lemma BindLeadsToItsWrite<S>(key: Key, e: Effect<S>)
    ensures e.kind.Bind? ==> forall i: nat :: EntryFor(key, e.kind.keys, i) ==> KeyDeps(key, e) == [e.kind.keys[i].newTip]
    ensures e.kind.Bind? && (forall j :: 0 <= j < |e.kind.keys| ==> e.kind.keys[j].key != key) ==> KeyDeps(key, e) == []
    ensures !e.kind.Bind? ==> KeyDeps(key, e) == e.deps
  {
    if e.kind.Bind? {
      forall i: nat | EntryFor(key, e.kind.keys, i) ensures KeyDeps(key, e) == [e.kind.keys[i].newTip] {
        BoundAt(key, e.kind.keys, i);
      }
      if forall j :: 0 <= j < |e.kind.keys| ==> e.kind.keys[j].key != key {
        NothingBound(key, e.kind.keys);
      }
    }
  }

  /** Roots before and after a: all that precede are no higher than a, b comes later. */
  lemma RootsSplit<S>(nodes: History<S>, todo: seq<Tip>, a: Tip, b: Tip) returns (i: nat)
    requires (forall x :: x in todo ==> x in nodes) && Ascending(nodes, todo) && a in todo && b in todo && nodes[a].hash < nodes[b].hash
    ensures i < |todo| && todo[i] == a && b in todo[i + 1..] && forall c :: c in todo[..i + 1] ==> nodes[c].hash <= nodes[a].hash
  {
    i :| 0 <= i < |todo| && todo[i] == a;
    var j :| 0 <= j < |todo| && todo[j] == b;
    assert j > i;
    assert todo[i + 1..][j - i - 1] == b;
  }

  /** Fork choice: of two tips the one with the lower hash is applied first, so the other prevails,
      unless it is already in the past of a tip that is not higher. */
  lemma LowerHashFirst<S(!new)>(nodes: History<S>, key: Key, lca: Tip, tips: seq<Tip>, a: Tip, b: Tip) returns (i: nat, j: nat)
    requires a in tips && b in tips && a in nodes && b in nodes && nodes[a].hash < nodes[b].hash
    requires forall c :: c in tips && c in nodes && nodes[c].hash <= nodes[a].hash ==> !Reaches(ChildGraph(nodes, key, lca), c, b)
    ensures var order := Order(nodes, key, lca, tips); i < j < |order| && order[i] == a && order[j] == b
  {
    hide *;
    var g, todo := ChildGraph(nodes, key, lca), SortedWithin(nodes, tips);
    SortedTips(nodes, tips);
    var k := RootsSplit(nodes, todo, a, b);
    var first, rest := todo[..k + 1], todo[k + 1..];
    assert todo == first + rest && todo[k] in first;
    WalkSplit(g, first, rest, {});
    OrderIsWalk(nodes, key, lca, tips);
    GraphKeys(nodes, key, lca);
    RootIsEmitted(g, first, a);
    RootIsEmitted(g, todo, b);
    NotYetEmitted(g, first, b);
    i, j := Positions(Walk(g, first, {}), Order(nodes, key, lca, tips), a, b);
  }

  lemma SortedTips<S>(nodes: History<S>, tips: seq<Tip>)
    ensures forall x :: x in SortedWithin(nodes, tips) <==> x in tips && x in nodes
    ensures Ascending(nodes, SortedWithin(nodes, tips))
  {
    SortAscends(nodes, Collectable(nodes, tips));
  }

  lemma OrderIsWalk<S>(nodes: History<S>, key: Key, lca: Tip, tips: seq<Tip>)
    ensures Order(nodes, key, lca, tips) == Walk(ChildGraph(nodes, key, lca), SortedWithin(nodes, tips), {})
  {
  }

  lemma RootIsEmitted(g: Graph<Tip>, roots: seq<Tip>, t: Tip)
    requires t in roots && t in g
    ensures t in Walk(g, roots, {})
  {
    hide Reaches, Walk;
    WalkIsReachability(g, roots, {});
    ReachesSelf(g, t);
    assert ReachedFrom(g, roots, t);
  }

  lemma NotYetEmitted(g: Graph<Tip>, roots: seq<Tip>, t: Tip)
    requires forall c :: c in roots ==> !Reaches(g, c, t)
    ensures t !in Walk(g, roots, {})
  {
    hide Reaches, Walk;
    WalkIsReachability(g, roots, {});
  }

  lemma Positions(before: seq<Tip>, order: seq<Tip>, a: Tip, b: Tip) returns (i: nat, j: nat)
    requires before <= order && a in before && b in order && b !in before
    ensures i < j < |order| && order[i] == a && order[j] == b
  {
    i :| 0 <= i < |before| && before[i] == a;
    j :| 0 <= j < |order| && order[j] == b;
    assert before == order[..|before|];
    assert forall k :: 0 <= k < |before| ==> order[k] == before[k];
  }

  lemma GraphKeys<S>(nodes: History<S>, key: Key, lca: Tip)
    ensures ChildGraph(nodes, key, lca).Keys == nodes.Keys
  {
  }
}
