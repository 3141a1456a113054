/** Cutting history off at a snapshot does not change the order, or the value, a reader sees. */
module DagOrder {
  import opened Effects
  import opened Sequences
  import opened PostOrder
  import opened Cutoff
  import opened DagSpec

  // ---------- Sorting by fork-choice hash ----------

  ghost predicate Ascending<S>(h: History<S>, ts: seq<Tip>)
    requires forall x :: x in ts ==> x in h
  {
    forall i, j :: 0 <= i < j < |ts| ==> h[ts[i]].hash <= h[ts[j]].hash
  }

  lemma {:induction false} InsertAscends<S>(h: History<S>, t: Tip, ts: seq<Tip>)
    requires t in h && (forall x :: x in ts ==> x in h) && Ascending(h, ts)
    ensures Ascending(h, InsertByHash(h, t, ts))
  {
    if ts != [] && h[t].hash > h[ts[0]].hash {
      InsertAscends(h, t, ts[1..]);
      var r := InsertByHash(h, t, ts[1..]);
      forall x | x in r ensures h[ts[0]].hash <= h[x].hash {}
    }
  }

  lemma {:induction false} SortAscends<S>(h: History<S>, ts: seq<Tip>)
    requires forall x :: x in ts ==> x in h
    ensures Ascending(h, SortByHash(h, ts))
  {
    if ts != [] {
      SortAscends(h, ts[1..]);
      InsertAscends(h, ts[0], SortByHash(h, ts[1..]));
    }
  }

  lemma {:induction false} KeepInsert<S>(h: History<S>, leaves: set<Tip>, t: Tip, ts: seq<Tip>)
    requires t in h && (forall x :: x in ts ==> x in h) && Ascending(h, ts)
    requires forall x :: x in Keep(leaves, ts) ==> x in h
    ensures Keep(leaves, InsertByHash(h, t, ts))
         == if t in leaves then Keep(leaves, ts) else InsertByHash(h, t, Keep(leaves, ts))
  {
    KeepElems(leaves, ts);
    if ts == [] {
    } else if h[t].hash <= h[ts[0]].hash {
      KeepJoin(leaves, [t], ts);
      assert Keep(leaves, [t]) == if t in leaves then [] else [t];
      if Keep(leaves, ts) != [] {
        assert Keep(leaves, ts)[0] in ts;
      }
    } else {
      KeepElems(leaves, ts[1..]);
      KeepInsert(h, leaves, t, ts[1..]);
      var r := InsertByHash(h, t, ts[1..]);
      KeepTail(leaves, ts);
      KeepTail(leaves, [ts[0]] + r);
      assert ([ts[0]] + r)[1..] == r;
    }
  }

  /** Sorting and dropping ignored tips commute. */
  lemma {:induction false} KeepSort<S>(h: History<S>, leaves: set<Tip>, ts: seq<Tip>)
    requires forall x :: x in ts ==> x in h
    requires forall x :: x in Keep(leaves, ts) ==> x in h
    ensures Keep(leaves, SortByHash(h, ts)) == SortByHash(h, Keep(leaves, ts))
  {
    if ts != [] {
      KeepElems(leaves, ts[1..]);
      KeepSort(h, leaves, ts[1..]);
      SortAscends(h, ts[1..]);
      KeepElems(leaves, SortByHash(h, ts[1..]));
      KeepInsert(h, leaves, ts[0], SortByHash(h, ts[1..]));
      KeepTail(leaves, ts);
    }
  }

  lemma {:induction false} InsertWithin<S(!new)>(nodes: History<S>, h: History<S>, t: Tip, ts: seq<Tip>)
    requires Within(nodes, h) && t in nodes && forall x :: x in ts ==> x in nodes
    ensures InsertByHash(nodes, t, ts) == InsertByHash(h, t, ts)
  {
    if ts != [] {
      InsertWithin(nodes, h, t, ts[1..]);
    }
  }

  lemma {:induction false} SortWithin<S(!new)>(nodes: History<S>, h: History<S>, ts: seq<Tip>)
    requires Within(nodes, h) && forall x :: x in ts ==> x in nodes
    ensures SortByHash(nodes, ts) == SortByHash(h, ts)
  {
    if ts != [] {
      SortWithin(nodes, h, ts[1..]);
      InsertWithin(nodes, h, ts[0], SortByHash(nodes, ts[1..]));
    }
  }

  lemma {:induction false} CollectableAll<S>(nodes: History<S>, ts: seq<Tip>)
    requires forall x :: x in ts ==> x in nodes
    ensures Collectable(nodes, ts) == ts
  {
    if ts != [] {
      CollectableAll(nodes, ts[1..]);
    }
  }

  lemma {:induction false} KeepCollectable<S>(nodes: History<S>, leaves: set<Tip>, ts: seq<Tip>)
    requires forall x :: x in ts && x !in nodes ==> x in leaves
    ensures Keep(leaves, Collectable(nodes, ts)) == Keep(leaves, ts)
  {
    if ts != [] {
      KeepCollectable(nodes, leaves, ts[1..]);
      KeepTail(leaves, ts);
      if ts[0] in nodes {
        var r := Collectable(nodes, ts[1..]);
        KeepTail(leaves, [ts[0]] + r);
        assert ([ts[0]] + r)[1..] == r;
      }
    }
  }

  // ---------- Trimming ----------

  /** The effects the cut snapshot already stands for, among those collected. */
  ghost predicate Folded<S>(nodes: History<S>, key: Key, lca: Tip, t: Tip)
    requires lca in nodes
  {
    ReachedFrom(DepGraph(nodes, key), nodes[lca].deps, t)
  }

  ghost function Trimmed<S>(nodes: History<S>, key: Key, lca: Tip): History<S> {
    if lca == ZERO_TIP || lca !in nodes || !nodes[lca].kind.Snapshot? then nodes
    else map t | t in nodes && !Folded(nodes, key, lca, t) :: nodes[t]
  }

  function Above<S>(nodes: History<S>, lca: Tip): set<Tip> {
    set t | t in nodes && t != lca && !IsStandalone(nodes[t])
  }

  lemma {:induction false} AboveOutranks<S(!new)>(h: History<S>, key: Key, tips: seq<Tip>, nodes: History<S>,
                                                  lca: Tip, rank: Tip -> nat, t: Tip)
    requires Within(nodes, h) && Converged(key, tips, nodes, lca) && Ranked(DepGraph(h, key), rank)
    requires t in Above(nodes, lca)
    ensures rank(lca) < rank(t)
    decreases rank(t)
  {
    var d := KeyDeps(key, nodes[t])[0];
    assert d in DepGraph(h, key)[t];
    if d != lca {
      assert Referenced(nodes, key, lca, d);
      AboveOutranks(h, key, tips, nodes, lca, rank, d);
    }
  }

  lemma {:induction false} PathDescends(g: Graph<Tip>, rank: Tip -> nat, p: seq<Tip>)
    requires Ranked(g, rank) && IsPath(g, p)
    ensures rank(p[|p| - 1]) <= rank(p[0])
  {
    if |p| > 1 {
      assert IsPath(g, p[1..]);
      assert p[0 + 1] in g[p[0]];
      PathDescends(g, rank, p[1..]);
    }
  }

  /** Trimming removes nothing but tips announcing subscriptions. */
  lemma TrimRemovesOnlyStandalone<S(!new)>(h: History<S>, key: Key, tips: seq<Tip>, nodes: History<S>, lca: Tip, rank: Tip -> nat, t: Tip)
    requires Within(nodes, h) && Converged(key, tips, nodes, lca) && Ranked(DepGraph(h, key), rank)
    requires Folded(nodes, key, lca, t)
    ensures t in nodes && t != lca && IsStandalone(nodes[t]) && t in tips && !Referenced(nodes, key, lca, t)
  {
    var d :| d in nodes[lca].deps && Reaches(DepGraph(nodes, key), d, t);
    var p :| IsPath(DepGraph(nodes, key), p) && p[0] == d && p[|p| - 1] == t;
    assert d in DepGraph(h, key)[lca];
    assert Ranked(DepGraph(nodes, key), rank) by {
      forall x, c | x in nodes && c in KeyDeps(key, nodes[x]) ensures rank(c) < rank(x) {
        assert c in DepGraph(h, key)[x];
      }
    }
    PathDescends(DepGraph(nodes, key), rank, p);
    if t in Above(nodes, lca) {
      AboveOutranks(h, key, tips, nodes, lca, rank, t);
    }
  }

  // ---------- The order theorem ----------

  /** The order of a walk that never cuts. */
  function FullOrder<S>(h: History<S>, key: Key, tips: seq<Tip>): seq<Tip> {
    Order(h, key, ZERO_TIP, tips)
  }

  lemma TrimmedWithin<S(!new)>(h: History<S>, key: Key, tips: seq<Tip>, nodes: History<S>, lca: Tip, rank: Tip -> nat)
    requires Within(nodes, h) && Converged(key, tips, nodes, lca) && Ranked(DepGraph(h, key), rank) && lca != ZERO_TIP
    ensures Within(Trimmed(nodes, key, lca), h)
    ensures lca in Trimmed(nodes, key, lca) && Above(nodes, lca) <= Trimmed(nodes, key, lca).Keys
    ensures forall t :: t in nodes && t !in Trimmed(nodes, key, lca) ==> t in tips && IsStandalone(h[t])
  {
    forall t | t in nodes && Folded(nodes, key, lca, t) ensures t != lca && IsStandalone(nodes[t]) && t in tips {
      TrimRemovesOnlyStandalone(h, key, tips, nodes, lca, rank, t);
    }
  }

  lemma AboveChildren<S(!new)>(h: History<S>, key: Key, tips: seq<Tip>, nodes: History<S>, kept: History<S>, lca: Tip, t: Tip)
    requires Within(nodes, h) && Within(kept, h) && Converged(key, tips, nodes, lca) && lca != ZERO_TIP
    requires ZERO_TIP !in h
    requires lca in kept && Above(nodes, lca) <= kept.Keys && t in Above(nodes, lca)
    ensures ChildGraph(h, key, ZERO_TIP)[t] == ChildGraph(kept, key, lca)[t] != []
    ensures forall c :: c in ChildGraph(h, key, ZERO_TIP)[t] ==> c in Above(nodes, lca) || c == lca
  {
    var deps := KeyDeps(key, h[t]);
    forall d | d in deps ensures d in Above(nodes, lca) || d == lca {
      assert d != lca ==> Referenced(nodes, key, lca, d);
    }
    CollectableAll(kept, deps);
    CollectableAll(h, deps);
    SortWithin(kept, h, deps);
    assert deps[0] in SortByHash(h, deps);
  }

  lemma ChildrenRanked<S(!new)>(h: History<S>, key: Key, rank: Tip -> nat)
    requires Ranked(DepGraph(h, key), rank)
    ensures Ranked(ChildGraph(h, key, ZERO_TIP), rank)
  {
    forall x, c | x in h && c in ChildGraph(h, key, ZERO_TIP)[x] ensures rank(c) < rank(x) {
      assert c in DepGraph(h, key)[x];
    }
  }

  lemma CutHasShape<S(!new)>(h: History<S>, key: Key, tips: seq<Tip>, nodes: History<S>, lca: Tip, rank: Tip -> nat)
    requires ZERO_TIP !in h && Ranked(DepGraph(h, key), rank)
    requires Within(nodes, h) && Converged(key, tips, nodes, lca) && lca != ZERO_TIP
    ensures CutShape(ChildGraph(h, key, ZERO_TIP), ChildGraph(Trimmed(nodes, key, lca), key, lca), lca, Above(nodes, lca), Standalones(h))
  {
    TrimmedWithin(h, key, tips, nodes, lca, rank);
    var kept := Trimmed(nodes, key, lca);
    forall t | t in Above(nodes, lca)
      ensures ChildGraph(h, key, ZERO_TIP)[t] == ChildGraph(kept, key, lca)[t] != []
      ensures forall c :: c in ChildGraph(h, key, ZERO_TIP)[t] ==> c in Above(nodes, lca) || c == lca
    {
      AboveChildren(h, key, tips, nodes, kept, lca, t);
    }
  }

  lemma SomeTipCounts<S(!new)>(h: History<S>, key: Key, tips: seq<Tip>, via: set<Tip>, lca: Tip)
    requires lca in h && !IsStandalone(h[lca]) && Discovered(h, key, tips, via, lca)
    ensures exists t :: t in tips && t !in Standalones(h)
  {
    var p :| PathVia(h, key, tips, via, p) && p[|p| - 1] == lca;
    if |p| > 1 {
      assert p[0 + 1] in KeyDeps(key, h[p[0]]);
    }
    assert p[0] in tips && p[0] !in Standalones(h);
  }

  lemma SortedTipsMatch<S(!new)>(h: History<S>, leaves: set<Tip>, kept: History<S>, tips: seq<Tip>)
    requires Within(kept, h) && (forall t :: t in tips ==> t in h)
    requires forall t :: t in tips && t !in kept ==> t in leaves
    ensures Keep(leaves, SortedWithin(h, tips)) == Keep(leaves, SortedWithin(kept, tips))
    ensures forall t :: t in tips && t !in leaves ==> t in Keep(leaves, SortedWithin(h, tips))
  {
    CollectableAll(h, tips);
    var there := Collectable(kept, tips);
    KeepCollectable(kept, leaves, tips);
    KeepElems(leaves, tips);
    KeepElems(leaves, there);
    KeepSort(h, leaves, tips);
    KeepSort(kept, leaves, there);
    SortWithin(kept, h, Keep(leaves, there));
  }

  lemma TipsMatch<S(!new)>(h: History<S>, key: Key, tips: seq<Tip>, nodes: History<S>, lca: Tip, rank: Tip -> nat)
    requires Ranked(DepGraph(h, key), rank) && Within(nodes, h) && Converged(key, tips, nodes, lca) && lca != ZERO_TIP
    requires (forall t :: t in tips ==> t in nodes) && Discovered(h, key, tips, nodes.Keys - {lca}, lca)
    ensures Keep(Standalones(h), SortedWithin(h, tips)) == Keep(Standalones(h), SortedWithin(Trimmed(nodes, key, lca), tips)) != []
    ensures Inside(Above(nodes, lca) + {lca}, Standalones(h), SortedWithin(h, tips))
  {
    TrimmedWithin(h, key, tips, nodes, lca, rank);
    SortedTipsMatch(h, Standalones(h), Trimmed(nodes, key, lca), tips);
    SomeTipCounts(h, key, tips, nodes.Keys - {lca}, lca);
  }

  /** Ignoring subscription announcements, the uncut order is the uncut order of the snapshot's
      own dependencies followed by exactly the cut order, which starts with the snapshot. */
  lemma CutPreservesOrder<S(!new)>(h: History<S>, key: Key, tips: seq<Tip>, nodes: History<S>, lca: Tip, rank: Tip -> nat)
    requires ZERO_TIP !in h && Ranked(DepGraph(h, key), rank)
    requires Collected(h, key, tips, nodes, lca) && lca != ZERO_TIP
    ensures lca in h
    ensures SplitsAtCut(h, key, lca, FullOrder(h, key, tips), Order(Trimmed(nodes, key, lca), key, lca, tips))
  {
    CutHasShape(h, key, tips, nodes, lca, rank);
    TipsMatch(h, key, tips, nodes, lca, rank);
    OrdersSplit(h, key, tips, Trimmed(nodes, key, lca), Above(nodes, lca), lca, rank);
  }

  ghost predicate SplitsAtCut<S>(h: History<S>, key: Key, lca: Tip, whole: seq<Tip>, cut: seq<Tip>)
    requires lca in h
  {
    var leaves := Standalones(h);
    && Keep(leaves, whole) == Keep(leaves, FullOrder(h, key, h[lca].deps)) + Keep(leaves, cut)
    && Keep(leaves, cut) != [] && Keep(leaves, cut)[0] == lca
  }

  lemma OrdersSplit<S(!new)>(h: History<S>, key: Key, tips: seq<Tip>, kept: History<S>, above: set<Tip>, lca: Tip, rank: Tip -> nat)
    requires Ranked(DepGraph(h, key), rank) && lca in h && lca != ZERO_TIP && h[lca].kind.Snapshot?
    requires CutShape(ChildGraph(h, key, ZERO_TIP), ChildGraph(kept, key, lca), lca, above, Standalones(h))
    requires Keep(Standalones(h), SortedWithin(h, tips)) == Keep(Standalones(h), SortedWithin(kept, tips)) != []
    requires Inside(above + {lca}, Standalones(h), SortedWithin(h, tips))
    ensures SplitsAtCut(h, key, lca, FullOrder(h, key, tips), Order(kept, key, lca, tips))
  {
    ChildrenRanked(h, key, rank);
    FirstDescent(ChildGraph(h, key, ZERO_TIP), ChildGraph(kept, key, lca), lca, above, Standalones(h), rank,
                 SortedWithin(h, tips), SortedWithin(kept, tips), {}, {});
  }

  // ---------- The value a reader sees ----------

  /** What the walk hands to the reader: the cut snapshot but no other, and no data of
      transactions other than the reader's own. */
  predicate ShouldEmit<S>(e: Effect<S>, t: Tip, lca: Tip, active: string) {
    if e.kind.Snapshot? then t == lca
    else e.txn == "" || e.kind.Bind? || e.txn == active
  }

  /** The reader's step: a state snapshot replaces what was accumulated, anything else is folded in. */
  function Step<S>(h: History<S>, lca: Tip, active: string, f: (S, Effect<S>) -> S, st: S, t: Tip): S {
    if t !in h || !ShouldEmit(h[t], t, lca, active) then st
    else if IsStateSnapshot(h[t]) then h[t].kind.state.value
    else f(st, h[t])
  }

  function Fold<S>(h: History<S>, lca: Tip, active: string, f: (S, Effect<S>) -> S, st: S, order: seq<Tip>): S {
    if order == [] then st else Fold(h, lca, active, f, Step(h, lca, active, f, st, order[0]), order[1..])
  }

  ghost predicate IgnoresSubscriptions<S(!new)>(f: (S, Effect<S>) -> S) {
    forall st, e :: IsStandalone(e) ==> f(st, e) == st
  }

  lemma {:induction false} FoldJoin<S>(h: History<S>, lca: Tip, active: string, f: (S, Effect<S>) -> S, st: S, a: seq<Tip>, b: seq<Tip>)
    ensures Fold(h, lca, active, f, st, a + b) == Fold(h, lca, active, f, Fold(h, lca, active, f, st, a), b)
  {
    if a == [] {
      assert a + b == b;
    } else {
      assert (a + b)[1..] == a[1..] + b;
      FoldJoin(h, lca, active, f, Step(h, lca, active, f, st, a[0]), a[1..], b);
    }
  }

  lemma {:induction false} FoldKeep<S(!new)>(h: History<S>, lca: Tip, active: string, f: (S, Effect<S>) -> S, st: S, order: seq<Tip>)
    requires IgnoresSubscriptions(f)
    ensures Fold(h, lca, active, f, st, order) == Fold(h, lca, active, f, st, Keep(Standalones(h), order))
  {
    if order != [] {
      FoldKeep(h, lca, active, f, Step(h, lca, active, f, st, order[0]), order[1..]);
      KeepTail(Standalones(h), order);
    }
  }

  lemma {:induction false} FoldElsewhere<S>(h: History<S>, lca: Tip, active: string, f: (S, Effect<S>) -> S, st: S, order: seq<Tip>)
    requires lca !in order && ZERO_TIP !in h
    ensures Fold(h, lca, active, f, st, order) == Fold(h, ZERO_TIP, active, f, st, order)
  {
    if order != [] {
      FoldElsewhere(h, lca, active, f, Step(h, lca, active, f, st, order[0]), order[1..]);
    }
  }

  /** The value read by folding the whole history below the tips. */
  function FullValue<S>(h: History<S>, key: Key, active: string, f: (S, Effect<S>) -> S, init: S, tips: seq<Tip>): S {
    Fold(h, ZERO_TIP, active, f, init, FullOrder(h, key, tips))
  }

  /** The value read from the effects a walk collected, starting at its cut. */
  ghost function CutValue<S>(h: History<S>, key: Key, active: string, f: (S, Effect<S>) -> S, init: S, tips: seq<Tip>,
                             nodes: History<S>, lca: Tip): S {
    Fold(h, lca, active, f, init, Order(Trimmed(nodes, key, lca), key, lca, tips))
  }

  /** Compaction records in each snapshot the value some walk over its dependencies returned. */
  ghost predicate Faithful<S(!new)>(h: History<S>, key: Key, f: (S, Effect<S>) -> S, init: S) {
    forall s :: s in h && IsStateSnapshot(h[s]) ==>
      exists nodes, lca :: Collected(h, key, h[s].deps, nodes, lca)
                        && h[s].kind.state.value == CutValue(h, key, "", f, init, h[s].deps, nodes, lca)
  }

  lemma {:induction false} KeepDistinct(leaves: set<Tip>, s: seq<Tip>)
    requires Distinct(s)
    ensures Distinct(Keep(leaves, s))
  {
    if s != [] {
      KeepDistinct(leaves, s[1..]);
      KeepElems(leaves, s[1..]);
      KeepTail(leaves, s);
      var k := Keep(leaves, s[1..]);
      forall i | 0 <= i < |k| ensures k[i] != s[0] {
        assert k[i] in k;
      }
    }
  }

  /** If the snapshot recorded what its dependencies fold to, cutting there changes nothing. */
  lemma CutPreservesValue<S(!new)>(h: History<S>, key: Key, active: string, f: (S, Effect<S>) -> S, init: S, lca: Tip, whole: seq<Tip>,
                                   cut: seq<Tip>)
    requires ZERO_TIP !in h && IgnoresSubscriptions(f) && lca in h && IsStateSnapshot(h[lca]) && lca != ZERO_TIP
    requires SplitsAtCut(h, key, lca, whole, cut)
    requires Distinct(cut)
    requires h[lca].kind.state.value == FullValue(h, key, active, f, init, h[lca].deps)
    ensures Fold(h, lca, active, f, init, cut) == Fold(h, ZERO_TIP, active, f, init, whole)
  {
    var leaves, state := Standalones(h), h[lca].kind.state.value;
    var kept, before := Keep(leaves, cut), FullOrder(h, key, h[lca].deps);
    KeepDistinct(leaves, cut);
    var post := kept[1..];
    DistinctHead(kept);
    assert Fold(h, ZERO_TIP, active, f, init, Keep(leaves, before)) == state by { FoldKeep(h, ZERO_TIP, active, f, init, before); }
    hide Standalones, Order, Keep;
    calc {
      Fold(h, lca, active, f, init, cut);
      { FoldKeep(h, lca, active, f, init, cut); }
      Fold(h, lca, active, f, init, kept);
      Fold(h, lca, active, f, state, post);
      { FoldElsewhere(h, lca, active, f, state, post); }
      Fold(h, ZERO_TIP, active, f, state, post);
      Fold(h, ZERO_TIP, active, f, state, kept);
      { FoldJoin(h, ZERO_TIP, active, f, init, Keep(leaves, before), kept); }
      Fold(h, ZERO_TIP, active, f, init, Keep(leaves, whole));
      { FoldKeep(h, ZERO_TIP, active, f, init, whole); }
      Fold(h, ZERO_TIP, active, f, init, whole);
    }
  }

  lemma {:induction false} KeepNothing(s: seq<Tip>)
    ensures Keep({}, s) == s
  {
    if s != [] {
      KeepNothing(s[1..]);
    }
  }

  lemma UncutOrder<S(!new)>(h: History<S>, key: Key, tips: seq<Tip>, nodes: History<S>)
    requires ZERO_TIP !in h && Within(nodes, h) && Uncut(nodes, key) && forall t :: t in tips ==> t in nodes
    ensures Order(nodes, key, ZERO_TIP, tips) == FullOrder(h, key, tips)
  {
    var g1, g2 := ChildGraph(h, key, ZERO_TIP), ChildGraph(nodes, key, ZERO_TIP);
    forall t | t in nodes ensures g1[t] == g2[t] && forall c :: c in g1[t] ==> c in nodes {
      CollectableAll(nodes, KeyDeps(key, nodes[t]));
      CollectableAll(h, KeyDeps(key, nodes[t]));
      SortWithin(nodes, h, KeyDeps(key, nodes[t]));
    }
    CollectableAll(nodes, tips);
    CollectableAll(h, tips);
    SortWithin(nodes, h, tips);
    var todo := SortedWithin(h, tips);
    Agree(g1, g2, nodes.Keys, {}, todo, todo, {}, {});
    KeepNothing(Walk(g1, todo, {}));
    KeepNothing(Walk(g2, todo, {}));
  }

  lemma {:induction false} PathRank<S(!new)>(h: History<S>, key: Key, rank: Tip -> nat, tips: seq<Tip>, via: set<Tip>, p: seq<Tip>)
    requires Ranked(DepGraph(h, key), rank) && PathVia(h, key, tips, via, p)
    ensures rank(p[|p| - 1]) <= rank(p[0])
  {
    if |p| > 1 {
      var q := p[..|p| - 1];
      PathRank(h, key, rank, tips, via, q);
      assert p[|p| - 2 + 1] in DepGraph(h, key)[p[|p| - 2]];
    }
  }

  lemma CutBelowTips<S(!new)>(h: History<S>, key: Key, rank: Tip -> nat, tips: seq<Tip>, nodes: History<S>, lca: Tip, bound: nat)
    requires Ranked(DepGraph(h, key), rank) && Collected(h, key, tips, nodes, lca) && lca != ZERO_TIP
    requires forall x :: x in tips ==> rank(x) < bound
    ensures lca in h && IsStateSnapshot(h[lca]) && rank(lca) < bound
    ensures forall d :: d in h[lca].deps ==> rank(d) < rank(lca)
  {
    hide Discovered, Referenced;
    assert lca in nodes && nodes[lca] == h[lca];
    DiscoveredRank(h, key, rank, tips, nodes.Keys - {lca}, lca, bound);
    assert forall d :: d in DepGraph(h, key)[lca] ==> rank(d) < rank(lca);
  }

  lemma DiscoveredRank<S(!new)>(h: History<S>, key: Key, rank: Tip -> nat, tips: seq<Tip>, inside: set<Tip>, t: Tip, bound: nat)
    requires Ranked(DepGraph(h, key), rank) && Discovered(h, key, tips, inside, t) && forall x :: x in tips ==> rank(x) < bound
    ensures rank(t) < bound
  {
    var p :| PathVia(h, key, tips, inside, p) && p[|p| - 1] == t;
    PathRank(h, key, rank, tips, inside, p);
  }

  lemma RecordedWalk<S(!new)>(h: History<S>, key: Key, f: (S, Effect<S>) -> S, init: S, s: Tip) returns (nodes: History<S>, lca: Tip)
    requires Faithful(h, key, f, init) && s in h && IsStateSnapshot(h[s])
    ensures Collected(h, key, h[s].deps, nodes, lca)
    ensures h[s].kind.state.value == CutValue(h, key, "", f, init, h[s].deps, nodes, lca)
  {
    nodes, lca :| Collected(h, key, h[s].deps, nodes, lca)
               && h[s].kind.state.value == CutValue(h, key, "", f, init, h[s].deps, nodes, lca);
  }

  lemma CutOrderDistinct<S>(kept: History<S>, key: Key, lca: Tip, tips: seq<Tip>)
    ensures Distinct(Order(kept, key, lca, tips))
  {
    WalkFresh(ChildGraph(kept, key, lca), SortedWithin(kept, tips), {});
  }

  /** Reading from the latest usable snapshot gives what folding the whole history gives. */
  lemma {:induction false} CompactionIsTransparent<S(!new)>(
      h: History<S>, key: Key, f: (S, Effect<S>) -> S, init: S, tips: seq<Tip>, nodes: History<S>, lca: Tip, rank: Tip -> nat, bound: nat)
    requires ZERO_TIP !in h && Ranked(DepGraph(h, key), rank) && IgnoresSubscriptions(f) && Faithful(h, key, f, init)
    requires Collected(h, key, tips, nodes, lca)
    requires forall t :: t in tips ==> rank(t) < bound
    ensures CutValue(h, key, "", f, init, tips, nodes, lca) == FullValue(h, key, "", f, init, tips)
    decreases bound
  {
    if lca == ZERO_TIP {
      UncutOrder(h, key, tips, nodes);
    } else {
      hide Collected, Ranked, Faithful, IgnoresSubscriptions, Order, Trimmed, Fold, SplitsAtCut, DepGraph, Distinct;
      CutBelowTips(h, key, rank, tips, nodes, lca, bound);
      var nodes', lca' := RecordedWalk(h, key, f, init, lca);
      CompactionIsTransparent(h, key, f, init, h[lca].deps, nodes', lca', rank, rank(lca));
      CutPreservesOrder(h, key, tips, nodes, lca, rank);
      CutOrderDistinct(Trimmed(nodes, key, lca), key, lca, tips);
      CutPreservesValue(h, key, "", f, init, lca, FullOrder(h, key, tips), Order(Trimmed(nodes, key, lca), key, lca, tips));
    }
  }
}
