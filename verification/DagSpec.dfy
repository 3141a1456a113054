/** What the two-phase walk over one key's effects computes: which effects it collects, where it
    may cut history off, and the order in which it emits what it collected. */
module DagSpec {
  import opened Effects
  import opened PostOrder
  import opened Cutoff

  function DepGraph<S>(h: History<S>, key: Key): Graph<Tip> {
    map t | t in h :: KeyDeps(key, h[t])
  }

  function Standalones<S>(h: History<S>): set<Tip> {
    set t | t in h && IsStandalone(h[t])
  }

  // ---------- Fork-choice order ----------

  function InsertByHash<S>(h: History<S>, t: Tip, ts: seq<Tip>): (r: seq<Tip>)
    requires t in h && forall x :: x in ts ==> x in h
    ensures forall x :: x in r <==> x == t || x in ts
    ensures multiset(r) == multiset(ts) + multiset{t}
  {
    if ts == [] then [t]
    else if h[t].hash <= h[ts[0]].hash then [t] + ts
    else
      assert ts == [ts[0]] + ts[1..];
      [ts[0]] + InsertByHash(h, t, ts[1..])
  }

  /** The tips in ascending fork-choice hash. */
  function SortByHash<S>(h: History<S>, ts: seq<Tip>): (r: seq<Tip>)
    requires forall x :: x in ts ==> x in h
    ensures forall x :: x in r <==> x in ts
    ensures multiset(r) == multiset(ts)
  {
    if ts == [] then []
    else
      assert ts == [ts[0]] + ts[1..];
      InsertByHash(h, ts[0], SortByHash(h, ts[1..]))
  }

  /** The tips that were collected, in the order given. */
  function Collectable<S>(nodes: History<S>, ts: seq<Tip>): (r: seq<Tip>)
    ensures forall x :: x in r <==> x in ts && x in nodes
  {
    if ts == [] then []
    else if ts[0] in nodes then [ts[0]] + Collectable(nodes, ts[1..])
    else Collectable(nodes, ts[1..])
  }

  function SortedWithin<S>(nodes: History<S>, ts: seq<Tip>): seq<Tip> {
    SortByHash(nodes, Collectable(nodes, ts))
  }

  /** The collected effects as phase 2 sees them: it does not descend past the cut. */
  function ChildGraph<S>(nodes: History<S>, key: Key, lca: Tip): Graph<Tip> {
    map t | t in nodes ::
      if nodes[t].kind.Snapshot? && t == lca then [] else SortedWithin(nodes, KeyDeps(key, nodes[t]))
  }

  /** The emission order of the collected effects. */
  function Order<S>(nodes: History<S>, key: Key, lca: Tip, tips: seq<Tip>): seq<Tip> {
    Walk(ChildGraph(nodes, key, lca), SortedWithin(nodes, tips), {})
  }

  // ---------- Phase 1 ----------

  ghost predicate Within<S(!new)>(nodes: History<S>, h: History<S>) {
    forall t :: t in nodes ==> t in h && nodes[t] == h[t]
  }

  /** A dependency path from one of the tips whose interior stays in `via`. */
  ghost predicate PathVia<S>(h: History<S>, key: Key, tips: seq<Tip>, via: set<Tip>, p: seq<Tip>) {
    && p != [] && p[0] in tips
    && (forall i :: 0 <= i < |p| - 1 ==> p[i] in via && p[i] in h && p[i + 1] in KeyDeps(key, h[p[i]]))
  }

  ghost predicate Discovered<S>(h: History<S>, key: Key, tips: seq<Tip>, via: set<Tip>, t: Tip) {
    exists p :: PathVia(h, key, tips, via, p) && p[|p| - 1] == t
  }

  /** Some collected effect other than the cut depends on t. */
  ghost predicate Referenced<S>(nodes: History<S>, key: Key, lca: Tip, t: Tip) {
    exists x :: x in nodes && x != lca && t in KeyDeps(key, nodes[x])
  }

  /** Ends of dependency paths among the collected effects. */
  ghost function Roots<S>(nodes: History<S>, key: Key): set<Tip> {
    set t | t in nodes && KeyDeps(key, nodes[t]) == [] && (IsStandalone(nodes[t]) ==> Referenced(nodes, key, ZERO_TIP, t))
  }

  /** What phase 1 establishes. */
  ghost predicate Collected<S(!new)>(h: History<S>, key: Key, tips: seq<Tip>, nodes: History<S>, lca: Tip) {
    && Within(nodes, h)
    && (forall t :: t in tips ==> t in nodes)
    && (forall t :: t in nodes ==> Discovered(h, key, tips, nodes.Keys - {lca}, t))
    && (lca == ZERO_TIP ==> Uncut(nodes, key))
    && (lca != ZERO_TIP ==> Converged(key, tips, nodes, lca))
  }

  /** The whole ancestry was collected and it does not end in one state snapshot. */
  ghost predicate Uncut<S>(nodes: History<S>, key: Key) {
    && (forall t, d :: t in nodes && d in KeyDeps(key, nodes[t]) ==> d in nodes)
    && (forall t :: t in nodes && IsStateSnapshot(nodes[t]) ==> Roots(nodes, key) != {t})
  }

  /** Every collected effect except the cut leads on, unless it is a tip announcing a
      subscription that no other collected effect refers to. */
  ghost predicate Converged<S>(key: Key, tips: seq<Tip>, nodes: History<S>, lca: Tip) {
    && lca in nodes && IsStateSnapshot(nodes[lca])
    && forall t :: t in nodes && t != lca ==>
         || (KeyDeps(key, nodes[t]) != [] && forall d :: d in KeyDeps(key, nodes[t]) ==> d in nodes)
         || (IsStandalone(nodes[t]) && t in tips && !Referenced(nodes, key, lca, t))
  }

  // ---------- Dominance ----------

  /** A dependency path that cannot be continued: it ends at a root or at an absent dependency. */
  ghost predicate MaximalPath<S>(h: History<S>, key: Key, p: seq<Tip>) {
    && IsPath(DepGraph(h, key), p)
    && var last := KeyDeps(key, h[p[|p| - 1]]);
       last == [] || exists d :: d in last && d !in h
  }

  /** If the walk cuts at a snapshot then every maximal path from every tip that carries data
      ancestry passes through it. */
  lemma Dominance<S(!new)>(h: History<S>, key: Key, tips: seq<Tip>, nodes: History<S>, lca: Tip, p: seq<Tip>)
    requires Collected(h, key, tips, nodes, lca) && lca != ZERO_TIP
    requires MaximalPath(h, key, p) && p[0] in tips && !IsStandalone(h[p[0]])
    ensures lca in p
  {
    if lca !in p {
      StaysAbove(h, key, tips, nodes, lca, p, |p| - 1);
    }
  }

  lemma {:induction false} StaysAbove<S(!new)>(h: History<S>, key: Key, tips: seq<Tip>, nodes: History<S>, lca: Tip, p: seq<Tip>, i: nat)
    requires Within(nodes, h) && Converged(key, tips, nodes, lca)
    requires IsPath(DepGraph(h, key), p) && p[0] in nodes && !IsStandalone(h[p[0]]) && lca !in p && i < |p|
    ensures p[i] in nodes && KeyDeps(key, h[p[i]]) != []
    ensures forall d :: d in KeyDeps(key, h[p[i]]) ==> d in h
  {
    if i > 0 {
      StaysAbove(h, key, tips, nodes, lca, p, i - 1);
      var x, y := p[i - 1], p[i];
      assert x in p && y in p;
      assert p[i - 1 + 1] in DepGraph(h, key)[x];
      assert y in KeyDeps(key, nodes[x]);
      assert Referenced(nodes, key, lca, y);
    } else {
      assert p[0] in p;
    }
  }
}
