/** The walk over one key's effects, as the engine runs it (effects/dag.go). */
module Dag {
  import opened Effects
  import opened Sequences
  import opened PostOrder
  import opened DagSpec
  import opened DagOrder
  import opened DagSearch

  /** The dependency frontier: collected effects not yet left behind. `refd` holds what an
      expanded effect refers to. */
  ghost function Frontier<S>(nodes: History<S>, key: Key, expanded: set<Tip>, refd: set<Tip>): set<Tip> {
    set t | t in nodes
         && (t !in expanded || KeyDeps(key, nodes[t]) == [])
         && (IsStandalone(nodes[t]) ==> t in refd)
  }

  /** Every collected effect has been expanded or waits, once, in the queue of its kind. */
  ghost predicate Queued<S(!new)>(h: History<S>, nodes: History<S>, queue: seq<Tip>, snapshots: seq<Tip>, expanded: set<Tip>) {
    && nodes.Keys == expanded + Elems(queue + snapshots)
    && Distinct(queue + snapshots) && expanded !! Elems(queue + snapshots)
    && (forall t :: t in snapshots ==> t in h && IsStateSnapshot(h[t]))
    && (forall t :: t in queue ==> t in h && !IsStateSnapshot(h[t]))
  }

  ghost predicate AllDiscovered<S(!new)>(h: History<S>, key: Key, tips: seq<Tip>, nodes: History<S>, via: set<Tip>) {
    forall t :: t in nodes ==> Discovered(h, key, tips, via, t)
  }

  /** Phase 1 between two dequeues. */
  ghost predicate Exploring<S(!new)>(h: History<S>, key: Key, tips: seq<Tip>, nodes: History<S>, queue: seq<Tip>, snapshots: seq<Tip>,
                                     frontier: set<Tip>, expanded: set<Tip>, refd: set<Tip>) {
    && Within(nodes, h)
    && Queued(h, nodes, queue, snapshots, expanded)
    && AllDiscovered(h, key, tips, nodes, expanded)
    && frontier == Frontier(nodes, key, expanded, refd)
  }

  /** Everything expanded has all its dependencies collected and counted as referenced. */
  ghost predicate Settled<S(!new)>(h: History<S>, key: Key, nodes: History<S>, expanded: set<Tip>, refd: set<Tip>) {
    && (forall x, d :: x in expanded && x in h && d in KeyDeps(key, h[x]) ==> d in nodes && d in refd)
    && (forall d :: d in refd ==> exists x :: x in expanded && x in h && d in KeyDeps(key, h[x]))
  }

  // ---------- Steps of phase 1 ----------

  lemma TipDiscovered<S(!new)>(h: History<S>, key: Key, tips: seq<Tip>, via: set<Tip>, t: Tip)
    requires t in tips
    ensures Discovered(h, key, tips, via, t)
  {
    assert PathVia(h, key, tips, via, [t]);
  }

  lemma DiscoveredGrows<S(!new)>(h: History<S>, key: Key, tips: seq<Tip>, via: set<Tip>, via': set<Tip>, t: Tip)
    requires Discovered(h, key, tips, via, t) && via <= via'
    ensures Discovered(h, key, tips, via', t)
  {
    var p :| PathVia(h, key, tips, via, p) && p[|p| - 1] == t;
    assert PathVia(h, key, tips, via', p);
  }

  lemma DiscoveredNext<S(!new)>(h: History<S>, key: Key, tips: seq<Tip>, via: set<Tip>, t: Tip, d: Tip)
    requires Discovered(h, key, tips, via, t) && t in via && t in h && d in KeyDeps(key, h[t])
    ensures Discovered(h, key, tips, via, d)
  {
    var p :| PathVia(h, key, tips, via, p) && p[|p| - 1] == t;
    assert PathVia(h, key, tips, via, p + [d]);
  }

  /** A fetched effect joins the queue of its kind and, unless it is a subscription that nothing
      refers to, the frontier. */
  lemma Fetched<S(!new)>(h: History<S>, key: Key, tips: seq<Tip>, nodes: History<S>, queue: seq<Tip>, snapshots: seq<Tip>,
                         frontier: set<Tip>, expanded: set<Tip>, refd: set<Tip>, t: Tip)
    requires Exploring(h, key, tips, nodes, queue, snapshots, frontier, expanded, refd)
    requires t in h && t !in nodes && Discovered(h, key, tips, expanded, t)
    ensures Exploring(h, key, tips, nodes[t := h[t]],
                      if IsStateSnapshot(h[t]) then queue else queue + [t],
                      if IsStateSnapshot(h[t]) then snapshots + [t] else snapshots,
                      if IsStandalone(h[t]) && t !in refd then frontier else frontier + {t}, expanded, refd)
  {
    hide Discovered;
    QueueGrows(h, nodes, queue, snapshots, expanded, t);
    assert AllDiscovered(h, key, tips, nodes[t := h[t]], expanded);
    hide Queued, AllDiscovered;
    assert t !in expanded by { ExpandedCollected(h, nodes, queue, snapshots, expanded); }
  }

  lemma ExpandedCollected<S(!new)>(h: History<S>, nodes: History<S>, queue: seq<Tip>, snapshots: seq<Tip>, expanded: set<Tip>)
    requires Queued(h, nodes, queue, snapshots, expanded)
    ensures expanded <= nodes.Keys
  {}

  lemma QueueGrows<S(!new)>(h: History<S>, nodes: History<S>, queue: seq<Tip>, snapshots: seq<Tip>, expanded: set<Tip>, t: Tip)
    requires Queued(h, nodes, queue, snapshots, expanded) && t in h && t !in nodes
    ensures Queued(h, nodes[t := h[t]],
                   if IsStateSnapshot(h[t]) then queue else queue + [t],
                   if IsStateSnapshot(h[t]) then snapshots + [t] else snapshots, expanded)
  {
    var all := queue + snapshots;
    assert t !in all by { assert t in all ==> t in Elems(all); }
    JoinDistinct(queue, snapshots, t);
    assert Elems((queue + [t]) + snapshots) == Elems(all) + {t};
    assert Elems(queue + (snapshots + [t])) == Elems(all) + {t};
  }

  lemma JoinDistinct(queue: seq<Tip>, snapshots: seq<Tip>, t: Tip)
    requires Distinct(queue + snapshots) && t !in queue && t !in snapshots
    ensures Distinct((queue + [t]) + snapshots) && Distinct(queue + (snapshots + [t]))
  {
    var a, b := (queue + [t]) + snapshots, queue + (snapshots + [t]);
    var o := queue + snapshots;
    forall i, j | 0 <= i < j < |a| ensures a[i] != a[j] {
      if i != |queue| && j != |queue| {
        var i', j' := if i < |queue| then i else i - 1, if j < |queue| then j else j - 1;
        assert o[i'] != o[j'];
      }
    }
    forall i, j | 0 <= i < j < |b| ensures b[i] != b[j] {
      if j < |o| {
        assert o[i] != o[j];
      }
    }
  }

  /** A reference makes a collected standalone subscription part of the frontier. */
  lemma Referred<S(!new)>(h: History<S>, key: Key, tips: seq<Tip>, nodes: History<S>, queue: seq<Tip>, snapshots: seq<Tip>,
                          frontier: set<Tip>, expanded: set<Tip>, refd: set<Tip>, d: Tip)
    requires Exploring(h, key, tips, nodes, queue, snapshots, frontier, expanded, refd)
    ensures Exploring(h, key, tips, nodes, queue, snapshots,
                      if d in nodes && IsStandalone(nodes[d]) then frontier + {d} else frontier, expanded, refd + {d})
  {}

  lemma Dequeued<S(!new)>(h: History<S>, key: Key, tips: seq<Tip>, nodes: History<S>, queue: seq<Tip>, snapshots: seq<Tip>,
                          frontier: set<Tip>, expanded: set<Tip>, refd: set<Tip>, cur: Tip, queue': seq<Tip>, snapshots': seq<Tip>)
    requires Exploring(h, key, tips, nodes, queue, snapshots, frontier, expanded, refd)
    requires queue != [] ==> cur == queue[0] && queue' == queue[1..] && snapshots' == snapshots
    requires queue == [] ==> snapshots != [] && cur == snapshots[0] && queue' == queue && snapshots' == snapshots[1..]
    ensures cur in nodes && cur in h && nodes[cur] == h[cur] && cur !in expanded
    ensures Exploring(h, key, tips, nodes, queue', snapshots',
                      if KeyDeps(key, h[cur]) == [] then frontier else frontier - {cur}, expanded + {cur}, refd)
  {
    hide Discovered;
    QueueShrinks(h, nodes, queue, snapshots, expanded, cur, queue', snapshots');
    forall t | t in nodes ensures Discovered(h, key, tips, expanded + {cur}, t) {
      DiscoveredGrows(h, key, tips, expanded, expanded + {cur}, t);
    }
    hide Queued;
  }

  lemma QueueShrinks<S(!new)>(h: History<S>, nodes: History<S>, queue: seq<Tip>, snapshots: seq<Tip>, expanded: set<Tip>,
                              cur: Tip, queue': seq<Tip>, snapshots': seq<Tip>)
    requires Queued(h, nodes, queue, snapshots, expanded)
    requires queue != [] ==> cur == queue[0] && queue' == queue[1..] && snapshots' == snapshots
    requires queue == [] ==> snapshots != [] && cur == snapshots[0] && queue' == queue && snapshots' == snapshots[1..]
    ensures Queued(h, nodes, queue', snapshots', expanded + {cur})
    ensures cur in nodes && cur !in expanded && (IsStateSnapshot(h[cur]) ==> queue == [])
  {
    var all, rest := queue + snapshots, queue' + snapshots';
    assert rest == all[1..];
    DistinctHead(all);
    assert cur == all[0];
    assert Elems(all) == {cur} + Elems(rest);
  }

  // ---------- How phase 1 ends ----------

  lemma TipOrReferenced<S(!new)>(h: History<S>, key: Key, tips: seq<Tip>, nodes: History<S>, expanded: set<Tip>, refd: set<Tip>, t: Tip)
    requires Discovered(h, key, tips, expanded, t) && Settled(h, key, nodes, expanded, refd)
    ensures t in tips || t in refd
  {
    var p :| PathVia(h, key, tips, expanded, p) && p[|p| - 1] == t;
    if |p| > 1 {
      assert p[|p| - 2 + 1] in KeyDeps(key, h[p[|p| - 2]]);
    }
  }

  /** A converged frontier leaves only paths into its one member. */
  lemma FrontierConverged<S(!new)>(h: History<S>, key: Key, tips: seq<Tip>, nodes: History<S>, expanded: set<Tip>, refd: set<Tip>, cur: Tip)
    requires Within(nodes, h) && AllDiscovered(h, key, tips, nodes, expanded) && Settled(h, key, nodes, expanded, refd)
    requires cur in nodes && IsStateSnapshot(nodes[cur]) && Frontier(nodes, key, expanded, refd) == {cur}
    ensures Converged(key, tips, nodes, cur)
  {
    hide Discovered;
    assert forall t :: t in nodes && t != cur ==> t !in Frontier(nodes, key, expanded, refd);
    forall t | t in nodes && t != cur
      ensures || (KeyDeps(key, nodes[t]) != [] && forall d :: d in KeyDeps(key, nodes[t]) ==> d in nodes)
              || (IsStandalone(nodes[t]) && t in tips && !Referenced(nodes, key, cur, t))
    {
      TipOrReferenced(h, key, tips, nodes, expanded, refd, t);
    }
  }

  lemma DiscoveredAround<S(!new)>(h: History<S>, key: Key, tips: seq<Tip>, via: set<Tip>, cut: Tip, t: Tip)
    requires Discovered(h, key, tips, via, t) && cut in h && KeyDeps(key, h[cut]) == []
    ensures Discovered(h, key, tips, via - {cut}, t)
  {
    var p :| PathVia(h, key, tips, via, p) && p[|p| - 1] == t;
    forall i | 0 <= i < |p| - 1 ensures p[i] != cut {
      assert p[i + 1] in KeyDeps(key, h[p[i]]);
    }
    assert PathVia(h, key, tips, via - {cut}, p);
  }

  lemma SoleMember(s: set<Tip>, t: Tip)
    requires |s| == 1 && t in s
    ensures s == {t}
  {
    assert |s - {t}| == 0;
  }

  /** Stopping early at a snapshot when it is the whole frontier. */
  lemma StopsAtSnapshot<S(!new)>(h: History<S>, key: Key, tips: seq<Tip>, nodes: History<S>, queue: seq<Tip>, snapshots: seq<Tip>,
                                 frontier: set<Tip>, expanded: set<Tip>, refd: set<Tip>, cur: Tip)
    requires Exploring(h, key, tips, nodes, queue, snapshots, frontier, expanded, refd) && Settled(h, key, nodes, expanded, refd)
    requires (forall t :: t in tips ==> t in nodes) && cur != ZERO_TIP
    requires cur in nodes && cur !in expanded && IsStateSnapshot(nodes[cur]) && |frontier| == 1
    ensures Collected(h, key, tips, nodes, cur)
  {
    hide Discovered;
    SoleMember(frontier, cur);
    FrontierConverged(h, key, tips, nodes, expanded, refd, cur);
    ExpandedCollected(h, nodes, queue, snapshots, expanded);
    hide Frontier, Queued, Settled, Converged, Uncut;
    forall t | t in nodes ensures Discovered(h, key, tips, nodes.Keys - {cur}, t) {
      DiscoveredGrows(h, key, tips, expanded, nodes.Keys - {cur}, t);
    }
  }

  lemma FrontierIsRoots<S(!new)>(h: History<S>, key: Key, nodes: History<S>, refd: set<Tip>)
    requires Within(nodes, h) && Settled(h, key, nodes, nodes.Keys, refd) && ZERO_TIP !in h
    ensures Frontier(nodes, key, nodes.Keys, refd) == Roots(nodes, key)
  {
    forall t ensures t in refd <==> Referenced(nodes, key, ZERO_TIP, t) {
      if x :| x in nodes && x != ZERO_TIP && t in KeyDeps(key, nodes[x]) {
        assert x in h && t in KeyDeps(key, h[x]);
      }
    }
  }

  lemma RootConverged<S(!new)>(h: History<S>, key: Key, tips: seq<Tip>, nodes: History<S>, refd: set<Tip>, t: Tip)
    requires Within(nodes, h) && AllDiscovered(h, key, tips, nodes, nodes.Keys) && Settled(h, key, nodes, nodes.Keys, refd)
    requires (forall t :: t in tips ==> t in nodes) && ZERO_TIP !in h
    requires t in nodes && IsStateSnapshot(nodes[t]) && Frontier(nodes, key, nodes.Keys, refd) == {t}
    ensures Collected(h, key, tips, nodes, t)
  {
    hide Discovered;
    FrontierConverged(h, key, tips, nodes, nodes.Keys, refd, t);
    assert t in Frontier(nodes, key, nodes.Keys, refd);
    hide Frontier, Settled, Converged, Uncut;
    forall x | x in nodes ensures Discovered(h, key, tips, nodes.Keys - {t}, x) {
      DiscoveredAround(h, key, tips, nodes.Keys, t, x);
    }
  }

  /** Running out of work without one root snapshot being all that is left of the frontier. */
  lemma RunsOut<S(!new)>(h: History<S>, key: Key, tips: seq<Tip>, nodes: History<S>, frontier: set<Tip>, refd: set<Tip>)
    requires Within(nodes, h) && AllDiscovered(h, key, tips, nodes, nodes.Keys) && Settled(h, key, nodes, nodes.Keys, refd)
    requires (forall t :: t in tips ==> t in nodes) && ZERO_TIP !in h
    requires frontier == Frontier(nodes, key, nodes.Keys, refd)
    requires forall t :: t in nodes && IsStateSnapshot(nodes[t]) ==> frontier != {t}
    ensures Collected(h, key, tips, nodes, ZERO_TIP)
  {
    hide Discovered, Frontier, Roots, Referenced;
    FrontierIsRoots(h, key, nodes, refd);
    assert Uncut(nodes, key);
    hide Uncut, Settled;
    assert nodes.Keys - {ZERO_TIP} == nodes.Keys;
  }

  lemma ExpandedKnown<S(!new)>(h: History<S>, key: Key, tips: seq<Tip>, nodes: History<S>, queue: seq<Tip>, snapshots: seq<Tip>,
                               frontier: set<Tip>, expanded: set<Tip>, refd: set<Tip>, cur: Tip)
    requires Exploring(h, key, tips, nodes, queue, snapshots, frontier, expanded, refd) && cur in nodes
    ensures Discovered(h, key, tips, expanded, cur) && expanded <= h.Keys && nodes.Keys <= h.Keys
  {
    hide Discovered;
  }

  lemma SettledGrows<S(!new)>(h: History<S>, key: Key, nodes: History<S>, nodes': History<S>, expanded: set<Tip>, refd: set<Tip>, cur: Tip)
    requires Settled(h, key, nodes, expanded, refd) && nodes.Keys <= nodes'.Keys && cur in h
    requires forall d :: d in KeyDeps(key, h[cur]) ==> d in nodes'
    ensures Settled(h, key, nodes', expanded + {cur}, refd + Elems(KeyDeps(key, h[cur])))
  {
    forall d | d in refd + Elems(KeyDeps(key, h[cur])) ensures exists x :: x in expanded + {cur} && x in h && d in KeyDeps(key, h[x]) {
      if d in refd {
        var x :| x in expanded && x in h && d in KeyDeps(key, h[x]);
        assert x in expanded + {cur};
      } else {
        assert cur in expanded + {cur};
      }
    }
  }

  lemma AllExpanded<S(!new)>(h: History<S>, key: Key, tips: seq<Tip>, nodes: History<S>, frontier: set<Tip>,
                             expanded: set<Tip>, refd: set<Tip>)
    requires Exploring(h, key, tips, nodes, [], [], frontier, expanded, refd)
    ensures expanded == nodes.Keys && Within(nodes, h) && AllDiscovered(h, key, tips, nodes, nodes.Keys)
    ensures frontier == Frontier(nodes, key, nodes.Keys, refd) <= nodes.Keys
  {
    hide Discovered;
  }

  lemma NoElems(s: seq<Tip>)
    requires s == []
    ensures Elems(s) == {}
  {}

  lemma ElemsOfSome(s: seq<Tip>)
    ensures s == [] || Elems(s) != {}
  {
    assert s == [] || s[0] in Elems(s);
  }

  lemma ElemsNext(s: seq<Tip>, i: nat)
    requires i < |s|
    ensures Elems(s[..i + 1]) == Elems(s[..i]) + {s[i]}
  {
    assert s[..i + 1] == s[..i] + [s[i]];
  }

  lemma NothingExplored<S(!new)>(h: History<S>, key: Key, tips: seq<Tip>)
    ensures Exploring(h, key, tips, map[], [], [], {}, {}, {})
  {}

  lemma NothingSettled<S(!new)>(h: History<S>, key: Key, nodes: History<S>)
    ensures Settled(h, key, nodes, {}, {})
  {}

  // ---------- Trimming ----------

  function Without<S>(all: History<S>, gone: set<Tip>): History<S> {
    all - gone
  }

  /** `gone` holds only what the roots reach, and with the stack everything one step away. */
  ghost predicate Trimming<S>(all: History<S>, key: Key, roots: seq<Tip>, gone: set<Tip>, stack: seq<Tip>) {
    && gone <= all.Keys
    && (forall x :: (x in gone || x in stack) && x in all ==> ReachedFrom(DepGraph(all, key), roots, x))
    && (forall x :: x in roots && x in all ==> x in gone || x in stack)
    && (forall x, c :: x in gone && c in KeyDeps(key, all[x]) && c in all ==> c in gone || c in stack)
  }

  lemma NothingTrimmed<S>(all: History<S>, key: Key, lca: Tip)
    requires lca == ZERO_TIP || lca !in all || !all[lca].kind.Snapshot?
    ensures Trimmed(all, key, lca) == all
  {}

  lemma WithoutOne<S>(all: History<S>, gone: set<Tip>, cur: Tip)
    ensures Without(all, gone + {cur}) == Without(all, gone) - {cur}
    ensures cur in Without(all, gone) <==> cur in all && cur !in gone
    ensures cur in all && cur !in gone ==> all[cur] == Without(all, gone)[cur] && |Without(all, gone) - {cur}| < |Without(all, gone)|
  {
    var m := Without(all, gone);
    if cur in m {
      assert (m - {cur}).Keys == m.Keys - {cur};
      assert |(m - {cur}).Keys| < |m.Keys|;
    }
  }

  lemma TrimStarts<S>(all: History<S>, key: Key, roots: seq<Tip>)
    ensures Trimming(all, key, roots, {}, roots) && Without(all, {}) == all
  {
    forall x | x in roots && x in all ensures ReachedFrom(DepGraph(all, key), roots, x) {
      ReachesSelf(DepGraph(all, key), x);
    }
  }

  lemma {:induction false} ReachesOn(g: Graph<Tip>, a: Tip, b: Tip, c: Tip)
    requires Reaches(g, a, b) && b in g && c in g[b] && c in g
    ensures Reaches(g, a, c)
  {
    var p :| IsPath(g, p) && p[0] == a && p[|p| - 1] == b;
    assert IsPath(g, p + [c]);
  }

  lemma TrimStep<S>(all: History<S>, key: Key, roots: seq<Tip>, gone: set<Tip>, stack: seq<Tip>, cur: Tip)
    requires Trimming(all, key, roots, gone, stack + [cur]) && cur in all && cur !in gone
    ensures Trimming(all, key, roots, gone + {cur}, stack + KeyDeps(key, all[cur]))
  {
    hide ReachedFrom;
    assert cur in stack + [cur];
    forall c | c in KeyDeps(key, all[cur]) && c in all ensures ReachedFrom(DepGraph(all, key), roots, c) {
      ReachedOn(all, key, roots, cur, c);
    }
  }

  lemma ReachedOn<S>(all: History<S>, key: Key, roots: seq<Tip>, cur: Tip, c: Tip)
    requires ReachedFrom(DepGraph(all, key), roots, cur) && cur in all && c in KeyDeps(key, all[cur]) && c in all
    ensures ReachedFrom(DepGraph(all, key), roots, c)
  {
    hide Reaches;
    var a :| a in roots && Reaches(DepGraph(all, key), a, cur);
    ReachesOn(DepGraph(all, key), a, cur, c);
  }

  lemma TrimSkip<S>(all: History<S>, key: Key, roots: seq<Tip>, gone: set<Tip>, stack: seq<Tip>, cur: Tip)
    requires Trimming(all, key, roots, gone, stack + [cur]) && (cur !in all || cur in gone)
    ensures Trimming(all, key, roots, gone, stack)
  {
    hide Reaches;
  }

  lemma TrimEnds<S>(all: History<S>, key: Key, lca: Tip, gone: set<Tip>)
    requires lca != ZERO_TIP && lca in all && all[lca].kind.Snapshot? && Trimming(all, key, all[lca].deps, gone, [])
    ensures Without(all, gone) == Trimmed(all, key, lca)
  {
    hide Reaches;
    forall x | x in all ensures x in gone <==> Folded(all, key, lca, x) {
      if a :| a in all[lca].deps && Reaches(DepGraph(all, key), a, x) {
        InsideGone(all, key, gone, a, x);
      }
    }
  }

  lemma InsideGone<S>(all: History<S>, key: Key, gone: set<Tip>, a: Tip, x: Tip)
    requires gone <= all.Keys && forall x, c :: x in gone && c in KeyDeps(key, all[x]) && c in all ==> c in gone
    requires Reaches(DepGraph(all, key), a, x) && (a in all ==> a in gone)
    ensures x in gone
  {
    var p :| IsPath(DepGraph(all, key), p) && p[0] == a && p[|p| - 1] == x;
    ReachesStaysInside(DepGraph(all, key), gone, p);
  }

  // ---------- Emitting ----------

  /** Phase 2 after the roots in `todo`: what it appended and what it marked. */
  ghost predicate Emitted(g: Graph<Tip>, todo: seq<Tip>, before: seq<Tip>, visited: set<Tip>, order: seq<Tip>, marked: set<Tip>) {
    && order == before + Walk(g, todo, visited)
    && visited <= marked
    && forall t :: t in g ==> (t in marked <==> t in visited || t in Walk(g, todo, visited))
  }

  lemma EmitNothing(g: Graph<Tip>, before: seq<Tip>, visited: set<Tip>)
    ensures Emitted(g, [], before, visited, before, visited)
  {}

  lemma EmitNext(g: Graph<Tip>, todo: seq<Tip>, i: nat, before: seq<Tip>, visited: set<Tip>,
                 order: seq<Tip>, marked: set<Tip>, order': seq<Tip>, marked': set<Tip>)
    requires i < |todo| && Emitted(g, todo[..i], before, visited, order, marked) && Emitted(g, [todo[i]], order, marked, order', marked')
    ensures Emitted(g, todo[..i + 1], before, visited, order', marked')
  {
    var first := Walk(g, todo[..i], visited);
    assert todo[..i + 1] == todo[..i] + [todo[i]];
    WalkSplit(g, todo[..i], [todo[i]], visited);
    WalkIgnoresStrangers(g, [todo[i]], marked, visited + Elems(first));
    assert order' == before + (first + Walk(g, [todo[i]], marked));
  }

  lemma EmitVertex(g: Graph<Tip>, t: Tip, before: seq<Tip>, visited: set<Tip>, order: seq<Tip>, marked: set<Tip>)
    requires t in g && t !in visited && Emitted(g, g[t], before, visited + {t}, order, marked)
    ensures Emitted(g, [t], before, visited, order + [t], marked)
  {
    var below := Walk(g, g[t], visited + {t});
    WalkStep(g, [t], visited);
    assert Walk(g, [t], visited) == below + [t];
    assert order + [t] == before + (below + [t]);
  }

  lemma EmitSkip(g: Graph<Tip>, t: Tip, before: seq<Tip>, visited: set<Tip>)
    requires t in visited || t !in g
    ensures Emitted(g, [t], before, visited, before, visited) && Emitted(g, [t], before, visited, before, visited + {t})
  {
    assert Walk(g, [t], visited) == [];
  }

  lemma EmitSame(g: Graph<Tip>, todo: seq<Tip>, todo': seq<Tip>, before: seq<Tip>, visited: set<Tip>, order: seq<Tip>, marked: set<Tip>)
    requires Emitted(g, todo, before, visited, order, marked) && Walk(g, todo, visited) == Walk(g, todo', visited)
    ensures Emitted(g, todo', before, visited, order, marked)
  {}

  lemma EmitGrows(g: Graph<Tip>, todo: seq<Tip>, before: seq<Tip>, visited: set<Tip>, order: seq<Tip>, marked: set<Tip>)
    requires Emitted(g, todo, before, visited, order, marked)
    ensures visited <= marked
  {}

  lemma EmittedOrder(g: Graph<Tip>, todo: seq<Tip>, order: seq<Tip>, marked: set<Tip>)
    requires Emitted(g, todo, [], {}, order, marked)
    ensures order == Walk(g, todo, {})
  {}

  lemma NothingCollected<S(!new)>(h: History<S>, key: Key, tips: seq<Tip>, nodes: History<S>, lca: Tip)
    requires nodes == map[] && Collected(h, key, tips, nodes, lca)
    ensures Trimmed(nodes, key, lca) == nodes && Order(nodes, key, lca, tips) == []
  {
    assert Elems(tips) <= nodes.Keys;
    ElemsOfSome(tips);
  }

  lemma CollectedWithin<S(!new)>(h: History<S>, key: Key, tips: seq<Tip>, all: History<S>, lca: Tip)
    requires Collected(h, key, tips, all, lca)
    ensures Within(Trimmed(all, key, lca), h)
  {
    hide Discovered, Converged, Uncut, Folded;
  }

  lemma OrderInNodes<S>(nodes: History<S>, key: Key, lca: Tip, tips: seq<Tip>)
    ensures forall t :: t in Order(nodes, key, lca, tips) ==> t in nodes
  {
    WalkFresh(ChildGraph(nodes, key, lca), SortedWithin(nodes, tips), {});
  }

  lemma FoldNext<S>(h: History<S>, lca: Tip, active: string, f: (S, Effect<S>) -> S, init: S, order: seq<Tip>, i: nat)
    requires i < |order|
    ensures Fold(h, lca, active, f, init, order[..i + 1]) == Step(h, lca, active, f, Fold(h, lca, active, f, init, order[..i]), order[i])
  {
    assert order[..i + 1] == order[..i] + [order[i]];
    FoldJoin(h, lca, active, f, init, order[..i], [order[i]]);
  }

  /** A single dependency needs neither the lookup nor the sort. */
  lemma SingleDep<S>(nodes: History<S>, key: Key, lca: Tip, t: Tip, d: Tip, visited: set<Tip>)
    requires t in nodes && !(nodes[t].kind.Snapshot? && t == lca) && KeyDeps(key, nodes[t]) == [d]
    ensures var g := ChildGraph(nodes, key, lca); Walk(g, g[t], visited) == Walk(g, [d], visited)
  {
    assert Collectable(nodes, [d]) == if d in nodes then [d] else [];
    if d in nodes {
      assert SortByHash(nodes, [d]) == [d];
    }
  }

  // ---------- The walker ----------

  /** Some effect the walk needs is absent. */
  ghost predicate Incomplete<S(!new)>(h: History<S>, key: Key, tips: seq<Tip>) {
    exists t :: t !in h && Discovered(h, key, tips, h.Keys, t)
  }

  class Walker<S(!new)> {
    const history: History<S>
    const key: Key
    var nodes: History<S>
    var lcaTip: Tip
    var topoOrder: seq<Tip>

    constructor (history: History<S>, key: Key)
      ensures this.history == history && this.key == key
      ensures nodes == map[] && lcaTip == ZERO_TIP && topoOrder == []
    {
      this.history := history;
      this.key := key;
      nodes := map[];
      lcaTip := ZERO_TIP;
      topoOrder := [];
    }

    /** Collects the tips themselves. */
    method Seed(tips: seq<Tip>) returns (ok: bool, queue: seq<Tip>, snapshots: seq<Tip>, frontier: set<Tip>)
      requires nodes == map[]
      modifies this`nodes
      ensures ok ==> Exploring(history, key, tips, nodes, queue, snapshots, frontier, {}, {})
      ensures ok ==> forall t :: t in tips ==> t in nodes
      ensures !ok ==> Incomplete(history, key, tips)
      ensures ok ==> nodes.Keys <= history.Keys
      ensures SeedAll(history, tips, Search(map[], [], [], {})) == if ok then Some(Search(nodes, queue, snapshots, frontier)) else None
    {
      hide Exploring, Discovered, SeedAll;
      queue, snapshots, frontier := [], [], {};
      NothingExplored(history, key, tips);
      assert tips[0..] == tips;
      for i := 0 to |tips|
        invariant Exploring(history, key, tips, nodes, queue, snapshots, frontier, {}, {})
        invariant forall t :: t in tips[..i] ==> t in nodes
        invariant nodes.Keys <= history.Keys
        invariant SeedAll(history, tips, Search(map[], [], [], {})) == SeedAll(history, tips[i..], Search(nodes, queue, snapshots, frontier))
      {
        var t := tips[i];
        SeedStep(history, tips[i..], Search(nodes, queue, snapshots, frontier));
        assert tips[i..][1..] == tips[i + 1..];
        if t !in nodes {
          if t !in history {
            TipDiscovered(history, key, tips, history.Keys, t);
            return false, queue, snapshots, frontier;
          }
          var eff := history[t];
          TipDiscovered(history, key, tips, {}, t);
          Fetched(history, key, tips, nodes, queue, snapshots, frontier, {}, {}, t);
          nodes := nodes[t := eff];
          if !eff.kind.Subscription? || eff.deps != [] {
            frontier := frontier + {t};
          }
          if IsStateSnapshot(eff) {
            snapshots := snapshots + [t];
          } else {
            queue := queue + [t];
          }
        }
      }
      SeedDone(history, Search(nodes, queue, snapshots, frontier));
      assert tips[|tips|..] == [];
      ok := true;
    }

    /** Collects the dependencies of one expanded effect. */
    method Follow(ghost tips: seq<Tip>, cur: Tip, queue0: seq<Tip>, snapshots0: seq<Tip>, frontier0: set<Tip>,
                  ghost expanded: set<Tip>, ghost refd0: set<Tip>)
      returns (ok: bool, queue: seq<Tip>, snapshots: seq<Tip>, frontier: set<Tip>, ghost refd: set<Tip>)
      requires cur in nodes && cur in history && nodes[cur] == history[cur] && cur in expanded
      requires Discovered(history, key, tips, expanded, cur) && expanded <= history.Keys
      requires Exploring(history, key, tips, nodes, queue0, snapshots0, frontier0, expanded, refd0)
      requires nodes.Keys <= history.Keys
      modifies this`nodes
      ensures ok ==> Exploring(history, key, tips, nodes, queue, snapshots, frontier, expanded, refd)
      ensures ok ==> old(nodes).Keys <= nodes.Keys && forall d :: d in KeyDeps(key, history[cur]) ==> d in nodes
      ensures ok ==> refd == refd0 + Elems(KeyDeps(key, history[cur]))
      ensures !ok ==> Incomplete(history, key, tips)
      ensures ok ==> nodes.Keys <= history.Keys
      ensures FollowAll(history, KeyDeps(key, history[cur]), Search(old(nodes), queue0, snapshots0, frontier0))
           == if ok then Some(Search(nodes, queue, snapshots, frontier)) else None
    {
      hide Exploring, Discovered, KeyDeps, Elems, FollowAll;
      queue, snapshots, frontier, refd := queue0, snapshots0, frontier0, refd0;
      var deps := KeyDeps(key, nodes[cur]);
      NoElems(deps[..0]);
      assert deps[0..] == deps;
      for i := 0 to |deps|
        invariant Exploring(history, key, tips, nodes, queue, snapshots, frontier, expanded, refd)
        invariant old(nodes).Keys <= nodes.Keys && forall d :: d in deps[..i] ==> d in nodes
        invariant refd == refd0 + Elems(deps[..i])
        invariant nodes.Keys <= history.Keys
        invariant FollowAll(history, deps, Search(old(nodes), queue0, snapshots0, frontier0))
               == FollowAll(history, deps[i..], Search(nodes, queue, snapshots, frontier))
      {
        var d := deps[i];
        FollowStep(history, deps[i..], Search(nodes, queue, snapshots, frontier));
        assert deps[i..][1..] == deps[i + 1..];
        Referred(history, key, tips, nodes, queue, snapshots, frontier, expanded, refd, d);
        ElemsNext(deps, i);
        refd := refd + {d};
        if d in nodes {
          if nodes[d].kind.Subscription? && nodes[d].deps == [] {
            frontier := frontier + {d};
          }
        } else {
          DiscoveredNext(history, key, tips, expanded, cur, d);
          if d !in history {
            DiscoveredGrows(history, key, tips, expanded, history.Keys, d);
            return false, queue, snapshots, frontier, refd;
          }
          var depEff := history[d];
          Fetched(history, key, tips, nodes, queue, snapshots, frontier, expanded, refd, d);
          nodes := nodes[d := depEff];
          frontier := frontier + {d};
          if IsStateSnapshot(depEff) {
            snapshots := snapshots + [d];
          } else {
            queue := queue + [d];
          }
        }
      }
      assert deps[..|deps|] == deps && deps[|deps|..] == [];
      FollowDone(history, Search(nodes, queue, snapshots, frontier));
      ok := true;
    }

    /** Explores from the tips; false when an effect it needs is absent. */
    method Bfs(tips: seq<Tip>) returns (ok: bool)
      requires ZERO_TIP !in history && nodes == map[] && lcaTip == ZERO_TIP
      modifies this`nodes, this`lcaTip
      ensures ok ==> Collected(history, key, tips, nodes, lcaTip)
      ensures !ok ==> Incomplete(history, key, tips)
      ensures SearchFrom(history, key, tips) == if ok then Found(nodes, lcaTip) else Missing
    {
      hide Discovered, Exploring, Settled, Collected, Incomplete, KeyDeps, Elems, Explore, FollowAll, SeedAll;
      var queue, snapshots, frontier;
      ok, queue, snapshots, frontier := Seed(tips);
      if !ok {
        return;
      }
      ghost var expanded, refd: set<Tip> := {}, {};
      NothingSettled(history, key, nodes);
      while queue != [] || snapshots != []
        invariant lcaTip == ZERO_TIP && (forall t :: t in tips ==> t in nodes)
        invariant Exploring(history, key, tips, nodes, queue, snapshots, frontier, expanded, refd)
        invariant Settled(history, key, nodes, expanded, refd)
        invariant nodes.Keys <= history.Keys
        invariant SearchFrom(history, key, tips) == Explore(history, key, Search(nodes, queue, snapshots, frontier))
        decreases |history.Keys - expanded|
      {
        var cur, queue', snapshots' := ZERO_TIP, queue, snapshots;
        if queue != [] {
          cur, queue' := queue[0], queue[1..];
        } else {
          cur, snapshots' := snapshots[0], snapshots[1..];
        }
        Dequeued(history, key, tips, nodes, queue, snapshots, frontier, expanded, refd, cur, queue', snapshots');
        ExploreStep(history, key, Search(nodes, queue, snapshots, frontier));
        var eff := nodes[cur];
        if IsStateSnapshot(eff) && |frontier| == 1 {
          StopsAtSnapshot(history, key, tips, nodes, queue, snapshots, frontier, expanded, refd, cur);
          lcaTip := cur;
          return;
        }
        if KeyDeps(key, eff) != [] {
          frontier := frontier - {cur};
        }
        ghost var more := expanded + {cur};
        ghost var known, refs := nodes, refd;
        ExpandedKnown(history, key, tips, nodes, queue', snapshots', frontier, more, refd, cur);
        ok, queue, snapshots, frontier, refd := Follow(tips, cur, queue', snapshots', frontier, more, refd);
        if !ok {
          return;
        }
        SettledGrows(history, key, known, nodes, expanded, refs, cur);
        assert cur in history.Keys - expanded;
        assert history.Keys - more == history.Keys - expanded - {cur};
        expanded := more;
      }
      AllExpanded(history, key, tips, nodes, frontier, expanded, refd);
      ExploreDone(history, key, Search(nodes, queue, snapshots, frontier));
      var s := SnapshotLeft(frontier);
      if s != ZERO_TIP {
        RootConverged(history, key, tips, nodes, refd, s);
        lcaTip := s;
      } else {
        RunsOut(history, key, tips, nodes, frontier, refd);
      }
    }

    /** The state snapshot that is the whole frontier, if there is one. */
    method SnapshotLeft(frontier: set<Tip>) returns (s: Tip)
      requires frontier <= nodes.Keys && ZERO_TIP !in nodes
      ensures s != ZERO_TIP ==> s in nodes && frontier == {s} && IsStateSnapshot(nodes[s])
      ensures s == ZERO_TIP ==> forall t :: t in nodes && IsStateSnapshot(nodes[t]) ==> frontier != {t}
      ensures forall queue, snapshots ::
                s == if |frontier| == 1 then LastSnapshot(Search(nodes, queue, snapshots, frontier)) else ZERO_TIP
    {
      s := ZERO_TIP;
      if |frontier| == 1 {
        var t :| t in frontier;
        SoleMember(frontier, t);
        if IsStateSnapshot(nodes[t]) {
          s := t;
        }
        forall queue, snapshots ensures s == LastSnapshot(Search(nodes, queue, snapshots, frontier)) {}
      } else if exists t :: frontier == {t} {
        assert false;
      }
    }

    /** Drops from the collected effects those the cut snapshot already stands for. */
    method TrimAncestorsOfLca()
      modifies this`nodes
      ensures nodes == Trimmed(old(nodes), key, lcaTip)
    {
      hide Trimming, Trimmed, Without, KeyDeps;
      if lcaTip == ZERO_TIP || lcaTip !in nodes || !nodes[lcaTip].kind.Snapshot? {
        NothingTrimmed(nodes, key, lcaTip);
        return;
      }
      ghost var all, deps := nodes, nodes[lcaTip].deps;
      ghost var gone: set<Tip> := {};
      var stack := nodes[lcaTip].deps;
      TrimStarts(all, key, deps);
      while stack != []
        invariant Trimming(all, key, deps, gone, stack) && nodes == Without(all, gone)
        decreases |nodes|, |stack|
      {
        var cur := stack[|stack| - 1];
        assert stack == stack[..|stack| - 1] + [cur];
        stack := stack[..|stack| - 1];
        WithoutOne(all, gone, cur);
        if cur in nodes {
          var eff := nodes[cur];
          TrimStep(all, key, deps, gone, stack, cur);
          gone := gone + {cur};
          nodes := nodes - {cur};
          stack := stack + KeyDeps(key, eff);
        } else {
          TrimSkip(all, key, deps, gone, stack, cur);
        }
      }
      TrimEnds(all, key, lcaTip, gone);
    }

    /** Post-order traversal from one tip; `visited` is the set of marks. */
    method TopoCollect(t: Tip, visited: set<Tip>) returns (marked: set<Tip>)
      modifies this`topoOrder
      ensures Emitted(ChildGraph(nodes, key, lcaTip), [t], old(topoOrder), visited, topoOrder, marked)
      decreases |nodes.Keys - visited|, 0
    {
      hide Emitted, SortedWithin, Walk;
      ghost var g := ChildGraph(nodes, key, lcaTip);
      if t in visited || t !in nodes {
        EmitSkip(g, t, topoOrder, visited);
        return visited + {t};
      }
      marked := visited + {t};
      assert t in nodes.Keys - visited && nodes.Keys - marked == nodes.Keys - visited - {t};
      var eff := nodes[t];
      if eff.kind.Snapshot? && t == lcaTip {
        EmitNothing(g, topoOrder, marked);
        EmitVertex(g, t, topoOrder, visited, topoOrder, marked);
        topoOrder := topoOrder + [t];
      } else if !eff.kind.Bind? && |eff.deps| == 1 {
        SingleDep(nodes, key, lcaTip, t, eff.deps[0], marked);
        ghost var mark := marked;
        marked := TopoCollect(eff.deps[0], marked);
        EmitSame(g, [eff.deps[0]], g[t], old(topoOrder), mark, topoOrder, marked);
        EmitVertex(g, t, old(topoOrder), visited, topoOrder, marked);
        topoOrder := topoOrder + [t];
      } else {
        marked := TopoCollectAll(SortedWithin(nodes, KeyDeps(key, eff)), marked);
        EmitVertex(g, t, old(topoOrder), visited, topoOrder, marked);
        topoOrder := topoOrder + [t];
      }
    }

    /** One tip after the other. */
    method TopoCollectAll(todo: seq<Tip>, visited: set<Tip>) returns (marked: set<Tip>)
      modifies this`topoOrder
      ensures Emitted(ChildGraph(nodes, key, lcaTip), todo, old(topoOrder), visited, topoOrder, marked)
      decreases |nodes.Keys - visited|, 1
    {
      hide Emitted, ChildGraph;
      ghost var g := ChildGraph(nodes, key, lcaTip);
      marked := visited;
      EmitNothing(g, topoOrder, visited);
      assert todo[..0] == [];
      for i := 0 to |todo|
        invariant Emitted(g, todo[..i], old(topoOrder), visited, topoOrder, marked) && visited <= marked
      {
        ghost var order, mark := topoOrder, marked;
        SubsetSize(nodes.Keys - marked, nodes.Keys - visited);
        marked := TopoCollect(todo[i], marked);
        EmitNext(g, todo, i, old(topoOrder), visited, order, mark, topoOrder, marked);
        EmitGrows(g, todo[..i + 1], old(topoOrder), visited, topoOrder, marked);
      }
      assert todo[..|todo|] == todo;
    }

    /** Both phases. `all` is what phase 1 collected, before trimming. */
    method Prepare(tips: seq<Tip>) returns (ok: bool, ghost all: History<S>)
      requires ZERO_TIP !in history
      modifies this
      ensures ok ==> Collected(history, key, tips, all, lcaTip) && nodes == Trimmed(all, key, lcaTip)
      ensures ok ==> topoOrder == Order(nodes, key, lcaTip, tips)
      ensures !ok ==> Incomplete(history, key, tips)
    {
      hide Collected, Incomplete, Emitted, Trimmed;
      lcaTip, topoOrder, nodes := ZERO_TIP, [], map[];
      ok := Bfs(tips);
      all := nodes;
      if !ok {
        return;
      }
      if nodes == map[] {
        NothingCollected(history, key, tips, nodes, lcaTip);
        return;
      }
      TrimAncestorsOfLca();
      var marked := TopoCollectAll(SortedWithin(nodes, tips), {});
      EmittedOrder(ChildGraph(nodes, key, lcaTip), SortedWithin(nodes, tips), topoOrder, marked);
    }

    /** Hands the emitted effects, in order, to a reader that accumulates a value. */
    method Read(tips: seq<Tip>, active: string, f: (S, Effect<S>) -> S, init: S) returns (ok: bool, value: S, ghost all: History<S>)
      requires ZERO_TIP !in history
      modifies this
      ensures ok ==> Collected(history, key, tips, all, lcaTip) && value == CutValue(history, key, active, f, init, tips, all, lcaTip)
      ensures !ok ==> Incomplete(history, key, tips)
    {
      hide Collected, Incomplete, Order, Trimmed;
      value := init;
      ok, all := Prepare(tips);
      if !ok {
        return;
      }
      CollectedWithin(history, key, tips, all, lcaTip);
      OrderInNodes(nodes, key, lcaTip, tips);
      for i := 0 to |topoOrder|
        modifies {}
        invariant value == Fold(history, lcaTip, active, f, init, topoOrder[..i])
      {
        var t := topoOrder[i];
        assert t in topoOrder;
        var eff := nodes[t];
        FoldNext(history, lcaTip, active, f, init, topoOrder, i);
        if ShouldEmit(eff, t, lcaTip, active) {
          value := if IsStateSnapshot(eff) then eff.kind.state.value else f(value, eff);
        }
      }
      assert topoOrder[..|topoOrder|] == topoOrder;
    }
  }
}
