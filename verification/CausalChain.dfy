/** The walk that tolerates absent effects (effects/effect.go, collectCausalChain): it lists every
    reference it discovers and may stop at a snapshot, but never past an absent dependency. */
module CausalChain {
  import opened Effects
  import opened Sequences
  import opened PostOrder
  import opened DagSpec
  import opened Dag

  /** What an absent effect looks like to the walk: the end of a path that carries data. */
  function Absent<S>(): Effect<S> {
    Effect("", Data(""), [], "", 0)
  }

  /** What the zero reference looks like: the walk passes over it, so it never holds a path up. */
  function Nowhere<S>(): Effect<S> {
    Effect("", Data(""), [ZERO_TIP], "", 0)
  }

  /** The cached effects together with stand-ins for the absent ones that are mentioned. */
  ghost function Padded<S>(cache: History<S>, mentioned: set<Tip>): History<S> {
    map t | t in cache.Keys - {ZERO_TIP} + mentioned :: if t == ZERO_TIP then Nowhere() else if t in cache then cache[t] else Absent()
  }

  /** Everything the walk can come across. */
  ghost function Mentioned<S>(cache: History<S>, key: Key, tips: seq<Tip>): set<Tip> {
    Elems(tips) + set t, d | t in cache && t != ZERO_TIP && d in KeyDeps(key, cache[t]) :: d
  }

  ghost function Padding<S>(cache: History<S>, key: Key, tips: seq<Tip>): History<S> {
    Padded(cache, Mentioned(cache, key, tips))
  }

  /** An absent effect joins the frontier at once and for good. */
  lemma FetchedAbsent<S(!new)>(h: History<S>, key: Key, tips: seq<Tip>, nodes: History<S>, queue: seq<Tip>, snapshots: seq<Tip>,
                               frontier: set<Tip>, expanded: set<Tip>, refd: set<Tip>, t: Tip)
    requires Exploring(h, key, tips, nodes, queue, snapshots, frontier, expanded, refd)
    requires t in h && h[t] == Absent() && t !in nodes && Discovered(h, key, tips, expanded, t)
    ensures Exploring(h, key, tips, nodes[t := h[t]], queue, snapshots, frontier + {t}, expanded + {t}, refd)
  {
    hide Discovered;
    forall x | x in nodes[t := h[t]] ensures Discovered(h, key, tips, expanded + {t}, x) {
      DiscoveredGrows(h, key, tips, expanded, expanded + {t}, x);
    }
  }

  /** The zero reference is passed over: it is listed nowhere and does not join the frontier. */
  lemma FetchedZero<S(!new)>(h: History<S>, key: Key, tips: seq<Tip>, nodes: History<S>, queue: seq<Tip>, snapshots: seq<Tip>,
                             frontier: set<Tip>, expanded: set<Tip>, refd: set<Tip>)
    requires Exploring(h, key, tips, nodes, queue, snapshots, frontier, expanded, refd)
    requires ZERO_TIP in h && h[ZERO_TIP] == Nowhere() && ZERO_TIP !in nodes && Discovered(h, key, tips, expanded, ZERO_TIP)
    ensures Exploring(h, key, tips, nodes[ZERO_TIP := h[ZERO_TIP]], queue, snapshots, frontier, expanded + {ZERO_TIP}, refd)
  {
    hide Discovered;
    forall x | x in nodes[ZERO_TIP := h[ZERO_TIP]] ensures Discovered(h, key, tips, expanded + {ZERO_TIP}, x) {
      DiscoveredGrows(h, key, tips, expanded, expanded + {ZERO_TIP}, x);
    }
  }

  /** If the walk stopped at a snapshot, nothing it discovered was absent. */
  lemma StopMeansPresent<S(!new)>(cache: History<S>, key: Key, tips: seq<Tip>, nodes: History<S>, lca: Tip)
    requires Collected(Padding(cache, key, tips), key, tips, nodes, lca) && lca != ZERO_TIP
    ensures forall t :: t in nodes && t != ZERO_TIP ==> t in cache
  {
    hide Discovered;
    forall t | t in nodes && t != ZERO_TIP ensures t in cache {
      assert nodes[t] == Padding(cache, key, tips)[t];
    }
  }

  function NonZero(tips: seq<Tip>): (r: seq<Tip>)
    ensures forall t :: t in r <==> t in tips && t != ZERO_TIP
  {
    if tips == [] then []
    else if tips[0] == ZERO_TIP then NonZero(tips[1..])
    else [tips[0]] + NonZero(tips[1..])
  }

  datatype Worklist = Worklist(visited: set<Tip>, queue: seq<Tip>, snapshots: seq<Tip>, frontier: set<Tip>, chain: seq<Tip>)

  /** The working state seen as an exploration of the padded history. */
  ghost predicate Walking<S(!new)>(cache: History<S>, key: Key, tips: seq<Tip>, w: Worklist, nodes: History<S>,
                                   expanded: set<Tip>, refd: set<Tip>) {
    && Exploring(Padding(cache, key, tips), key, tips, nodes, w.queue, w.snapshots, w.frontier, expanded, refd)
    && w.visited == nodes.Keys - {ZERO_TIP} == Elems(w.chain) && Distinct(w.chain)
    && (forall t :: t in w.queue || t in w.snapshots ==> t in cache && t != ZERO_TIP)
    && (ZERO_TIP in nodes ==> ZERO_TIP in expanded && ZERO_TIP in refd)
  }

  lemma ChainGrows(chain: seq<Tip>, t: Tip)
    requires Distinct(chain) && t !in Elems(chain)
    ensures Distinct(chain + [t]) && Elems(chain + [t]) == Elems(chain) + {t}
  {
    forall i | 0 <= i < |chain| ensures chain[i] != t {
      assert chain[i] in Elems(chain);
    }
  }

  /** Lists one reference, if it is new, and queues the effect it refers to, if it is there. */
  method Visit<S(!new)>(cache: History<S>, key: Key, ghost tips: seq<Tip>, tp: Tip, standalone: bool, w: Worklist,
                        ghost nodes: History<S>, ghost expanded: set<Tip>, ghost refd: set<Tip>)
    returns (w': Worklist, ghost nodes': History<S>, ghost expanded': set<Tip>, ghost refd': set<Tip>)
    requires Walking(cache, key, tips, w, nodes, expanded, refd) && (standalone ==> tp != ZERO_TIP)
    requires tp in Padding(cache, key, tips) && Discovered(Padding(cache, key, tips), key, tips, expanded, tp)
    requires standalone ==> tp !in refd
    ensures Walking(cache, key, tips, w', nodes', expanded', refd')
    ensures tp in nodes' && nodes.Keys <= nodes'.Keys && refd' == (if standalone then refd else refd + {tp})
    ensures expanded <= expanded'
    ensures forall x :: x in expanded' - expanded ==> x in Padding(cache, key, tips) && (x !in cache || x == ZERO_TIP)
  {
    hide Discovered, Exploring, Padding, Elems, Distinct;
    ghost var h := Padding(cache, key, tips);
    w', nodes', expanded', refd' := w, nodes, expanded, refd;
    PaddingKeepsCache(cache, key, tips, tp);
    if !standalone {
      Referred(h, key, tips, nodes, w.queue, w.snapshots, w.frontier, expanded, refd, tp);
      refd' := refd + {tp};
    }
    ExploringWithin(h, key, tips, nodes, w.queue, w.snapshots, w.frontier, expanded, refd);
    if tp == ZERO_TIP {
      if ZERO_TIP !in nodes {
        FetchedZero(h, key, tips, nodes, w.queue, w.snapshots, w.frontier, expanded, refd');
        nodes', expanded' := nodes[ZERO_TIP := h[ZERO_TIP]], expanded + {ZERO_TIP};
      }
      return;
    }
    if tp in w.visited {
      if !standalone && tp in cache && cache[tp].kind.Subscription? && cache[tp].deps == [] {
        w' := w.(frontier := w.frontier + {tp});
      }
      return;
    }
    ChainGrows(w.chain, tp);
    nodes' := nodes[tp := h[tp]];
    w' := w.(visited := w.visited + {tp}, frontier := w.frontier + {tp}, chain := w.chain + [tp]);
    if tp !in cache {
      FetchedAbsent(h, key, tips, nodes, w.queue, w.snapshots, w.frontier, expanded, refd', tp);
      expanded' := expanded + {tp};
      return;
    }
    Fetched(h, key, tips, nodes, w.queue, w.snapshots, w.frontier, expanded, refd', tp);
    NotInFrontier(h, key, tips, nodes, w.queue, w.snapshots, w.frontier, expanded, refd, tp);
    if standalone && cache[tp].kind.Subscription? && cache[tp].deps == [] {
      assert w.frontier + {tp} - {tp} == w.frontier;
      w' := w'.(frontier := w'.frontier - {tp});
    }
    if IsStateSnapshot(cache[tp]) {
      w' := w'.(snapshots := w.snapshots + [tp]);
    } else {
      w' := w'.(queue := w.queue + [tp]);
    }
  }

  lemma PaddingKeepsCache<S>(cache: History<S>, key: Key, tips: seq<Tip>, t: Tip)
    requires t in Padding(cache, key, tips)
    ensures Padding(cache, key, tips)[t] == if t == ZERO_TIP then Nowhere() else if t in cache then cache[t] else Absent()
  {}

  lemma ExploringWithin<S(!new)>(h: History<S>, key: Key, tips: seq<Tip>, nodes: History<S>, queue: seq<Tip>, snapshots: seq<Tip>,
                                 frontier: set<Tip>, expanded: set<Tip>, refd: set<Tip>)
    requires Exploring(h, key, tips, nodes, queue, snapshots, frontier, expanded, refd)
    ensures Within(nodes, h)
  {
    hide Discovered;
  }

  lemma NotInFrontier<S(!new)>(h: History<S>, key: Key, tips: seq<Tip>, nodes: History<S>, queue: seq<Tip>, snapshots: seq<Tip>,
                               frontier: set<Tip>, expanded: set<Tip>, refd: set<Tip>, t: Tip)
    requires Exploring(h, key, tips, nodes, queue, snapshots, frontier, expanded, refd) && t !in nodes
    ensures t !in frontier
  {
    hide Discovered;
  }

  lemma NothingWalked<S(!new)>(cache: History<S>, key: Key, tips: seq<Tip>)
    ensures Walking(cache, key, tips, Worklist({}, [], [], {}, []), map[], {}, {})
  {}

  /** Stand-ins depend on nothing new, so expanding them owes nothing. */
  lemma SettledAround<S(!new)>(h: History<S>, key: Key, nodes: History<S>, nodes': History<S>, expanded: set<Tip>,
                               expanded': set<Tip>, refd: set<Tip>)
    requires Settled(h, key, nodes, expanded, refd) && nodes.Keys <= nodes'.Keys && expanded <= expanded'
    requires forall x, d :: x in expanded' - expanded && x in h && d in KeyDeps(key, h[x]) ==> d in nodes' && d in refd
    ensures Settled(h, key, nodes', expanded', refd)
  {
    forall x, d | x in expanded' && x in h && d in KeyDeps(key, h[x]) ensures d in nodes' && d in refd {
      assert x in expanded || x in expanded' - expanded;
    }
    forall d | d in refd ensures exists x :: x in expanded' && x in h && d in KeyDeps(key, h[x]) {
      var x :| x in expanded && x in h && d in KeyDeps(key, h[x]);
      assert x in expanded';
    }
  }

  lemma AbsentHasNoDeps<S>(cache: History<S>, key: Key, tips: seq<Tip>, s: set<Tip>)
    requires forall x :: x in s ==> x in Padding(cache, key, tips) && (x !in cache || x == ZERO_TIP)
    ensures forall x, d :: x in s && d in KeyDeps(key, Padding(cache, key, tips)[x]) ==> x == d == ZERO_TIP
  {}

  lemma ZeroKnown<S(!new)>(cache: History<S>, key: Key, tips: seq<Tip>, w: Worklist, nodes: History<S>, expanded: set<Tip>, refd: set<Tip>)
    requires Walking(cache, key, tips, w, nodes, expanded, refd) && ZERO_TIP in expanded
    ensures ZERO_TIP in nodes && ZERO_TIP in refd
  {
    hide Discovered, AllDiscovered, Frontier, Padding;
  }

  lemma DepsMentioned<S>(cache: History<S>, key: Key, tips: seq<Tip>, t: Tip)
    requires t in cache && t != ZERO_TIP
    ensures t in Padding(cache, key, tips) && Padding(cache, key, tips)[t] == cache[t]
    ensures forall d :: d in KeyDeps(key, cache[t]) ==> d in Padding(cache, key, tips)
  {
    forall d | d in KeyDeps(key, cache[t]) ensures d in Mentioned(cache, key, tips) {}
  }

  lemma TipsMentioned<S>(cache: History<S>, key: Key, tips: seq<Tip>)
    ensures forall t :: t in tips ==> t in Padding(cache, key, tips)
  {
    forall t | t in tips ensures t in Elems(tips) {}
  }

  /** Visits every tip. */
  method VisitTips<S(!new)>(cache: History<S>, key: Key, tips: seq<Tip>)
    returns (w: Worklist, ghost nodes: History<S>, ghost expanded: set<Tip>)
    ensures var live := NonZero(tips);
            && Walking(cache, key, live, w, nodes, expanded, {})
            && Settled(Padding(cache, key, live), key, nodes, expanded, {})
            && forall t :: t in live ==> t in nodes
  {
    hide Walking, Padding, Settled, Discovered;
    ghost var live := NonZero(tips);
    ghost var h := Padding(cache, key, live);
    w, nodes, expanded := Worklist({}, [], [], {}, []), map[], {};
    NothingWalked(cache, key, live);
    NothingSettled(h, key, nodes);
    TipsMentioned(cache, key, live);
    for i := 0 to |tips|
      invariant Walking(cache, key, live, w, nodes, expanded, {})
      invariant Settled(h, key, nodes, expanded, {})
      invariant forall t :: t in tips[..i] && t != ZERO_TIP ==> t in nodes
    {
      if tips[i] != ZERO_TIP {
        TipDiscovered(h, key, live, expanded, tips[i]);
        ghost var nodes0, expanded0, refd := nodes, expanded, {};
        w, nodes, expanded, refd := Visit(cache, key, live, tips[i], true, w, nodes, expanded, {});
        AbsentHasNoDeps(cache, key, live, expanded - expanded0);
        if ZERO_TIP in expanded {
          ZeroKnown(cache, key, live, w, nodes, expanded, {});
        }
        SettledAround(h, key, nodes0, nodes, expanded0, expanded, {});
      }
    }
  }

  /** Visits the dependencies of one cached effect that has just been expanded. */
  method VisitDeps<S(!new)>(cache: History<S>, key: Key, ghost tips: seq<Tip>, cur: Tip, w0: Worklist,
                            ghost nodes0: History<S>, ghost expanded0: set<Tip>, ghost refd0: set<Tip>)
    returns (w: Worklist, ghost nodes: History<S>, ghost expanded: set<Tip>, ghost refd: set<Tip>)
    requires Walking(cache, key, tips, w0, nodes0, expanded0 + {cur}, refd0) && cur in cache && cur != ZERO_TIP
    requires Settled(Padding(cache, key, tips), key, nodes0, expanded0, refd0)
    requires Discovered(Padding(cache, key, tips), key, tips, expanded0 + {cur}, cur)
    ensures Walking(cache, key, tips, w, nodes, expanded, refd)
    ensures Settled(Padding(cache, key, tips), key, nodes, expanded, refd)
    ensures nodes0.Keys <= nodes.Keys && expanded0 + {cur} <= expanded
  {
    hide Walking, Padding, Settled, Discovered, KeyDeps, Elems;
    ghost var h := Padding(cache, key, tips);
    DepsMentioned(cache, key, tips, cur);
    var deps := KeyDeps(key, cache[cur]);
    w, nodes, expanded, refd := w0, nodes0, expanded0 + {cur}, refd0;
    NoElems(deps[..0]);
    for i := 0 to |deps|
      invariant Walking(cache, key, tips, w, nodes, expanded, refd)
      invariant nodes0.Keys <= nodes.Keys && expanded0 + {cur} <= expanded
      invariant forall x :: x in expanded - (expanded0 + {cur}) ==> x in h && (x !in cache || x == ZERO_TIP)
      invariant refd == refd0 + Elems(deps[..i]) && forall d :: d in deps[..i] ==> d in nodes
    {
      DiscoveredGrows(h, key, tips, expanded0 + {cur}, expanded, cur);
      DiscoveredNext(h, key, tips, expanded, cur, deps[i]);
      ElemsNext(deps, i);
      w, nodes, expanded, refd := Visit(cache, key, tips, deps[i], false, w, nodes, expanded, refd);
    }
    assert deps[..|deps|] == deps;
    SettledGrows(h, key, nodes0, nodes, expanded0, refd0, cur);
    AbsentHasNoDeps(cache, key, tips, expanded - (expanded0 + {cur}));
    if ZERO_TIP in expanded {
      ZeroKnown(cache, key, tips, w, nodes, expanded, refd);
    }
    SettledAround(h, key, nodes, nodes, expanded0 + {cur}, expanded, refd);
  }

  lemma TailsWithin(a: seq<Tip>, b: seq<Tip>)
    ensures (b == a || (a != [] && b == a[1..])) ==> forall t :: t in b ==> t in a
  {
  }

  lemma WalkingDequeued<S(!new)>(cache: History<S>, key: Key, tips: seq<Tip>, w: Worklist, nodes: History<S>,
                                 expanded: set<Tip>, refd: set<Tip>,
                                 cur: Tip, queue': seq<Tip>, snapshots': seq<Tip>)
    requires Walking(cache, key, tips, w, nodes, expanded, refd)
    requires w.queue != [] ==> cur == w.queue[0] && queue' == w.queue[1..] && snapshots' == w.snapshots
    requires w.queue == [] ==> w.snapshots != [] && cur == w.snapshots[0] && queue' == w.queue && snapshots' == w.snapshots[1..]
    ensures cur in cache && cur != ZERO_TIP && cur in nodes && nodes[cur] == cache[cur] && cur !in expanded
    ensures var f := if KeyDeps(key, cache[cur]) == [] then w.frontier else w.frontier - {cur};
            Walking(cache, key, tips, w.(queue := queue', snapshots := snapshots', frontier := f), nodes, expanded + {cur}, refd)
    ensures Discovered(Padding(cache, key, tips), key, tips, expanded + {cur}, cur)
    ensures expanded + {cur} <= Padding(cache, key, tips).Keys
  {
    hide Exploring, Discovered, Padding, Elems, Distinct;
    var h := Padding(cache, key, tips);
    TailsWithin(w.queue, queue');
    TailsWithin(w.snapshots, snapshots');
    Dequeued(h, key, tips, nodes, w.queue, w.snapshots, w.frontier, expanded, refd, cur, queue', snapshots');
    PaddingKeepsCache(cache, key, tips, cur);
    var f := if KeyDeps(key, h[cur]) == [] then w.frontier else w.frontier - {cur};
    ExpandedKnown(h, key, tips, nodes, queue', snapshots', f, expanded + {cur}, refd, cur);
  }

  lemma WalkingStops<S(!new)>(cache: History<S>, key: Key, tips: seq<Tip>, w: Worklist, nodes: History<S>,
                              expanded: set<Tip>, refd: set<Tip>, cur: Tip)
    requires Walking(cache, key, tips, w, nodes, expanded, refd) && Settled(Padding(cache, key, tips), key, nodes, expanded, refd)
    requires (forall t :: t in tips ==> t in nodes)
    requires cur != ZERO_TIP && cur in nodes && cur !in expanded && IsStateSnapshot(nodes[cur]) && |w.frontier| == 1
    ensures Collected(Padding(cache, key, tips), key, tips, nodes, cur) && cur != ZERO_TIP
  {
    hide Exploring, Discovered, Settled, Collected;
    StopsAtSnapshot(Padding(cache, key, tips), key, tips, nodes, w.queue, w.snapshots, w.frontier, expanded, refd, cur);
    ExploringWithin(Padding(cache, key, tips), key, tips, nodes, w.queue, w.snapshots, w.frontier, expanded, refd);
  }

  lemma WalkingDone<S(!new)>(cache: History<S>, key: Key, tips: seq<Tip>, w: Worklist, nodes: History<S>,
                             expanded: set<Tip>, refd: set<Tip>)
    requires Walking(cache, key, tips, w, nodes, expanded, refd) && Settled(Padding(cache, key, tips), key, nodes, expanded, refd)
    requires w.queue == [] && w.snapshots == []
    ensures forall t, d :: t in w.chain && t in cache && d in KeyDeps(key, cache[t]) && d != ZERO_TIP ==> d in w.chain
  {
    hide Discovered;
    var h := Padding(cache, key, tips);
    AllExpanded(h, key, tips, nodes, w.frontier, expanded, refd);
    forall t, d | t in w.chain && t in cache && d in KeyDeps(key, cache[t]) && d != ZERO_TIP ensures d in w.chain {
      assert t in Elems(w.chain);
      assert h[t] == cache[t];
      assert d in Elems(w.chain);
    }
  }

  lemma WalkingListed<S(!new)>(cache: History<S>, key: Key, tips: seq<Tip>, w: Worklist, nodes: History<S>,
                               expanded: set<Tip>, refd: set<Tip>)
    requires Walking(cache, key, tips, w, nodes, expanded, refd)
    ensures Distinct(w.chain) && forall t :: t in nodes && t != ZERO_TIP <==> t in w.chain
  {
    hide Exploring;
    forall t ensures t in nodes && t != ZERO_TIP <==> t in w.chain {
      assert t in Elems(w.chain) <==> t in w.chain;
    }
  }

  /** Lists every reference discovered from the tips. The walk either follows everything that is
      cached, or stops at a snapshot that every path leads to; and then nothing it listed is absent. */
  method CollectCausalChain<S(!new)>(cache: History<S>, key: Key, tips: seq<Tip>)
    returns (chain: seq<Tip>, ghost nodes: History<S>, ghost stop: Tip)
    ensures Distinct(chain) && (forall t :: t in tips && t != ZERO_TIP ==> t in chain)
    ensures forall t :: t in nodes && t != ZERO_TIP <==> t in chain
    ensures stop != ZERO_TIP ==> Collected(Padding(cache, key, NonZero(tips)), key, NonZero(tips), nodes, stop)
    ensures stop != ZERO_TIP ==> forall t :: t in chain ==> t in cache
    ensures stop == ZERO_TIP ==> forall t, d :: t in chain && t in cache && d in KeyDeps(key, cache[t]) && d != ZERO_TIP ==> d in chain
  {
    hide Walking, Padding, Settled, Discovered, Collected, KeyDeps, Distinct;
    ghost var live := NonZero(tips);
    var w;
    ghost var expanded, refd: set<Tip>;
    w, nodes, expanded := VisitTips(cache, key, tips);
    refd, stop := {}, ZERO_TIP;
    while w.queue != [] || w.snapshots != []
      invariant Walking(cache, key, live, w, nodes, expanded, refd)
      invariant Settled(Padding(cache, key, live), key, nodes, expanded, refd)
      invariant forall t :: t in live ==> t in nodes
      decreases |Padding(cache, key, live).Keys - expanded|
    {
      var cur, queue', snapshots' := ZERO_TIP, w.queue, w.snapshots;
      if w.queue != [] {
        cur, queue' := w.queue[0], w.queue[1..];
      } else {
        cur, snapshots' := w.snapshots[0], w.snapshots[1..];
      }
      WalkingDequeued(cache, key, live, w, nodes, expanded, refd, cur, queue', snapshots');
      var eff := cache[cur];
      if IsStateSnapshot(eff) && |w.frontier| == 1 {
        WalkingStops(cache, key, live, w, nodes, expanded, refd, cur);
        StopMeansPresent(cache, key, live, nodes, cur);
        WalkingListed(cache, key, live, w, nodes, expanded, refd);
        return w.chain, nodes, cur;
      }
      var f := if KeyDeps(key, eff) == [] then w.frontier else w.frontier - {cur};
      w := w.(queue := queue', snapshots := snapshots', frontier := f);
      ghost var before := expanded;
      w, nodes, expanded, refd := VisitDeps(cache, key, live, cur, w, nodes, expanded, refd);
      FewerLeft(Padding(cache, key, live).Keys, before, expanded, cur);
    }
    WalkingDone(cache, key, live, w, nodes, expanded, refd);
    WalkingListed(cache, key, live, w, nodes, expanded, refd);
    chain := w.chain;
  }

  lemma FewerLeft(all: set<Tip>, a: set<Tip>, b: set<Tip>, t: Tip)
    requires a + {t} <= b && t in all && t !in a
    ensures |all - b| < |all - a|
  {
    SubsetSize(all - b, all - a - {t});
  }
}
