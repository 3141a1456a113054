/** When the place where the walk cuts, and with it the order of effects, depends on how the tips
    are listed (effects/dag.go, the stop rule of phase 1). */
module ListingCut {
  import opened Effects
  import opened Sequences
  import opened PostOrder
  import opened DagSpec
  import opened DagOrder
  import opened DagSearch
  import opened Dag
  import opened Linearisation
  import opened DagListing

  /** Reached from the tips past no state snapshot. */
  ghost predicate Near<S(!new)>(h: History<S>, key: Key, tips: seq<Tip>, t: Tip) {
    Discovered(h, key, tips, Plain(h), t)
  }

  /** The state snapshots nearest to the tips. */
  ghost function Facing<S(!new)>(h: History<S>, key: Key, tips: seq<Tip>): set<Tip> {
    set t | t in h && IsStateSnapshot(h[t]) && Near(h, key, tips, t)
  }

  /** The ends of history reached without meeting a state snapshot; a subscription that depends
      on nothing counts only if another effect refers to it. */
  ghost function Bottoms<S(!new)>(h: History<S>, key: Key, tips: seq<Tip>): set<Tip> {
    set t | t in h && t in Plain(h) && KeyDeps(key, h[t]) == [] && Near(h, key, tips, t)
         && (IsStandalone(h[t]) ==> exists x :: x in Plain(h) && Near(h, key, tips, x) && t in KeyDeps(key, h[x]))
  }

  /** Nothing is left to the order in which snapshots are expanded. */
  ghost predicate Decided<S(!new)>(h: History<S>, key: Key, tips: seq<Tip>) {
    Bottoms(h, key, tips) != {} || |Facing(h, key, tips)| <= 1
  }

  // ---------- The walk when its queue is empty ----------

  lemma {:induction false} DrainedPath<S(!new)>(h: History<S>, key: Key, tips: seq<Tip>, s: Search<S>,
                                                expanded: set<Tip>, refd: set<Tip>, p: seq<Tip>, i: nat)
    requires Drained(h, key, tips, s, expanded, refd) && PathVia(h, key, tips, Plain(h), p) && i < |p|
    ensures p[i] in s.nodes
  {
    hide Exploring, KeyDeps;
    if i > 0 {
      DrainedPath(h, key, tips, s, expanded, refd, p, i - 1);
      PlainExpanded(h, key, tips, s, expanded, refd, p[i - 1]);
      assert p[i - 1 + 1] in KeyDeps(key, h[p[i - 1]]);
    }
  }

  lemma DrainedNear<S(!new)>(h: History<S>, key: Key, tips: seq<Tip>, s: Search<S>, expanded: set<Tip>, refd: set<Tip>, t: Tip)
    requires Drained(h, key, tips, s, expanded, refd)
    ensures Near(h, key, tips, t) <==> t in s.nodes
    ensures t in s.nodes ==> t in h && s.nodes[t] == h[t]
  {
    hide Exploring, Settled;
    if t in s.nodes {
      ExpandedKnown(h, key, tips, s.nodes, s.queue, s.snapshots, s.frontier, expanded, refd, t);
      DiscoveredGrows(h, key, tips, expanded, Plain(h), t);
      ExploredKnown(h, key, tips, s, expanded, refd);
    } else if Near(h, key, tips, t) {
      var p :| PathVia(h, key, tips, Plain(h), p) && p[|p| - 1] == t;
      DrainedPath(h, key, tips, s, expanded, refd, p, |p| - 1);
    }
  }

  lemma DrainedPresent<S(!new)>(h: History<S>, key: Key, tips: seq<Tip>, s: Search<S>, expanded: set<Tip>, refd: set<Tip>)
    requires Drained(h, key, tips, s, expanded, refd)
    ensures !Absent(h, key, tips, Plain(h))
  {
    hide Drained, Discovered;
    forall t | Discovered(h, key, tips, Plain(h), t) ensures t in h {
      DrainedNear(h, key, tips, s, expanded, refd, t);
      assert Near(h, key, tips, t);
    }
  }

  lemma DrainedFacing<S(!new)>(h: History<S>, key: Key, tips: seq<Tip>, s: Search<S>, expanded: set<Tip>, refd: set<Tip>, t: Tip)
    requires Drained(h, key, tips, s, expanded, refd)
    ensures t in s.snapshots <==> t in Facing(h, key, tips)
    ensures t in s.nodes ==> (t in expanded <==> t in Plain(h))
  {
    hide Discovered, Settled, Frontier, AllDiscovered, Near;
    DrainedNear(h, key, tips, s, expanded, refd, t);
    assert s.queue + s.snapshots == s.snapshots;
  }

  lemma DrainedFrontier<S(!new)>(h: History<S>, key: Key, tips: seq<Tip>, s: Search<S>, expanded: set<Tip>, refd: set<Tip>)
    requires Drained(h, key, tips, s, expanded, refd)
    ensures s.frontier == Facing(h, key, tips) + Bottoms(h, key, tips)
  {
    hide Exploring, Settled, Near, KeyDeps;
    assert s.frontier == Frontier(s.nodes, key, expanded, refd) by { FrontierOf(h, key, tips, s, expanded, refd); }
    forall t ensures t in s.frontier <==> t in Facing(h, key, tips) + Bottoms(h, key, tips) {
      DrainedNear(h, key, tips, s, expanded, refd, t);
      DrainedFacing(h, key, tips, s, expanded, refd, t);
      DrainedRefd(h, key, tips, s, expanded, refd, t);
    }
  }

  lemma FrontierOf<S(!new)>(h: History<S>, key: Key, tips: seq<Tip>, s: Search<S>, expanded: set<Tip>, refd: set<Tip>)
    requires Between(h, key, tips, s, expanded, refd)
    ensures s.frontier == Frontier(s.nodes, key, expanded, refd)
  {
    hide Settled, Frontier, Queued, AllDiscovered;
  }

  lemma DrainedRefd<S(!new)>(h: History<S>, key: Key, tips: seq<Tip>, s: Search<S>, expanded: set<Tip>, refd: set<Tip>, t: Tip)
    requires Drained(h, key, tips, s, expanded, refd)
    ensures t in refd <==> exists x :: x in Plain(h) && Near(h, key, tips, x) && t in KeyDeps(key, h[x])
  {
    hide Exploring, Near, KeyDeps;
    if t in refd {
      var x :| x in expanded && x in h && t in KeyDeps(key, h[x]);
      DrainedNear(h, key, tips, s, expanded, refd, x);
      ExploredKnown(h, key, tips, s, expanded, refd);
    }
    if x :| x in Plain(h) && Near(h, key, tips, x) && t in KeyDeps(key, h[x]) {
      DrainedNear(h, key, tips, s, expanded, refd, x);
      PlainExpanded(h, key, tips, s, expanded, refd, x);
    }
  }

  /** The search up to the moment its queue is empty for the first time, with the late tips
      listed last. */
  lemma FirstPause<S(!new)>(h: History<S>, key: Key, tips: seq<Tip>, late: set<Tip>)
    returns (s: Search<S>, expanded: set<Tip>, refd: set<Tip>, lab: map<Tip, nat>)
    requires Listed(late, tips)
    ensures Absent(h, key, tips, Plain(h)) ==> SearchFrom(h, key, tips) == Missing
    ensures !Absent(h, key, tips, Plain(h)) ==>
      Drained(h, key, tips, s, expanded, refd) && Labelled(h, key, tips, late, s, expanded, lab) && SearchFrom(h, key, tips) == Explore(h, key, s)
  {
    hide Explore, SeedAll, SearchFrom, Discovered, Between, Drained, Labelled, Plain;
    s, expanded, refd, lab := Search(map[], [], [], {}), {}, {}, map[];
    SeedBetween(h, key, tips);
    match SeedAll(h, tips, Search(map[], [], [], {})) {
      case None =>
        var t :| t in tips && t !in h;
        TipDiscovered(h, key, tips, Plain(h), t);
      case Some(s0) =>
        TipsCollected(h, key, tips, s0);
        SeedLabelled(h, key, tips, late, s0);
        s, expanded, refd, lab := Drains(h, key, tips, late, s0, {}, {}, FirstLabels(s0, late));
        if Drained(h, key, tips, s, expanded, refd) {
          DrainedPresent(h, key, tips, s, expanded, refd);
        }
    }
  }

  lemma TipsCollected<S(!new)>(h: History<S>, key: Key, tips: seq<Tip>, s: Search<S>)
    requires Between(h, key, tips, s, {}, {})
    ensures forall t :: t in tips ==> t in s.nodes
  {
    hide Explored, Settled;
  }

  // ---------- Where the listing does not matter ----------

  lemma TwoMembers(s: set<Tip>, a: Tip, b: Tip)
    requires a in s && b in s && a != b
    ensures |s| != 1
  {
    if |s| == 1 {
      SoleElement(s);
    }
  }

  /** An end of history that has been expanded stays in the frontier for good. */
  lemma BottomStays<S(!new)>(h: History<S>, key: Key, tips: seq<Tip>, s: Search<S>, expanded: set<Tip>, refd: set<Tip>, r: Tip)
    requires Between(h, key, tips, s, expanded, refd) && r in expanded && r in h && KeyDeps(key, h[r]) == []
    requires (IsStandalone(h[r]) ==> r in refd)
    ensures r in s.frontier
  {
    hide Explored, Settled, KeyDeps;
    FrontierOf(h, key, tips, s, expanded, refd);
    ExploredKnown(h, key, tips, s, expanded, refd);
  }

  lemma PendingInFrontier<S(!new)>(h: History<S>, key: Key, tips: seq<Tip>, s: Search<S>, expanded: set<Tip>, refd: set<Tip>, t: Tip)
    requires Between(h, key, tips, s, expanded, refd) && t in s.snapshots
    ensures t in s.frontier && t !in expanded && t in s.nodes && t in h && IsStateSnapshot(h[t]) && s.nodes[t] == h[t]
  {
    hide Settled, AllDiscovered, KeyDeps;
    assert t in s.queue + s.snapshots;
    assert t in Elems(s.queue + s.snapshots);
  }

  lemma {:induction false} NeverCuts<S(!new)>(h: History<S>, key: Key, tips: seq<Tip>, s: Search<S>,
                                              expanded: set<Tip>, refd: set<Tip>, r: Tip)
    requires Between(h, key, tips, s, expanded, refd)
    requires r in expanded && r in Plain(h) && KeyDeps(key, h[r]) == [] && (IsStandalone(h[r]) ==> r in refd)
    ensures Explore(h, key, s).Found? ==> Explore(h, key, s).lca == ZERO_TIP
    decreases |h.Keys - expanded|
  {
    hide Explore, FollowAll, Between, KeyDeps;
    BottomStays(h, key, tips, s, expanded, refd, r);
    NodesKnown(h, key, tips, s, expanded, refd);
    if Idle(s) {
      IdleFinds(h, key, tips, s, expanded, refd, r);
    } else {
      NextIs(h, key, tips, s, expanded, refd);
      StepSound(h, key, tips, s, expanded, refd);
      if s.queue == [] {
        PendingInFrontier(h, key, tips, s, expanded, refd, s.snapshots[0]);
        TwoMembers(s.frontier, Next(s), r);
      }
      match After(h, key, s) {
        case None =>
        case Some(s') =>
          ExpandShrinks(h.Keys, expanded, Next(s));
          NeverCuts(h, key, tips, s', expanded + {Next(s)}, RefdAfter(h, key, s, refd), r);
      }
    }
  }

  lemma NodesKnown<S(!new)>(h: History<S>, key: Key, tips: seq<Tip>, s: Search<S>, expanded: set<Tip>, refd: set<Tip>)
    requires Between(h, key, tips, s, expanded, refd)
    ensures s.nodes.Keys <= h.Keys && expanded <= s.nodes.Keys && (forall t :: t in s.nodes ==> t in h && s.nodes[t] == h[t])
  {
    hide Explored, Settled;
    ExploredKnown(h, key, tips, s, expanded, refd);
  }

  lemma IdleFinds<S(!new)>(h: History<S>, key: Key, tips: seq<Tip>, s: Search<S>, expanded: set<Tip>, refd: set<Tip>, r: Tip)
    requires Between(h, key, tips, s, expanded, refd) && Idle(s) && r in s.frontier && r in h && r in s.nodes && !IsStateSnapshot(h[r])
    ensures Explore(h, key, s).Found? && Explore(h, key, s).lca == ZERO_TIP
  {
    hide Between;
    NodesKnown(h, key, tips, s, expanded, refd);
    ExploreDone(h, key, s);
    if |s.frontier| == 1 {
      SoleElement(s.frontier);
    }
  }

  /** The cut that the nearest snapshots and the ends of history leave no choice about. */
  ghost predicate CutIs<S(!new)>(h: History<S>, key: Key, tips: seq<Tip>, lca: Tip) {
    if Bottoms(h, key, tips) == {} && Facing(h, key, tips) != {} then Facing(h, key, tips) == {lca} else lca == ZERO_TIP
  }

  lemma DrainedCut<S(!new)>(h: History<S>, key: Key, tips: seq<Tip>, s: Search<S>, expanded: set<Tip>, refd: set<Tip>)
    requires Drained(h, key, tips, s, expanded, refd) && Decided(h, key, tips)
    ensures Explore(h, key, s).Found? ==> CutIs(h, key, tips, Explore(h, key, s).lca)
    ensures Bottoms(h, key, tips) == {} ==> Explore(h, key, s).Found?
  {
    hide Explore, Between, KeyDeps, Near, Facing, Bottoms;
    DrainedFrontier(h, key, tips, s, expanded, refd);
    if r :| r in Bottoms(h, key, tips) {
      BottomIs(h, key, tips, s, expanded, refd, r);
      NeverCuts(h, key, tips, s, expanded, refd, r);
    } else if s.snapshots == [] {
      if c :| c in Facing(h, key, tips) {
        DrainedFacing(h, key, tips, s, expanded, refd, c);
      }
      assert s.frontier == {};
      NodesKnown(h, key, tips, s, expanded, refd);
      ExploreDone(h, key, s);
    } else {
      var c := s.snapshots[0];
      DrainedFacing(h, key, tips, s, expanded, refd, c);
      AtMostOne(Facing(h, key, tips), c);
      NextIs(h, key, tips, s, expanded, refd);
      StepSound(h, key, tips, s, expanded, refd);
    }
  }

  lemma AtMostOne(s: set<Tip>, c: Tip)
    requires |s| <= 1 && c in s
    ensures s == {c}
  {
    assert |s - {c}| == 0;
  }

  lemma BottomIs<S(!new)>(h: History<S>, key: Key, tips: seq<Tip>, s: Search<S>, expanded: set<Tip>, refd: set<Tip>, r: Tip)
    requires Drained(h, key, tips, s, expanded, refd) && r in Bottoms(h, key, tips)
    ensures r in expanded && r in Plain(h) && KeyDeps(key, h[r]) == [] && (IsStandalone(h[r]) ==> r in refd)
  {
    hide Between, KeyDeps, Near;
    DrainedNear(h, key, tips, s, expanded, refd, r);
    DrainedFacing(h, key, tips, s, expanded, refd, r);
    DrainedRefd(h, key, tips, s, expanded, refd, r);
  }

  /** The effects whose absence the walk runs into. */
  ghost function Needed<S(!new)>(h: History<S>, key: Key, tips: seq<Tip>): set<Tip> {
    if Bottoms(h, key, tips) != {} then h.Keys else Plain(h)
  }

  /** If the tips face at most one state snapshot, or reach an end of history without one, then
      the walk's cut follows from that alone, and it fails exactly over an absent effect. */
  lemma DecidedCut<S(!new)>(h: History<S>, key: Key, tips: seq<Tip>)
    requires ZERO_TIP !in h && Decided(h, key, tips)
    ensures SearchFrom(h, key, tips).Found? <==> !Absent(h, key, tips, Needed(h, key, tips))
    ensures SearchFrom(h, key, tips).Found? ==> CutIs(h, key, tips, SearchFrom(h, key, tips).lca)
  {
    hide Explore, SearchFrom, Discovered, Drained, Labelled, Plain, Decided, CutIs, Bottoms, Collected;
    var s, expanded, refd, lab := FirstPause(h, key, tips, {});
    SearchCollects(h, key, tips);
    if Absent(h, key, tips, Plain(h)) {
      AbsentGrows(h, key, tips);
    } else {
      DrainedCut(h, key, tips, s, expanded, refd);
      if Bottoms(h, key, tips) != {} && SearchFrom(h, key, tips).Found? {
        assert SearchFrom(h, key, tips).lca == ZERO_TIP by { hide *; CutWithBottoms(h, key, tips, SearchFrom(h, key, tips).lca); }
        UncutPresent(h, key, tips, SearchFrom(h, key, tips).nodes);
      }
    }
  }

  lemma CutWithBottoms<S(!new)>(h: History<S>, key: Key, tips: seq<Tip>, lca: Tip)
    requires CutIs(h, key, tips, lca) && Bottoms(h, key, tips) != {}
    ensures lca == ZERO_TIP
  {
    hide Bottoms, Facing;
  }

  lemma AbsentGrows<S(!new)>(h: History<S>, key: Key, tips: seq<Tip>)
    requires Absent(h, key, tips, Plain(h))
    ensures Absent(h, key, tips, h.Keys)
  {
    hide Discovered;
    var t :| t !in h && Discovered(h, key, tips, Plain(h), t);
    DiscoveredGrows(h, key, tips, Plain(h), h.Keys, t);
  }

  lemma UncutPresent<S(!new)>(h: History<S>, key: Key, tips: seq<Tip>, nodes: History<S>)
    requires ZERO_TIP !in h && Collected(h, key, tips, nodes, ZERO_TIP)
    ensures !Absent(h, key, tips, h.Keys)
  {
    hide Discovered, Roots;
    forall t | Discovered(h, key, tips, h.Keys, t) ensures t in h {
      OtherCollects'(h, key, tips, h.Keys, nodes, t);
    }
  }

  lemma SameNear<S(!new)>(h: History<S>, key: Key, tips1: seq<Tip>, tips2: seq<Tip>)
    requires multiset(tips1) == multiset(tips2)
    ensures forall via, t :: Discovered(h, key, tips1, via, t) <==> Discovered(h, key, tips2, via, t)
  {
    SameTips(tips1, tips2);
    forall via, t ensures Discovered(h, key, tips1, via, t) <==> Discovered(h, key, tips2, via, t) {
      assert forall p :: PathVia(h, key, tips1, via, p) <==> PathVia(h, key, tips2, via, p);
    }
  }

  lemma SameCut<S(!new)>(h: History<S>, key: Key, tips1: seq<Tip>, tips2: seq<Tip>)
    requires multiset(tips1) == multiset(tips2)
    ensures Facing(h, key, tips1) == Facing(h, key, tips2) && Bottoms(h, key, tips1) == Bottoms(h, key, tips2)
    ensures forall via :: Absent(h, key, tips1, via) <==> Absent(h, key, tips2, via)
  {
    hide Discovered, KeyDeps;
    SameNear(h, key, tips1, tips2);
  }

  /** Under the same condition, every listing of the tips leads to the same cut and the same order. */
  lemma ListingFree<S(!new)>(h: History<S>, key: Key, tips1: seq<Tip>, tips2: seq<Tip>, rank: Tip -> nat)
    requires ZERO_TIP !in h && Ranked(DepGraph(h, key), rank) && HashesDistinct(h) && multiset(tips1) == multiset(tips2)
    requires Decided(h, key, tips1)
    ensures SearchFrom(h, key, tips1).Found? <==> SearchFrom(h, key, tips2).Found?
    ensures SearchFrom(h, key, tips1).Found? ==> SearchFrom(h, key, tips1).lca == SearchFrom(h, key, tips2).lca && SameOrder(h, key, tips1, tips2)
  {
    hide SearchFrom, Ranked, HashesDistinct, Bottoms, Facing, Absent, Plain, Collected, SameOrder;
    SameCut(h, key, tips1, tips2);
    DecidedCut(h, key, tips1);
    DecidedCut(h, key, tips2);
    if SearchFrom(h, key, tips1).Found? {
      OrdersCompare(h, key, tips1, tips2, rank);
    }
  }

  /** The emission order after a search. */
  ghost function OrderFrom<S(!new)>(h: History<S>, key: Key, tips: seq<Tip>): seq<Tip> {
    match SearchFrom(h, key, tips)
    case Missing => []
    case Found(nodes, lca) => Order(Trimmed(nodes, key, lca), key, lca, tips)
  }

  ghost predicate SameOrder<S(!new)>(h: History<S>, key: Key, tips1: seq<Tip>, tips2: seq<Tip>) {
    OrderFrom(h, key, tips1) == OrderFrom(h, key, tips2)
  }

  lemma OrdersCompare<S(!new)>(h: History<S>, key: Key, tips1: seq<Tip>, tips2: seq<Tip>, rank: Tip -> nat)
    requires ZERO_TIP !in h && Ranked(DepGraph(h, key), rank) && HashesDistinct(h) && multiset(tips1) == multiset(tips2)
    requires SearchFrom(h, key, tips1).Found? && SearchFrom(h, key, tips2).Found?
    ensures SameOrder(h, key, tips1, tips2) <==> SearchFrom(h, key, tips1).lca == SearchFrom(h, key, tips2).lca
  {
    hide SearchFrom, Ranked, HashesDistinct, Collected, Order, Trimmed;
    SearchCollects(h, key, tips1);
    SearchCollects(h, key, tips2);
    var a, b := SearchFrom(h, key, tips1), SearchFrom(h, key, tips2);
    SameOrderIffSameCut(h, key, tips1, tips2, a.nodes, b.nodes, a.lca, b.lca, rank);
  }

  /** Every maximal path from every tip that carries data passes through the snapshot. */
  ghost predicate Unavoidable<S(!new)>(h: History<S>, key: Key, tips: seq<Tip>, c: Tip) {
    && c in h && IsStateSnapshot(h[c])
    && forall p :: MaximalPath(h, key, p) && p[0] in tips && !IsStandalone(h[p[0]]) ==> c in p
  }

  /** Whatever listing is used, a cut is unavoidable; so where every snapshot can be avoided no
      listing leads to a cut. */
  lemma CutIsUnavoidable<S(!new)>(h: History<S>, key: Key, tips1: seq<Tip>, tips2: seq<Tip>)
    requires ZERO_TIP !in h && multiset(tips1) == multiset(tips2)
    ensures var found := SearchFrom(h, key, tips2); found.Found? && found.lca != ZERO_TIP ==> Unavoidable(h, key, tips1, found.lca)
  {
    hide SearchFrom, Discovered, Uncut, KeyDeps;
    SearchCollects(h, key, tips2);
    SameTips(tips1, tips2);
    if SearchFrom(h, key, tips2).Found? && SearchFrom(h, key, tips2).lca != ZERO_TIP {
      var nodes, lca := SearchFrom(h, key, tips2).nodes, SearchFrom(h, key, tips2).lca;
      forall p | MaximalPath(h, key, p) && p[0] in tips1 && !IsStandalone(h[p[0]]) ensures lca in p {
        Dominance(h, key, tips2, nodes, lca, p);
      }
    }
  }

  // ---------- Where the listing matters ----------

  /** Cutting at c takes no state snapshot with it that the tips do not face. */
  ghost predicate Straight<S(!new)>(h: History<S>, key: Key, tips: seq<Tip>, nodes: History<S>, c: Tip) {
    && Collected(h, key, tips, nodes, c) && c in Facing(h, key, tips)
    && forall t :: t in nodes && IsStateSnapshot(nodes[t]) ==> t in Facing(h, key, tips)
  }

  /** While c is pending the walk stays among the effects collected above it. */
  ghost predicate Above<S(!new)>(h: History<S>, key: Key, tips: seq<Tip>, s: Search<S>, expanded: set<Tip>, nodes: History<S>, c: Tip) {
    && s.nodes.Keys <= nodes.Keys && c !in expanded && s.snapshots != [] && s.snapshots[|s.snapshots| - 1] == c
    && forall t :: t in nodes && IsStateSnapshot(nodes[t]) ==> t in s.nodes
  }

  lemma StepStaysAbove<S(!new)>(h: History<S>, key: Key, tips: seq<Tip>, s: Search<S>, expanded: set<Tip>,
                                refd: set<Tip>, nodes: History<S>, c: Tip)
    requires Between(h, key, tips, s, expanded, refd) && Above(h, key, tips, s, expanded, nodes, c) && Next(s) != c
    requires Within(nodes, h) && Converged(key, tips, nodes, c)
    ensures !Stops(h, s) && Next(s) in h && s.nodes.Keys <= h.Keys
    ensures After(h, key, s).Some? && Above(h, key, tips, After(h, key, s).value, expanded + {Next(s)}, nodes, c)
  {
    hide Explore, FollowAll, Between, KeyDeps, Elems, Converged, Within;
    NextIs(h, key, tips, s, expanded, refd);
    StepSound(h, key, tips, s, expanded, refd);
    NodesKnown(h, key, tips, s, expanded, refd);
    if s.queue == [] {
      PendingInFrontier(h, key, tips, s, expanded, refd, c);
      PendingInFrontier(h, key, tips, s, expanded, refd, s.snapshots[0]);
      TwoMembers(s.frontier, c, Next(s));
    }
    DepsAbove(h, key, tips, nodes, c, Next(s));
    assert forall d :: d in KeyDeps(key, h[Next(s)]) ==> d in h by { WithinKeys(nodes, h); }
    AfterStaysAbove(h, key, tips, s, expanded, nodes, c, After(h, key, s).value);
  }

  lemma WithinKeys<S(!new)>(nodes: History<S>, h: History<S>)
    requires Within(nodes, h)
    ensures nodes.Keys <= h.Keys && forall t :: t in nodes ==> nodes[t] == h[t]
  {}

  lemma AfterStaysAbove<S(!new)>(h: History<S>, key: Key, tips: seq<Tip>, s: Search<S>, expanded: set<Tip>,
                                 nodes: History<S>, c: Tip, s': Search<S>)
    requires s.nodes.Keys <= h.Keys && !Idle(s) && Next(s) in h && After(h, key, s) == Some(s')
    requires Above(h, key, tips, s, expanded, nodes, c) && Next(s) != c && Within(nodes, h)
    requires forall d :: d in KeyDeps(key, h[Next(s)]) ==> d in nodes
    ensures Above(h, key, tips, s', expanded + {Next(s)}, nodes, c)
  {
    hide FollowAll, KeyDeps, Elems;
    var s1 := Pop(key, s, h[Next(s)]);
    var q, n := FollowAppends(h, KeyDeps(key, h[Next(s)]), s1);
    NoMember(n);
    AppendedWithin(h, s1, s', q, n, nodes.Keys);
  }

  lemma NoMember(n: seq<Tip>)
    requires forall t :: t !in n
    ensures n == []
  {
    ElemsOfSome(n);
    assert Elems(n) == {};
  }

  lemma AppendedWithin<S>(h: History<S>, s: Search<S>, s': Search<S>, q: seq<Tip>, n: seq<Tip>, all: set<Tip>)
    requires Appends(h, s, s', q, n) && s.nodes.Keys <= all && forall t :: t in q || t in n ==> t in all
    ensures s.nodes.Keys <= s'.nodes.Keys <= all
  {}

  lemma DepsAbove<S(!new)>(h: History<S>, key: Key, tips: seq<Tip>, nodes: History<S>, c: Tip, t: Tip)
    requires Within(nodes, h) && Converged(key, tips, nodes, c) && t in nodes && t != c
    ensures forall d :: d in KeyDeps(key, h[t]) ==> d in nodes
  {
    hide Referenced;
  }

  lemma {:induction false} CutsAt<S(!new)>(h: History<S>, key: Key, tips: seq<Tip>, s: Search<S>, expanded: set<Tip>,
                                           refd: set<Tip>, nodes: History<S>, c: Tip)
    requires Between(h, key, tips, s, expanded, refd) && Above(h, key, tips, s, expanded, nodes, c)
    requires Within(nodes, h) && Converged(key, tips, nodes, c)
    ensures Explore(h, key, s).Found? && Explore(h, key, s).lca == c
    decreases |h.Keys - expanded|
  {
    hide Explore, FollowAll, Between, Converged, KeyDeps;
    NextIs(h, key, tips, s, expanded, refd);
    StepSound(h, key, tips, s, expanded, refd);
    if Next(s) == c {
      OnlyCutLeft(h, key, tips, s, expanded, refd, nodes, c);
    } else {
      StepStaysAbove(h, key, tips, s, expanded, refd, nodes, c);
      ExpandShrinks(h.Keys, expanded, Next(s));
      CutsAt(h, key, tips, After(h, key, s).value, expanded + {Next(s)}, RefdAfter(h, key, s, refd), nodes, c);
    }
  }

  lemma OnlyCutLeft<S(!new)>(h: History<S>, key: Key, tips: seq<Tip>, s: Search<S>, expanded: set<Tip>,
                             refd: set<Tip>, nodes: History<S>, c: Tip)
    requires Between(h, key, tips, s, expanded, refd) && Above(h, key, tips, s, expanded, nodes, c) && Next(s) == c
    requires Within(nodes, h) && Converged(key, tips, nodes, c)
    ensures |s.frontier| == 1
  {
    hide KeyDeps, Between;
    NextIs(h, key, tips, s, expanded, refd);
    LastIsFirst(h, key, tips, s, expanded, refd, c);
    FrontierOf(h, key, tips, s, expanded, refd);
    PendingInFrontier(h, key, tips, s, expanded, refd, c);
    NodesKnown(h, key, tips, s, expanded, refd);
    forall t | t in s.frontier ensures t == c {
      if t != c {
        assert t in expanded && KeyDeps(key, nodes[t]) == [];
        ReferencedAbove(h, key, tips, s, expanded, refd, nodes, c, t);
      }
    }
    assert s.frontier == {c};
  }

  lemma ReferencedAbove<S(!new)>(h: History<S>, key: Key, tips: seq<Tip>, s: Search<S>, expanded: set<Tip>,
                                 refd: set<Tip>, nodes: History<S>, c: Tip, t: Tip)
    requires Between(h, key, tips, s, expanded, refd) && Above(h, key, tips, s, expanded, nodes, c) && Within(nodes, h)
    ensures t in refd ==> Referenced(nodes, key, c, t)
  {
    hide Explored, KeyDeps;
    ExploredKnown(h, key, tips, s, expanded, refd);
    if t in refd {
      var x :| x in expanded && x in h && t in KeyDeps(key, h[x]);
      assert x in nodes && x != c && t in KeyDeps(key, nodes[x]);
    }
  }

  lemma LastIsFirst<S(!new)>(h: History<S>, key: Key, tips: seq<Tip>, s: Search<S>, expanded: set<Tip>, refd: set<Tip>, c: Tip)
    requires Between(h, key, tips, s, expanded, refd) && !Idle(s) && s.queue == [] && Next(s) == c && s.snapshots[|s.snapshots| - 1] == c
    ensures s.snapshots == [c] && forall t :: t in s.nodes && t != c ==> t in expanded
  {
    hide Settled, AllDiscovered, KeyDeps, Frontier;
    assert s.queue + s.snapshots == s.snapshots;
  }

  /** A snapshot with dependencies that is expanded is not the cut any more. */
  lemma {:induction false} PassesOver<S(!new)>(h: History<S>, key: Key, tips: seq<Tip>, s: Search<S>,
                                               expanded: set<Tip>, refd: set<Tip>, c: Tip, i: nat, j: nat)
    requires Between(h, key, tips, s, expanded, refd) && c in h && c != ZERO_TIP && KeyDeps(key, h[c]) != []
    requires c in expanded || (i < j < |s.snapshots| && s.snapshots[i] == c)
    ensures Explore(h, key, s).Found? ==> Explore(h, key, s).lca != c
    decreases |h.Keys - expanded|
  {
    hide Explore, Between, KeyDeps, RefdAfter, After, Stops;
    NodesKnown(h, key, tips, s, expanded, refd);
    if Idle(s) {
      ExpandedIsPast(h, key, tips, s, expanded, refd, c);
      IdleCutInFrontier(h, key, s);
    } else {
      NextIs(h, key, tips, s, expanded, refd);
      StepSound(h, key, tips, s, expanded, refd);
      var i', j' := PassStep(h, key, tips, s, expanded, refd, c, i, j);
      if !Stops(h, s) && After(h, key, s).Some? {
        ExpandShrinks(h.Keys, expanded, Next(s));
        PassesOver(h, key, tips, After(h, key, s).value, expanded + {Next(s)}, RefdAfter(h, key, s, refd), c, i', j');
      }
    }
  }

  lemma PassStep<S(!new)>(h: History<S>, key: Key, tips: seq<Tip>, s: Search<S>, expanded: set<Tip>, refd: set<Tip>, c: Tip, i: nat, j: nat)
    returns (i': nat, j': nat)
    requires s.nodes.Keys <= h.Keys && !Idle(s) && Next(s) in h && Next(s) !in expanded && Between(h, key, tips, s, expanded, refd)
    requires c in expanded || (i < j < |s.snapshots| && s.snapshots[i] == c)
    ensures Stops(h, s) ==> Next(s) != c
    ensures After(h, key, s).Some? ==>
      c in expanded + {Next(s)} || (i' < j' < |After(h, key, s).value.snapshots| && After(h, key, s).value.snapshots[i'] == c)
  {
    hide After, Between;
    var k: nat := if s.queue == [] && i > 0 then 1 else 0;
    i', j' := 0, 0;
    if c !in expanded {
      if Next(s) == c {
        PendingApart(h, key, tips, s, expanded, refd, i, j);
      } else if After(h, key, s).Some? {
        i', j' := i - k, j - k;
        PendingMoves(h, key, s, After(h, key, s).value, c, i, j);
      }
    }
  }

  lemma PendingMoves<S(!new)>(h: History<S>, key: Key, s: Search<S>, s': Search<S>, c: Tip, i: nat, j: nat)
    requires s.nodes.Keys <= h.Keys && !Idle(s) && Next(s) in h && After(h, key, s) == Some(s')
    requires i < j < |s.snapshots| && s.snapshots[i] == c && Next(s) != c
    ensures var k := if s.queue == [] && i > 0 then 1 else 0; i - k < j - k < |s'.snapshots| && s'.snapshots[i - k] == c
  {
    hide FollowAll, KeyDeps, Elems;
    var q, n := FollowAppends(h, KeyDeps(key, h[Next(s)]), Pop(key, s, h[Next(s)]));
  }

  lemma PendingApart<S(!new)>(h: History<S>, key: Key, tips: seq<Tip>, s: Search<S>, expanded: set<Tip>, refd: set<Tip>, i: nat, j: nat)
    requires Between(h, key, tips, s, expanded, refd) && i < j < |s.snapshots|
    ensures |s.frontier| != 1
  {
    hide Settled, AllDiscovered, KeyDeps, Frontier;
    PendingInFrontier(h, key, tips, s, expanded, refd, s.snapshots[i]);
    PendingInFrontier(h, key, tips, s, expanded, refd, s.snapshots[j]);
    var all := s.queue + s.snapshots;
    assert all[|s.queue| + i] != all[|s.queue| + j];
    TwoMembers(s.frontier, s.snapshots[i], s.snapshots[j]);
  }

  lemma IdleCutInFrontier<S(!new)>(h: History<S>, key: Key, s: Search<S>)
    requires s.nodes.Keys <= h.Keys && Idle(s)
    ensures Explore(h, key, s).Found? && (Explore(h, key, s).lca == ZERO_TIP || Explore(h, key, s).lca in s.frontier)
  {
    ExploreDone(h, key, s);
  }

  lemma ExpandedIsPast<S(!new)>(h: History<S>, key: Key, tips: seq<Tip>, s: Search<S>, expanded: set<Tip>, refd: set<Tip>, c: Tip)
    requires Between(h, key, tips, s, expanded, refd) && c in expanded && c in h && KeyDeps(key, h[c]) != []
    ensures c !in s.frontier
  {
    hide Explored, Settled, KeyDeps;
    FrontierOf(h, key, tips, s, expanded, refd);
    ExploredKnown(h, key, tips, s, expanded, refd);
  }

  /** The tips reach every other snapshot they face in fewer steps than c. */
  ghost predicate Deepest<S(!new)>(h: History<S>, key: Key, tips: seq<Tip>, c: Tip, d: nat) {
    && (forall t, n: nat :: t in tips && n <= d ==> !Steps(h, key, t, n, c))
    && (forall y :: y in Facing(h, key, tips) && y != c ==> exists t, n: nat :: t in tips && n <= d && Steps(h, key, t, n, y))
  }

  lemma DeepestLast<S(!new)>(h: History<S>, key: Key, tips: seq<Tip>, c: Tip, d: nat, s: Search<S>,
                             expanded: set<Tip>, refd: set<Tip>, lab: map<Tip, nat>)
    requires Deepest(h, key, tips, c, d) && c in Facing(h, key, tips)
    requires Drained(h, key, tips, s, expanded, refd) && Labelled(h, key, tips, {}, s, expanded, lab)
    ensures s.snapshots != [] && s.snapshots[|s.snapshots| - 1] == c
  {
    hide Drained, Labelled, Steps, Facing;
    DrainedFacing(h, key, tips, s, expanded, refd, c);
    var i :| 0 <= i < |s.snapshots| && s.snapshots[i] == c;
    var y := s.snapshots[|s.snapshots| - 1];
    DrainedFacing(h, key, tips, s, expanded, refd, y);
    assert y in s.snapshots;
    CostOf(h, key, tips, {}, s, expanded, lab, c);
    LabelsRise(h, key, tips, {}, s, expanded, lab, i, |s.snapshots| - 1);
    if y != c {
      var t, n: nat :| t in tips && n <= d && Steps(h, key, t, n, y);
      LabelAtMost(h, key, tips, {}, s, expanded, refd, lab, t, n, y);
    }
  }

  /** A candidate that lies deeper than all others is the cut of every listing. */
  lemma DeepestCut<S(!new)>(h: History<S>, key: Key, tips: seq<Tip>, nodes: History<S>, c: Tip, d: nat)
    requires ZERO_TIP !in h && Straight(h, key, tips, nodes, c) && Deepest(h, key, tips, c, d)
    ensures SearchFrom(h, key, tips).Found? && SearchFrom(h, key, tips).lca == c
  {
    hide SearchFrom, Explore, Facing, Deepest, KeyDeps, Steps, Labelled, Converged, Discovered;
    var s, expanded, refd, lab := FirstPause(h, key, tips, {});
    assert !Absent(h, key, tips, Plain(h)) by { StraightPresent(h, key, tips, nodes, c); }
    DeepestLast(h, key, tips, c, d, s, expanded, refd, lab);
    StartsAbove(h, key, tips, s, expanded, refd, nodes, c);
    CutsAt(h, key, tips, s, expanded, refd, nodes, c);
  }

  /** Tip a alone leads to c in d steps, and all other snapshots the tips face are reached as
      soon from another tip, one of them no sooner and not from a. */
  ghost predicate Swings<S(!new)>(h: History<S>, key: Key, others: seq<Tip>, a: Tip, c: Tip, d: nat, p: Tip) {
    && Steps(h, key, a, d, c) && (forall n: nat :: n < d ==> !Steps(h, key, a, n, c))
    && (forall t, n: nat :: t in others && n <= d ==> !Steps(h, key, t, n, c))
    && (forall y :: y in Facing(h, key, others + [a]) && y != c ==> exists t, n: nat :: t in others && n <= d && Steps(h, key, t, n, y))
    && p in Facing(h, key, others + [a]) && p != c
    && (forall n: nat :: n <= d ==> !Steps(h, key, a, n, p))
    && (forall t, n: nat :: t in others && n < d ==> !Steps(h, key, t, n, p))
  }

  lemma LateListed(others: seq<Tip>, a: Tip)
    requires a !in others
    ensures Listed({a}, others + [a]) && Listed(Elems(others), [a] + others)
  {
    var last, first := others + [a], [a] + others;
    forall i, j | 0 <= i < j < |last| ensures Offset({a}, last[i]) <= Offset({a}, last[j]) {
      assert last[i] in others;
    }
    forall i, j | 0 <= i < j < |first| ensures Offset(Elems(others), first[i]) <= Offset(Elems(others), first[j]) {
      assert first[j] == others[j - 1];
    }
  }

  /** With a listed last, c is the last snapshot discovered. */
  lemma SwungLast<S(!new)>(h: History<S>, key: Key, others: seq<Tip>, a: Tip, c: Tip, d: nat, p: Tip,
                           s: Search<S>, expanded: set<Tip>, refd: set<Tip>, lab: map<Tip, nat>)
    requires Swings(h, key, others, a, c, d, p) && a !in others && c in Facing(h, key, others + [a])
    requires Drained(h, key, others + [a], s, expanded, refd) && Labelled(h, key, others + [a], {a}, s, expanded, lab)
    ensures s.snapshots != [] && s.snapshots[|s.snapshots| - 1] == c
  {
    hide Drained, Labelled, Steps, Facing;
    var tips := others + [a];
    DrainedFacing(h, key, tips, s, expanded, refd, c);
    var i :| 0 <= i < |s.snapshots| && s.snapshots[i] == c;
    var y := s.snapshots[|s.snapshots| - 1];
    DrainedFacing(h, key, tips, s, expanded, refd, y);
    assert y in s.snapshots;
    if y != c {
      var t, n: nat :| t in others && n <= d && Steps(h, key, t, n, y);
      assert t in tips;
      LabelAtMost(h, key, tips, {a}, s, expanded, refd, lab, t, n, y);
      CostOf(h, key, tips, {a}, s, expanded, lab, c);
      LabelsRise(h, key, tips, {a}, s, expanded, lab, i, |s.snapshots| - 1);
      assert false;
    }
  }

  lemma CostOf<S(!new)>(h: History<S>, key: Key, tips: seq<Tip>, late: set<Tip>, s: Search<S>, expanded: set<Tip>,
                        lab: map<Tip, nat>, x: Tip)
    requires Labelled(h, key, tips, late, s, expanded, lab) && x in s.snapshots
    ensures x in lab && exists t, n: nat :: t in tips && Steps(h, key, t, n, x) && 2 * n + Offset(late, t) <= lab[x]
  {
    hide Steps, Passed;
    assert Costs(h, key, tips, late, x, lab[x]);
  }

  lemma LabelsRise<S(!new)>(h: History<S>, key: Key, tips: seq<Tip>, late: set<Tip>, s: Search<S>,
                            expanded: set<Tip>, lab: map<Tip, nat>, i: nat, j: nat)
    requires Labelled(h, key, tips, late, s, expanded, lab) && i <= j < |s.snapshots|
    ensures s.snapshots[i] in lab && s.snapshots[j] in lab && lab[s.snapshots[i]] <= lab[s.snapshots[j]]
  {
    hide Earned, Passed;
    assert s.snapshots[i] in s.snapshots && s.snapshots[j] in s.snapshots;
  }

  /** With a listed first, c is discovered before p. */
  lemma SwungFirst<S(!new)>(h: History<S>, key: Key, others: seq<Tip>, a: Tip, c: Tip, d: nat, p: Tip,
                            s: Search<S>, expanded: set<Tip>, refd: set<Tip>, lab: map<Tip, nat>) returns (i: nat, j: nat)
    requires Swings(h, key, others, a, c, d, p) && a !in others && c in Facing(h, key, [a] + others) && p in Facing(h, key, [a] + others)
    requires Drained(h, key, [a] + others, s, expanded, refd) && Labelled(h, key, [a] + others, Elems(others), s, expanded, lab)
    ensures i < j < |s.snapshots| && s.snapshots[i] == c
  {
    hide Drained, Labelled, Steps, Facing;
    var tips, late := [a] + others, Elems(others);
    DrainedFacing(h, key, tips, s, expanded, refd, c);
    DrainedFacing(h, key, tips, s, expanded, refd, p);
    i :| 0 <= i < |s.snapshots| && s.snapshots[i] == c;
    j :| 0 <= j < |s.snapshots| && s.snapshots[j] == p;
    assert a in tips;
    LabelAtMost(h, key, tips, late, s, expanded, refd, lab, a, d, c);
    CostOf(h, key, tips, late, s, expanded, lab, p);
    if j < i {
      LabelsRise(h, key, tips, late, s, expanded, lab, j, i);
      assert false;
    }
  }

  /** A family of histories on which the listing decides: with a listed last the walk cuts at c,
      with a listed first it does not, and the two orders differ. */
  lemma ListingMatters<S(!new)>(h: History<S>, key: Key, others: seq<Tip>, a: Tip, nodes: History<S>, c: Tip, d: nat,
                                p: Tip, rank: Tip -> nat)
    requires ZERO_TIP !in h && Ranked(DepGraph(h, key), rank) && HashesDistinct(h) && a !in others
    requires Straight(h, key, others + [a], nodes, c) && c in h && KeyDeps(key, h[c]) != [] && Swings(h, key, others, a, c, d, p)
    ensures SearchFrom(h, key, others + [a]).Found? && SearchFrom(h, key, others + [a]).lca == c
    ensures var first := SearchFrom(h, key, [a] + others); first.Found? ==> first.lca != c && !SameOrder(h, key, others + [a], [a] + others)
  {
    hide SearchFrom, Ranked, HashesDistinct, SameOrder, Facing, Swings, KeyDeps, Steps;
    SwingsLast(h, key, others, a, nodes, c, d, p);
    SwingsFirst(h, key, others, a, nodes, c, d, p);
    assert multiset(others + [a]) == multiset([a] + others);
    if SearchFrom(h, key, [a] + others).Found? {
      OrdersCompare(h, key, others + [a], [a] + others, rank);
    }
  }

  lemma SwingsLast<S(!new)>(h: History<S>, key: Key, others: seq<Tip>, a: Tip, nodes: History<S>, c: Tip, d: nat, p: Tip)
    requires ZERO_TIP !in h && a !in others && Straight(h, key, others + [a], nodes, c) && Swings(h, key, others, a, c, d, p)
    ensures SearchFrom(h, key, others + [a]).Found? && SearchFrom(h, key, others + [a]).lca == c
  {
    hide SearchFrom, Explore, Facing, Swings, KeyDeps, Steps, Labelled, Converged, Discovered;
    var tips := others + [a];
    LateListed(others, a);
    var s, expanded, refd, lab := FirstPause(h, key, tips, {a});
    assert !Absent(h, key, tips, Plain(h)) by { StraightPresent(h, key, tips, nodes, c); }
    SwungLast(h, key, others, a, c, d, p, s, expanded, refd, lab);
    StartsAbove(h, key, tips, s, expanded, refd, nodes, c);
    CutsAt(h, key, tips, s, expanded, refd, nodes, c);
  }

  lemma StartsAbove<S(!new)>(h: History<S>, key: Key, tips: seq<Tip>, s: Search<S>, expanded: set<Tip>,
                             refd: set<Tip>, nodes: History<S>, c: Tip)
    requires Drained(h, key, tips, s, expanded, refd) && Straight(h, key, tips, nodes, c)
    requires s.snapshots != [] && s.snapshots[|s.snapshots| - 1] == c
    ensures Above(h, key, tips, s, expanded, nodes, c)
  {
    hide Between, Discovered, Near, Converged, Uncut;
    forall t | t in s.nodes ensures t in nodes {
      DrainedNear(h, key, tips, s, expanded, refd, t);
      NearAbove(h, key, tips, nodes, c, t);
    }
    PendingInFrontier(h, key, tips, s, expanded, refd, c);
    forall t | t in nodes && IsStateSnapshot(nodes[t]) ensures t in s.nodes {
      DrainedFacing(h, key, tips, s, expanded, refd, t);
      DrainedNear(h, key, tips, s, expanded, refd, t);
    }
  }

  lemma NearAbove<S(!new)>(h: History<S>, key: Key, tips: seq<Tip>, nodes: History<S>, c: Tip, t: Tip)
    requires Straight(h, key, tips, nodes, c) && Near(h, key, tips, t)
    ensures t in nodes
  {
    hide Converged, Uncut;
    var p :| PathVia(h, key, tips, Plain(h), p) && p[|p| - 1] == t;
    PathAbove(h, key, tips, nodes, c, p, |p| - 1);
  }

  lemma {:induction false} PathAbove<S(!new)>(h: History<S>, key: Key, tips: seq<Tip>, nodes: History<S>, c: Tip, p: seq<Tip>, i: nat)
    requires Straight(h, key, tips, nodes, c) && PathVia(h, key, tips, Plain(h), p) && i < |p|
    ensures p[i] in nodes
  {
    hide Discovered, Converged, Uncut, KeyDeps;
    if i > 0 {
      PathAbove(h, key, tips, nodes, c, p, i - 1);
      assert c != ZERO_TIP ==> p[i - 1] != c;
      CollectedDeps(h, key, tips, nodes, c, p[i - 1]);
      assert p[i - 1 + 1] in KeyDeps(key, h[p[i - 1]]);
    }
  }

  lemma CollectedDeps<S(!new)>(h: History<S>, key: Key, tips: seq<Tip>, nodes: History<S>, c: Tip, t: Tip)
    requires Collected(h, key, tips, nodes, c) && t in nodes && t != c
    ensures forall d :: d in KeyDeps(key, h[t]) ==> d in nodes
  {
    hide Discovered, Referenced, Roots;
  }

  lemma StraightPresent<S(!new)>(h: History<S>, key: Key, tips: seq<Tip>, nodes: History<S>, c: Tip)
    requires Straight(h, key, tips, nodes, c)
    ensures !Absent(h, key, tips, Plain(h))
  {
    hide Discovered, Converged, Uncut;
    forall t | Discovered(h, key, tips, Plain(h), t) ensures t in h {
      assert Near(h, key, tips, t);
      NearAbove(h, key, tips, nodes, c, t);
    }
  }

  lemma SwingsFirst<S(!new)>(h: History<S>, key: Key, others: seq<Tip>, a: Tip, nodes: History<S>, c: Tip, d: nat, p: Tip)
    requires ZERO_TIP !in h && a !in others && Straight(h, key, others + [a], nodes, c) && Swings(h, key, others, a, c, d, p)
    requires c in h && KeyDeps(key, h[c]) != []
    ensures SearchFrom(h, key, [a] + others).Found? ==> SearchFrom(h, key, [a] + others).lca != c
  {
    hide SearchFrom, Explore, Facing, KeyDeps, Steps, Labelled, Discovered, Collected;
    var tips := [a] + others;
    LateListed(others, a);
    assert multiset(others + [a]) == multiset(tips);
    SameCut(h, key, others + [a], tips);
    var s, expanded, refd, lab := FirstPause(h, key, tips, Elems(others));
    if !Absent(h, key, tips, Plain(h)) {
      var i, j := SwungFirst(h, key, others, a, c, d, p, s, expanded, refd, lab);
      PassesOver(h, key, tips, s, expanded, refd, c, i, j);
    }
  }
}
