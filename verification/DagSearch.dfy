/** Phase 1 of the walk as a function, so that its choice of cut can be computed. */
module DagSearch {
  import opened Effects
  import opened PostOrder
  import opened DagSpec

  datatype Search<+S> = Search(nodes: History<S>, queue: seq<Tip>, snapshots: seq<Tip>, frontier: set<Tip>)

  datatype Outcome<+S> = Missing | Found(nodes: History<S>, lca: Tip)

  function Fetch<S>(h: History<S>, s: Search<S>, t: Tip, counts: bool): Search<S>
    requires t in h
  {
    Search(s.nodes[t := h[t]],
           if IsStateSnapshot(h[t]) then s.queue else s.queue + [t],
           if IsStateSnapshot(h[t]) then s.snapshots + [t] else s.snapshots,
           if counts then s.frontier + {t} else s.frontier)
  }

  function SeedAll<S>(h: History<S>, tips: seq<Tip>, s: Search<S>): (r: Option<Search<S>>)
    requires s.nodes.Keys <= h.Keys
    ensures r.Some? ==> r.value.nodes.Keys <= h.Keys
  {
    if tips == [] then Some(s)
    else if tips[0] in s.nodes then SeedAll(h, tips[1..], s)
    else if tips[0] !in h then None
    else SeedAll(h, tips[1..], Fetch(h, s, tips[0], !IsStandalone(h[tips[0]])))
  }

  function FollowAll<S>(h: History<S>, deps: seq<Tip>, s: Search<S>): (r: Option<Search<S>>)
    requires s.nodes.Keys <= h.Keys
    ensures r.Some? ==> s.nodes.Keys <= r.value.nodes.Keys <= h.Keys
    ensures r.Some? && r.value.nodes.Keys == s.nodes.Keys ==> r.value.queue == s.queue && r.value.snapshots == s.snapshots
  {
    if deps == [] then Some(s)
    else if deps[0] in s.nodes then
      FollowAll(h, deps[1..], if IsStandalone(s.nodes[deps[0]]) then s.(frontier := s.frontier + {deps[0]}) else s)
    else if deps[0] !in h then None
    else FollowAll(h, deps[1..], Fetch(h, s, deps[0], true))
  }

  /** The next effect to expand: queued effects first, then pending state snapshots. */
  function Next<S>(s: Search<S>): Tip
    requires s.queue != [] || s.snapshots != []
  {
    if s.queue != [] then s.queue[0] else s.snapshots[0]
  }

  function Pop<S>(key: Key, s: Search<S>, eff: Effect<S>): Search<S>
    requires s.queue != [] || s.snapshots != []
  {
    var f := if KeyDeps(key, eff) == [] then s.frontier else s.frontier - {Next(s)};
    if s.queue != [] then s.(queue := s.queue[1..], frontier := f) else s.(snapshots := s.snapshots[1..], frontier := f)
  }

  function Explore<S>(h: History<S>, key: Key, s: Search<S>): Outcome<S>
    requires s.nodes.Keys <= h.Keys
    decreases |h.Keys - s.nodes.Keys|, |s.queue| + |s.snapshots|
  {
    if s.queue == [] && s.snapshots == [] then
      Found(s.nodes, if |s.frontier| == 1 then LastSnapshot(s) else ZERO_TIP)
    else
      var cur := Next(s);
      if cur !in s.nodes then Missing
      else if IsStateSnapshot(s.nodes[cur]) && |s.frontier| == 1 then Found(s.nodes, cur)
      else
        match FollowAll(h, KeyDeps(key, s.nodes[cur]), Pop(key, s, s.nodes[cur]))
        case None => Missing
        case Some(s') =>
          ExploreShrinks(h, s.nodes.Keys, s'.nodes.Keys);
          Explore(h, key, s')
  }

  function LastSnapshot<S>(s: Search<S>): Tip
    requires |s.frontier| == 1
  {
    SoleElement(s.frontier);
    var t :| t in s.frontier;
    if t in s.nodes && IsStateSnapshot(s.nodes[t]) then t else ZERO_TIP
  }

  lemma SoleElement(s: set<Tip>)
    requires |s| == 1
    ensures forall a, b :: a in s && b in s ==> a == b
  {
    var t :| t in s;
    assert |s - {t}| == 0;
  }

  lemma ExploreShrinks<S>(h: History<S>, a: set<Tip>, b: set<Tip>)
    requires a <= b <= h.Keys
    ensures |h.Keys - b| <= |h.Keys - a|
    ensures |h.Keys - b| == |h.Keys - a| ==> a == b
  {
    SubsetSize(h.Keys - b, h.Keys - a);
    if t :| t in b && t !in a {
      SubsetSize(h.Keys - b, h.Keys - a - {t});
    }
  }

  function SearchFrom<S>(h: History<S>, key: Key, tips: seq<Tip>): Outcome<S> {
    match SeedAll(h, tips, Search(map[], [], [], {}))
    case None => Missing
    case Some(s) => Explore(h, key, s)
  }

  lemma SeedStep<S>(h: History<S>, tips: seq<Tip>, s: Search<S>)
    requires s.nodes.Keys <= h.Keys && tips != []
    ensures SeedAll(h, tips, s)
         == if tips[0] in s.nodes then SeedAll(h, tips[1..], s)
            else if tips[0] !in h then None
            else SeedAll(h, tips[1..], Fetch(h, s, tips[0], !IsStandalone(h[tips[0]])))
  {}

  lemma SeedDone<S>(h: History<S>, s: Search<S>)
    requires s.nodes.Keys <= h.Keys
    ensures SeedAll(h, [], s) == Some(s)
  {}

  lemma FollowStep<S>(h: History<S>, deps: seq<Tip>, s: Search<S>)
    requires s.nodes.Keys <= h.Keys && deps != []
    ensures FollowAll(h, deps, s)
         == if deps[0] in s.nodes then
              FollowAll(h, deps[1..], if IsStandalone(s.nodes[deps[0]]) then s.(frontier := s.frontier + {deps[0]}) else s)
            else if deps[0] !in h then None
            else FollowAll(h, deps[1..], Fetch(h, s, deps[0], true))
  {}

  lemma FollowDone<S>(h: History<S>, s: Search<S>)
    requires s.nodes.Keys <= h.Keys
    ensures FollowAll(h, [], s) == Some(s)
  {}

  lemma ExploreStep<S>(h: History<S>, key: Key, s: Search<S>)
    requires s.nodes.Keys <= h.Keys && (s.queue != [] || s.snapshots != [])
    ensures Explore(h, key, s)
         == var cur := Next(s);
            if cur !in s.nodes then Missing
            else if IsStateSnapshot(s.nodes[cur]) && |s.frontier| == 1 then Found(s.nodes, cur)
            else
              match FollowAll(h, KeyDeps(key, s.nodes[cur]), Pop(key, s, s.nodes[cur]))
              case None => Missing
              case Some(s') => Explore(h, key, s')
  {}

  lemma ExploreDone<S>(h: History<S>, key: Key, s: Search<S>)
    requires s.nodes.Keys <= h.Keys && s.queue == [] && s.snapshots == []
    ensures Explore(h, key, s) == Found(s.nodes, if |s.frontier| == 1 then LastSnapshot(s) else ZERO_TIP)
  {}
}
