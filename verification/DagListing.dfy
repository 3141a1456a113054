/** How the choice of cut depends on the listing of the tips (effects/dag.go, phase 1): the walk
    as a function, state by state. */
module DagListing {
  import opened Effects
  import opened Sequences
  import opened PostOrder
  import opened DagSpec
  import opened DagOrder
  import opened DagSearch
  import opened Dag

  // ---------- The functional walk keeps the invariants of the loop ----------

  ghost predicate Explored<S(!new)>(h: History<S>, key: Key, tips: seq<Tip>, s: Search<S>, expanded: set<Tip>, refd: set<Tip>) {
    Exploring(h, key, tips, s.nodes, s.queue, s.snapshots, s.frontier, expanded, refd)
  }

  /** The walk between two dequeues. */
  ghost predicate Between<S(!new)>(h: History<S>, key: Key, tips: seq<Tip>, s: Search<S>, expanded: set<Tip>, refd: set<Tip>) {
    && Explored(h, key, tips, s, expanded, refd) && Settled(h, key, s.nodes, expanded, refd)
    && (forall t :: t in tips ==> t in s.nodes) && s.nodes.Keys <= h.Keys
  }

  lemma FetchSound<S(!new)>(h: History<S>, key: Key, tips: seq<Tip>, s: Search<S>, expanded: set<Tip>, refd: set<Tip>, t: Tip)
    requires Explored(h, key, tips, s, expanded, refd) && t in h && t !in s.nodes && Discovered(h, key, tips, expanded, t)
    ensures Explored(h, key, tips, Fetch(h, s, t, !IsStandalone(h[t]) || t in refd), expanded, refd)
  {
    hide Exploring, Discovered;
    Fetched(h, key, tips, s.nodes, s.queue, s.snapshots, s.frontier, expanded, refd, t);
  }

  lemma {:induction false} SeedSound<S(!new)>(h: History<S>, key: Key, tips: seq<Tip>, rest: seq<Tip>, s: Search<S>)
    requires Explored(h, key, tips, s, {}, {}) && s.nodes.Keys <= h.Keys && forall t :: t in rest ==> t in tips
    ensures match SeedAll(h, rest, s)
      case Some(s') => Explored(h, key, tips, s', {}, {}) && s.nodes.Keys <= s'.nodes.Keys && forall t :: t in rest ==> t in s'.nodes
      case None => exists t :: t in rest && t !in h
    decreases |rest|
  {
    hide Explored, Discovered;
    if rest == [] {
      SeedDone(h, s);
    } else {
      SeedStep(h, rest, s);
      var t := rest[0];
      assert rest == [t] + rest[1..];
      if t in s.nodes {
        SeedSound(h, key, tips, rest[1..], s);
      } else if t in h {
        TipDiscovered(h, key, tips, {}, t);
        FetchSound(h, key, tips, s, {}, {}, t);
        SeedSound(h, key, tips, rest[1..], Fetch(h, s, t, !IsStandalone(h[t])));
      }
    }
  }

  lemma ReferSound<S(!new)>(h: History<S>, key: Key, tips: seq<Tip>, s: Search<S>, expanded: set<Tip>, refd: set<Tip>, d: Tip)
    requires Explored(h, key, tips, s, expanded, refd)
    ensures Explored(h, key, tips, if d in s.nodes && IsStandalone(s.nodes[d]) then s.(frontier := s.frontier + {d}) else s, expanded, refd + {d})
  {
    hide Exploring;
    Referred(h, key, tips, s.nodes, s.queue, s.snapshots, s.frontier, expanded, refd, d);
  }

  lemma ElemsHead(s: seq<Tip>)
    requires s != []
    ensures Elems(s) == {s[0]} + Elems(s[1..])
  {
    assert s == [s[0]] + s[1..];
  }

  lemma {:induction false} FollowSound<S(!new)>(h: History<S>, key: Key, tips: seq<Tip>, cur: Tip, deps: seq<Tip>, s: Search<S>,
                                                expanded: set<Tip>, refd: set<Tip>)
    requires Explored(h, key, tips, s, expanded, refd) && s.nodes.Keys <= h.Keys
    requires cur in h && cur in expanded && Discovered(h, key, tips, expanded, cur) && forall d :: d in deps ==> d in KeyDeps(key, h[cur])
    ensures match FollowAll(h, deps, s)
      case Some(s') =>
        && Explored(h, key, tips, s', expanded, refd + Elems(deps)) && s.nodes.Keys <= s'.nodes.Keys
        && forall d :: d in deps ==> d in s'.nodes
      case None => exists d :: d in deps && d !in h
    decreases |deps|
  {
    hide Explored, Discovered, KeyDeps, Elems;
    if deps == [] {
      FollowDone(h, s);
      NoElems(deps);
      assert refd + {} == refd;
    } else {
      FollowStep(h, deps, s);
      var d := deps[0];
      ElemsHead(deps);
      assert deps == [d] + deps[1..];
      assert refd + {d} + Elems(deps[1..]) == refd + Elems(deps);
      ReferSound(h, key, tips, s, expanded, refd, d);
      if d in s.nodes {
        FollowSound(h, key, tips, cur, deps[1..], if IsStandalone(s.nodes[d]) then s.(frontier := s.frontier + {d}) else s, expanded, refd + {d});
      } else if d in h {
        DiscoveredNext(h, key, tips, expanded, cur, d);
        FetchSound(h, key, tips, s, expanded, refd + {d}, d);
        FollowSound(h, key, tips, cur, deps[1..], Fetch(h, s, d, true), expanded, refd + {d});
      }
    }
  }

  predicate Idle<S>(s: Search<S>) {
    s.queue == [] && s.snapshots == []
  }

  /** The walk stops at the effect that comes next. */
  predicate Stops<S>(h: History<S>, s: Search<S>)
    requires !Idle(s)
  {
    Next(s) in h && IsStateSnapshot(h[Next(s)]) && |s.frontier| == 1
  }

  /** The state after the next effect has been expanded; none if a dependency is absent. */
  function After<S>(h: History<S>, key: Key, s: Search<S>): Option<Search<S>>
    requires !Idle(s) && Next(s) in h && s.nodes.Keys <= h.Keys
  {
    FollowAll(h, KeyDeps(key, h[Next(s)]), Pop(key, s, h[Next(s)]))
  }

  ghost function RefdAfter<S>(h: History<S>, key: Key, s: Search<S>, refd: set<Tip>): set<Tip>
    requires !Idle(s) && Next(s) in h
  {
    refd + Elems(KeyDeps(key, h[Next(s)]))
  }

  lemma NextIs<S(!new)>(h: History<S>, key: Key, tips: seq<Tip>, s: Search<S>, expanded: set<Tip>, refd: set<Tip>)
    requires Between(h, key, tips, s, expanded, refd) && !Idle(s)
    ensures var cur := Next(s);
      && cur in s.nodes && cur in h && s.nodes[cur] == h[cur] && cur !in expanded && (IsStateSnapshot(h[cur]) <==> s.queue == [])
      && Explored(h, key, tips, Pop(key, s, h[cur]), expanded + {cur}, refd)
  {
    hide Settled, Frontier, AllDiscovered;
    var cur := Next(s);
    var s' := Pop(key, s, s.nodes[cur]);
    Dequeued(h, key, tips, s.nodes, s.queue, s.snapshots, s.frontier, expanded, refd, cur, s'.queue, s'.snapshots);
  }

  lemma StepSound<S(!new)>(h: History<S>, key: Key, tips: seq<Tip>, s: Search<S>, expanded: set<Tip>, refd: set<Tip>)
    requires Between(h, key, tips, s, expanded, refd) && !Idle(s)
    ensures Next(s) in h && (Stops(h, s) ==> Explore(h, key, s) == Found(s.nodes, Next(s)))
    ensures !Stops(h, s) ==> match After(h, key, s)
      case Some(s') =>
        && Between(h, key, tips, s', expanded + {Next(s)}, RefdAfter(h, key, s, refd)) && s.nodes.Keys <= s'.nodes.Keys
        && Explore(h, key, s) == Explore(h, key, s')
      case None => Explore(h, key, s) == Missing && exists d :: d in KeyDeps(key, h[Next(s)]) && d !in h
  {
    hide Explore, FollowAll, Exploring, Discovered, KeyDeps, Elems, Settled;
    NextIs(h, key, tips, s, expanded, refd);
    ExploreStep(h, key, s);
    var cur := Next(s);
    var s1 := Pop(key, s, h[cur]);
    ExpandedKnown(h, key, tips, s1.nodes, s1.queue, s1.snapshots, s1.frontier, expanded + {cur}, refd, cur);
    FollowSound(h, key, tips, cur, KeyDeps(key, h[cur]), s1, expanded + {cur}, refd);
    match After(h, key, s) {
      case None =>
      case Some(s') =>
        SettledGrows(h, key, s.nodes, s'.nodes, expanded, refd, cur);
        ExploredKnown(h, key, tips, s', expanded + {cur}, RefdAfter(h, key, s, refd));
    }
  }

  lemma ExploredKnown<S(!new)>(h: History<S>, key: Key, tips: seq<Tip>, s: Search<S>, expanded: set<Tip>, refd: set<Tip>)
    requires Explored(h, key, tips, s, expanded, refd)
    ensures s.nodes.Keys <= h.Keys && expanded <= s.nodes.Keys && (forall t :: t in s.nodes ==> t in h && s.nodes[t] == h[t])
  {
    hide Discovered;
    ExpandedCollected(h, s.nodes, s.queue, s.snapshots, expanded);
  }

  // ---------- What a search has collected ----------

  lemma ExpandShrinks(all: set<Tip>, expanded: set<Tip>, cur: Tip)
    requires cur in all && cur !in expanded
    ensures |all - (expanded + {cur})| < |all - expanded|
  {
    assert all - (expanded + {cur}) == all - expanded - {cur};
  }

  lemma EndCollects<S(!new)>(h: History<S>, key: Key, tips: seq<Tip>, s: Search<S>, expanded: set<Tip>, refd: set<Tip>)
    requires ZERO_TIP !in h && Between(h, key, tips, s, expanded, refd) && Idle(s)
    ensures Explore(h, key, s).Found? && Explore(h, key, s).nodes == s.nodes && Collected(h, key, tips, s.nodes, Explore(h, key, s).lca)
  {
    hide Settled, Discovered, Frontier, Collected, AllDiscovered, Within;
    AllExpanded(h, key, tips, s.nodes, s.frontier, expanded, refd);
    ExploreDone(h, key, s);
    if |s.frontier| == 1 {
      var t := SoleMemberOf(s.frontier);
      if IsStateSnapshot(s.nodes[t]) {
        RootConverged(h, key, tips, s.nodes, refd, t);
      } else {
        RunsOut(h, key, tips, s.nodes, s.frontier, refd);
      }
    } else {
      NotSole(s.frontier);
      RunsOut(h, key, tips, s.nodes, s.frontier, refd);
    }
  }

  lemma SoleMemberOf(s: set<Tip>) returns (t: Tip)
    requires |s| == 1
    ensures s == {t}
  {
    t :| t in s;
    SoleMember(s, t);
  }

  lemma NotSole(s: set<Tip>)
    requires |s| != 1
    ensures forall t :: s != {t}
  {}

  lemma {:induction false} ExploreCollects<S(!new)>(h: History<S>, key: Key, tips: seq<Tip>, s: Search<S>,
                                                    expanded: set<Tip>, refd: set<Tip>)
    requires ZERO_TIP !in h && Between(h, key, tips, s, expanded, refd)
    ensures match Explore(h, key, s)
      case Found(nodes, lca) => Collected(h, key, tips, nodes, lca)
      case Missing => Incomplete(h, key, tips)
    decreases |h.Keys - expanded|
  {
    hide Explore, FollowAll, Exploring, Discovered, KeyDeps, Settled, Collected, Incomplete;
    if Idle(s) {
      EndCollects(h, key, tips, s, expanded, refd);
    } else {
      NextIs(h, key, tips, s, expanded, refd);
      StepSound(h, key, tips, s, expanded, refd);
      if Stops(h, s) {
        StopsAtSnapshot(h, key, tips, s.nodes, s.queue, s.snapshots, s.frontier, expanded, refd, Next(s));
      } else {
        match After(h, key, s) {
          case None => MissingHere(h, key, tips, s, expanded, refd);
          case Some(s') =>
            ExpandShrinks(h.Keys, expanded, Next(s));
            ExploreCollects(h, key, tips, s', expanded + {Next(s)}, RefdAfter(h, key, s, refd));
        }
      }
    }
  }

  lemma MissingHere<S(!new)>(h: History<S>, key: Key, tips: seq<Tip>, s: Search<S>, expanded: set<Tip>, refd: set<Tip>)
    requires Between(h, key, tips, s, expanded, refd) && !Idle(s) && Next(s) in h && Next(s) in s.nodes
    requires exists d :: d in KeyDeps(key, h[Next(s)]) && d !in h
    ensures Incomplete(h, key, tips)
  {
    hide Discovered, KeyDeps, Settled;
    var cur := Next(s);
    var d :| d in KeyDeps(key, h[cur]) && d !in h;
    ExpandedKnown(h, key, tips, s.nodes, s.queue, s.snapshots, s.frontier, expanded, refd, cur);
    DiscoveredGrows(h, key, tips, expanded, h.Keys, cur);
    DiscoveredNext(h, key, tips, h.Keys, cur, d);
  }

  lemma SeedBetween<S(!new)>(h: History<S>, key: Key, tips: seq<Tip>)
    ensures match SeedAll(h, tips, Search(map[], [], [], {}))
      case Some(s) => Between(h, key, tips, s, {}, {}) && SearchFrom(h, key, tips) == Explore(h, key, s)
      case None => SearchFrom(h, key, tips) == Missing && exists t :: t in tips && t !in h
  {
    hide Explore, Exploring;
    var none: Search<S> := Search(map[], [], [], {});
    NothingExplored(h, key, tips);
    SeedSound(h, key, tips, tips, none);
    match SeedAll(h, tips, none) {
      case None =>
      case Some(s) =>
        NothingSettled(h, key, s.nodes);
        ExploredKnown(h, key, tips, s, {}, {});
    }
  }

  /** Whatever the search finds is a collection, and it gives up only over an absent effect. */
  lemma SearchCollects<S(!new)>(h: History<S>, key: Key, tips: seq<Tip>)
    requires ZERO_TIP !in h
    ensures match SearchFrom(h, key, tips)
      case Found(nodes, lca) => Collected(h, key, tips, nodes, lca)
      case Missing => Incomplete(h, key, tips)
  {
    hide Explore, Exploring, Discovered, Settled, Collected, SeedAll, SearchFrom, Between;
    SeedBetween(h, key, tips);
    match SeedAll(h, tips, Search(map[], [], [], {})) {
      case None =>
        var t :| t in tips && t !in h;
        TipDiscovered(h, key, tips, h.Keys, t);
      case Some(s) => ExploreCollects(h, key, tips, s, {}, {});
    }
  }

  // ---------- Draining the queue ----------

  /** The effects that are expanded as soon as they are queued. */
  ghost function Plain<S>(h: History<S>): set<Tip> {
    set t | t in h && !IsStateSnapshot(h[t])
  }

  /** n dependency steps lead from t to x, past no state snapshot. */
  ghost predicate Steps<S(!new)>(h: History<S>, key: Key, t: Tip, n: nat, x: Tip) {
    exists p :: |p| == n + 1 && PathVia(h, key, [t], Plain(h), p) && p[n] == x
  }

  function Offset(late: set<Tip>, t: Tip): nat {
    if t in late then 1 else 0
  }

  /** Some tip leads to x at this cost: two for each step, and one more from a late tip. */
  ghost predicate Costs<S(!new)>(h: History<S>, key: Key, tips: seq<Tip>, late: set<Tip>, x: Tip, k: nat) {
    exists t, n: nat :: t in tips && Steps(h, key, t, n, x) && 2 * n + Offset(late, t) <= k
  }

  ghost predicate Rising(lab: map<Tip, nat>, s: seq<Tip>) {
    && (forall x :: x in s ==> x in lab)
    && forall i, j :: 0 <= i < j < |s| ==> lab[s[i]] <= lab[s[j]]
  }

  /** The late tips are listed last. */
  ghost predicate Listed(late: set<Tip>, tips: seq<Tip>) {
    forall i, j :: 0 <= i < j < |tips| ==> Offset(late, tips[i]) <= Offset(late, tips[j])
  }

  ghost predicate Below(lab: map<Tip, nat>, k: nat) {
    forall x :: x in lab ==> lab[x] <= k
  }

  ghost predicate Earned<S(!new)>(h: History<S>, key: Key, tips: seq<Tip>, late: set<Tip>, lab: map<Tip, nat>) {
    forall x :: x in lab ==> Costs(h, key, tips, late, x, lab[x])
  }

  ghost predicate Passed<S(!new)>(h: History<S>, key: Key, tips: seq<Tip>, late: set<Tip>, expanded: set<Tip>, lab: map<Tip, nat>) {
    && (forall t :: t in tips ==> t in lab && lab[t] <= Offset(late, t))
    && forall y, d :: y in expanded && y in h && d in KeyDeps(key, h[y]) ==> Spans(lab, y, d)
  }

  ghost predicate Spans(lab: map<Tip, nat>, y: Tip, d: Tip) {
    y in lab && d in lab && lab[d] <= lab[y] + 2
  }

  /** Effects are labelled in the order of their discovery, each with a cost at which it is reached. */
  ghost predicate Labelled<S(!new)>(h: History<S>, key: Key, tips: seq<Tip>, late: set<Tip>, s: Search<S>,
                                    expanded: set<Tip>, lab: map<Tip, nat>) {
    && lab.Keys == s.nodes.Keys && Rising(lab, s.queue) && Rising(lab, s.snapshots)
    && (s.queue != [] ==> Below(lab, lab[s.queue[0]] + 2))
    && Earned(h, key, tips, late, lab) && Passed(h, key, tips, late, expanded, lab)
  }

  /** What fetching adds to the two queues. */
  ghost predicate Appends<S>(h: History<S>, s: Search<S>, s': Search<S>, q: seq<Tip>, n: seq<Tip>) {
    && s'.queue == s.queue + q && s'.snapshots == s.snapshots + n
    && s'.nodes.Keys == s.nodes.Keys + Elems(q) + Elems(n)
    && (forall t :: t in q || t in n ==> t !in s.nodes)
    && (forall t :: t in n ==> t in h && IsStateSnapshot(h[t]))
  }

  lemma AppendsNone<S>(h: History<S>, s: Search<S>, f: set<Tip>)
    ensures Appends(h, s, s.(frontier := f), [], [])
  {
    NoElems([]);
  }

  lemma AppendsFetch<S>(h: History<S>, s: Search<S>, t: Tip, counts: bool, s': Search<S>, q: seq<Tip>, n: seq<Tip>)
    returns (q': seq<Tip>, n': seq<Tip>)
    requires t in h && t !in s.nodes && Appends(h, Fetch(h, s, t, counts), s', q, n)
    ensures Appends(h, s, s', q', n') && forall x :: x in q' || x in n' <==> x == t || x in q || x in n
  {
    hide Elems;
    var s1 := Fetch(h, s, t, counts);
    ElemsCons(t, q);
    ElemsCons(t, n);
    assert s1.nodes.Keys == s.nodes.Keys + {t};
    if IsStateSnapshot(h[t]) {
      q', n' := q, [t] + n;
      assert s.snapshots + [t] + n == s.snapshots + n';
      assert s.nodes.Keys + {t} + Elems(q) + Elems(n) == s.nodes.Keys + Elems(q') + Elems(n');
    } else {
      q', n' := [t] + q, n;
      assert s.queue + [t] + q == s.queue + q';
      assert s.nodes.Keys + {t} + Elems(q) + Elems(n) == s.nodes.Keys + Elems(q') + Elems(n');
    }
  }

  lemma ElemsCons(t: Tip, s: seq<Tip>)
    ensures Elems([t] + s) == {t} + Elems(s)
  {
    assert forall x :: x in [t] + s <==> x == t || x in s;
  }

  lemma {:induction false} FollowAppends<S>(h: History<S>, deps: seq<Tip>, s: Search<S>) returns (q: seq<Tip>, n: seq<Tip>)
    requires s.nodes.Keys <= h.Keys && FollowAll(h, deps, s).Some?
    ensures Appends(h, s, FollowAll(h, deps, s).value, q, n) && forall x :: x in q || x in n ==> x in deps
    decreases |deps|
  {
    hide Appends;
    q, n := [], [];
    if deps == [] {
      AppendsNone(h, s, s.frontier);
      assert s.(frontier := s.frontier) == s;
    } else {
      FollowStep(h, deps, s);
      assert deps == [deps[0]] + deps[1..];
      if deps[0] in s.nodes {
        var s1 := if IsStandalone(s.nodes[deps[0]]) then s.(frontier := s.frontier + {deps[0]}) else s;
        q, n := FollowAppends(h, deps[1..], s1);
        AppendsFrontier(h, s, s1.frontier, FollowAll(h, deps, s).value, q, n);
        assert s.(frontier := s1.frontier) == s1;
      } else {
        q, n := FollowAppends(h, deps[1..], Fetch(h, s, deps[0], true));
        q, n := AppendsFetch(h, s, deps[0], true, FollowAll(h, deps, s).value, q, n);
      }
    }
  }

  lemma AppendsFrontier<S>(h: History<S>, s: Search<S>, f: set<Tip>, s': Search<S>, q: seq<Tip>, n: seq<Tip>)
    ensures Appends(h, s.(frontier := f), s', q, n) <==> Appends(h, s, s', q, n)
  {}

  lemma StepsTo<S(!new)>(h: History<S>, key: Key, t: Tip)
    ensures Steps(h, key, t, 0, t)
  {
    assert PathVia(h, key, [t], Plain(h), [t]);
  }

  lemma StepsOn<S(!new)>(h: History<S>, key: Key, t: Tip, n: nat, x: Tip, d: Tip)
    requires Steps(h, key, t, n, x) && x in h && !IsStateSnapshot(h[x]) && d in KeyDeps(key, h[x])
    ensures Steps(h, key, t, n + 1, d)
  {
    var p :| |p| == n + 1 && PathVia(h, key, [t], Plain(h), p) && p[n] == x;
    var p' := p + [d];
    assert PathVia(h, key, [t], Plain(h), p') && p'[n + 1] == d;
  }

  lemma CostsOn<S(!new)>(h: History<S>, key: Key, tips: seq<Tip>, late: set<Tip>, x: Tip, k: nat, d: Tip)
    requires Costs(h, key, tips, late, x, k) && x in h && !IsStateSnapshot(h[x]) && d in KeyDeps(key, h[x])
    ensures Costs(h, key, tips, late, d, k + 2)
  {
    hide Steps;
    var t, n: nat :| t in tips && Steps(h, key, t, n, x) && 2 * n + Offset(late, t) <= k;
    StepsOn(h, key, t, n, x, d);
    assert 2 * (n + 1) + Offset(late, t) <= k + 2;
  }

  /** New effects get one more step than the effect that led to them. */
  function Relabel(lab: map<Tip, nat>, now: set<Tip>, k: nat): map<Tip, nat> {
    map x | x in now :: if x in lab then lab[x] else k
  }

  lemma RisingOn(lab: map<Tip, nat>, s: seq<Tip>, more: seq<Tip>, now: set<Tip>, k: nat)
    requires Rising(lab, s) && Below(lab, k) && lab.Keys <= now && forall x :: x in more ==> x in now && x !in lab
    ensures Rising(Relabel(lab, now, k), s + more)
  {
    var lab', all := Relabel(lab, now, k), s + more;
    forall x | x in all ensures x in lab' {}
    forall i, j | 0 <= i < j < |all| ensures lab'[all[i]] <= lab'[all[j]] {
      if j < |s| {
        assert all[i] in lab && all[j] in lab && lab[s[i]] <= lab[s[j]];
      } else {
        assert all[j] == more[j - |s|];
      }
    }
  }

  lemma RisingTail(lab: map<Tip, nat>, s: seq<Tip>)
    requires Rising(lab, s) && s != []
    ensures Rising(lab, s[1..]) && forall x :: x in s ==> lab[s[0]] <= lab[x]
  {
    assert s == [s[0]] + s[1..];
    forall i, j | 0 <= i < j < |s[1..]| ensures lab[s[1..][i]] <= lab[s[1..][j]] {
      assert lab[s[i + 1]] <= lab[s[j + 1]];
    }
  }

  lemma EarnedOn<S(!new)>(h: History<S>, key: Key, tips: seq<Tip>, late: set<Tip>, lab: map<Tip, nat>, cur: Tip, now: set<Tip>)
    requires Earned(h, key, tips, late, lab) && cur in lab && cur in h && !IsStateSnapshot(h[cur])
    requires forall x :: x in now && x !in lab ==> x in KeyDeps(key, h[cur])
    ensures Earned(h, key, tips, late, Relabel(lab, now, lab[cur] + 2))
  {
    hide Costs;
    forall x | x in now && x !in lab ensures Costs(h, key, tips, late, x, lab[cur] + 2) {
      CostsOn(h, key, tips, late, cur, lab[cur], x);
    }
  }

  lemma RelabelKeeps(lab: map<Tip, nat>, now: set<Tip>, k: nat)
    requires lab.Keys <= now && Below(lab, k)
    ensures forall x :: x in lab ==> x in Relabel(lab, now, k) && Relabel(lab, now, k)[x] == lab[x]
    ensures forall x :: x in now ==> x in Relabel(lab, now, k) && Relabel(lab, now, k)[x] <= k
  {
  }

  lemma PassedOn<S(!new)>(h: History<S>, key: Key, tips: seq<Tip>, late: set<Tip>, expanded: set<Tip>, lab: map<Tip,
                          nat>, cur: Tip, now: set<Tip>)
    requires Passed(h, key, tips, late, expanded, lab) && cur in lab && Below(lab, lab[cur] + 2) && lab.Keys <= now
    requires cur in h && forall d :: d in KeyDeps(key, h[cur]) ==> d in now
    ensures Passed(h, key, tips, late, expanded + {cur}, Relabel(lab, now, lab[cur] + 2))
  {
    hide KeyDeps, Relabel, Offset, Below;
    RelabelKeeps(lab, now, lab[cur] + 2);
    PassedWith(h, key, tips, late, expanded, lab, cur, now, Relabel(lab, now, lab[cur] + 2));
  }

  lemma PassedWith<S(!new)>(h: History<S>, key: Key, tips: seq<Tip>, late: set<Tip>, expanded: set<Tip>, lab: map<Tip, nat>,
                            cur: Tip, now: set<Tip>, lab': map<Tip, nat>)
    requires Passed(h, key, tips, late, expanded, lab) && cur in lab && cur in h
    requires (forall x :: x in lab ==> x in lab' && lab'[x] == lab[x]) && forall x :: x in now ==> x in lab' && lab'[x] <= lab[cur] + 2
    requires forall d :: d in KeyDeps(key, h[cur]) ==> d in now
    ensures Passed(h, key, tips, late, expanded + {cur}, lab')
  {
    hide KeyDeps;
    forall y, d | y in expanded + {cur} && y in h && d in KeyDeps(key, h[y]) ensures Spans(lab', y, d) {
      assert y in expanded ==> Spans(lab, y, d);
    }
  }

  lemma HeadBelow(lab: map<Tip, nat>, q: seq<Tip>, more: seq<Tip>, now: set<Tip>, k: nat)
    requires Rising(lab, q) && q != [] && Below(lab, lab[q[0]] + 2) && k == lab[q[0]] + 2 && lab.Keys <= now
    requires forall x :: x in more ==> x in now && x !in lab
    ensures var lab', q' := Relabel(lab, now, k), q[1..] + more; q' != [] ==> q'[0] in lab' && Below(lab', lab'[q'[0]] + 2)
  {
    RisingTail(lab, q);
    var q' := q[1..] + more;
    if q' != [] {
      if |q| > 1 {
        assert q'[0] == q[1] && q[1] in q && q[1] in lab;
      } else {
        assert q'[0] == more[0];
      }
    }
  }

  lemma LabelledOn<S(!new)>(h: History<S>, key: Key, tips: seq<Tip>, late: set<Tip>, s: Search<S>, expanded: set<Tip>, refd: set<Tip>,
                            lab: map<Tip, nat>, s': Search<S>) returns (lab': map<Tip, nat>)
    requires s.nodes.Keys <= h.Keys && s.queue != [] && Next(s) in h && After(h, key, s) == Some(s')
    requires Between(h, key, tips, s, expanded, refd) && Labelled(h, key, tips, late, s, expanded, lab)
    ensures Labelled(h, key, tips, late, s', expanded + {Next(s)}, lab')
  {
    hide Earned, Passed, Rising, Below, Exploring, Settled, KeyDeps, FollowAll, Relabel;
    NextIs(h, key, tips, s, expanded, refd);
    StepSound(h, key, tips, s, expanded, refd);
    var cur, s1 := Next(s), Pop(key, s, h[Next(s)]);
    var q, n := FollowAppends(h, KeyDeps(key, h[cur]), s1);
    var k, now := lab[cur] + 2, s'.nodes.Keys;
    lab' := Relabel(lab, now, k);
    RelabelKeys(lab, now, k);
    assert forall x :: x in q || x in n ==> x in Elems(q) || x in Elems(n);
    FollowKnows(h, key, tips, s, expanded, refd, s');
    RisingTail(lab, s.queue);
    RisingOn(lab, s1.queue, q, now, k);
    RisingOn(lab, s1.snapshots, n, now, k);
    HeadBelow(lab, s.queue, q, now, k);
    EarnedOn(h, key, tips, late, lab, cur, now);
    PassedOn(h, key, tips, late, expanded, lab, cur, now);
  }

  lemma RelabelKeys(lab: map<Tip, nat>, now: set<Tip>, k: nat)
    ensures Relabel(lab, now, k).Keys == now
  {}

  lemma FollowKnows<S(!new)>(h: History<S>, key: Key, tips: seq<Tip>, s: Search<S>, expanded: set<Tip>, refd: set<Tip>, s': Search<S>)
    requires s.nodes.Keys <= h.Keys && !Idle(s) && Next(s) in h && After(h, key, s) == Some(s') && Between(h, key, tips, s, expanded, refd)
    ensures forall d :: d in KeyDeps(key, h[Next(s)]) ==> d in s'.nodes
  {
    hide Exploring, Settled, KeyDeps, Discovered, Elems;
    NextIs(h, key, tips, s, expanded, refd);
    var s1 := Pop(key, s, h[Next(s)]);
    ExpandedKnown(h, key, tips, s1.nodes, s1.queue, s1.snapshots, s1.frontier, expanded + {Next(s)}, refd, Next(s));
    FollowSound(h, key, tips, Next(s), KeyDeps(key, h[Next(s)]), s1, expanded + {Next(s)}, refd);
  }

  /** Where the walk stands when the queue is empty for the first time. */
  ghost predicate Drained<S(!new)>(h: History<S>, key: Key, tips: seq<Tip>, s: Search<S>, expanded: set<Tip>, refd: set<Tip>) {
    Between(h, key, tips, s, expanded, refd) && s.queue == [] && expanded <= Plain(h)
  }

  ghost predicate Absent<S(!new)>(h: History<S>, key: Key, tips: seq<Tip>, via: set<Tip>) {
    exists t :: t !in h && Discovered(h, key, tips, via, t)
  }

  lemma {:induction false} Drains<S(!new)>(h: History<S>, key: Key, tips: seq<Tip>, late: set<Tip>, s: Search<S>,
                                           expanded: set<Tip>, refd: set<Tip>,
                                           lab: map<Tip, nat>)
    returns (s': Search<S>, expanded': set<Tip>, refd': set<Tip>, lab': map<Tip, nat>)
    requires Between(h, key, tips, s, expanded, refd) && Labelled(h, key, tips, late, s, expanded, lab) && expanded <= Plain(h)
    ensures Explore(h, key, s) == Missing ==> Absent(h, key, tips, Plain(h)) || Drained(h, key, tips, s', expanded', refd')
    ensures Explore(h, key, s) != Missing ==> Drained(h, key, tips, s', expanded', refd')
    ensures Drained(h, key, tips, s', expanded', refd') ==>
      Explore(h, key, s) == Explore(h, key, s') && Labelled(h, key, tips, late, s', expanded', lab')
    decreases |h.Keys - expanded|
  {
    hide Labelled, Exploring, Settled, KeyDeps, FollowAll, Explore, Discovered;
    s', expanded', refd', lab' := s, expanded, refd, lab;
    if s.queue != [] {
      var cur := Next(s);
      NextIs(h, key, tips, s, expanded, refd);
      StepSound(h, key, tips, s, expanded, refd);
      match After(h, key, s) {
        case None => AbsentNext(h, key, tips, s, expanded, refd);
        case Some(s1) =>
          var lab1 := LabelledOn(h, key, tips, late, s, expanded, refd, lab, s1);
          ExpandShrinks(h.Keys, expanded, cur);
          s', expanded', refd', lab' := Drains(h, key, tips, late, s1, expanded + {cur}, RefdAfter(h, key, s, refd), lab1);
      }
    }
  }

  lemma AbsentNext<S(!new)>(h: History<S>, key: Key, tips: seq<Tip>, s: Search<S>, expanded: set<Tip>, refd: set<Tip>)
    requires Between(h, key, tips, s, expanded, refd) && expanded <= Plain(h) && s.queue != []
    requires Next(s) in h && Next(s) in s.nodes && !IsStateSnapshot(h[Next(s)]) && exists d :: d in KeyDeps(key, h[Next(s)]) && d !in h
    ensures Absent(h, key, tips, Plain(h))
  {
    hide Discovered, KeyDeps, Settled;
    var cur := Next(s);
    var d :| d in KeyDeps(key, h[cur]) && d !in h;
    ExpandedKnown(h, key, tips, s.nodes, s.queue, s.snapshots, s.frontier, expanded, refd, cur);
    DiscoveredGrows(h, key, tips, expanded, Plain(h), cur);
    DiscoveredNext(h, key, tips, Plain(h), cur, d);
  }

  // ---------- Seeding ----------

  ghost function FirstLabels<S>(s: Search<S>, late: set<Tip>): map<Tip, nat> {
    map x | x in s.nodes :: Offset(late, x)
  }

  ghost predicate Seeded<S>(late: set<Tip>, tips: seq<Tip>, rest: seq<Tip>, s: Search<S>) {
    && Rising(FirstLabels(s, late), s.queue) && Rising(FirstLabels(s, late), s.snapshots)
    && (forall x, t :: x in s.nodes && t in rest ==> Offset(late, x) <= Offset(late, t))
    && forall x :: x in s.nodes ==> x in tips
  }

  lemma SeededFetch<S>(h: History<S>, late: set<Tip>, tips: seq<Tip>, rest: seq<Tip>, s: Search<S>, counts: bool)
    requires Seeded(late, tips, rest, s) && Listed(late, rest) && rest != [] && rest[0] in h && rest[0] !in s.nodes && rest[0] in tips
    ensures Seeded(late, tips, rest[1..], Fetch(h, s, rest[0], counts))
  {
    var t, s' := rest[0], Fetch(h, s, rest[0], counts);
    assert s'.nodes.Keys == s.nodes.Keys + {t};
    assert rest == [t] + rest[1..];
    RisingAppend(FirstLabels(s, late), FirstLabels(s', late), s.queue, t);
    RisingAppend(FirstLabels(s, late), FirstLabels(s', late), s.snapshots, t);
  }

  lemma RisingAppend(lab: map<Tip, nat>, lab': map<Tip, nat>, s: seq<Tip>, t: Tip)
    requires Rising(lab, s) && t in lab' && Below(lab, lab'[t]) && forall x :: x in lab ==> x in lab' && lab'[x] == lab[x]
    ensures Rising(lab', s) && Rising(lab', s + [t])
  {
    var all := s + [t];
    forall i, j | 0 <= i < j < |all| ensures lab'[all[i]] <= lab'[all[j]] {
      assert s[i] in lab;
    }
  }

  lemma {:induction false} SeedLabels<S(!new)>(h: History<S>, late: set<Tip>, tips: seq<Tip>, rest: seq<Tip>, s: Search<S>)
    requires s.nodes.Keys <= h.Keys && Seeded(late, tips, rest, s) && Listed(late, rest) && forall t :: t in rest ==> t in tips
    ensures SeedAll(h, rest, s).Some? ==> Seeded(late, tips, [], SeedAll(h, rest, s).value)
    decreases |rest|
  {
    if rest == [] {
      SeedDone(h, s);
    } else {
      SeedStep(h, rest, s);
      assert rest == [rest[0]] + rest[1..];
      assert Listed(late, rest[1..]) by {
        forall i, j | 0 <= i < j < |rest[1..]| ensures Offset(late, rest[1..][i]) <= Offset(late, rest[1..][j]) {
          assert Offset(late, rest[i + 1]) <= Offset(late, rest[j + 1]);
        }
      }
      if rest[0] in s.nodes {
        SeedLabels(h, late, tips, rest[1..], s);
      } else if rest[0] in h {
        SeededFetch(h, late, tips, rest, s, !IsStandalone(h[rest[0]]));
        SeedLabels(h, late, tips, rest[1..], Fetch(h, s, rest[0], !IsStandalone(h[rest[0]])));
      }
    }
  }

  lemma SeedLabelled<S(!new)>(h: History<S>, key: Key, tips: seq<Tip>, late: set<Tip>, s: Search<S>)
    requires Listed(late, tips) && SeedAll(h, tips, Search(map[], [], [], {})) == Some(s) && forall t :: t in tips ==> t in s.nodes
    ensures Labelled(h, key, tips, late, s, {}, FirstLabels(s, late))
  {
    hide Steps, SeedAll, Costs;
    var none: Search<S> := Search(map[], [], [], {});
    NothingRises(FirstLabels(none, late));
    SeedLabels(h, late, tips, tips, none);
    SeedEarned(h, key, tips, late, s);
  }

  lemma NothingRises(lab: map<Tip, nat>)
    ensures Rising(lab, [])
  {}

  lemma SeedEarned<S(!new)>(h: History<S>, key: Key, tips: seq<Tip>, late: set<Tip>, s: Search<S>)
    requires forall x :: x in s.nodes ==> x in tips
    ensures Earned(h, key, tips, late, FirstLabels(s, late))
  {
    hide Steps;
    forall x | x in s.nodes ensures Costs(h, key, tips, late, x, Offset(late, x)) {
      StepsTo(h, key, x);
      assert 2 * 0 + Offset(late, x) <= Offset(late, x);
    }
  }

  // ---------- Labels are least costs ----------

  lemma {:induction false} LabelsLeast<S(!new)>(h: History<S>, key: Key, tips: seq<Tip>, late: set<Tip>,
                                                s: Search<S>, expanded: set<Tip>, refd: set<Tip>,
                                                lab: map<Tip, nat>, t: Tip, p: seq<Tip>, n: nat)
    requires Drained(h, key, tips, s, expanded, refd) && Labelled(h, key, tips, late, s, expanded, lab)
    requires t in tips && |p| == n + 1 && PathVia(h, key, [t], Plain(h), p)
    ensures p[n] in lab && lab[p[n]] <= 2 * n + Offset(late, t)
    decreases n
  {
    hide Drained, Rising, Earned, KeyDeps, Below;
    if n > 0 {
      var q := p[..n];
      assert PathVia(h, key, [t], Plain(h), q);
      LabelsLeast(h, key, tips, late, s, expanded, refd, lab, t, q, n - 1);
      var y := p[n - 1];
      assert y == q[n - 1] && p[n - 1 + 1] in KeyDeps(key, h[y]);
      PlainExpanded(h, key, tips, s, expanded, refd, y);
    }
  }

  lemma PlainExpanded<S(!new)>(h: History<S>, key: Key, tips: seq<Tip>, s: Search<S>, expanded: set<Tip>, refd: set<Tip>, y: Tip)
    requires Drained(h, key, tips, s, expanded, refd) && y in s.nodes && y in Plain(h)
    ensures y in expanded
  {
    hide Discovered, Settled, Frontier, AllDiscovered;
    assert s.queue + s.snapshots == s.snapshots;
  }

  lemma LabelAtMost<S(!new)>(h: History<S>, key: Key, tips: seq<Tip>, late: set<Tip>, s: Search<S>, expanded: set<Tip>, refd: set<Tip>,
                             lab: map<Tip, nat>, t: Tip, n: nat, x: Tip)
    requires Drained(h, key, tips, s, expanded, refd) && Labelled(h, key, tips, late, s, expanded, lab)
    requires t in tips && Steps(h, key, t, n, x)
    ensures x in lab && lab[x] <= 2 * n + Offset(late, t)
  {
    hide Drained, Labelled;
    var p :| |p| == n + 1 && PathVia(h, key, [t], Plain(h), p) && p[n] == x;
    LabelsLeast(h, key, tips, late, s, expanded, refd, lab, t, p, n);
  }
}
