/** Where the walk cuts can depend on how the tips are listed. */
module ListingExample {
  import opened Effects
  import opened DagSpec
  import opened PostOrder
  import opened DagOrder
  import opened DagSearch
  import opened Linearisation
  import opened DagListing
  import opened ListingCut

  const ROOT := Tip(1, 1)
  const COMMON := Tip(1, 2)
  const LEFT := Tip(1, 3)
  const INNER := Tip(2, 1)
  const RIGHT := Tip(2, 2)

  function Write(deps: seq<Tip>, hash: nat): Effect<int> {
    Effect("k", Data("v"), deps, "", hash)
  }

  function Compacted(deps: seq<Tip>, hash: nat): Effect<int> {
    Effect("k", Snapshot(Some(0)), deps, "", hash)
  }

  /** One tip reaches the common snapshot directly, the other through a snapshot of its own. */
  const Fork: History<int> := map[
    ROOT := Write([], 1),
    COMMON := Compacted([ROOT], 2),
    LEFT := Write([COMMON], 3),
    INNER := Compacted([COMMON], 4),
    RIGHT := Write([INNER], 5)]

  function Part(tips: set<Tip>): History<int> {
    map t | t in tips && t in Fork :: Fork[t]
  }

  /** One dequeue that does not stop, at an effect with one dependency not collected before. */
  lemma ExpandsNew(s: Search<int>, d: Tip)
    requires s.nodes.Keys <= Fork.Keys && (s.queue != [] || s.snapshots != []) && Next(s) in s.nodes
    requires !(IsStateSnapshot(s.nodes[Next(s)]) && |s.frontier| == 1)
    requires KeyDeps("k", s.nodes[Next(s)]) == [d] && d !in s.nodes && d in Fork
    ensures Explore(Fork, "k", s) == Explore(Fork, "k", Fetch(Fork, Pop("k", s, s.nodes[Next(s)]), d, true))
  {
    ExploreStep(Fork, "k", s);
  }

  /** One dequeue that does not stop, at a root or an effect whose dependency is there already. */
  lemma ExpandsOld(s: Search<int>)
    requires s.nodes.Keys <= Fork.Keys && (s.queue != [] || s.snapshots != []) && Next(s) in s.nodes
    requires !(IsStateSnapshot(s.nodes[Next(s)]) && |s.frontier| == 1)
    requires forall d :: d in KeyDeps("k", s.nodes[Next(s)]) ==> d in s.nodes && !IsStandalone(s.nodes[d])
    requires |KeyDeps("k", s.nodes[Next(s)])| <= 1
    ensures Explore(Fork, "k", s) == Explore(Fork, "k", Pop("k", s, s.nodes[Next(s)]))
  {
    ExploreStep(Fork, "k", s);
  }

  lemma Seeds(a: Tip, b: Tip)
    requires a != b && a in {LEFT, RIGHT} && b in {LEFT, RIGHT}
    ensures SeedAll(Fork, [a, b], Search(map[], [], [], {})) == Some(Search(Part({a, b}), [a, b], [], {a, b}))
  {
    var none: Search<int> := Search(map[], [], [], {});
    SeedStep(Fork, [a, b], none);
    var one := Fetch(Fork, none, a, true);
    assert [a, b][1..] == [b];
    SeedStep(Fork, [b], one);
    assert [b][1..] == [];
    var two := Fetch(Fork, one, b, true);
    SeedDone(Fork, two);
    assert two.nodes == Part({a, b});
    assert two.queue == [a] + [b] == [a, b] && two.frontier == {a} + {b} == {a, b};
    assert two == Search(Part({a, b}), [a, b], [], {a, b});
  }

  const L1 := Search(Part({LEFT, RIGHT, COMMON}), [RIGHT], [COMMON], {RIGHT, COMMON})
  const L2 := Search(Part({LEFT, RIGHT, COMMON, INNER}), [], [COMMON, INNER], {COMMON, INNER})
  const L3 := Search(Fork, [ROOT], [INNER], {ROOT, INNER})

  lemma LeftStarts()
    ensures Explore(Fork, "k", Search(Part({LEFT, RIGHT}), [LEFT, RIGHT], [], {LEFT, RIGHT})) == Explore(Fork, "k", L2)
  {
    hide Explore;
    var s := Search(Part({LEFT, RIGHT}), [LEFT, RIGHT], [], {LEFT, RIGHT});
    ExpandsNew(s, COMMON);
    assert Fetch(Fork, Pop("k", s, Fork[LEFT]), COMMON, true) == L1;
    ExpandsNew(L1, INNER);
    assert Fetch(Fork, Pop("k", L1, Fork[RIGHT]), INNER, true) == L2;
  }

  lemma LeftEnds()
    ensures Explore(Fork, "k", L2) == Found(Fork, ZERO_TIP)
  {
    hide Explore;
    ExpandsNew(L2, ROOT);
    assert Fetch(Fork, Pop("k", L2, Fork[COMMON]), ROOT, true) == L3;
    ExpandsOld(L3);
    var s := Pop("k", L3, Fork[ROOT]);
    assert s == Search(Fork, [], [INNER], {ROOT, INNER});
    ExpandsOld(s);
    assert Pop("k", s, Fork[INNER]) == Search(Fork, [], [], {ROOT});
    ExploreDone(Fork, "k", Search(Fork, [], [], {ROOT}));
  }

  /** Listing LEFT first, the common snapshot is expanded while INNER is still pending, and the
      walk collects everything. */
  lemma LeftFirst()
    ensures SearchFrom(Fork, "k", [LEFT, RIGHT]) == Found(Fork, ZERO_TIP)
  {
    hide Explore, SeedAll;
    Seeds(LEFT, RIGHT);
    LeftStarts();
    LeftEnds();
  }

  const R1 := Search(Part({LEFT, RIGHT, INNER}), [LEFT], [INNER], {LEFT, INNER})
  const R2 := Search(Part({LEFT, RIGHT, COMMON, INNER}), [], [INNER, COMMON], {COMMON, INNER})
  const R3 := Search(Part({LEFT, RIGHT, COMMON, INNER}), [], [COMMON], {COMMON})

  lemma RightStarts()
    ensures Explore(Fork, "k", Search(Part({LEFT, RIGHT}), [RIGHT, LEFT], [], {LEFT, RIGHT})) == Explore(Fork, "k", R2)
  {
    hide Explore;
    var s := Search(Part({LEFT, RIGHT}), [RIGHT, LEFT], [], {LEFT, RIGHT});
    ExpandsNew(s, INNER);
    assert Fetch(Fork, Pop("k", s, Fork[RIGHT]), INNER, true) == R1;
    ExpandsNew(R1, COMMON);
    assert Fetch(Fork, Pop("k", R1, Fork[LEFT]), COMMON, true) == R2;
  }

  /** Listing RIGHT first, INNER is expanded before the common snapshot, which is then the whole
      frontier: the walk cuts there. */
  lemma RightFirst()
    ensures SearchFrom(Fork, "k", [RIGHT, LEFT]) == Found(Part({LEFT, RIGHT, COMMON, INNER}), COMMON)
  {
    hide Explore, SeedAll;
    Seeds(RIGHT, LEFT);
    assert {LEFT, RIGHT} == {RIGHT, LEFT};
    RightStarts();
    ExpandsOld(R2);
    assert Pop("k", R2, Fork[INNER]) == R3;
    ExploreStep(Fork, "k", R3);
  }

  function Height(t: Tip): nat {
    if t == ROOT then 0 else if t == COMMON then 1 else if t == RIGHT then 3 else 2
  }

  lemma ForkIsRanked()
    ensures Ranked(DepGraph(Fork, "k"), Height) && HashesDistinct(Fork) && ZERO_TIP !in Fork
  {
  }

  /** The two listings emit different orders. */
  lemma OrdersDiffer()
    ensures !SameOrder(Fork, "k", [LEFT, RIGHT], [RIGHT, LEFT])
  {
    hide SearchFrom, SameOrder, Ranked, HashesDistinct;
    LeftFirst();
    RightFirst();
    ForkIsRanked();
    assert multiset([LEFT, RIGHT]) == multiset([RIGHT, LEFT]);
    OrdersCompare(Fork, "k", [LEFT, RIGHT], [RIGHT, LEFT], Height);
  }

  /** Dependencies as the walk sees them. */
  lemma ForkDeps()
    ensures KeyDeps("k", Fork[LEFT]) == [COMMON] && KeyDeps("k", Fork[RIGHT]) == [INNER]
    ensures Plain(Fork) == {ROOT, LEFT, RIGHT}
  {
  }

  lemma NearFork(t: Tip)
    requires Near(Fork, "k", [RIGHT, LEFT], t)
    ensures t in {LEFT, RIGHT, COMMON, INNER}
  {
    ForkDeps();
    var p :| PathVia(Fork, "k", [RIGHT, LEFT], Plain(Fork), p) && p[|p| - 1] == t;
    if |p| > 1 {
      assert p[0 + 1] in KeyDeps("k", Fork[p[0]]);
    }
  }

  /** The fork faces two snapshots and reaches no end of history without one. */
  lemma ForkFaces()
    ensures Facing(Fork, "k", [RIGHT, LEFT]) == {COMMON, INNER} && Bottoms(Fork, "k", [RIGHT, LEFT]) == {}
  {
    hide Near;
    forall t | Near(Fork, "k", [RIGHT, LEFT], t) ensures t in {LEFT, RIGHT, COMMON, INNER} {
      NearFork(t);
    }
    ForkDeps();
    OneStep(LEFT, COMMON);
    OneStep(RIGHT, INNER);
  }

  lemma OneStep(a: Tip, c: Tip)
    requires a in {LEFT, RIGHT} && KeyDeps("k", Fork[a]) == [c]
    ensures Near(Fork, "k", [RIGHT, LEFT], c) && Steps(Fork, "k", a, 1, c)
  {
    ForkDeps();
    assert PathVia(Fork, "k", [RIGHT, LEFT], Plain(Fork), [a, c]);
    var p := [a, c];
    assert |p| == 1 + 1 && PathVia(Fork, "k", [a], Plain(Fork), p) && p[1] == c;
  }

  lemma OnlyStep(a: Tip, c: Tip, n: nat, x: Tip)
    requires a in {LEFT, RIGHT} && KeyDeps("k", Fork[a]) == [c] && n <= 1 && Steps(Fork, "k", a, n, x)
    ensures x == a || x == c
  {
    var p :| |p| == n + 1 && PathVia(Fork, "k", [a], Plain(Fork), p) && p[n] == x;
    if n == 1 {
      assert p[0 + 1] in KeyDeps("k", Fork[p[0]]);
    }
  }

  lemma ForkIsStraight()
    ensures Straight(Fork, "k", [RIGHT] + [LEFT], Part({LEFT, RIGHT, COMMON, INNER}), COMMON)
  {
    hide SearchFrom, Facing, Bottoms, Collected;
    RightFirst();
    ForkFaces();
    assert [RIGHT] + [LEFT] == [RIGHT, LEFT];
    SearchCollects(Fork, "k", [RIGHT, LEFT]);
  }

  /** So the fork is an instance of the family on which the listing decides. */
  lemma ForkSwings()
    ensures Swings(Fork, "k", [RIGHT], LEFT, COMMON, 1, INNER)
  {
    hide Steps, Facing, Bottoms;
    ForkDeps();
    ForkFaces();
    OneStep(LEFT, COMMON);
    OneStep(RIGHT, INNER);
    assert [RIGHT] + [LEFT] == [RIGHT, LEFT];
    forall n: nat, x | n <= 1 && Steps(Fork, "k", LEFT, n, x) ensures x == LEFT || x == COMMON {
      OnlyStep(LEFT, COMMON, n, x);
    }
    forall n: nat, x | n <= 1 && Steps(Fork, "k", RIGHT, n, x) ensures x == RIGHT || x == INNER {
      OnlyStep(RIGHT, INNER, n, x);
    }
    assert !Steps(Fork, "k", LEFT, 0, COMMON) by { ZeroSteps(LEFT, COMMON); }
    assert !Steps(Fork, "k", RIGHT, 0, INNER) by { ZeroSteps(RIGHT, INNER); }
  }

  lemma ZeroSteps(a: Tip, x: Tip)
    requires a != x
    ensures !Steps(Fork, "k", a, 0, x)
  {
  }
}
