/** A subscription in the past of a frozen frontier that the search behind snapshots misses. */
module FrozenPastExample {
  import opened Effects
  import opened PostOrder
  import opened DagSpec
  import opened DagOrder
  import opened DagSearch
  import opened Dag
  import opened FrozenPast

  const WATCH := Tip(1, 1)
  const LOWER := Tip(1, 2)
  const UPPER := Tip(1, 3)

  /** A subscription below two state snapshots. */
  const Tower: History<int> := map[
    WATCH := Effect("k", Subscription, [], "", 1),
    LOWER := Effect("k", Snapshot(Some(0)), [WATCH], "", 2),
    UPPER := Effect("k", Snapshot(Some(0)), [LOWER], "", 3)]

  function Part(tips: set<Tip>): History<int> {
    map t | t in tips && t in Tower :: Tower[t]
  }

  /** Both snapshots are tips: the first walk takes them and stops at the lower one. */
  lemma FirstRound()
    ensures SearchFrom(Tower, "k", [UPPER, LOWER]) == Found(Part({UPPER, LOWER}), LOWER)
  {
    var none: Search<int> := Search(map[], [], [], {});
    SeedStep(Tower, [UPPER, LOWER], none);
    var one := Fetch(Tower, none, UPPER, true);
    assert [UPPER, LOWER][1..] == [LOWER];
    SeedStep(Tower, [LOWER], one);
    var two := Fetch(Tower, one, LOWER, true);
    assert [LOWER][1..] == [];
    SeedDone(Tower, two);
    assert two == Search(Part({UPPER, LOWER}), [], [UPPER, LOWER], {UPPER, LOWER});
    ExploreStep(Tower, "k", two);
    var three := Search(Part({UPPER, LOWER}), [], [LOWER], {LOWER});
    assert Pop("k", two, Tower[UPPER]) == three;
    FollowStep(Tower, [LOWER], three);
    FollowDone(Tower, three);
    ExploreStep(Tower, "k", three);
  }

  lemma SecondEnds()
    ensures Explore(Tower, "k", Search(Part({WATCH, LOWER}), [WATCH], [LOWER], {LOWER})) == Found(Part({WATCH, LOWER}), LOWER)
  {
    var s := Search(Part({WATCH, LOWER}), [WATCH], [LOWER], {LOWER});
    ExploreStep(Tower, "k", s);
    var s1 := Search(Part({WATCH, LOWER}), [], [LOWER], {LOWER});
    assert Pop("k", s, Tower[WATCH]) == s1;
    FollowDone(Tower, s1);
    ExploreStep(Tower, "k", s1);
  }

  /** The next one starts from the dependencies of both and stops at the same snapshot. */
  lemma SecondRound(next: seq<Tip>)
    requires next == [LOWER, WATCH] || next == [WATCH, LOWER]
    ensures SearchFrom(Tower, "k", next) == Found(Part({WATCH, LOWER}), LOWER)
  {
    hide Explore;
    var none: Search<int> := Search(map[], [], [], {});
    SeedStep(Tower, next, none);
    var a, b := next[0], next[1];
    var one := Fetch(Tower, none, a, !IsStandalone(Tower[a]));
    assert next[1..] == [b];
    SeedStep(Tower, [b], one);
    var two := Fetch(Tower, one, b, !IsStandalone(Tower[b]));
    assert [b][1..] == [];
    SeedDone(Tower, two);
    assert two == Search(Part({WATCH, LOWER}), [WATCH], [LOWER], {LOWER});
    SecondEnds();
  }

  lemma Dropped()
    ensures WATCH !in Trimmed(Part({WATCH, LOWER}), "k", LOWER) && WATCH !in Trimmed(Part({UPPER, LOWER}), "k", LOWER)
  {
    var nodes := Part({WATCH, LOWER});
    ReachesSelf(DepGraph(nodes, "k"), WATCH);
    assert WATCH in nodes[LOWER].deps;
    assert Folded(nodes, "k", LOWER, WATCH);
  }

  /** The subscription is in the past, the two rounds meet it in neither, and both snapshots have
      been looked behind, so there is no third round. */
  lemma MissedSubscription()
    ensures Past(Tower, "k", [UPPER, LOWER], WATCH) && IsStandalone(Tower[WATCH])
    ensures SearchFrom(Tower, "k", [UPPER, LOWER]) == Found(Part({UPPER, LOWER}), LOWER)
    ensures SearchFrom(Tower, "k", [LOWER, WATCH]) == SearchFrom(Tower, "k", [WATCH, LOWER]) == Found(Part({WATCH, LOWER}), LOWER)
    ensures WATCH !in Trimmed(Part({UPPER, LOWER}), "k", LOWER) && WATCH !in Trimmed(Part({WATCH, LOWER}), "k", LOWER)
    ensures Snapshots(Trimmed(Part({WATCH, LOWER}), "k", LOWER)) <= Snapshots(Part({UPPER, LOWER}))
  {
    hide SearchFrom, Trimmed;
    assert PathVia(Tower, "k", [UPPER, LOWER], Tower.Keys, [LOWER, WATCH]);
    FirstRound();
    SecondRound([LOWER, WATCH]);
    SecondRound([WATCH, LOWER]);
    Dropped();
    forall t | t in Trimmed(Part({WATCH, LOWER}), "k", LOWER) ensures t in Part({WATCH, LOWER}) {
      TrimmedIn(Part({WATCH, LOWER}), "k", LOWER, t);
    }
  }
}
