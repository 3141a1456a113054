/** Two post-order traversals compared: of a graph and of a variant in which one vertex that
    every root leads to has lost its children. Vertices in `leaves` are ignored. */
module Cutoff {
  import opened PostOrder
  import opened Sequences

  /** The sequence without the ignored vertices. */
  function Keep<V>(leaves: set<V>, s: seq<V>): (k: seq<V>) {
    if s == [] then []
    else if s[0] in leaves then Keep(leaves, s[1..])
    else [s[0]] + Keep(leaves, s[1..])
  }

  lemma {:induction false} KeepJoin<V>(leaves: set<V>, a: seq<V>, b: seq<V>)
    ensures Keep(leaves, a + b) == Keep(leaves, a) + Keep(leaves, b)
  {
    if a == [] {
      assert a + b == b;
    } else {
      assert (a + b)[1..] == a[1..] + b;
      KeepJoin(leaves, a[1..], b);
    }
  }

  lemma KeepTail<V>(leaves: set<V>, s: seq<V>)
    requires s != []
    ensures s[0] in leaves ==> Keep(leaves, s[1..]) == Keep(leaves, s)
    ensures s[0] !in leaves ==> Keep(leaves, s) != [] && s[0] == Keep(leaves, s)[0] && Keep(leaves, s[1..]) == Keep(leaves, s)[1..]
  {}

  lemma {:induction false} KeepElems<V>(leaves: set<V>, s: seq<V>)
    ensures forall x :: x in Keep(leaves, s) <==> x in s && x !in leaves
  {
    if s != [] {
      KeepElems(leaves, s[1..]);
      assert s == [s[0]] + s[1..];
    }
  }

  lemma KeepJoin3<V>(leaves: set<V>, a: seq<V>, t: V, b: seq<V>)
    ensures Keep(leaves, a + [t] + b)
         == Keep(leaves, a) + (if t in leaves then [] else [t]) + Keep(leaves, b)
  {
    KeepJoin(leaves, a + [t], b);
    KeepJoin(leaves, a, [t]);
    assert Keep(leaves, [t]) == if t in leaves then [] else [t];
  }

  // ---------- Traversals that agree inside a region ----------

  ghost predicate Leaves<V>(g: Graph<V>, leaves: set<V>) {
    forall x :: x in leaves && x in g ==> g[x] == []
  }

  ghost predicate Inside<V>(region: set<V>, leaves: set<V>, s: seq<V>) {
    forall x :: x in s && x !in leaves ==> x in region
  }

  /** Both traversals have the same vertices of the region still to do, with the same children. */
  ghost predicate Similar<V(!new)>(g1: Graph<V>, g2: Graph<V>, region: set<V>, leaves: set<V>, v1: set<V>, v2: set<V>) {
    && Leaves(g1, leaves) && Leaves(g2, leaves)
    && forall x :: x in region && x !in leaves ==>
         && (x in v1 <==> x in v2)
         && (x !in v1 ==> (x in g1 <==> x in g2))
         && (x !in v1 && x in g1 ==> Keep(leaves, g1[x]) == Keep(leaves, g2[x]) && Inside(region, leaves, g1[x]))
  }

  lemma SimilarGrows<V(!new)>(g1: Graph<V>, g2: Graph<V>, region: set<V>, leaves: set<V>, v1: set<V>, v2: set<V>,
                              t: V, o1: seq<V>, o2: seq<V>)
    requires Similar(g1, g2, region, leaves, v1, v2) && Keep(leaves, o1) == Keep(leaves, o2)
    ensures Similar(g1, g2, region, leaves, v1 + ({t} + Elems(o1)), v2 + ({t} + Elems(o2)))
  {
    KeepElems(leaves, o1);
    KeepElems(leaves, o2);
  }

  lemma SimilarWithLeaf<V(!new)>(g1: Graph<V>, g2: Graph<V>, region: set<V>, leaves: set<V>, v1: set<V>, v2: set<V>, w: set<V>)
    requires Similar(g1, g2, region, leaves, v1, v2) && w <= leaves
    ensures Similar(g1, g2, region, leaves, v1 + w, v2)
    ensures Left(g1, g2, v1 + w, v2) <= Left(g1, g2, v1, v2)
  {
    SubsetSize(g1.Keys - (v1 + w), g1.Keys - v1);
  }

  lemma InsideTransfers<V>(region: set<V>, leaves: set<V>, a: seq<V>, b: seq<V>)
    requires Inside(region, leaves, a) && Keep(leaves, a) == Keep(leaves, b)
    ensures Inside(region, leaves, b)
  {
    KeepElems(leaves, a);
    KeepElems(leaves, b);
  }

  /** Exploring an ignored vertex first changes nothing that is kept. */
  lemma LeafFirst<V>(g: Graph<V>, leaves: set<V>, todo: seq<V>, visited: set<V>) returns (w: set<V>)
    requires Leaves(g, leaves) && todo != [] && todo[0] in leaves
    ensures w <= leaves
    ensures Keep(leaves, Walk(g, todo, visited)) == Keep(leaves, Walk(g, todo[1..], visited + w))
  {
    var t := todo[0];
    if t in visited || t !in g {
      w := {};
      assert visited + {} == visited;
    } else {
      w := {t};
      WalkStep(g, todo, visited);
      assert Walk(g, g[t], visited + {t}) == [];
      assert visited + ({t} + Elems([])) == visited + {t};
      KeepJoin3(leaves, [], t, Walk(g, todo[1..], visited + {t}));
      assert [] + [t] == [t];
    }
  }

  lemma SimilarFlip<V(!new)>(g1: Graph<V>, g2: Graph<V>, region: set<V>, leaves: set<V>, v1: set<V>, v2: set<V>)
    requires Similar(g1, g2, region, leaves, v1, v2)
    ensures Similar(g2, g1, region, leaves, v2, v1)
  {
    forall x | x in region && x !in leaves && x !in v1 && x in g1 ensures Inside(region, leaves, g2[x]) {
      InsideTransfers(region, leaves, g1[x], g2[x]);
    }
  }

  /** How much two traversals still have to do; the measure of the inductions below. */
  ghost function Left<V>(g1: Graph<V>, g2: Graph<V>, v1: set<V>, v2: set<V>): nat {
    |g1.Keys - v1| + |g2.Keys - v2|
  }

  lemma LeftShrinks<V>(g1: Graph<V>, g2: Graph<V>, v1: set<V>, v2: set<V>, m1: set<V>, m2: set<V>)
    ensures Left(g1, g2, v1 + m1, v2 + m2) <= Left(g1, g2, v1, v2)
    ensures (exists t :: t in m1 && t in g1 && t !in v1) ==> Left(g1, g2, v1 + m1, v2 + m2) < Left(g1, g2, v1, v2)
  {
    SubsetSize(g1.Keys - (v1 + m1), g1.Keys - v1);
    SubsetSize(g2.Keys - (v2 + m2), g2.Keys - v2);
    if t :| t in m1 && t in g1 && t !in v1 {
      Shrinks(g1, v1, m1);
    }
  }

  /** Traversals that are similar on a region containing their roots keep the same sequence. */
  lemma {:induction false} Agree<V(!new)>(g1: Graph<V>, g2: Graph<V>, region: set<V>, leaves: set<V>,
                                          todo1: seq<V>, todo2: seq<V>, v1: set<V>, v2: set<V>)
    requires Similar(g1, g2, region, leaves, v1, v2)
    requires Keep(leaves, todo1) == Keep(leaves, todo2) && Inside(region, leaves, todo1)
    ensures Keep(leaves, Walk(g1, todo1, v1)) == Keep(leaves, Walk(g2, todo2, v2))
    decreases Left(g1, g2, v1, v2), |todo1| + |todo2|
  {
    if todo1 != [] && todo1[0] in leaves {
      AgreeLeaf(g1, g2, region, leaves, todo1, todo2, v1, v2);
    } else if todo2 != [] && todo2[0] in leaves {
      SimilarFlip(g1, g2, region, leaves, v1, v2);
      InsideTransfers(region, leaves, todo1, todo2);
      AgreeLeaf(g2, g1, region, leaves, todo2, todo1, v2, v1);
    } else if todo1 == [] || todo2 == [] {
    } else {
      assert todo1[0] == Keep(leaves, todo1)[0] == todo2[0];
      assert Keep(leaves, todo1[1..]) == Keep(leaves, todo1)[1..] == Keep(leaves, todo2[1..]);
      if todo1[0] in v1 || todo1[0] !in g1 {
        Agree(g1, g2, region, leaves, todo1[1..], todo2[1..], v1, v2);
      } else {
        AgreeBelow(g1, g2, region, leaves, todo1, todo2, v1, v2);
      }
    }
  }

  lemma {:induction false} AgreeLeaf<V(!new)>(g1: Graph<V>, g2: Graph<V>, region: set<V>, leaves: set<V>,
                                              todo1: seq<V>, todo2: seq<V>, v1: set<V>, v2: set<V>)
    requires Similar(g1, g2, region, leaves, v1, v2) && todo1 != [] && todo1[0] in leaves
    requires Keep(leaves, todo1) == Keep(leaves, todo2) && Inside(region, leaves, todo1)
    ensures Keep(leaves, Walk(g1, todo1, v1)) == Keep(leaves, Walk(g2, todo2, v2))
    decreases Left(g1, g2, v1, v2), |todo1| + |todo2|, 0
  {
    var w := LeafFirst(g1, leaves, todo1, v1);
    SimilarWithLeaf(g1, g2, region, leaves, v1, v2, w);
    KeepTail(leaves, todo1);
    Agree(g1, g2, region, leaves, todo1[1..], todo2, v1 + w, v2);
  }

  lemma {:induction false} AgreeBelow<V(!new)>(g1: Graph<V>, g2: Graph<V>, region: set<V>, leaves: set<V>,
                                               todo1: seq<V>, todo2: seq<V>, v1: set<V>, v2: set<V>)
    requires Similar(g1, g2, region, leaves, v1, v2)
    requires todo1 != [] && todo2 != [] && todo1[0] == todo2[0] && todo1[0] !in leaves && todo1[0] in region
    requires todo1[0] in g1 && todo1[0] !in v1
    requires Keep(leaves, todo1[1..]) == Keep(leaves, todo2[1..]) && Inside(region, leaves, todo1[1..])
    ensures Keep(leaves, Walk(g1, todo1, v1)) == Keep(leaves, Walk(g2, todo2, v2))
    decreases Left(g1, g2, v1, v2), 0
  {
    var t := todo1[0];
    LeftShrinks(g1, g2, v1, v2, {t}, {t});
    Agree(g1, g2, region, leaves, g1[t], g2[t], v1 + {t}, v2 + {t});
    var b1, b2 := Walk(g1, g1[t], v1 + {t}), Walk(g2, g2[t], v2 + {t});
    LeftShrinks(g1, g2, v1, v2, {t} + Elems(b1), {t} + Elems(b2));
    SimilarGrows(g1, g2, region, leaves, v1, v2, t, b1, b2);
    Agree(g1, g2, region, leaves, todo1[1..], todo2[1..], v1 + ({t} + Elems(b1)), v2 + ({t} + Elems(b2)));
    WalkStep(g1, todo1, v1);
    WalkStep(g2, todo2, v2);
    KeepJoin3(leaves, b1, t, Walk(g1, todo1[1..], v1 + ({t} + Elems(b1))));
    KeepJoin3(leaves, b2, t, Walk(g2, todo2[1..], v2 + ({t} + Elems(b2))));
  }

  // ---------- The cut ----------

  /** `cut` is `full` with the children of `pivot` dropped; every vertex in `above` has all its
      children in `above` or equal to the pivot, and at least one. */
  ghost predicate CutShape<V(!new)>(full: Graph<V>, cut: Graph<V>, pivot: V, above: set<V>, leaves: set<V>) {
    && Leaves(full, leaves) && Leaves(cut, leaves)
    && pivot !in above && pivot !in leaves && pivot in full && pivot in cut && cut[pivot] == []
    && forall x :: x in above ==>
         && x !in leaves && x in full && x in cut && full[x] == cut[x]
         && full[x] != [] && forall c :: c in full[x] ==> c in above || c == pivot
  }

  lemma {:induction false} PivotLowest<V(!new)>(full: Graph<V>, cut: Graph<V>, pivot: V, above: set<V>,
                                                leaves: set<V>, rank: V -> nat, x: V)
    requires CutShape(full, cut, pivot, above, leaves) && Ranked(full, rank) && x in above
    ensures rank(pivot) < rank(x)
    decreases rank(x)
  {
    var c := full[x][0];
    if c != pivot {
      PivotLowest(full, cut, pivot, above, leaves, rank, c);
    }
  }

  /** Before the pivot is visited: only ignored vertices and unfinished vertices above. */
  ghost predicate Descending<V(!new)>(above: set<V>, leaves: set<V>, rank: V -> nat, todo: seq<V>, v1: set<V>, v2: set<V>) {
    && (forall x :: x in v1 + v2 && x !in leaves ==> x in above)
    && (forall x :: x in above ==> (x in v1 <==> x in v2))
    && (forall x, y :: x in v1 && x in above && y in todo && y in above ==> rank(y) < rank(x))
  }

  lemma PivotWalked<V(!new)>(full: Graph<V>, cut: Graph<V>, pivot: V, above: set<V>, leaves: set<V>, rank: V -> nat, v: set<V>)
    requires CutShape(full, cut, pivot, above, leaves) && Ranked(full, rank)
    requires forall x :: x in v && x !in leaves ==> x in above || x == pivot
    ensures Keep(leaves, Walk(full, full[pivot], v)) == Keep(leaves, Walk(full, full[pivot], {}))
    ensures forall x :: x in Walk(full, full[pivot], v) ==> x !in above && x != pivot
  {
    forall x | x in above ensures rank(pivot) < rank(x) {
      PivotLowest(full, cut, pivot, above, leaves, rank, x);
    }
    var lower := (set x | x in full && rank(x) < rank(pivot)) + Elems(full[pivot]);
    var region := lower + Children(full, lower);
    assert forall x :: x in region ==> rank(x) < rank(pivot);
    WalkBelow(full, rank, full[pivot], v, rank(pivot));
    assert Similar(full, full, region, leaves, v, {}) by {
      forall x | x in region && x !in leaves ensures x !in v {}
    }
    Agree(full, full, region, leaves, full[pivot], full[pivot], v, {});
  }

  ghost function Children<V>(g: Graph<V>, s: set<V>): set<V> {
    set x, c | x in s && x in g && c in g[x] :: c
  }

  lemma AfterPivot<V(!new)>(full: Graph<V>, cut: Graph<V>, pivot: V, above: set<V>, leaves: set<V>, v1: set<V>, v2: set<V>)
    requires CutShape(full, cut, pivot, above, leaves)
    requires pivot in v1 && pivot in v2 && forall x :: x in above ==> (x in v1 <==> x in v2)
    ensures Similar(full, cut, above + {pivot}, leaves, v1, v2)
  {}

  /** What the traversal of the full graph keeps, given what the cut one keeps. */
  ghost predicate Prefixed<V>(full: Graph<V>, pivot: V, leaves: set<V>, whole: seq<V>, tail: seq<V>)
    requires pivot in full
  {
    && Keep(leaves, whole) == Keep(leaves, Walk(full, full[pivot], {})) + Keep(leaves, tail)
    && Keep(leaves, tail) != [] && Keep(leaves, tail)[0] == pivot
  }

  /** Up to the point where the pivot is first reached the full traversal emits the pivot's
      ancestry and nothing else; from there on both traversals keep the same sequence. */
  lemma {:induction false} FirstDescent<V(!new)>(full: Graph<V>, cut: Graph<V>, pivot: V, above: set<V>, leaves: set<V>,
                                                 rank: V -> nat, todo1: seq<V>, todo2: seq<V>, v1: set<V>, v2: set<V>)
    requires CutShape(full, cut, pivot, above, leaves) && Ranked(full, rank)
    requires Keep(leaves, todo1) == Keep(leaves, todo2) && Inside(above + {pivot}, leaves, todo1)
    requires Keep(leaves, todo1) != []
    requires Descending(above, leaves, rank, todo1, v1, v2)
    ensures Prefixed(full, pivot, leaves, Walk(full, todo1, v1), Walk(cut, todo2, v2))
    decreases Left(full, cut, v1, v2), |todo1| + |todo2|
  {
    if todo1[0] in leaves {
      var w := LeafFirst(full, leaves, todo1, v1);
      LeftShrinks(full, cut, v1, v2, w, {});
      assert v2 + {} == v2;
      DescendingWithLeaf(above, leaves, rank, todo1, v1, v2, w, {});
      FirstDescent(full, cut, pivot, above, leaves, rank, todo1[1..], todo2, v1 + w, v2);
    } else if todo2[0] in leaves {
      var w := LeafFirst(cut, leaves, todo2, v2);
      LeftShrinks(full, cut, v1, v2, {}, w);
      assert v1 + {} == v1;
      DescendingWithLeaf(above, leaves, rank, todo1, v1, v2, {}, w);
      FirstDescent(full, cut, pivot, above, leaves, rank, todo1, todo2[1..], v1, v2 + w);
    } else {
      assert todo1[0] == Keep(leaves, todo1)[0] == todo2[0];
      assert Keep(leaves, todo1[1..]) == Keep(leaves, todo1)[1..] == Keep(leaves, todo2[1..]);
      if todo1[0] == pivot {
        DescentAtPivot(full, cut, pivot, above, leaves, rank, todo1, todo2, v1, v2);
      } else {
        DescentAbove(full, cut, pivot, above, leaves, rank, todo1, todo2, v1, v2);
      }
    }
  }

  lemma DescendingWithLeaf<V(!new)>(above: set<V>, leaves: set<V>, rank: V -> nat, todo: seq<V>, v1: set<V>,
                                    v2: set<V>, w1: set<V>, w2: set<V>)
    requires Descending(above, leaves, rank, todo, v1, v2) && w1 <= leaves && w2 <= leaves && above !! leaves && todo != []
    ensures Descending(above, leaves, rank, todo, v1 + w1, v2 + w2)
    ensures Descending(above, leaves, rank, todo[1..], v1 + w1, v2 + w2)
  {}

  lemma DescentAtPivot<V(!new)>(full: Graph<V>, cut: Graph<V>, pivot: V, above: set<V>, leaves: set<V>,
                                rank: V -> nat, todo1: seq<V>, todo2: seq<V>, v1: set<V>, v2: set<V>)
    requires CutShape(full, cut, pivot, above, leaves) && Ranked(full, rank)
    requires todo1 != [] && todo2 != [] && todo1[0] == todo2[0] == pivot
    requires Keep(leaves, todo1[1..]) == Keep(leaves, todo2[1..]) && Inside(above + {pivot}, leaves, todo1[1..])
    requires Descending(above, leaves, rank, todo1, v1, v2)
    ensures Prefixed(full, pivot, leaves, Walk(full, todo1, v1), Walk(cut, todo2, v2))
  {
    PivotWalked(full, cut, pivot, above, leaves, rank, v1 + {pivot});
    var b1 := Walk(full, full[pivot], v1 + {pivot});
    assert Walk(cut, cut[pivot], v2 + {pivot}) == [];
    var n1, n2 := v1 + ({pivot} + Elems(b1)), v2 + ({pivot} + Elems([]));
    AfterPivot(full, cut, pivot, above, leaves, n1, n2);
    Agree(full, cut, above + {pivot}, leaves, todo1[1..], todo2[1..], n1, n2);
    WalkStep(full, todo1, v1);
    WalkStep(cut, todo2, v2);
    PrefixedStarts(full, pivot, leaves, b1, Walk(full, todo1[1..], n1), Walk(cut, todo2[1..], n2));
  }

  lemma PrefixedStarts<V>(full: Graph<V>, pivot: V, leaves: set<V>, b: seq<V>, r1: seq<V>, r2: seq<V>)
    requires pivot in full && pivot !in leaves && Keep(leaves, r1) == Keep(leaves, r2)
    requires Keep(leaves, b) == Keep(leaves, Walk(full, full[pivot], {}))
    ensures Prefixed(full, pivot, leaves, b + [pivot] + r1, [] + [pivot] + r2)
  {
    KeepJoin3(leaves, b, pivot, r1);
    KeepJoin3(leaves, [], pivot, r2);
  }

  lemma {:induction false} DescentAbove<V(!new)>(full: Graph<V>, cut: Graph<V>, pivot: V, above: set<V>, leaves: set<V>,
                                                 rank: V -> nat, todo1: seq<V>, todo2: seq<V>, v1: set<V>, v2: set<V>)
    requires CutShape(full, cut, pivot, above, leaves) && Ranked(full, rank)
    requires todo1 != [] && todo2 != [] && todo1[0] == todo2[0] && todo1[0] in above
    requires Keep(leaves, todo1[1..]) == Keep(leaves, todo2[1..]) && Inside(above + {pivot}, leaves, todo1[1..])
    requires Descending(above, leaves, rank, todo1, v1, v2)
    ensures Prefixed(full, pivot, leaves, Walk(full, todo1, v1), Walk(cut, todo2, v2))
    decreases Left(full, cut, v1, v2), 0
  {
    var t := todo1[0];
    LeftShrinks(full, cut, v1, v2, {t}, {t});
    var b1, b2 := Walk(full, full[t], v1 + {t}), Walk(cut, cut[t], v2 + {t});
    DescendingStep(full, cut, pivot, above, leaves, rank, todo1, v1, v2);
    FirstDescent(full, cut, pivot, above, leaves, rank, full[t], cut[t], v1 + {t}, v2 + {t});
    AboveFinish(full, cut, pivot, above, leaves, rank, todo1, todo2, v1, v2, b1, b2);
  }

  lemma DescendingStep<V(!new)>(full: Graph<V>, cut: Graph<V>, pivot: V, above: set<V>, leaves: set<V>, rank: V -> nat,
                                todo: seq<V>, v1: set<V>, v2: set<V>)
    requires CutShape(full, cut, pivot, above, leaves) && Ranked(full, rank)
    requires todo != [] && todo[0] in above && Descending(above, leaves, rank, todo, v1, v2)
    ensures var t := todo[0];
            && t !in v1 && t !in v2
            && Descending(above, leaves, rank, full[t], v1 + {t}, v2 + {t})
            && Inside(above + {pivot}, leaves, full[t]) && Keep(leaves, full[t]) != []
  {
    var t := todo[0];
    KeepElems(leaves, full[t]);
    assert full[t][0] in Keep(leaves, full[t]);
    assert forall x :: x in v1 && x in above ==> rank(t) < rank(x);
  }

  lemma AboveFinish<V(!new)>(full: Graph<V>, cut: Graph<V>, pivot: V, above: set<V>, leaves: set<V>, rank: V -> nat,
                             todo1: seq<V>, todo2: seq<V>, v1: set<V>, v2: set<V>, b1: seq<V>, b2: seq<V>)
    requires CutShape(full, cut, pivot, above, leaves) && Ranked(full, rank)
    requires todo1 != [] && todo2 != [] && todo1[0] == todo2[0] && todo1[0] in above && todo1[0] !in v1 && todo1[0] !in v2
    requires Keep(leaves, todo1[1..]) == Keep(leaves, todo2[1..]) && Inside(above + {pivot}, leaves, todo1[1..])
    requires forall x :: x in above ==> (x in v1 <==> x in v2)
    requires b1 == Walk(full, full[todo1[0]], v1 + {todo1[0]}) && b2 == Walk(cut, cut[todo1[0]], v2 + {todo1[0]})
    requires Prefixed(full, pivot, leaves, b1, b2)
    ensures Prefixed(full, pivot, leaves, Walk(full, todo1, v1), Walk(cut, todo2, v2))
  {
    var t := todo1[0];
    var n1, n2 := v1 + ({t} + Elems(b1)), v2 + ({t} + Elems(b2));
    assert Similar(full, cut, above + {pivot}, leaves, n1, n2) by {
      AboveMatches(full, cut, pivot, above, leaves, rank, b1, b2);
      AfterPivot(full, cut, pivot, above, leaves, n1, n2);
    }
    Agree(full, cut, above + {pivot}, leaves, todo1[1..], todo2[1..], n1, n2);
    WalkStep(full, todo1, v1);
    WalkStep(cut, todo2, v2);
    PrefixedExtends(full, pivot, leaves, b1, b2, t, Walk(full, todo1[1..], n1), Walk(cut, todo2[1..], n2));
  }

  lemma PrefixedExtends<V>(full: Graph<V>, pivot: V, leaves: set<V>, b1: seq<V>, b2: seq<V>, t: V, r1: seq<V>, r2: seq<V>)
    requires pivot in full && t !in leaves && Prefixed(full, pivot, leaves, b1, b2) && Keep(leaves, r1) == Keep(leaves, r2)
    ensures Prefixed(full, pivot, leaves, b1 + [t] + r1, b2 + [t] + r2)
  {
    KeepJoin3(leaves, b1, t, r1);
    KeepJoin3(leaves, b2, t, r2);
    var p, q, r := Keep(leaves, Walk(full, full[pivot], {})), Keep(leaves, b2), Keep(leaves, r2);
    assert (p + q) + [t] + r == p + (q + [t] + r);
  }

  /** The pivot and the vertices above it that the two traversals have emitted are the same. */
  lemma AboveMatches<V(!new)>(full: Graph<V>, cut: Graph<V>, pivot: V, above: set<V>, leaves: set<V>, rank: V -> nat,
                              b1: seq<V>, b2: seq<V>)
    requires CutShape(full, cut, pivot, above, leaves) && Ranked(full, rank)
    requires Prefixed(full, pivot, leaves, b1, b2)
    ensures pivot in b1 && pivot in b2
    ensures forall x :: x in above ==> (x in b1 <==> x in b2)
  {
    KeepElems(leaves, b1);
    KeepElems(leaves, b2);
    PivotWalked(full, cut, pivot, above, leaves, rank, {});
    KeepElems(leaves, Walk(full, full[pivot], {}));
    assert pivot in Keep(leaves, b2);
  }
}
