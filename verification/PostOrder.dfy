/** Post-order depth-first traversal of a finite graph, as phase 2 of the effect walk performs it. */
module PostOrder {
  import opened Sequences

  /** Children of each vertex, already in visiting order. A child need not be a vertex. */
  type Graph<!V> = map<V, seq<V>>

  /** Vertices in the order they are finished when the roots in `todo` are explored one after
      the other, skipping whatever is in `visited`. */
  function Walk<V>(g: Graph<V>, todo: seq<V>, visited: set<V>): (order: seq<V>)
    decreases |g.Keys - visited|, |todo|
  {
    if todo == [] then
      []
    else if todo[0] in visited || todo[0] !in g then
      Walk(g, todo[1..], visited)
    else
      var t := todo[0];
      Shrinks(g, visited, {t});
      var below := Walk(g, g[t], visited + {t});
      Shrinks(g, visited, {t} + Elems(below));
      below + [t] + Walk(g, todo[1..], visited + ({t} + Elems(below)))
  }

  lemma Shrinks<V>(g: Graph<V>, visited: set<V>, more: set<V>)
    requires exists t :: t in more && t in g && t !in visited
    ensures |g.Keys - (visited + more)| < |g.Keys - visited|
  {
    var t :| t in more && t in g && t !in visited;
    SubsetSize(g.Keys - (visited + more), g.Keys - visited - {t});
  }

  lemma SubsetSize<V>(a: set<V>, b: set<V>)
    requires a <= b
    ensures |a| <= |b|
  {
    assert b == a + (b - a);
  }

  // ---------- Reachability, independently of the traversal ----------

  ghost predicate IsPath<V>(g: Graph<V>, p: seq<V>) {
    && p != []
    && (forall i :: 0 <= i < |p| ==> p[i] in g)
    && (forall i :: 0 <= i < |p| - 1 ==> p[i + 1] in g[p[i]])
  }

  ghost predicate Reaches<V(!new)>(g: Graph<V>, a: V, b: V) {
    exists p :: IsPath(g, p) && p[0] == a && p[|p| - 1] == b
  }

  ghost predicate ReachedFrom<V(!new)>(g: Graph<V>, roots: seq<V>, b: V) {
    exists a :: a in roots && Reaches(g, a, b)
  }

  lemma ReachesSelf<V(!new)>(g: Graph<V>, a: V)
    requires a in g
    ensures Reaches(g, a, a)
  {
    assert IsPath(g, [a]);
  }

  lemma ReachesThrough<V(!new)>(g: Graph<V>, a: V, c: V, b: V)
    requires a in g && c in g[a] && Reaches(g, c, b)
    ensures Reaches(g, a, b)
  {
    var p :| IsPath(g, p) && p[0] == c && p[|p| - 1] == b;
    assert IsPath(g, [a] + p);
  }

  lemma {:induction false} ReachesStaysInside<V(!new)>(g: Graph<V>, closed: set<V>, p: seq<V>)
    requires IsPath(g, p) && p[0] in closed
    requires forall x, c :: x in closed && x in g && c in g[x] && c in g ==> c in closed
    ensures p[|p| - 1] in closed
  {
    if |p| > 1 {
      assert IsPath(g, p[1..]);
      ReachesStaysInside(g, closed, p[1..]);
    }
  }

  // ---------- What the traversal emits ----------

  lemma DistinctHead<V>(s: seq<V>)
    requires Distinct(s) && s != []
    ensures s == [s[0]] + s[1..] && s[0] !in s[1..]
  {}

  /** Vertices of the graph, none visited before and none twice. */
  ghost predicate Fresh<V>(g: Graph<V>, order: seq<V>, visited: set<V>) {
    && (forall i :: 0 <= i < |order| ==> order[i] in g && order[i] !in visited)
    && Distinct(order)
  }

  lemma FreshJoin<V>(g: Graph<V>, a: seq<V>, t: V, b: seq<V>, visited: set<V>)
    requires t in g && t !in visited
    requires Fresh(g, a, visited + {t}) && Fresh(g, b, visited + ({t} + Elems(a)))
    ensures Fresh(g, a + [t] + b, visited)
  {
    forall i | 0 <= i < |a| ensures a[i] in Elems(a) {}
    forall i | 0 <= i < |b| ensures b[i] !in Elems(a) && b[i] != t {}
  }

  lemma {:induction false} WalkFresh<V>(g: Graph<V>, todo: seq<V>, visited: set<V>)
    ensures Fresh(g, Walk(g, todo, visited), visited)
    decreases |g.Keys - visited|, |todo|
  {
    if todo == [] {
    } else if todo[0] in visited || todo[0] !in g {
      WalkFresh(g, todo[1..], visited);
    } else {
      var t := todo[0];
      Shrinks(g, visited, {t});
      var below := Walk(g, g[t], visited + {t});
      WalkFresh(g, g[t], visited + {t});
      Shrinks(g, visited, {t} + Elems(below));
      var v1 := visited + ({t} + Elems(below));
      WalkFresh(g, todo[1..], v1);
      FreshJoin(g, below, t, Walk(g, todo[1..], v1), visited);
    }
  }

  /** Together with what was already visited, the output contains the roots and is closed. */
  lemma {:induction false} WalkCloses<V>(g: Graph<V>, todo: seq<V>, visited: set<V>)
    ensures var order := Walk(g, todo, visited);
            && (forall x :: x in todo && x in g ==> x in visited || x in order)
            && (forall x, c :: x in order && x in g && c in g[x] && c in g ==> c in visited || c in order)
    decreases |g.Keys - visited|, |todo|
  {
    if todo == [] {
    } else if todo[0] in visited || todo[0] !in g {
      WalkCloses(g, todo[1..], visited);
    } else {
      var t := todo[0];
      Shrinks(g, visited, {t});
      var below := Walk(g, g[t], visited + {t});
      WalkCloses(g, g[t], visited + {t});
      Shrinks(g, visited, {t} + Elems(below));
      WalkCloses(g, todo[1..], visited + ({t} + Elems(below)));
    }
  }

  ghost predicate AllReached<V(!new)>(g: Graph<V>, roots: seq<V>, order: seq<V>) {
    forall x :: x in order ==> ReachedFrom(g, roots, x)
  }

  lemma ReachedFromTail<V(!new)>(g: Graph<V>, roots: seq<V>, order: seq<V>)
    requires roots != [] && AllReached(g, roots[1..], order)
    ensures AllReached(g, roots, order)
  {
    forall x | x in order ensures ReachedFrom(g, roots, x) {
      var a :| a in roots[1..] && Reaches(g, a, x);
    }
  }

  lemma ReachedFromChildren<V(!new)>(g: Graph<V>, t: V, order: seq<V>)
    requires t in g && AllReached(g, g[t], order)
    ensures AllReached(g, [t], order + [t])
  {
    ReachesSelf(g, t);
    forall x | x in order ensures Reaches(g, t, x) {
      var a :| a in g[t] && Reaches(g, a, x);
      ReachesThrough(g, t, a, x);
    }
  }

  lemma {:induction false} WalkReached<V(!new)>(g: Graph<V>, todo: seq<V>, visited: set<V>)
    ensures AllReached(g, todo, Walk(g, todo, visited))
    decreases |g.Keys - visited|, |todo|
  {
    if todo == [] {
    } else if todo[0] in visited || todo[0] !in g {
      WalkReached(g, todo[1..], visited);
      ReachedFromTail(g, todo, Walk(g, todo[1..], visited));
    } else {
      var t := todo[0];
      Shrinks(g, visited, {t});
      var below := Walk(g, g[t], visited + {t});
      WalkReached(g, g[t], visited + {t});
      ReachedFromChildren(g, t, below);
      Shrinks(g, visited, {t} + Elems(below));
      var rest := Walk(g, todo[1..], visited + ({t} + Elems(below)));
      WalkReached(g, todo[1..], visited + ({t} + Elems(below)));
      ReachedFromTail(g, todo, rest);
      forall x | x in below + [t] + rest ensures ReachedFrom(g, todo, x) {
        if x in below + [t] {
          assert Reaches(g, t, x);
        }
      }
    }
  }

  /** The traversal emits exactly what the roots reach, apart from a closed visited set. */
  lemma WalkIsReachability<V(!new)>(g: Graph<V>, todo: seq<V>, visited: set<V>)
    requires forall x, c :: x in visited && x in g && c in g[x] && c in g ==> c in visited
    ensures forall x :: x in Walk(g, todo, visited) <==> x !in visited && ReachedFrom(g, todo, x)
  {
    WalkFresh(g, todo, visited);
    WalkCloses(g, todo, visited);
    WalkReached(g, todo, visited);
    var order := Walk(g, todo, visited);
    forall x | x !in visited && ReachedFrom(g, todo, x) ensures x in order {
      var a :| a in todo && Reaches(g, a, x);
      var p :| IsPath(g, p) && p[0] == a && p[|p| - 1] == x;
      ReachesStaysInside(g, visited + Elems(order), p);
    }
  }

  /** One step of the traversal at a vertex not yet visited. */
  lemma WalkStep<V>(g: Graph<V>, todo: seq<V>, visited: set<V>)
    requires todo != [] && todo[0] in g && todo[0] !in visited
    ensures var t := todo[0];
            var below := Walk(g, g[t], visited + {t});
            Walk(g, todo, visited) == below + [t] + Walk(g, todo[1..], visited + ({t} + Elems(below)))
  {}

  lemma ElemsJoin<V>(visited: set<V>, a: seq<V>, t: V, b: seq<V>)
    ensures visited + ({t} + Elems(a)) + Elems(b) == visited + Elems(a + [t] + b)
  {}

  /** Marks on things that are not vertices make no difference. */
  lemma {:induction false} WalkIgnoresStrangers<V>(g: Graph<V>, todo: seq<V>, v: set<V>, w: set<V>)
    requires v * g.Keys == w * g.Keys
    ensures Walk(g, todo, v) == Walk(g, todo, w)
    decreases |g.Keys - v|, |todo|
  {
    assert forall x :: x in g ==> (x in v * g.Keys <==> x in v) && (x in w * g.Keys <==> x in w);
    if todo == [] {
    } else if todo[0] in v || todo[0] !in g {
      WalkIgnoresStrangers(g, todo[1..], v, w);
    } else {
      var t := todo[0];
      Shrinks(g, v, {t});
      WalkIgnoresStrangers(g, g[t], v + {t}, w + {t});
      var below := Walk(g, g[t], v + {t});
      Shrinks(g, v, {t} + Elems(below));
      WalkIgnoresStrangers(g, todo[1..], v + ({t} + Elems(below)), w + ({t} + Elems(below)));
    }
  }

  lemma Assoc<V>(x: seq<V>, y: seq<V>, z: seq<V>)
    ensures x + (y + z) == (x + y) + z
  {}

  lemma SplitStep<V>(g: Graph<V>, a: seq<V>, b: seq<V>, visited: set<V>, below: seq<V>, rest: seq<V>, tail: seq<V>)
    requires a != [] && a[0] in g && a[0] !in visited
    requires below == Walk(g, g[a[0]], visited + {a[0]})
    requires rest == Walk(g, a[1..], visited + ({a[0]} + Elems(below)))
    requires rest + tail == Walk(g, a[1..] + b, visited + ({a[0]} + Elems(below)))
    ensures Walk(g, a, visited) == below + [a[0]] + rest
    ensures Walk(g, a + b, visited) == Walk(g, a, visited) + tail
  {
    WalkStep(g, a, visited);
    WalkStep(g, a + b, visited);
    assert (a + b)[1..] == a[1..] + b;
    Assoc(below + [a[0]], rest, tail);
  }

  /** Exploring a list of roots emits one contiguous block per part of the list. */
  lemma {:induction false} WalkSplit<V>(g: Graph<V>, a: seq<V>, b: seq<V>, visited: set<V>)
    ensures Walk(g, a + b, visited)
         == Walk(g, a, visited) + Walk(g, b, visited + Elems(Walk(g, a, visited)))
    decreases |g.Keys - visited|, |a|
  {
    if a == [] {
      assert a + b == b;
      assert visited + Elems(Walk(g, a, visited)) == visited;
    } else if a[0] in visited || a[0] !in g {
      assert (a + b)[1..] == a[1..] + b;
      WalkSplit(g, a[1..], b, visited);
    } else {
      var below := Walk(g, g[a[0]], visited + {a[0]});
      Shrinks(g, visited, {a[0]} + Elems(below));
      var v1 := visited + ({a[0]} + Elems(below));
      var rest := Walk(g, a[1..], v1);
      WalkSplit(g, a[1..], b, v1);
      SplitStep(g, a, b, visited, below, rest, Walk(g, b, v1 + Elems(rest)));
      ElemsJoin(visited, below, a[0], rest);
    }
  }

  // ---------- Acyclic graphs ----------

  ghost predicate Ranked<V(!new)>(g: Graph<V>, rank: V -> nat) {
    forall x, c :: x in g && c in g[x] ==> rank(c) < rank(x)
  }

  lemma {:induction false} WalkBelow<V(!new)>(g: Graph<V>, rank: V -> nat, todo: seq<V>, visited: set<V>, bound: nat)
    requires Ranked(g, rank)
    requires forall x :: x in todo ==> rank(x) < bound
    ensures forall x :: x in Walk(g, todo, visited) ==> rank(x) < bound
    decreases |g.Keys - visited|, |todo|
  {
    if todo == [] {
    } else if todo[0] in visited || todo[0] !in g {
      WalkBelow(g, rank, todo[1..], visited, bound);
    } else {
      var t := todo[0];
      Shrinks(g, visited, {t});
      var below := Walk(g, g[t], visited + {t});
      WalkBelow(g, rank, g[t], visited + {t}, rank(t));
      Shrinks(g, visited, {t} + Elems(below));
      WalkBelow(g, rank, todo[1..], visited + ({t} + Elems(below)), bound);
    }
  }

  /** Every vertex is emitted after its children, unless they were visited before. */
  ghost predicate ChildrenFirst<V>(g: Graph<V>, order: seq<V>, visited: set<V>) {
    forall i, c :: 0 <= i < |order| && order[i] in g && c in g[order[i]] && c in g ==>
      c in visited || c in order[..i]
  }

  lemma ChildrenFirstJoin<V>(g: Graph<V>, a: seq<V>, t: V, b: seq<V>, visited: set<V>)
    requires t in g && ChildrenFirst(g, a, visited + {t})
    requires forall x, c :: x in a + [t] && x in g && c in g[x] ==> c != t
    requires forall c :: c in g[t] && c in g ==> c in visited || c in a
    requires ChildrenFirst(g, b, visited + ({t} + Elems(a)))
    ensures ChildrenFirst(g, a + [t] + b, visited)
  {
    var order := a + [t] + b;
    forall i, c | 0 <= i < |order| && order[i] in g && c in g[order[i]] && c in g
      ensures c in visited || c in order[..i]
    {
      if i < |a| {
        assert order[..i] == a[..i] && order[i] == a[i];
        assert a[i] in a + [t];
      } else if i == |a| {
        assert order[..i] == a;
      } else {
        var k := i - |a| - 1;
        assert order[..i] == a + [t] + b[..k] && order[i] == b[k];
      }
    }
  }

  lemma {:induction false} WalkChildrenFirst<V(!new)>(g: Graph<V>, rank: V -> nat, todo: seq<V>, visited: set<V>)
    requires Ranked(g, rank)
    ensures ChildrenFirst(g, Walk(g, todo, visited), visited)
    decreases |g.Keys - visited|, |todo|
  {
    if todo == [] {
    } else if todo[0] in visited || todo[0] !in g {
      WalkChildrenFirst(g, rank, todo[1..], visited);
    } else {
      var t := todo[0];
      Shrinks(g, visited, {t});
      var below := Walk(g, g[t], visited + {t});
      WalkChildrenFirst(g, rank, g[t], visited + {t});
      WalkBelow(g, rank, g[t], visited + {t}, rank(t));
      WalkCloses(g, g[t], visited + {t});
      Shrinks(g, visited, {t} + Elems(below));
      var v1 := visited + ({t} + Elems(below));
      WalkChildrenFirst(g, rank, todo[1..], v1);
      ChildrenFirstJoin(g, below, t, Walk(g, todo[1..], v1), visited);
    }
  }
}
