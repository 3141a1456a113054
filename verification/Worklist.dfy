/** Walks over a dependency graph with a list of vertices still to visit. */
module Worklist {
  import opened Effects
  import opened ChainClocks

  ghost predicate FromRoots(g: Deps, roots: seq<Tip>, t: Tip) {
    exists r :: r in roots && Reaches(g, r, t)
  }

  ghost predicate AllFromRoots(g: Deps, roots: seq<Tip>, work: seq<Tip>) {
    forall t :: t in work ==> FromRoots(g, roots, t)
  }

  /** Everything met is reached, and what it leads to is met or waiting. */
  ghost predicate Exploring(g: Deps, roots: seq<Tip>, met: set<Tip>, work: seq<Tip>) {
    && (forall t :: t in met ==> FromRoots(g, roots, t)) && AllFromRoots(g, roots, work)
    && (forall r :: r in roots ==> r in met || r in work)
    && forall t, d :: t in met && d in DepsOf(g, t) ==> d in met || d in work
  }

  ghost function Universe(g: Deps, roots: seq<Tip>): set<Tip> {
    (set t | t in roots) + g.Keys + set t, d | t in g && d in g[t] :: d
  }

  lemma FromRootsStep(g: Deps, roots: seq<Tip>, t: Tip, d: Tip)
    requires FromRoots(g, roots, t) && d in DepsOf(g, t)
    ensures FromRoots(g, roots, d)
  {
    hide Reaches;
    var r :| r in roots && Reaches(g, r, t);
    ReachesLast(g, r, t, d);
  }

  lemma RootIsFromRoots(g: Deps, roots: seq<Tip>)
    ensures AllFromRoots(g, roots, roots)
  {
    hide Reaches;
    forall r | r in roots ensures FromRoots(g, roots, r) {
      ReachesItself(g, r);
    }
  }

  lemma ExploredAll(g: Deps, roots: seq<Tip>, met: set<Tip>)
    requires Exploring(g, roots, met, [])
    ensures forall t :: FromRoots(g, roots, t) <==> t in met
  {
    hide Reaches;
    assert forall t, d :: t in met && d in DepsOf(g, t) ==> d in met;
    forall t | FromRoots(g, roots, t) ensures t in met {
      var r :| r in roots && Reaches(g, r, t);
      ReachesInside(g, met, r, t);
    }
  }

  lemma MetInUniverse(g: Deps, roots: seq<Tip>, t: Tip)
    requires FromRoots(g, roots, t)
    ensures t in Universe(g, roots)
  {
    var r :| r in roots && Reaches(g, r, t);
    var p :| Leads(g, p) && p[0] == r && p[|p| - 1] == t;
    if |p| > 1 {
      var i := |p| - 2;
      assert p[i + 1] in DepsOf(g, p[i]);
    }
  }

  lemma Nearer(g: Deps, roots: seq<Tip>, met: set<Tip>, t: Tip)
    requires t !in met && FromRoots(g, roots, t)
    ensures |Universe(g, roots) - (met + {t})| < |Universe(g, roots) - met|
  {
    MetInUniverse(g, roots, t);
    assert Universe(g, roots) - (met + {t}) == (Universe(g, roots) - met) - {t};
  }

  lemma StartExploring(g: Deps, roots: seq<Tip>, work: seq<Tip>)
    requires forall t :: t in work <==> t in roots
    ensures Exploring(g, roots, {}, work)
  {
    RootIsFromRoots(g, roots);
  }

  lemma Skipped(g: Deps, roots: seq<Tip>, met: set<Tip>, rest: seq<Tip>, t: Tip)
    requires Exploring(g, roots, met, rest + [t]) && t in met
    ensures Exploring(g, roots, met, rest)
  {
    hide FromRoots;
  }

  lemma Visited(g: Deps, roots: seq<Tip>, met: set<Tip>, rest: seq<Tip>, t: Tip, more: seq<Tip>)
    requires Exploring(g, roots, met, rest + [t]) && t !in met && more == DepsOf(g, t)
    ensures Exploring(g, roots, met + {t}, rest + more) && FromRoots(g, roots, t)
    ensures |Universe(g, roots) - (met + {t})| < |Universe(g, roots) - met|
  {
    hide FromRoots, Universe;
    assert t in rest + [t];
    forall d | d in more ensures FromRoots(g, roots, d) {
      FromRootsStep(g, roots, t, d);
    }
    Nearer(g, roots, met, t);
  }

  lemma SkippedFirst(g: Deps, roots: seq<Tip>, met: set<Tip>, rest: seq<Tip>, t: Tip)
    requires Exploring(g, roots, met, [t] + rest) && t in met
    ensures Exploring(g, roots, met, rest)
  {
    hide FromRoots;
  }

  lemma VisitedFirst(g: Deps, roots: seq<Tip>, met: set<Tip>, rest: seq<Tip>, t: Tip, more: seq<Tip>)
    requires Exploring(g, roots, met, [t] + rest) && t !in met && forall d :: d in more <==> d in DepsOf(g, t) && d !in met
    ensures Exploring(g, roots, met + {t}, rest + more) && FromRoots(g, roots, t)
    ensures |Universe(g, roots) - (met + {t})| < |Universe(g, roots) - met|
  {
    hide FromRoots, Universe;
    assert t in [t] + rest;
    forall d | d in more ensures FromRoots(g, roots, d) {
      FromRootsStep(g, roots, t, d);
    }
    Nearer(g, roots, met, t);
  }
}
