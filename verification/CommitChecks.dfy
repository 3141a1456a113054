/** The walks behind the commit decision: the competitor check before emission
    (effects/effect.go checkCompetingBinds) and the conflict check on a reply
    (effects/txn.go checkNackConflict). */
module CommitChecks {
  import opened Effects
  import opened Sequences
  import opened ChainClocks
  import opened Commit
  import opened Worklist

  // ---------- Before emission ----------

  /** The dependencies of t that are not yet seen, each once. */
  function Unseen(deps: seq<Tip>, seen: set<Tip>): (r: seq<Tip>)
    ensures forall d :: d in r <==> d in deps && d !in seen
  {
    if deps == [] then []
    else if deps[0] in seen then Unseen(deps[1..], seen)
    else [deps[0]] + Unseen(deps[1..], seen + {deps[0]})
  }

  /** Everything in the past of the consumed tips. */
  method Ancestors(log: Log, consumed: seq<Tip>) returns (past: set<Tip>)
    ensures forall t :: t in past <==> FromRoots(AllGraph(log), consumed, t)
  {
    hide FromRoots, Exploring, Universe, Unseen;
    ghost var g, met := AllGraph(log), {};
    var stack := Unseen(consumed, {});
    past := Elems(stack);
    StartExploring(g, consumed, stack);
    while stack != []
      invariant past == met + Elems(stack) && Exploring(g, consumed, met, stack)
      decreases |Universe(g, consumed) - met|, |stack|
    {
      var t, rest := stack[|stack| - 1], stack[..|stack| - 1];
      assert stack == rest + [t];
      var more := if t in log then Unseen(log[t].deps, past) else [];
      Expanded(g, consumed, met, stack, t, rest, more, past);
      met := met + {t};
      past := past + Elems(more);
      stack := rest + more;
    }
    ExploredAll(g, consumed, met);
  }

  lemma SomeElem(s: seq<Tip>)
    ensures s == [] || exists t :: t in s
  {
    if s != [] {
      assert s[0] in s;
    }
  }

  lemma Expanded(g: Deps, roots: seq<Tip>, met: set<Tip>, stack: seq<Tip>, t: Tip, rest: seq<Tip>, more: seq<Tip>, past: set<Tip>)
    requires Exploring(g, roots, met, stack) && past == met + Elems(stack) && stack == rest + [t]
    requires forall d :: d in more <==> d in DepsOf(g, t) && d !in past
    ensures Exploring(g, roots, met + {t}, rest + more) && past + Elems(more) == met + {t} + Elems(rest + more)
    ensures |Universe(g, roots) - (met + {t})| < |Universe(g, roots) - met| || (met + {t} == met && more == [])
  {
    hide FromRoots, Universe;
    if t in met {
      assert forall d :: d in DepsOf(g, t) ==> d in past;
      SomeElem(more);
      assert met + {t} == met;
    } else {
      Nearer(g, roots, met, t);
    }
    forall d | d in more ensures FromRoots(g, roots, d) {
      FromRootsStep(g, roots, t, d);
    }
  }

  lemma PastIsPast(log: Log, consumed: seq<Tip>, past: set<Tip>, t: Tip)
    requires forall u :: u in past <==> FromRoots(AllGraph(log), consumed, u)
    ensures t in past <==> exists c :: c in consumed && Reaches(AllGraph(log), c, t)
  {
  }

  ghost predicate AllBehind(log: Log, k: Key, met: set<Tip>, past: set<Tip>) {
    forall c :: c in met && Touches(log, c, k) ==> NewTip(log, c, k) in past
  }

  lemma LedIsMet(log: Log, k: Key, tips: seq<Tip>, consumed: seq<Tip>, past: set<Tip>, met: set<Tip>)
    requires forall u :: u in past <==> FromRoots(AllGraph(log), consumed, u)
    requires Exploring(KeyGraph(log, k), tips, met, []) && AllBehind(log, k, met, past)
    ensures NoCompetitor(log, k, Elems(tips), consumed)
  {
    hide Reaches, Exploring;
    ExploredAll(KeyGraph(log, k), tips, met);
    forall c | Touches(log, c, k) && Led(log, k, Elems(tips), c) ensures exists t :: t in consumed && Reaches(AllGraph(log), t, NewTip(log, c, k)) {
      var t :| t in Elems(tips) && Reaches(KeyGraph(log, k), t, c);
      assert FromRoots(KeyGraph(log, k), tips, c);
      PastIsPast(log, consumed, past, NewTip(log, c, k));
    }
  }

  lemma CompetitorFound(log: Log, k: Key, tips: seq<Tip>, consumed: seq<Tip>, past: set<Tip>, c: Tip)
    requires forall u :: u in past <==> FromRoots(AllGraph(log), consumed, u)
    requires FromRoots(KeyGraph(log, k), tips, c) && Touches(log, c, k) && NewTip(log, c, k) !in past
    ensures Led(log, k, Elems(tips), c) && !NoCompetitor(log, k, Elems(tips), consumed)
  {
    hide Reaches;
    PastIsPast(log, consumed, past, NewTip(log, c, k));
    var t :| t in tips && Reaches(KeyGraph(log, k), t, c);
    assert t in Elems(tips);
  }

  /** A bind the index leads to that is not in the past of the consumed tips, if there is one. */
  method CheckCompetingBinds(log: Log, k: Key, tips: seq<Tip>, consumed: seq<Tip>) returns (r: Option<Tip>)
    ensures r.None? <==> NoCompetitor(log, k, Elems(tips), consumed)
    ensures r.Some? ==> Touches(log, r.value, k) && Led(log, k, Elems(tips), r.value) && !FromRoots(AllGraph(log), consumed, NewTip(log, r.value, k))
  {
    hide FromRoots, Exploring, Universe, Led, NoCompetitor;
    var past := Ancestors(log, consumed);
    ghost var g := KeyGraph(log, k);
    var visited, stack := {}, tips;
    StartExploring(g, tips, stack);
    while stack != []
      invariant Exploring(g, tips, visited, stack) && AllBehind(log, k, visited, past)
      decreases |Universe(g, tips) - visited|, |stack|
    {
      var t, rest := stack[|stack| - 1], stack[..|stack| - 1];
      assert stack == rest + [t];
      if t in visited {
        Skipped(g, tips, visited, rest, t);
        stack := rest;
        continue;
      }
      var more := if t in log then KeyDeps(k, log[t]) else [];
      Visited(g, tips, visited, rest, t, more);
      if Touches(log, t, k) && NewTip(log, t, k) !in past {
        CompetitorFound(log, k, tips, consumed, past, t);
        return Some(t);
      }
      visited := visited + {t};
      stack := rest + more;
    }
    LedIsMet(log, k, tips, consumed, past, visited);
    return None;
  }

  // ---------- On a reply ----------

  function Outside(deps: seq<Tip>, past: set<Tip>): (r: seq<Tip>)
    ensures forall d :: d in r <==> d in deps && d !in past
  {
    if deps == [] then [] else (if deps[0] in past then [] else [deps[0]]) + Outside(deps[1..], past)
  }

  /** Only wrappers outside the transaction's own past are looked through. */
  ghost function Wrappers(held: Log, past: set<Tip>): Deps {
    map t | t in held && IsWrapper(held[t]) && t !in past :: Outside(held[t].deps, past)
  }

  /** An effect that ends the transaction: it cannot be fetched, or it is a data effect or bind
      that the classification says the transaction loses to. */
  predicate Fatal(held: Log, loses: Tip -> bool, c: Tip) {
    c !in held || (!IsWrapper(held[c]) && loses(c))
  }

  /** Whether the tip hides an effect that ends the transaction. */
  method CheckNackConflict(held: Log, k: Key, past: set<Tip>, loses: Tip -> bool, tip: Tip) returns (conflict: bool)
    requires tip in held
    requires forall t, d :: t in past && t in held && d in held[t].deps ==> d in past
    ensures conflict ==> exists c :: Exposed(held, k, {tip}, c) && Fatal(held, loses, c)
    ensures !conflict ==> forall c :: Exposed(held, k, {tip}, c) && c !in past ==> !Fatal(held, loses, c)
  {
    hide FromRoots, Exploring, Universe, Exposed;
    ghost var g := Wrappers(held, past);
    var visited, queue := {}, [tip];
    StartExploring(g, [tip], queue);
    while queue != []
      invariant Exploring(g, [tip], visited, queue) && (forall t :: t in queue ==> t in held) && forall t :: t in visited ==> !Fatal(held, loses, t)
      decreases |Universe(g, [tip]) - visited|, |queue|
    {
      var cur, rest := queue[0], queue[1..];
      assert queue == [cur] + rest;
      if cur in visited {
        SkippedFirst(g, [tip], visited, rest, cur);
        queue := rest;
        continue;
      }
      var more := if IsWrapper(held[cur]) && cur !in past then Outside(held[cur].deps, past + visited) else [];
      VisitedFirst(g, [tip], visited, rest, cur, more);
      if Fatal(held, loses, cur) {
        FoundIsExposed(held, k, past, tip, cur);
        return true;
      }
      if d :| d in more && d !in held {
        FromRootsStep(g, [tip], cur, d);
        FoundIsExposed(held, k, past, tip, d);
        return true;
      }
      visited := visited + {cur};
      queue := rest + more;
    }
    forall c | Exposed(held, k, {tip}, c) && c !in past ensures !Fatal(held, loses, c) {
      ExposedIsFound(held, k, past, tip, c);
      ExploredAll(g, [tip], visited);
    }
    return false;
  }

  lemma FoundIsExposed(held: Log, k: Key, past: set<Tip>, tip: Tip, c: Tip)
    requires FromRoots(Wrappers(held, past), [tip], c)
    ensures Exposed(held, k, {tip}, c)
  {
    var g := Wrappers(held, past);
    var r :| r in [tip] && Reaches(g, r, c);
    var p :| Leads(g, p) && p[0] == r && p[|p| - 1] == c;
    forall i | 0 <= i < |p| - 1 ensures p[i] in held && IsWrapper(held[p[i]]) && p[i + 1] in held[p[i]].deps {
      assert p[i + 1] in DepsOf(g, p[i]);
    }
    assert ShownBy(held, k, p);
  }

  /** What lies outside the past was reached outside the past. */
  lemma {:induction false} ShownOutside(held: Log, k: Key, past: set<Tip>, p: seq<Tip>)
    requires ShownBy(held, k, p) && p[|p| - 1] !in past && forall t, d :: t in past && t in held && d in held[t].deps ==> d in past
    ensures Leads(Wrappers(held, past), p) && p[0] !in past
  {
    if |p| > 1 {
      var q := p[1..];
      forall i | 0 <= i < |q| - 1 ensures q[i] in held && IsWrapper(held[q[i]]) && q[i + 1] in held[q[i]].deps {
        assert p[i + 1] in held && IsWrapper(held[p[i + 1]]) && p[i + 1 + 1] in held[p[i + 1]].deps;
      }
      ShownOutside(held, k, past, q);
      assert p[0] in held && IsWrapper(held[p[0]]) && p[0 + 1] in held[p[0]].deps;
      forall i | 0 <= i < |p| - 1 ensures p[i + 1] in DepsOf(Wrappers(held, past), p[i]) {
        if i > 0 {
          assert q[i - 1 + 1] in DepsOf(Wrappers(held, past), q[i - 1]);
        }
      }
    }
  }

  lemma ExposedIsFound(held: Log, k: Key, past: set<Tip>, tip: Tip, c: Tip)
    requires Exposed(held, k, {tip}, c) && c !in past && forall t, d :: t in past && t in held && d in held[t].deps ==> d in past
    ensures FromRoots(Wrappers(held, past), [tip], c)
  {
    var p :| ShownBy(held, k, p) && p[0] in {tip} && p[|p| - 1] == c;
    ShownOutside(held, k, past, p);
    assert tip in [tip] && Reaches(Wrappers(held, past), tip, c);
  }

  /** Replies in which no tip is a conflict leave the bind unbeaten, provided the classification
      loses to every unordered bind with a lower hash and the past holds only earlier binds. */
  lemma NoConflictMeansUnbeaten(log: Log, b: Tip, r: Reply, past: map<Key, set<Tip>>, loses: map<Key, Tip -> bool>)
    requires IsBind(log, b) && past.Keys == loses.Keys == r.tips.Keys
    requires forall k, t, c :: k in r.tips && t in r.tips[k] && Exposed(log, k, {t}, c) && c !in past[k] ==> !Fatal(log, loses[k], c)
    requires forall k, c :: k in r.tips && Touches(log, b, k) && Touches(log, c, k) && c in past[k] ==> Before(log, k, c, b)
    requires forall k, c :: k in r.tips && Touches(log, b, k) && Touches(log, c, k) && log[c].hash < log[b].hash && !Ordered(log, k, b, c) ==>
      loses[k](c)
    ensures Unbeaten(log, b, r)
  {
    hide Before;
    forall k, c | k in r.tips && Touches(log, b, k) && Touches(log, c, k) && Exposed(log, k, r.tips[k], c) && log[c].hash < log[b].hash
      ensures Ordered(log, k, b, c)
    {
      var p :| ShownBy(log, k, p) && p[0] in r.tips[k] && p[|p| - 1] == c;
      assert Exposed(log, k, {p[0]}, c);
      assert c in past[k] || !Fatal(log, loses[k], c);
    }
  }

  // ---------- Replacing tips of transactions in flight ----------

  /** `base` names every tip where the substitution of tips in flight by their bases ends. */
  ghost predicate Resolved(pending: Deps, initial: seq<Tip>, base: seq<Tip>) {
    forall t :: FromRoots(pending, initial, t) && DepsOf(pending, t) == [] ==> t in base
  }

  lemma {:induction false} PathResolves(log: Log, k: Key, pending: Deps, initial: seq<Tip>, base: seq<Tip>, p: seq<Tip>)
    requires forall t :: t in pending ==> t in log && !log[t].kind.Bind? && pending[t] == log[t].deps
    requires Resolved(pending, initial, base) && Leads(KeyGraph(log, k), p) && FromRoots(pending, initial, p[0]) && IsBind(log, p[|p| - 1])
    ensures Led(log, k, Elems(base), p[|p| - 1])
    decreases |p|
  {
    if DepsOf(pending, p[0]) == [] {
      assert p[0] in Elems(base) && Reaches(KeyGraph(log, k), p[0], p[|p| - 1]);
    } else {
      assert |p| > 1 && p[0 + 1] in DepsOf(KeyGraph(log, k), p[0]);
      FromRootsStep(pending, initial, p[0], p[1]);
      var q := p[1..];
      forall i | 0 <= i < |q| - 1 ensures q[i + 1] in DepsOf(KeyGraph(log, k), q[i]) {
        assert p[i + 1 + 1] in DepsOf(KeyGraph(log, k), p[i + 1]);
      }
      PathResolves(log, k, pending, initial, base, q);
    }
  }

  /** Replacing the tips of transactions in flight by what they were built on hides no bind. */
  lemma ResolutionRetains(log: Log, k: Key, pending: Deps, initial: seq<Tip>, base: seq<Tip>)
    requires forall t :: t in pending ==> t in log && !log[t].kind.Bind? && pending[t] == log[t].deps
    requires Resolved(pending, initial, base)
    ensures Retains(log, k, Elems(initial), base)
  {
    hide Reaches, FromRoots, Resolved;
    RootIsFromRoots(pending, initial);
    forall c | Touches(log, c, k) && Led(log, k, Elems(initial), c) ensures Led(log, k, Elems(base), c) {
      var t :| t in Elems(initial) && Reaches(KeyGraph(log, k), t, c);
      ReachResolves(log, k, pending, initial, base, t, c);
    }
  }

  lemma ReachResolves(log: Log, k: Key, pending: Deps, initial: seq<Tip>, base: seq<Tip>, t: Tip, c: Tip)
    requires forall u :: u in pending ==> u in log && !log[u].kind.Bind? && pending[u] == log[u].deps
    requires Resolved(pending, initial, base) && FromRoots(pending, initial, t) && IsBind(log, c) && Reaches(KeyGraph(log, k), t, c)
    ensures Led(log, k, Elems(base), c)
  {
    var p :| Leads(KeyGraph(log, k), p) && p[0] == t && p[|p| - 1] == c;
    PathResolves(log, k, pending, initial, base, p);
  }
}
