/** Whether an effect lies in the past of a frozen key's frontier (effects/transaction_snapshot.go
    contains): the walk that continues behind state snapshots. */
module FrozenPast {
  import opened Effects
  import opened Sequences
  import opened PostOrder
  import opened DagSpec
  import opened DagOrder
  import opened Dag

  /** The effects that the tips lead to. */
  ghost predicate Past<S(!new)>(h: History<S>, key: Key, tips: seq<Tip>, t: Tip) {
    Discovered(h, key, tips, h.Keys, t)
  }

  lemma PastNext<S(!new)>(h: History<S>, key: Key, tips: seq<Tip>, x: Tip, d: Tip)
    requires Past(h, key, tips, x) && x in h && d in KeyDeps(key, h[x])
    ensures Past(h, key, tips, d)
  {
    DiscoveredNext(h, key, tips, h.Keys, x, d);
  }

  lemma PastTip<S(!new)>(h: History<S>, key: Key, tips: seq<Tip>, t: Tip)
    requires t in tips
    ensures Past(h, key, tips, t)
  {
    TipDiscovered(h, key, tips, h.Keys, t);
  }

  lemma {:induction false} PastAlong<S(!new)>(h: History<S>, key: Key, tips: seq<Tip>, more: seq<Tip>, p: seq<Tip>, i: nat)
    requires PathVia(h, key, more, h.Keys, p) && i < |p| && forall t :: t in more ==> Past(h, key, tips, t)
    ensures Past(h, key, tips, p[i])
  {
    hide Past, KeyDeps;
    if i > 0 {
      PastAlong(h, key, tips, more, p, i - 1);
      assert p[i - 1 + 1] in KeyDeps(key, h[p[i - 1]]);
      PastNext(h, key, tips, p[i - 1], p[i]);
    }
  }

  /** The past of something past is past. */
  lemma PastOfPast<S(!new)>(h: History<S>, key: Key, tips: seq<Tip>, more: seq<Tip>, t: Tip)
    requires Past(h, key, more, t) && forall x :: x in more ==> Past(h, key, tips, x)
    ensures Past(h, key, tips, t)
  {
    var p :| PathVia(h, key, more, h.Keys, p) && p[|p| - 1] == t;
    PastAlong(h, key, tips, more, p, |p| - 1);
  }

  // ---------- One round ----------

  /** Every collected effect other than a standalone subscription leads to the cut. */
  lemma {:induction false} LeadsToCut<S(!new)>(h: History<S>, key: Key, tips: seq<Tip>, all: History<S>, c: Tip, rank: Tip -> nat, x: Tip)
    requires Within(all, h) && Converged(key, tips, all, c) && Ranked(DepGraph(h, key), rank)
    requires x in all && (x == c || !IsStandalone(all[x]))
    ensures Past(h, key, [x], c)
    decreases rank(x)
  {
    hide Past;
    if x == c {
      PastTip(h, key, [x], c);
    } else {
      var d := KeyDeps(key, all[x])[0];
      assert d in KeyDeps(key, all[x]);
      assert Referenced(all, key, c, d);
      assert d in DepGraph(h, key)[x];
      LeadsToCut(h, key, tips, all, c, rank, d);
      PastTip(h, key, [x], x);
      PastNext(h, key, [x], x, d);
      PastOfPast(h, key, [x], [d], c);
    }
  }

  lemma {:induction false} AlongCollected<S(!new)>(h: History<S>, key: Key, tips: seq<Tip>, all: History<S>, c: Tip, p: seq<Tip>, i: nat)
    requires Collected(h, key, tips, all, c) && PathVia(h, key, tips, h.Keys, p) && i < |p|
    ensures p[i] in all || (c != ZERO_TIP && c in h && Past(h, key, h[c].deps, p[i]))
  {
    hide Past, KeyDeps, Discovered;
    if i > 0 {
      AlongCollected(h, key, tips, all, c, p, i - 1);
      var x, y := p[i - 1], p[i];
      assert p[i - 1 + 1] in KeyDeps(key, h[x]);
      if x in all {
        BehindOrCollected(h, key, tips, all, c, x, y);
      } else {
        PastNext(h, key, h[c].deps, x, y);
      }
    }
  }

  lemma BehindOrCollected<S(!new)>(h: History<S>, key: Key, tips: seq<Tip>, all: History<S>, c: Tip, x: Tip, y: Tip)
    requires Collected(h, key, tips, all, c) && x in all && x in h && y in KeyDeps(key, h[x])
    ensures y in all || (c != ZERO_TIP && c in h && Past(h, key, h[c].deps, y))
  {
    hide Discovered, Referenced, Roots;
    if c != ZERO_TIP && x == c {
      assert KeyDeps(key, h[c]) == h[c].deps;
      PastTip(h, key, h[c].deps, y);
    }
  }

  /** What the tips lead to has been collected or lies behind the cut. */
  lemma CollectedOrBehind<S(!new)>(h: History<S>, key: Key, tips: seq<Tip>, all: History<S>, c: Tip, t: Tip)
    requires Collected(h, key, tips, all, c) && Past(h, key, tips, t)
    ensures t in all || (c != ZERO_TIP && c in h && Past(h, key, h[c].deps, t))
  {
    hide Collected;
    var p :| PathVia(h, key, tips, h.Keys, p) && p[|p| - 1] == t;
    AlongCollected(h, key, tips, all, c, p, |p| - 1);
  }

  lemma CollectedIsPast<S(!new)>(h: History<S>, key: Key, tips: seq<Tip>, all: History<S>, c: Tip, t: Tip)
    requires Collected(h, key, tips, all, c) && t in all
    ensures Past(h, key, tips, t) && t in h && all[t] == h[t]
  {
    hide Converged, Uncut, KeyDeps;
    DiscoveredGrows(h, key, tips, all.Keys - {c}, h.Keys, t);
  }

  /** Where the search stands: `got` has been seen, `seen` are the snapshots among it, and what is
      left lies behind the gate, which the frontier contains. */
  ghost predicate Searched<S(!new)>(h: History<S>, key: Key, tips: seq<Tip>, frontier: seq<Tip>, gate: seq<Tip>,
                                    got: set<Tip>, seen: set<Tip>) {
    && (forall t :: t in frontier || t in got ==> Past(h, key, tips, t))
    && seen <= got <= h.Keys && (forall t :: t in gate ==> t in frontier)
    && (forall t :: t in h && Past(h, key, tips, t) && t !in got && !IsStandalone(h[t]) ==> Past(h, key, gate, t))
    && (forall x :: x in seen ==> !Past(h, key, gate, x))
  }

  ghost predicate Data<S>(h: History<S>, gate: seq<Tip>) {
    exists g :: g in gate && g in h && !IsStandalone(h[g])
  }

  ghost function NextGate<S>(h: History<S>, gate: seq<Tip>, lca: Tip): seq<Tip> {
    if lca == ZERO_TIP || lca !in h || !Data(h, gate) then [] else h[lca].deps
  }

  function Snapshots<S>(nodes: History<S>): set<Tip> {
    set t | t in nodes && nodes[t].kind.Snapshot?
  }

  ghost predicate DepsOfNew<S>(nodes: History<S>, seen: set<Tip>, next: seq<Tip>) {
    forall e :: e in next <==> exists x :: x in Snapshots(nodes) && x !in seen && e in nodes[x].deps
  }

  lemma SearchStarts<S(!new)>(h: History<S>, key: Key, tips: seq<Tip>)
    ensures Searched(h, key, tips, tips, tips, {}, {})
  {
    hide Past;
    forall t | t in tips ensures Past(h, key, tips, t) {
      PastTip(h, key, tips, t);
    }
  }

  /** Behind a gate of standalone subscriptions there is nothing else. */
  lemma NothingBehind<S(!new)>(h: History<S>, key: Key, gate: seq<Tip>, t: Tip)
    requires !Data(h, gate) && Past(h, key, gate, t) && t in h
    ensures IsStandalone(h[t])
  {
    var p :| PathVia(h, key, gate, h.Keys, p) && p[|p| - 1] == t;
    assert |p| == 1 || p[0 + 1] in KeyDeps(key, h[p[0]]);
  }

  lemma NoGate<S(!new)>(h: History<S>, key: Key, t: Tip)
    ensures !Past(h, key, [], t)
  {
  }

  lemma CutIsNew<S(!new)>(h: History<S>, key: Key, tips: seq<Tip>, frontier: seq<Tip>, gate: seq<Tip>, got: set<Tip>, seen: set<Tip>,
                          all: History<S>, c: Tip, rank: Tip -> nat)
    requires Searched(h, key, tips, frontier, gate, got, seen) && Collected(h, key, frontier, all, c) && c != ZERO_TIP && Data(h, gate)
    requires Ranked(DepGraph(h, key), rank)
    ensures c in h && c in all && Past(h, key, gate, c) && c !in seen && c in Trimmed(all, key, c)
  {
    hide Past, Ranked, Discovered, Trimmed, Referenced;
    var g :| g in gate && g in h && !IsStandalone(h[g]);
    LeadsToCut(h, key, frontier, all, c, rank, g);
    PastTip(h, key, gate, g);
    PastOfPast(h, key, gate, [g], c);
    CutKept(h, key, frontier, all, c, rank);
  }

  lemma CutKept<S(!new)>(h: History<S>, key: Key, tips: seq<Tip>, all: History<S>, c: Tip, rank: Tip -> nat)
    requires Within(all, h) && Converged(key, tips, all, c) && Ranked(DepGraph(h, key), rank)
    ensures c in Trimmed(all, key, c)
  {
    hide Ranked, Converged;
    assert c in all by { CutIn(key, tips, all, c); }
    if Folded(all, key, c, c) {
      TrimRemovesOnlyStandalone(h, key, tips, all, c, rank, c);
    }
  }

  lemma CutIn<S>(key: Key, tips: seq<Tip>, all: History<S>, c: Tip)
    requires Converged(key, tips, all, c)
    ensures c in all && IsStateSnapshot(all[c])
  {
  }

  /** Trimming keeps everything but standalone subscriptions. */
  lemma TrimKeeps<S(!new)>(h: History<S>, key: Key, tips: seq<Tip>, all: History<S>, c: Tip, rank: Tip -> nat, t: Tip)
    requires Collected(h, key, tips, all, c) && Ranked(DepGraph(h, key), rank) && t in all && !IsStandalone(all[t])
    ensures t in Trimmed(all, key, c)
  {
    hide Ranked, Discovered, Referenced, Folded, Roots;
    if c != ZERO_TIP && Folded(all, key, c, t) {
      TrimRemovesOnlyStandalone(h, key, tips, all, c, rank, t);
    }
  }

  /** What is behind the cut ranks below it. */
  lemma BehindRanks<S(!new)>(h: History<S>, key: Key, c: Tip, rank: Tip -> nat, x: Tip)
    requires Ranked(DepGraph(h, key), rank) && c in h && h[c].kind.Snapshot? && Past(h, key, h[c].deps, x)
    ensures rank(x) < rank(c)
  {
    hide Discovered;
    assert DepGraph(h, key)[c] == h[c].deps;
    DiscoveredRank(h, key, rank, h[c].deps, h.Keys, x, rank(c));
  }

  lemma NextSeen<S(!new)>(h: History<S>, key: Key, tips: seq<Tip>, frontier: seq<Tip>, gate: seq<Tip>, got: set<Tip>, seen: set<Tip>,
                          all: History<S>, c: Tip, rank: Tip -> nat, x: Tip)
    requires Searched(h, key, tips, frontier, gate, got, seen) && Collected(h, key, frontier, all, c) && c != ZERO_TIP && Data(h, gate)
    requires Ranked(DepGraph(h, key), rank) && c in h && h[c].kind.Snapshot?
    requires x in seen || (x in all && all[x].kind.Snapshot?)
    ensures !Past(h, key, h[c].deps, x)
  {
    hide Past, Ranked, Discovered, Referenced, Trimmed;
    CutIsNew(h, key, tips, frontier, gate, got, seen, all, c, rank);
    if Past(h, key, h[c].deps, x) {
      if x in seen {
        GateReaches(h, key, gate, c);
        PastOfPast(h, key, gate, h[c].deps, x);
      } else {
        BehindRanks(h, key, c, rank, x);
        LeadsToCut(h, key, frontier, all, c, rank, x);
        PastRanks(h, key, rank, x, c);
      }
    }
  }

  lemma GateReaches<S(!new)>(h: History<S>, key: Key, gate: seq<Tip>, c: Tip)
    requires Past(h, key, gate, c) && c in h && h[c].kind.Snapshot?
    ensures forall d :: d in h[c].deps ==> Past(h, key, gate, d)
  {
    hide Past;
    forall d | d in h[c].deps ensures Past(h, key, gate, d) {
      PastNext(h, key, gate, c, d);
    }
  }

  lemma PastRanks<S(!new)>(h: History<S>, key: Key, rank: Tip -> nat, x: Tip, c: Tip)
    requires Ranked(DepGraph(h, key), rank) && Past(h, key, [x], c)
    ensures rank(c) <= rank(x)
  {
    hide Discovered;
    DiscoveredRank(h, key, rank, [x], h.Keys, c, rank(x) + 1);
  }

  lemma LeftBehind<S(!new)>(h: History<S>, key: Key, tips: seq<Tip>, frontier: seq<Tip>, gate: seq<Tip>, got: set<Tip>, seen: set<Tip>,
                            all: History<S>, c: Tip, rank: Tip -> nat, t: Tip)
    requires Searched(h, key, tips, frontier, gate, got, seen) && Collected(h, key, frontier, all, c) && Ranked(DepGraph(h, key), rank)
    requires t in h && Past(h, key, tips, t) && t !in got && t !in Trimmed(all, key, c) && !IsStandalone(h[t])
    ensures Past(h, key, NextGate(h, gate, c), t)
  {
    hide Past, Ranked, Collected, Trimmed, Data;
    assert Past(h, key, gate, t);
    if !Data(h, gate) {
      NothingBehind(h, key, gate, t);
    }
    forall x | x in gate ensures Past(h, key, frontier, x) {
      PastTip(h, key, frontier, x);
    }
    PastOfPast(h, key, frontier, gate, t);
    CollectedOrBehind(h, key, frontier, all, c, t);
    if t in all {
      CollectedIsPast(h, key, frontier, all, c, t);
      TrimKeeps(h, key, frontier, all, c, rank, t);
    }
  }

  /** One round keeps the account. */
  lemma RoundKeeps<S(!new)>(h: History<S>, key: Key, tips: seq<Tip>, frontier: seq<Tip>, gate: seq<Tip>, got: set<Tip>, seen: set<Tip>,
                            all: History<S>, c: Tip, rank: Tip -> nat, next: seq<Tip>)
    requires Searched(h, key, tips, frontier, gate, got, seen) && Collected(h, key, frontier, all, c) && Ranked(DepGraph(h, key), rank)
    requires DepsOfNew(Trimmed(all, key, c), seen, next)
    ensures Searched(h, key, tips, next, NextGate(h, gate, c), got + Trimmed(all, key, c).Keys, seen + Snapshots(Trimmed(all, key, c)))
  {
    hide Past, Ranked, Collected, Trimmed, NextGate;
    var nodes, gate2 := Trimmed(all, key, c), NextGate(h, gate, c);
    forall t | t in nodes ensures Past(h, key, tips, t) && t in h && nodes[t] == h[t] && t in all && all[t] == h[t] {
      TrimmedIn(all, key, c, t);
      CollectedIsPast(h, key, frontier, all, c, t);
      PastOfPast(h, key, tips, frontier, t);
    }
    forall e | e in next ensures Past(h, key, tips, e) {
      var x :| x in Snapshots(nodes) && x !in seen && e in nodes[x].deps;
      PastNext(h, key, tips, x, e);
    }
    forall t | t in h && Past(h, key, tips, t) && t !in got + nodes.Keys && !IsStandalone(h[t]) ensures Past(h, key, gate2, t) {
      LeftBehind(h, key, tips, frontier, gate, got, seen, all, c, rank, t);
    }
    GateFollows(h, key, tips, frontier, gate, got, seen, all, c, rank, next);
  }

  lemma TrimmedIn<S>(all: History<S>, key: Key, c: Tip, t: Tip)
    requires t in Trimmed(all, key, c)
    ensures t in all && Trimmed(all, key, c)[t] == all[t]
  {
    hide Folded;
  }

  lemma GateFollows<S(!new)>(h: History<S>, key: Key, tips: seq<Tip>, frontier: seq<Tip>, gate: seq<Tip>, got: set<Tip>, seen: set<Tip>,
                             all: History<S>, c: Tip, rank: Tip -> nat, next: seq<Tip>)
    requires Searched(h, key, tips, frontier, gate, got, seen) && Collected(h, key, frontier, all, c) && Ranked(DepGraph(h, key), rank)
    requires DepsOfNew(Trimmed(all, key, c), seen, next)
    ensures forall t :: t in NextGate(h, gate, c) ==> t in next
    ensures forall x :: x in seen || x in Snapshots(Trimmed(all, key, c)) ==> !Past(h, key, NextGate(h, gate, c), x)
  {
    hide Past, Ranked, Trimmed, Data, Discovered, Referenced;
    var nodes, gate2 := Trimmed(all, key, c), NextGate(h, gate, c);
    forall x | x in nodes ensures x in all && nodes[x] == all[x] {
      TrimmedIn(all, key, c, x);
    }
    if c != ZERO_TIP && c in h && Data(h, gate) {
      CutIsNew(h, key, tips, frontier, gate, got, seen, all, c, rank);
      assert c in Snapshots(nodes);
      forall x | x in seen || x in Snapshots(nodes) ensures !Past(h, key, gate2, x) {
        NextSeen(h, key, tips, frontier, gate, got, seen, all, c, rank, x);
      }
    } else {
      forall x ensures !Past(h, key, gate2, x) {
        NoGate(h, key, x);
      }
    }
  }

  // ---------- The search ----------

  /** The dependencies of the snapshots that have not been looked behind yet. */
  method BehindSnapshots<S>(nodes: History<S>, seen: set<Tip>) returns (next: seq<Tip>, seen': set<Tip>)
    ensures DepsOfNew(nodes, seen, next) && seen' == seen + Snapshots(nodes)
  {
    next, seen' := [], seen;
    var todo := nodes.Keys;
    while todo != {}
      invariant todo <= nodes.Keys && seen' == seen + (Snapshots(nodes) - todo)
      invariant forall e :: e in next <==> exists x :: x in Snapshots(nodes) - todo && x !in seen && e in nodes[x].deps
    {
      var t :| t in todo;
      ghost var was := todo;
      todo := todo - {t};
      if nodes[t].kind.Snapshot? && t !in seen' {
        seen' := seen' + {t};
        next := next + nodes[t].deps;
      }
      assert Snapshots(nodes) - todo == (Snapshots(nodes) - was) + if nodes[t].kind.Snapshot? then {t} else {};
    }
    assert Snapshots(nodes) - {} == Snapshots(nodes);
  }

  /** Does the frontier lead to the target? The walk stops at a state snapshot, so the search goes
      on behind the snapshots it met until nothing new turns up. It decides every effect but
      standalone subscriptions, of which it may miss some, and fails only over an absent one. */
  method Contains<S(!new)>(h: History<S>, key: Key, tips: seq<Tip>, target: Tip, ghost rank: Tip -> nat) returns (r: Option<bool>)
    requires ZERO_TIP !in h && Ranked(DepGraph(h, key), rank)
    ensures r.None? ==> Incomplete(h, key, tips)
    ensures r == Some(true) ==> target in h && Past(h, key, tips, target)
    ensures r == Some(false) && target in h && Past(h, key, tips, target) ==> IsStandalone(h[target])
  {
    hide Past, Ranked, Searched, Collected, Trimmed, Incomplete, DepsOfNew, NextGate, Snapshots;
    var frontier, seen := tips, {};
    ghost var gate, got := tips, {};
    SearchStarts(h, key, tips);
    while frontier != []
      invariant Searched(h, key, tips, frontier, gate, got, seen) && target !in got
      decreases |h.Keys - seen|, |frontier|
    {
      var d := new Walker<S>(h, key);
      var ok;
      ghost var all;
      ok, all := d.Prepare(frontier);
      if !ok {
        AbsentPast(h, key, tips, frontier, gate, got, seen);
        return None;
      }
      if target in d.nodes {
        FoundPast(h, key, tips, frontier, gate, got, seen, all, d.lcaTip, target);
        return Some(true);
      }
      ghost var before := seen;
      var next;
      next, seen := BehindSnapshots(d.nodes, seen);
      RoundKeeps(h, key, tips, frontier, gate, got, before, all, d.lcaTip, rank, next);
      Shrinks(h, key, tips, frontier, next, gate, got, before, d.nodes, NextGate(h, gate, d.lcaTip), got + d.nodes.Keys);
      gate, got := NextGate(h, gate, d.lcaTip), got + d.nodes.Keys;
      frontier := next;
    }
    NothingLeft(h, key, tips, gate, got, seen, target);
    return Some(false);
  }

  lemma AbsentPast<S(!new)>(h: History<S>, key: Key, tips: seq<Tip>, frontier: seq<Tip>, gate: seq<Tip>, got: set<Tip>, seen: set<Tip>)
    requires Searched(h, key, tips, frontier, gate, got, seen) && Incomplete(h, key, frontier)
    ensures Incomplete(h, key, tips)
  {
    hide Discovered;
    var t :| t !in h && Discovered(h, key, frontier, h.Keys, t);
    PastOfPast(h, key, tips, frontier, t);
  }

  lemma FoundPast<S(!new)>(h: History<S>, key: Key, tips: seq<Tip>, frontier: seq<Tip>, gate: seq<Tip>, got: set<Tip>, seen: set<Tip>,
                           all: History<S>, c: Tip, t: Tip)
    requires Searched(h, key, tips, frontier, gate, got, seen) && Collected(h, key, frontier, all, c) && t in Trimmed(all, key, c)
    ensures t in h && Past(h, key, tips, t)
  {
    hide Past, Collected, Trimmed;
    TrimmedIn(all, key, c, t);
    CollectedIsPast(h, key, frontier, all, c, t);
    PastOfPast(h, key, tips, frontier, t);
  }

  lemma Shrinks<S(!new)>(h: History<S>, key: Key, tips: seq<Tip>, frontier: seq<Tip>, next: seq<Tip>, gate: seq<Tip>,
                         got: set<Tip>, seen: set<Tip>,
                         nodes: History<S>, gate2: seq<Tip>, got2: set<Tip>)
    requires DepsOfNew(nodes, seen, next) && frontier != [] && Searched(h, key, tips, next, gate2, got2, seen + Snapshots(nodes))
    ensures var a, b := |h.Keys - (seen + Snapshots(nodes))|, |h.Keys - seen|; a < b || (a == b && |next| < |frontier|)
  {
    hide Past;
    var more := seen + Snapshots(nodes);
    if next != [] {
      assert next[0] in next;
      var x :| x in Snapshots(nodes) && x !in seen && next[0] in nodes[x].deps;
      SubsetSize(h.Keys - more, h.Keys - seen - {x});
    } else {
      SubsetSize(h.Keys - more, h.Keys - seen);
    }
  }

  lemma NothingLeft<S(!new)>(h: History<S>, key: Key, tips: seq<Tip>, gate: seq<Tip>, got: set<Tip>, seen: set<Tip>, t: Tip)
    requires Searched(h, key, tips, [], gate, got, seen) && t !in got
    ensures t in h && Past(h, key, tips, t) ==> IsStandalone(h[t])
  {
    hide Past;
    ElemsOfSome(gate);
    assert Elems(gate) == {};
    NoGate(h, key, t);
  }
}
