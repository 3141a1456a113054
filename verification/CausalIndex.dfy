/** The read-local reachability index (effects/causal_index.go). */
module CausalIndex {
  import opened Effects
  import opened ChainClocks

  /** `clock` is None while the vertex is on the search stack. */
  datatype Vertex = Vertex(clock: Option<seq<nat>>, chain: nat, pos: nat)

  datatype Frame = Frame(tip: Tip, deps: seq<Tip>, next: nat)

  function StampOf(v: Vertex): Stamp
    requires v.clock.Some?
  {
    Stamp(v.clock.value, v.chain, v.pos)
  }

  /** Vertices are numbered in the order they were met. */
  ghost predicate Numbered(ids: map<Tip, nat>, nodes: seq<Vertex>) {
    && (forall t :: t in ids ==> ids[t] < |nodes|)
    && forall t, u :: t in ids && u in ids && ids[t] == ids[u] ==> t == u
  }

  ghost function Done(ids: map<Tip, nat>, nodes: seq<Vertex>): map<Tip, Stamp> {
    map t | t in ids && ids[t] < |nodes| && nodes[ids[t]].clock.Some? :: StampOf(nodes[ids[t]])
  }

  // ---------- The search stack ----------

  function Tips(stack: seq<Frame>): (r: seq<Tip>)
    ensures |r| == |stack| && forall i :: 0 <= i < |r| ==> r[i] == stack[i].tip
  {
    seq(|stack|, i requires 0 <= i < |stack| => stack[i].tip)
  }

  ghost predicate FrameOk(g: Deps, f: Frame) {
    f.deps == DepsOf(g, f.tip) && f.next <= |f.deps|
  }

  /** Each vertex on the stack was met as a dependency of the one below it. */
  ghost predicate Stacked(g: Deps, stack: seq<Frame>) {
    && (forall i :: 0 <= i < |stack| ==> FrameOk(g, stack[i]))
    && (forall i :: 0 <= i < |stack| - 1 ==> stack[i].next > 0 && stack[i].deps[stack[i].next - 1] == stack[i + 1].tip)
    && (forall i, j :: 0 <= i < j < |stack| ==> stack[i].tip != stack[j].tip)
  }

  /** The vertices met are those stamped and those on the stack. */
  ghost predicate Split(known: set<Tip>, done: set<Tip>, stack: seq<Frame>) {
    && done <= known
    && (forall i :: 0 <= i < |stack| ==> stack[i].tip in known && stack[i].tip !in done)
    && forall t :: t in known && t !in done ==> t in Tips(stack)
  }

  /** Dependencies looked at before the current one are stamped; for the top frame, all of them. */
  ghost predicate Looked(done: set<Tip>, stack: seq<Frame>) {
    forall i, k :: 0 <= i < |stack| && 0 <= k < stack[i].next <= |stack[i].deps| && (i < |stack| - 1 ==> k < stack[i].next - 1) ==>
      stack[i].deps[k] in done
  }

  ghost predicate Searching(g: Deps, known: set<Tip>, done: set<Tip>, stack: seq<Frame>) {
    Stacked(g, stack) && Split(known, done, stack) && Looked(done, stack)
  }

  lemma StackLeads(g: Deps, stack: seq<Frame>, j: nat, d: Tip)
    requires Stacked(g, stack) && j < |stack| && d in DepsOf(g, stack[|stack| - 1].tip)
    ensures Leads(g, Tips(stack)[j..] + [d])
  {
    var p := Tips(stack)[j..] + [d];
    forall i | 0 <= i < |p| - 1 ensures p[i + 1] in DepsOf(g, p[i]) {
      if i < |p| - 2 {
        var f := stack[j + i];
        assert FrameOk(g, f);
        assert f.deps[f.next - 1] == stack[j + i + 1].tip;
      }
    }
  }

  /** Meeting an unstamped vertex means the stack leads back to it. */
  lemma UnstampedClosesCycle(g: Deps, known: set<Tip>, done: set<Tip>, stack: seq<Frame>, d: Tip)
    requires Searching(g, known, done, stack) && stack != [] && d in DepsOf(g, stack[|stack| - 1].tip)
    requires d in known && d !in done
    ensures HasCycle(g)
  {
    hide Stacked, Leads;
    var j :| 0 <= j < |stack| && Tips(stack)[j] == d;
    StackLeads(g, stack, j, d);
    assert (Tips(stack)[j..] + [d])[0] == d;
  }

  function Advanced(stack: seq<Frame>): seq<Frame>
    requires stack != []
  {
    stack[|stack| - 1 := stack[|stack| - 1].(next := stack[|stack| - 1].next + 1)]
  }

  lemma AdvancedShape(stack: seq<Frame>)
    requires stack != []
    ensures var r := Advanced(stack);
            && |r| == |stack| && (forall i :: 0 <= i < |stack| ==> r[i].tip == stack[i].tip && r[i].deps == stack[i].deps)
            && (forall i :: 0 <= i < |stack| - 1 ==> r[i] == stack[i])
            && r[|stack| - 1].next == stack[|stack| - 1].next + 1
  {}

  lemma AdvanceStacked(g: Deps, stack: seq<Frame>)
    requires Stacked(g, stack) && stack != [] && stack[|stack| - 1].next < |stack[|stack| - 1].deps|
    ensures Stacked(g, Advanced(stack))
  {
    hide Advanced;
    AdvancedShape(stack);
    var r := Advanced(stack);
    forall i | 0 <= i < |r| ensures FrameOk(g, r[i]) {
      assert FrameOk(g, stack[i]);
    }
  }

  lemma AdvanceLooked(done: set<Tip>, stack: seq<Frame>)
    requires Looked(done, stack) && stack != []
    requires var top := stack[|stack| - 1]; top.next < |top.deps| && top.deps[top.next] in done
    ensures Looked(done, Advanced(stack))
  {
    hide Advanced;
    AdvancedShape(stack);
    var r := Advanced(stack);
    forall i, k | 0 <= i < |r| && 0 <= k < r[i].next <= |r[i].deps| && (i < |r| - 1 ==> k < r[i].next - 1) ensures r[i].deps[k] in done {
      assert (i == |r| - 1 && k == stack[i].next) || stack[i].deps[k] in done;
    }
  }

  lemma AdvanceSplit(known: set<Tip>, done: set<Tip>, stack: seq<Frame>)
    requires Split(known, done, stack) && stack != []
    ensures Split(known, done, Advanced(stack))
  {
    hide Advanced;
    AdvancedShape(stack);
    assert Tips(Advanced(stack)) == Tips(stack);
  }

  /** Looking at a stamped dependency. */
  lemma Advances(g: Deps, known: set<Tip>, done: set<Tip>, stack: seq<Frame>)
    requires Searching(g, known, done, stack) && stack != []
    requires var top := stack[|stack| - 1]; top.next < |top.deps| && top.deps[top.next] in done
    ensures Searching(g, known, done, Advanced(stack))
  {
    hide Stacked, Split, Looked, Advanced;
    AdvanceStacked(g, stack);
    AdvanceSplit(known, done, stack);
    AdvanceLooked(done, stack);
  }

  /** Starting on a vertex not met before. */
  lemma Starts(g: Deps, known: set<Tip>, done: set<Tip>, t: Tip)
    requires Searching(g, known, done, []) && t !in known
    ensures Searching(g, known + {t}, done, [Frame(t, DepsOf(g, t), 0)])
  {
    assert Tips([Frame(t, DepsOf(g, t), 0)])[0] == t;
  }

  function Pushed(g: Deps, stack: seq<Frame>, d: Tip): seq<Frame>
    requires stack != []
  {
    Advanced(stack) + [Frame(d, DepsOf(g, d), 0)]
  }

  lemma PushedShape(g: Deps, stack: seq<Frame>, d: Tip)
    requires stack != []
    ensures var r := Pushed(g, stack, d);
            && |r| == |stack| + 1 && r[|stack|] == Frame(d, DepsOf(g, d), 0)
            && (forall i :: 0 <= i < |stack| ==> r[i].tip == stack[i].tip && r[i].deps == stack[i].deps)
            && (forall i :: 0 <= i < |stack| - 1 ==> r[i] == stack[i])
            && r[|stack| - 1].next == stack[|stack| - 1].next + 1
  {}

  lemma PushStacked(g: Deps, stack: seq<Frame>, d: Tip)
    requires Stacked(g, stack) && stack != [] && d !in Tips(stack)
    requires var top := stack[|stack| - 1]; top.next < |top.deps| && top.deps[top.next] == d
    ensures Stacked(g, Pushed(g, stack, d))
  {
    hide Pushed;
    PushedShape(g, stack, d);
    var r := Pushed(g, stack, d);
    forall i | 0 <= i < |r| ensures FrameOk(g, r[i]) {
      if i < |stack| {
        assert FrameOk(g, stack[i]);
      }
    }
    forall i | 0 <= i < |stack| ensures r[i].tip != d {
      assert Tips(stack)[i] == stack[i].tip;
    }
  }

  lemma PushSplit(g: Deps, known: set<Tip>, done: set<Tip>, stack: seq<Frame>, d: Tip)
    requires Split(known, done, stack) && stack != [] && d !in known
    ensures Split(known + {d}, done, Pushed(g, stack, d)) && d !in Tips(stack)
  {
    hide Pushed;
    PushedShape(g, stack, d);
    assert Tips(Pushed(g, stack, d)) == Tips(stack) + [d];
  }

  lemma PushLooked(g: Deps, done: set<Tip>, stack: seq<Frame>, d: Tip)
    requires Looked(done, stack) && stack != [] && stack[|stack| - 1].next < |stack[|stack| - 1].deps|
    ensures Looked(done, Pushed(g, stack, d))
  {
    hide Pushed;
    PushedShape(g, stack, d);
    var r := Pushed(g, stack, d);
    forall i, k | 0 <= i < |r| && 0 <= k < r[i].next <= |r[i].deps| && (i < |r| - 1 ==> k < r[i].next - 1) ensures r[i].deps[k] in done {
      assert i < |stack|;
      assert stack[i].deps[k] in done;
    }
  }

  lemma Pushes(g: Deps, known: set<Tip>, done: set<Tip>, stack: seq<Frame>, d: Tip)
    requires Searching(g, known, done, stack) && stack != [] && d !in known
    requires var top := stack[|stack| - 1]; top.next < |top.deps| && top.deps[top.next] == d
    ensures Searching(g, known + {d}, done, Pushed(g, stack, d))
  {
    hide Stacked, Split, Looked, Pushed;
    PushSplit(g, known, done, stack, d);
    PushStacked(g, stack, d);
    PushLooked(g, done, stack, d);
  }

  lemma PopLooked(done: set<Tip>, stack: seq<Frame>)
    requires Looked(done, stack) && stack != []
    requires forall i :: 0 <= i < |stack| - 1 ==> 0 < stack[i].next <= |stack[i].deps| && stack[i].deps[stack[i].next - 1] == stack[i + 1].tip
    ensures Looked(done + {stack[|stack| - 1].tip}, stack[..|stack| - 1])
  {
    var t, rest := stack[|stack| - 1].tip, stack[..|stack| - 1];
    forall i, k | 0 <= i < |rest| && 0 <= k < rest[i].next <= |rest[i].deps| && (i < |rest| - 1 ==> k < rest[i].next - 1)
      ensures rest[i].deps[k] in done + {t}
    {
      if k < rest[i].next - 1 {
        assert stack[i].deps[k] in done;
      }
    }
  }

  lemma PopSplit(known: set<Tip>, done: set<Tip>, stack: seq<Frame>)
    requires Split(known, done, stack) && stack != [] && forall i, j :: 0 <= i < j < |stack| ==> stack[i].tip != stack[j].tip
    ensures Split(known, done + {stack[|stack| - 1].tip}, stack[..|stack| - 1])
  {
    assert Tips(stack) == Tips(stack[..|stack| - 1]) + [stack[|stack| - 1].tip];
  }

  lemma TopLookedAt(g: Deps, done: set<Tip>, stack: seq<Frame>)
    requires Stacked(g, stack) && Looked(done, stack) && stack != [] && stack[|stack| - 1].next == |stack[|stack| - 1].deps|
    ensures forall d :: d in DepsOf(g, stack[|stack| - 1].tip) ==> d in done
  {
    var top := stack[|stack| - 1];
    assert FrameOk(g, top);
    forall k | 0 <= k < |top.deps| ensures top.deps[k] in done {
      assert stack[|stack| - 1].deps[k] in done;
    }
  }

  /** A vertex whose dependencies have all been looked at leaves the stack. */
  lemma Pops(g: Deps, known: set<Tip>, done: set<Tip>, stack: seq<Frame>)
    requires Searching(g, known, done, stack) && stack != [] && stack[|stack| - 1].next == |stack[|stack| - 1].deps|
    ensures var t := stack[|stack| - 1].tip;
            && t in known && t !in done && (forall d :: d in DepsOf(g, t) ==> d in done)
            && Searching(g, known, done + {t}, stack[..|stack| - 1])
  {
    hide Looked, DepsOf;
    TopLookedAt(g, done, stack);
    assert forall i :: 0 <= i < |stack| ==> FrameOk(g, stack[i]);
    PopLooked(done, stack);
    PopSplit(known, done, stack);
  }

  // ---------- Numbering ----------

  lemma Renumbered(ids: map<Tip, nat>, nodes: seq<Vertex>, t: Tip)
    requires Numbered(ids, nodes) && t !in ids
    ensures Numbered(ids[t := |nodes|], nodes + [Vertex(None, 0, 0)])
    ensures Done(ids[t := |nodes|], nodes + [Vertex(None, 0, 0)]) == Done(ids, nodes)
    ensures ids[t := |nodes|].Keys == ids.Keys + {t}
  {
    var ids2, nodes2 := ids[t := |nodes|], nodes + [Vertex(None, 0, 0)];
    forall u | u in ids2 ensures u in Done(ids2, nodes2) <==> u in Done(ids, nodes) {
      assert u != t ==> nodes2[ids2[u]] == nodes[ids[u]];
    }
  }

  lemma Restamped(ids: map<Tip, nat>, nodes: seq<Vertex>, t: Tip, s: Stamp)
    requires Numbered(ids, nodes) && t in ids && t !in Done(ids, nodes)
    ensures var nodes' := nodes[ids[t] := Vertex(Some(s.clock), s.chain, s.pos)];
            Numbered(ids, nodes') && Done(ids, nodes') == Done(ids, nodes)[t := s]
  {}

  // ---------- Clocks ----------

  method MaxInto(clock: seq<nat>, other: seq<nat>) returns (r: seq<nat>)
    requires |other| <= |clock|
    ensures |r| == |clock| && forall c :: 0 <= c < |r| ==> r[c] == if c < |other| && other[c] > clock[c] then other[c] else clock[c]
  {
    r := clock;
    for c := 0 to |other|
      invariant |r| == |clock|
      invariant forall k :: 0 <= k < |r| ==> r[k] == if k < c && other[k] > clock[k] then other[k] else clock[k]
    {
      r := r[c := if r[c] > other[c] then r[c] else other[c]];
    }
  }

  lemma JoinedNone(done: map<Tip, Stamp>, deps: seq<Tip>, clock: seq<nat>)
    requires deps == [] && forall c :: 0 <= c < |clock| ==> clock[c] == 0
    ensures Joined(done, deps, clock)
  {}

  lemma JoinedNext(done: map<Tip, Stamp>, deps: seq<Tip>, i: nat, clock: seq<nat>, r: seq<nat>)
    requires i < |deps| && Joined(done, deps[..i], clock) && deps[i] in done && |done[deps[i]].clock| <= |clock| == |r|
    requires var other := done[deps[i]].clock;
             forall c :: 0 <= c < |r| ==> r[c] == if c < |other| && other[c] > clock[c] then other[c] else clock[c]
    ensures Joined(done, deps[..i + 1], r)
  {
    assert deps[..i + 1] == deps[..i] + [deps[i]];
    forall c | 0 <= c < |r| && r[c] >= 1
      ensures exists d :: d in deps[..i + 1] && d in done && c < |done[d].clock| && done[d].clock[c] == r[c]
    {
      if r[c] == clock[c] {
        var d :| d in deps[..i] && d in done && c < |done[d].clock| && done[d].clock[c] == clock[c];
        assert d in deps[..i + 1];
      } else {
        assert deps[i] in deps[..i + 1];
      }
    }
  }

  // ---------- Termination ----------

  ghost function Universe(g: Deps): set<Tip> {
    set t, d | t in g && d in g[t] :: d
  }

  ghost function Work(stack: seq<Frame>): nat {
    if stack == [] then 0
    else
      var top := stack[|stack| - 1];
      Work(stack[..|stack| - 1]) + 1 + if top.next <= |top.deps| then |top.deps| - top.next else 0
  }

  lemma WorkAdvances(stack: seq<Frame>)
    requires stack != [] && stack[|stack| - 1].next < |stack[|stack| - 1].deps|
    ensures Work(Advanced(stack)) < Work(stack)
  {
    assert Advanced(stack)[..|stack| - 1] == stack[..|stack| - 1];
  }

  lemma FewerUnknown(all: set<Tip>, known: set<Tip>, d: Tip)
    requires d in all && d !in known
    ensures |all - (known + {d})| < |all - known|
  {
    assert all - (known + {d}) == (all - known) - {d};
  }

  lemma DepsInUniverse(g: Deps, t: Tip, d: Tip)
    requires d in DepsOf(g, t)
    ensures d in Universe(g)
  {}

  // ---------- The index ----------

  /** Between calls every vertex met is stamped. */
  ghost predicate Indexed(g: Deps, ids: map<Tip, nat>, nodes: seq<Vertex>, heads: seq<nat>) {
    Done(ids, nodes).Keys == ids.Keys && Stamped(g, Done(ids, nodes), heads)
  }

  /** A cached search result holds exactly what its start reaches. */
  ghost predicate Cached(g: Deps, fallback: map<Tip, set<Tip>>) {
    forall t :: t in fallback ==> forall u :: u in fallback[t] <==> Reaches(g, t, u)
  }

  // ---------- Chains of candidates ----------

  /** Later candidates on the chain reach earlier ones. */
  ghost predicate InOrder(g: Deps, tips: seq<Tip>, chain: seq<nat>) {
    && (forall i :: 0 <= i < |chain| ==> chain[i] < |tips|)
    && forall i, j :: 0 <= i <= j < |chain| ==> Reaches(g, tips[chain[j]], tips[chain[i]])
  }

  /** The candidate occurs once, on one of the chains. */
  ghost predicate OnceAmong(chains: seq<seq<nat>>, i: nat) {
    exists c :: 0 <= c < |chains| && multiset(chains[c])[i] == 1
             && forall k :: 0 <= k < |chains| && k != c ==> i !in chains[k]
  }

  function Positions(n: nat): seq<nat> {
    seq(n, i => i)
  }

  function GroupOf(chain: seq<nat>, c: nat, n: nat): (r: seq<nat>)
    requires n <= |chain|
    ensures forall i :: i in r <==> 0 <= i < n && chain[i] == c
  {
    if n == 0 then [] else if chain[n - 1] == c then GroupOf(chain, c, n - 1) + [n - 1] else GroupOf(chain, c, n - 1)
  }

  function Grouped(chain: seq<nat>, count: nat): seq<seq<nat>> {
    seq(count, c requires 0 <= c < count => GroupOf(chain, c, |chain|))
  }

  lemma {:induction false} GroupOfOnce(chain: seq<nat>, c: nat, n: nat, i: nat)
    requires n <= |chain| && i < n && chain[i] == c
    ensures multiset(GroupOf(chain, c, n))[i] == 1
  {
    if i == n - 1 {
      assert i !in GroupOf(chain, c, n - 1);
    } else {
      GroupOfOnce(chain, c, n - 1, i);
    }
  }

  lemma GroupedOnce(chain: seq<nat>, count: nat, i: nat)
    requires i < |chain| && chain[i] < count
    ensures OnceAmong(Grouped(chain, count), i)
  {
    GroupOfOnce(chain, chain[i], |chain|, i);
    var chains := Grouped(chain, count);
    assert multiset(chains[chain[i]])[i] == 1;
  }

  lemma GroupInRange(chain: seq<nat>, count: nat, c: nat)
    requires c < count
    ensures forall i :: i in Grouped(chain, count)[c] ==> i < |chain| && chain[i] == c
  {}

  lemma SamePlaces(a: seq<nat>, b: seq<nat>)
    requires multiset(a) == multiset(b)
    ensures forall i :: i in a <==> i in b
  {
    forall i ensures i in a <==> i in b {
      assert i in multiset(a) <==> i in multiset(b);
    }
  }

  lemma SameOccurrence(a: seq<seq<nat>>, b: seq<seq<nat>>, i: nat)
    requires |a| == |b| && OnceAmong(a, i) && forall k :: 0 <= k < |a| ==> multiset(b[k]) == multiset(a[k])
    ensures OnceAmong(b, i)
  {
    var c :| 0 <= c < |a| && multiset(a[c])[i] == 1 && forall k :: 0 <= k < |a| && k != c ==> i !in a[k];
    assert multiset(b[c])[i] == 1;
    forall k | 0 <= k < |b| && k != c ensures i !in b[k] {
      SamePlaces(a[k], b[k]);
    }
  }

  ghost predicate SortedBy(pos: seq<nat>, chain: seq<nat>) {
    && (forall i :: 0 <= i < |chain| ==> chain[i] < |pos|)
    && forall i, j :: 0 <= i <= j < |chain| ==> pos[chain[i]] <= pos[chain[j]]
  }

  function InsertByPos(pos: seq<nat>, x: nat, chain: seq<nat>): seq<nat>
    requires x < |pos| && forall i :: 0 <= i < |chain| ==> chain[i] < |pos|
  {
    if chain == [] then [x]
    else if pos[x] <= pos[chain[0]] then [x] + chain
    else [chain[0]] + InsertByPos(pos, x, chain[1..])
  }

  lemma {:induction false} InsertHolds(pos: seq<nat>, x: nat, chain: seq<nat>)
    requires x < |pos| && forall i :: 0 <= i < |chain| ==> chain[i] < |pos|
    ensures multiset(InsertByPos(pos, x, chain)) == multiset(chain) + multiset{x}
    decreases |chain|
  {
    if chain != [] && pos[x] > pos[chain[0]] {
      InsertHolds(pos, x, chain[1..]);
      assert chain == [chain[0]] + chain[1..];
    }
  }

  lemma {:induction false} InsertSorts(pos: seq<nat>, x: nat, chain: seq<nat>, floor: nat)
    requires x < |pos| && SortedBy(pos, chain) && floor <= pos[x] && forall i :: 0 <= i < |chain| ==> floor <= pos[chain[i]]
    ensures var r := InsertByPos(pos, x, chain); SortedBy(pos, r) && forall i :: 0 <= i < |r| ==> floor <= pos[r[i]]
    decreases |chain|
  {
    if chain != [] && pos[x] > pos[chain[0]] {
      var rest := chain[1..];
      assert forall i :: 0 <= i < |rest| ==> rest[i] == chain[i + 1];
      InsertSorts(pos, x, rest, pos[chain[0]]);
    }
  }

  method SortChain(pos: seq<nat>, chain: seq<nat>) returns (r: seq<nat>)
    requires forall i :: i in chain ==> i < |pos|
    ensures SortedBy(pos, r) && multiset(r) == multiset(chain)
  {
    r := [];
    for k := 0 to |chain|
      invariant SortedBy(pos, r) && multiset(r) == multiset(chain[..k])
    {
      assert chain[k] in chain;
      assert chain[..k + 1] == chain[..k] + [chain[k]];
      InsertHolds(pos, chain[k], r);
      InsertSorts(pos, chain[k], r, 0);
      r := InsertByPos(pos, chain[k], r);
    }
    assert chain[..|chain|] == chain;
  }

  /** Each group has been sorted by position. */
  ghost predicate AllSorted(pos: seq<nat>, groups: seq<seq<nat>>, chains: seq<seq<nat>>) {
    |chains| == |groups| && forall k :: 0 <= k < |chains| ==> SortedBy(pos, chains[k]) && multiset(chains[k]) == multiset(groups[k])
  }

  method SortAll(pos: seq<nat>, groups: seq<seq<nat>>) returns (chains: seq<seq<nat>>)
    requires forall c :: 0 <= c < |groups| ==> forall i :: i in groups[c] ==> i < |pos|
    ensures AllSorted(pos, groups, chains)
  {
    hide SortedBy;
    chains := [];
    for c := 0 to |groups|
      invariant |chains| == c && forall k :: 0 <= k < c ==> SortedBy(pos, chains[k]) && multiset(chains[k]) == multiset(groups[k])
    {
      var sorted := SortChain(pos, groups[c]);
      chains := chains + [sorted];
    }
  }

  lemma SortedOnce(pos: seq<nat>, groups: seq<seq<nat>>, chains: seq<seq<nat>>, i: nat)
    requires AllSorted(pos, groups, chains) && OnceAmong(groups, i)
    ensures OnceAmong(chains, i)
  {
    hide OnceAmong, SortedBy;
    SameOccurrence(groups, chains, i);
  }

  lemma ChainsFit(g: Deps, done: map<Tip, Stamp>, heads: seq<nat>)
    requires Stamped(g, done, heads)
    ensures forall t :: t in done ==> done[t].chain < |heads|
  {
    hide Monotone, AllGrounded, Chained;
    forall t | t in done ensures done[t].chain < |heads| {
      assert Fits(done[t], heads);
    }
  }

  /** Positions on one chain follow the dependency paths. */
  lemma SortedIsOrdered(g: Deps, done: map<Tip, Stamp>, heads: seq<nat>, tips: seq<Tip>, chain: seq<nat>, c: nat)
    requires Stamped(g, done, heads) && (forall i :: 0 <= i < |tips| ==> tips[i] in done)
    requires forall i :: i in chain ==> i < |tips| && done[tips[i]].chain == c
    requires SortedBy(seq(|tips|, i requires 0 <= i < |tips| => done[tips[i]].pos), chain)
    ensures InOrder(g, tips, chain)
  {
    hide Reaches, Monotone, AllGrounded, Fitting;
    var pos := seq(|tips|, i requires 0 <= i < |tips| => done[tips[i]].pos);
    assert forall i :: 0 <= i < |chain| ==> chain[i] in chain;
    forall i, j | 0 <= i <= j < |chain| ensures Reaches(g, tips[chain[j]], tips[chain[i]]) {
      assert pos[chain[i]] <= pos[chain[j]];
    }
  }

  lemma AncestorsBelow(g: Deps, tip: Tip, tips: seq<Tip>, chain: seq<nat>, m: nat)
    requires InOrder(g, tips, chain) && m < |chain| && Reaches(g, tip, tips[chain[m]])
    ensures forall k :: 0 <= k <= m ==> Reaches(g, tip, tips[chain[k]])
  {
    hide Reaches;
    forall k | 0 <= k <= m ensures Reaches(g, tip, tips[chain[k]]) {
      ReachesOnward(g, tip, tips[chain[m]], tips[chain[k]]);
    }
  }

  lemma NoAncestorsAbove(g: Deps, tip: Tip, tips: seq<Tip>, chain: seq<nat>, m: nat)
    requires InOrder(g, tips, chain) && m < |chain| && !Reaches(g, tip, tips[chain[m]])
    ensures forall k :: m <= k < |chain| ==> !Reaches(g, tip, tips[chain[k]])
  {
    hide Reaches;
    forall k | m <= k < |chain| ensures !Reaches(g, tip, tips[chain[k]]) {
      if Reaches(g, tip, tips[chain[k]]) {
        AncestorsBelow(g, tip, tips, chain, k);
      }
    }
  }

  lemma DescendantsAbove(g: Deps, tip: Tip, tips: seq<Tip>, chain: seq<nat>, m: nat)
    requires InOrder(g, tips, chain) && m < |chain| && Reaches(g, tips[chain[m]], tip)
    ensures forall k :: m <= k < |chain| ==> Reaches(g, tips[chain[k]], tip)
  {
    hide Reaches;
    forall k | m <= k < |chain| ensures Reaches(g, tips[chain[k]], tip) {
      ReachesOnward(g, tips[chain[k]], tips[chain[m]], tip);
    }
  }

  lemma NoDescendantsBelow(g: Deps, tip: Tip, tips: seq<Tip>, chain: seq<nat>, m: nat)
    requires InOrder(g, tips, chain) && m < |chain| && !Reaches(g, tips[chain[m]], tip)
    ensures forall k :: 0 <= k <= m ==> !Reaches(g, tips[chain[k]], tip)
  {
    hide Reaches;
    forall k | 0 <= k <= m ensures !Reaches(g, tips[chain[k]], tip) {
      if Reaches(g, tips[chain[k]], tip) {
        DescendantsAbove(g, tip, tips, chain, k);
      }
    }
  }

  // ---------- The search used after a cycle ----------

  /** Only reachable tips are marked, and a marked tip waits on the stack or has all its
      dependencies marked. */
  ghost predicate Flooding(g: Deps, from: Tip, seen: set<Tip>, stack: seq<Tip>) {
    && from in seen && (forall t :: t in stack ==> t in seen)
    && (forall t :: t in seen ==> Reaches(g, from, t))
    && (forall t, d :: t in seen && d in DepsOf(g, t) ==> d in seen || t in stack)
  }

  /** The same, while the dependencies of `cur` are being marked. */
  ghost predicate FloodingBut(g: Deps, from: Tip, seen: set<Tip>, stack: seq<Tip>, cur: Tip) {
    && from in seen && cur in seen && (forall t :: t in stack ==> t in seen)
    && (forall t :: t in seen ==> Reaches(g, from, t))
    && (forall t, d :: t in seen && t != cur && d in DepsOf(g, t) ==> d in seen || t in stack)
  }

  lemma FloodStarts(g: Deps, from: Tip)
    ensures Flooding(g, from, {from}, [from])
  {
    ReachesItself(g, from);
  }

  lemma FloodTaken(g: Deps, from: Tip, seen: set<Tip>, stack: seq<Tip>, cur: Tip)
    requires Flooding(g, from, seen, stack + [cur])
    ensures FloodingBut(g, from, seen, stack, cur)
  {
    hide Reaches;
    assert cur in stack + [cur];
  }

  lemma FloodSpreads(g: Deps, from: Tip, seen: set<Tip>, stack: seq<Tip>, cur: Tip, d: Tip)
    requires FloodingBut(g, from, seen, stack, cur) && d in DepsOf(g, cur) && d !in seen
    ensures FloodingBut(g, from, seen + {d}, stack + [d], cur)
  {
    hide Reaches;
    ReachesLast(g, from, cur, d);
  }

  lemma FloodDone(g: Deps, from: Tip, seen: set<Tip>, stack: seq<Tip>, cur: Tip)
    requires FloodingBut(g, from, seen, stack, cur) && forall d :: d in DepsOf(g, cur) ==> d in seen
    ensures Flooding(g, from, seen, stack)
  {
    hide Reaches;
  }

  lemma FloodEnds(g: Deps, from: Tip, seen: set<Tip>)
    requires Flooding(g, from, seen, [])
    ensures forall t :: t in seen <==> Reaches(g, from, t)
  {
    hide Reaches;
    forall t | Reaches(g, from, t) ensures t in seen {
      FloodCatches(g, from, seen, t);
    }
  }

  lemma FloodCatches(g: Deps, from: Tip, seen: set<Tip>, t: Tip)
    requires from in seen && (forall t, d :: t in seen && d in DepsOf(g, t) ==> d in seen) && Reaches(g, from, t)
    ensures t in seen
  {
    var p :| Leads(g, p) && p[0] == from && p[|p| - 1] == t;
    LeadsInside(g, seen, p);
  }

  lemma CachedGrows(g: Deps, fallback: map<Tip, set<Tip>>, from: Tip, seen: set<Tip>)
    requires Cached(g, fallback) && forall t :: t in seen <==> Reaches(g, from, t)
    ensures Cached(g, fallback[from := seen])
  {
    hide Reaches;
  }

  lemma SpreadShrinks(all: set<Tip>, a: set<Tip>, b: set<Tip>)
    requires a <= b <= all && a != b
    ensures |all - b| < |all - a|
  {
    var t :| t in b && t !in a;
    assert all - b <= all - a - {t};
    var x, y := all - b, all - a - {t};
    assert y == x + (y - x);
  }

  class Index {
    const graph: Deps
    var ids: map<Tip, nat>
    var nodes: seq<Vertex>
    var heads: seq<nat>
    var cyclic: bool
    var fallback: map<Tip, set<Tip>>

    ghost predicate Valid()
      reads this
    {
      && Numbered(ids, nodes)
      && (cyclic ==> HasCycle(graph))
      && (!cyclic ==> Indexed(graph, ids, nodes, heads))
      && Cached(graph, fallback)
    }

    constructor (graph: Deps)
      ensures Valid() && this.graph == graph && !cyclic && ids == map[]
    {
      this.graph := graph;
      ids, nodes, heads, cyclic, fallback := map[], [], [], false, map[];
    }

    /** The pointwise maximum of the clocks of the dependencies. */
    method JoinClocks(ghost t: Tip, deps: seq<Tip>) returns (clock: seq<nat>)
      requires deps == DepsOf(graph, t) && Stamped(graph, Done(ids, nodes), heads)
      requires forall d :: d in deps ==> d in Done(ids, nodes)
      ensures JoinsDeps(graph, Done(ids, nodes), t, heads, clock) && clock[|heads|] == 0
    {
      hide Monotone, AllGrounded, Chained, Joined;
      clock := seq(|heads| + 1, _ => 0);
      JoinedNone(Done(ids, nodes), deps[..0], clock);
      for i := 0 to |deps|
        invariant |clock| == |heads| + 1 && clock[|heads|] == 0 && Joined(Done(ids, nodes), deps[..i], clock)
      {
        assert deps[i] in Done(ids, nodes) && Fits(Done(ids, nodes)[deps[i]], heads);
        var next := MaxInto(clock, nodes[ids[deps[i]]].clock.value);
        JoinedNext(Done(ids, nodes), deps, i, clock, next);
        clock := next;
      }
      assert deps[..|deps|] == deps;
    }

    /** The first chain whose head the clock has reached, or a new one. */
    method PickChain(clock: seq<nat>) returns (chain: nat)
      requires |clock| == |heads| + 1
      ensures chain <= |heads| && (chain < |heads| ==> clock[chain] == heads[chain])
      ensures forall i :: 0 <= i < chain ==> clock[i] != heads[i]
    {
      chain := 0;
      while chain < |heads| && clock[chain] != heads[chain]
        invariant chain <= |heads| && forall i :: 0 <= i < chain ==> clock[i] != heads[i]
      {
        chain := chain + 1;
      }
    }

    /** Stamps a vertex whose dependencies are all stamped. */
    method Finish(t: Tip, deps: seq<Tip>)
      requires Numbered(ids, nodes) && Stamped(graph, Done(ids, nodes), heads)
      requires t in ids && t !in Done(ids, nodes) && deps == DepsOf(graph, t) && forall d :: d in deps ==> d in Done(ids, nodes)
      modifies this`nodes, this`heads
      ensures Numbered(ids, nodes) && Stamped(graph, Done(ids, nodes), heads)
      ensures Done(ids, nodes).Keys == old(Done(ids, nodes)).Keys + {t}
    {
      hide Stamped, JoinsDeps, Numbered, Done;
      ghost var done := Done(ids, nodes);
      var clock := JoinClocks(t, deps);
      ClockLength(graph, done, t, heads, clock);
      var chain := PickChain(clock);
      AppendKeepsStamped(graph, done, heads, t, clock, chain);
      ghost var stamp := NextStamp(heads, clock, chain);
      Restamped(ids, nodes, t, stamp);
      NumberInRange(ids, nodes, t);
      if chain == |heads| {
        heads := heads + [1];
      } else {
        heads := heads[chain := heads[chain] + 1];
      }
      clock := clock[chain := heads[chain]];
      assert Stamp(clock[..|heads|], chain, clock[chain]) == stamp;
      nodes := nodes[ids[t] := Vertex(Some(clock[..|heads|]), chain, clock[chain])];
    }

    /** Give a vertex its number; it is stamped later. */
    method Meet(t: Tip)
      requires Numbered(ids, nodes) && t !in ids
      modifies this`ids, this`nodes
      ensures Numbered(ids, nodes) && ids.Keys == old(ids).Keys + {t} && Done(ids, nodes) == Done(old(ids), old(nodes))
    {
      hide Numbered, Done;
      Renumbered(ids, nodes, t);
      ids, nodes := ids[t := |nodes|], nodes + [Vertex(None, 0, 0)];
    }

    /** Go on with a dependency that has not been met. */
    method Descend(stack: seq<Frame>, dep: Tip) returns (r: seq<Frame>)
      requires Numbered(ids, nodes) && Searching(graph, ids.Keys, Done(ids, nodes).Keys, stack) && stack != [] && dep !in ids
      requires var top := stack[|stack| - 1]; top.next < |top.deps| && top.deps[top.next] == dep
      modifies this`ids, this`nodes
      ensures Numbered(ids, nodes) && ids.Keys == old(ids).Keys + {dep} && Done(ids, nodes) == Done(old(ids), old(nodes))
      ensures Searching(graph, ids.Keys, Done(ids, nodes).Keys, r)
    {
      hide Numbered, Searching, Done, Pushed, DepsOf;
      Pushes(graph, ids.Keys, Done(ids, nodes).Keys, stack, dep);
      Meet(dep);
      r := Pushed(graph, stack, dep);
    }

    /** Stamp the top of the stack once all its dependencies are stamped. */
    method Climb(stack: seq<Frame>) returns (r: seq<Frame>)
      requires Numbered(ids, nodes) && Stamped(graph, Done(ids, nodes), heads) && Searching(graph, ids.Keys, Done(ids, nodes).Keys, stack)
      requires stack != [] && stack[|stack| - 1].next == |stack[|stack| - 1].deps|
      modifies this`nodes, this`heads
      ensures Numbered(ids, nodes) && Stamped(graph, Done(ids, nodes), heads) && r == stack[..|stack| - 1]
      ensures Searching(graph, ids.Keys, Done(ids, nodes).Keys, r)
    {
      hide Numbered, Stamped, Searching, DepsOf, Done;
      var f := stack[|stack| - 1];
      TopFrame(graph, ids.Keys, Done(ids, nodes).Keys, stack);
      Pops(graph, ids.Keys, Done(ids, nodes).Keys, stack);
      Finish(f.tip, f.deps);
      r := stack[..|stack| - 1];
    }

    /** One move of the search: down to a new dependency, past a stamped one, or back up after
        stamping; false when a dependency is on the stack. */
    method Move(stack: seq<Frame>, ghost all: set<Tip>) returns (ok: bool, r: seq<Frame>)
      requires Numbered(ids, nodes) && Stamped(graph, Done(ids, nodes), heads) && Searching(graph, ids.Keys, Done(ids, nodes).Keys, stack)
      requires stack != [] && Universe(graph) <= all
      modifies this`ids, this`nodes, this`heads
      ensures Numbered(ids, nodes) && Stamped(graph, Done(ids, nodes), heads) && old(ids).Keys <= ids.Keys
      ensures !ok ==> HasCycle(graph)
      ensures ok ==> Searching(graph, ids.Keys, Done(ids, nodes).Keys, r)
      ensures ok ==> |all - ids.Keys| < |all - old(ids).Keys| || (ids.Keys == old(ids).Keys && Work(r) < Work(stack))
    {
      hide Numbered, Stamped, Searching, DepsOf, Done, HasCycle, Universe, Work, Pushed, Advanced;
      var f := stack[|stack| - 1];
      TopFrame(graph, ids.Keys, Done(ids, nodes).Keys, stack);
      if f.next == |f.deps| {
        WorkPops(stack);
        r := Climb(stack);
        return true, r;
      }
      var dep := f.deps[f.next];
      assert dep in f.deps;
      if dep !in ids {
        DepsInUniverse(graph, f.tip, dep);
        FewerUnknown(all, ids.Keys, dep);
        r := Descend(stack, dep);
        return true, r;
      }
      DoneWhenStamped(ids, nodes, dep);
      if nodes[ids[dep]].clock.None? {
        UnstampedClosesCycle(graph, ids.Keys, Done(ids, nodes).Keys, stack, dep);
        return false, stack;
      }
      Advances(graph, ids.Keys, Done(ids, nodes).Keys, stack);
      WorkAdvances(stack);
      return true, Advanced(stack);
    }

    /** Depth-first from one tip that has not been met; false when it runs into a cycle. */
    method Explore(tip: Tip) returns (ok: bool)
      requires Valid() && !cyclic && tip !in ids
      modifies this`ids, this`nodes, this`heads, this`cyclic
      ensures Valid() && ok == !cyclic
      ensures ok ==> tip in ids && old(ids).Keys <= ids.Keys
    {
      hide Numbered, Stamped, Searching, DepsOf, Done, HasCycle, Cached, Universe, Work;
      ghost var all := Universe(graph) + {tip};
      Idle(graph, ids.Keys);
      Starts(graph, ids.Keys, Done(ids, nodes).Keys, tip);
      Meet(tip);
      var stack := [Frame(tip, DepsOf(graph, tip), 0)];
      while stack != []
        invariant Numbered(ids, nodes) && Stamped(graph, Done(ids, nodes), heads)
        invariant Searching(graph, ids.Keys, Done(ids, nodes).Keys, stack)
        invariant !cyclic && tip in ids && old(ids).Keys <= ids.Keys
        decreases |all - ids.Keys|, Work(stack)
      {
        ok, stack := Move(stack, all);
        if !ok {
          cyclic := true;
          return false;
        }
      }
      NothingOpen(graph, ids.Keys, Done(ids, nodes).Keys);
      ok := true;
    }

    /** Brings the tips and everything they reach into the index. */
    method Add(tips: seq<Tip>) returns (ok: bool)
      requires Valid()
      modifies this`ids, this`nodes, this`heads, this`cyclic
      ensures Valid() && ok == !cyclic && (old(cyclic) ==> cyclic)
      ensures ok ==> old(ids).Keys <= ids.Keys && forall t :: t in tips ==> t in ids
      ensures !HasCycle(graph) ==> ok
    {
      hide Numbered, Indexed, HasCycle, Cached;
      if cyclic {
        return false;
      }
      for i := 0 to |tips|
        invariant Valid() && !cyclic && old(ids).Keys <= ids.Keys && forall t :: t in tips[..i] ==> t in ids
      {
        if tips[i] !in ids {
          ok := Explore(tips[i]);
          if !ok {
            return;
          }
        }
      }
      ok := true;
    }

    /** The search used once a cycle has been met; results are kept per start. */
    method ReachesCyclic(from: Tip, target: Tip) returns (found: bool)
      requires Valid()
      modifies this`fallback
      ensures Valid() && (found <==> Reaches(graph, from, target))
    {
      hide Numbered, Indexed, HasCycle, Reaches, DepsOf, Universe, Flooding;
      if from !in fallback {
        ghost var all := Universe(graph) + {from};
        var seen, stack := {from}, [from];
        FloodStarts(graph, from);
        while stack != []
          modifies {}
          invariant Flooding(graph, from, seen, stack) && seen <= all
          decreases |all - seen|, |stack|
        {
          var cur := stack[|stack| - 1];
          assert stack == stack[..|stack| - 1] + [cur];
          stack := stack[..|stack| - 1];
          ghost var before := seen;
          seen, stack := Spread(from, cur, DepsOf(graph, cur), seen, stack, all);
          if seen != before {
            SpreadShrinks(all, before, seen);
          }
        }
        FloodEnds(graph, from, seen);
        CachedGrows(graph, fallback, from, seen);
        fallback := fallback[from := seen];
      }
      found := target in fallback[from];
    }

    /** Marks and stacks the dependencies not seen before. */
    method Spread(ghost from: Tip, ghost cur: Tip, deps: seq<Tip>, seen0: set<Tip>, stack0: seq<Tip>, ghost all: set<Tip>)
      returns (seen: set<Tip>, stack: seq<Tip>)
      requires deps == DepsOf(graph, cur) && Flooding(graph, from, seen0, stack0 + [cur]) && seen0 <= all && Universe(graph) <= all
      ensures Flooding(graph, from, seen, stack) && seen0 <= seen <= all && (seen == seen0 ==> stack == stack0)
    {
      hide Reaches, Flooding, DepsOf, Universe;
      seen, stack := seen0, stack0;
      FloodTaken(graph, from, seen0, stack0, cur);
      for i := 0 to |deps|
        invariant FloodingBut(graph, from, seen, stack, cur) && seen0 <= seen <= all && (seen == seen0 ==> stack == stack0)
        invariant forall d :: d in deps[..i] ==> d in seen
      {
        var tip := deps[i];
        assert tip in deps;
        DepsInUniverse(graph, cur, tip);
        if tip !in seen {
          FloodSpreads(graph, from, seen, stack, cur, tip);
          seen, stack := seen + {tip}, stack + [tip];
        }
      }
      assert deps[..|deps|] == deps;
      FloodDone(graph, from, seen, stack, cur);
    }

    /** Whether a dependency path, possibly empty, leads from one tip to the other. */
    method Query(from: Tip, target: Tip) returns (r: bool)
      requires Valid()
      modifies this
      ensures Valid() && (old(cyclic) ==> cyclic)
      ensures r <==> Reaches(graph, from, target)
    {
      hide HasCycle, Reaches, Stamped, Cached;
      if from == target {
        ReachesItself(graph, from);
        return true;
      }
      var ok := Add([from]);
      assert from in [from];
      if !ok {
        r := ReachesCyclic(from, target);
        return;
      }
      CoversIffReaches(graph, Done(ids, nodes), heads, from, target);
      if target !in ids {
        return false;
      }
      assert target in Done(ids, nodes) && from in Done(ids, nodes);
      var ancestor := nodes[ids[target]];
      var clock := nodes[ids[from]].clock.value;
      r := ancestor.chain < |clock| && clock[ancestor.chain] >= ancestor.pos;
    }

    /** Groups candidate positions by chain, each chain in dependency order; a single group in
        the given order once a cycle has been met. */
    method CandidateChains(tips: seq<Tip>) returns (chains: seq<seq<nat>>)
      requires Valid()
      modifies this`ids, this`nodes, this`heads, this`cyclic
      ensures Valid()
      ensures cyclic ==> chains == [Positions(|tips|)]
      ensures !cyclic ==> forall i :: 0 <= i < |tips| ==> OnceAmong(chains, i)
      ensures !cyclic ==> forall c :: 0 <= c < |chains| ==> InOrder(graph, tips, chains[c])
    {
      hide HasCycle, Cached, Numbered, Stamped, OnceAmong, InOrder;
      var ok := Add(tips);
      if !ok {
        return [Positions(|tips|)];
      }
      ghost var done := Done(ids, nodes);
      assert forall i :: 0 <= i < |tips| ==> tips[i] in done;
      ChainsFit(graph, done, heads);
      var ids, nodes := ids, nodes;
      var chain := seq(|tips|, i requires 0 <= i < |tips| => nodes[ids[tips[i]]].chain);
      var pos := seq(|tips|, i requires 0 <= i < |tips| => nodes[ids[tips[i]]].pos);
      var groups := Grouped(chain, |heads|);
      forall c | 0 <= c < |groups| ensures forall i :: i in groups[c] ==> i < |pos| {
        GroupInRange(chain, |heads|, c);
      }
      chains := SortAll(pos, groups);
      forall i | 0 <= i < |tips| ensures OnceAmong(chains, i) {
        GroupedOnce(chain, |heads|, i);
        SortedOnce(pos, groups, chains, i);
      }
      forall k | 0 <= k < |chains| ensures InOrder(graph, tips, chains[k]) {
        GroupInRange(chain, |heads|, k);
        SamePlaces(groups[k], chains[k]);
        SortedIsOrdered(graph, done, heads, tips, chains[k], k);
      }
    }

    /** The positions on a chain of candidates that are neither ancestors nor descendants of the
        tip, found by two binary searches. */
    method ConcurrentRange(tip: Tip, chain: seq<nat>, tips: seq<Tip>) returns (first: nat, last: nat)
      requires Valid() && (!cyclic ==> InOrder(graph, tips, chain))
      modifies this
      ensures Valid() && first <= last <= |chain|
      ensures old(cyclic) ==> first == 0 && last == |chain|
      ensures !old(cyclic) ==> forall i :: 0 <= i < |chain| ==>
                (first <= i < last <==> !Reaches(graph, tip, tips[chain[i]]) && !Reaches(graph, tips[chain[i]], tip))
    {
      hide Valid, Reaches;
      if cyclic {
        return 0, |chain|;
      }
      var i, j := 0, |chain|;
      while i < j
        invariant Valid() && 0 <= i <= j <= |chain|
        invariant forall k :: 0 <= k < i ==> Reaches(graph, tip, tips[chain[k]])
        invariant forall k :: j <= k < |chain| ==> !Reaches(graph, tip, tips[chain[k]])
      {
        var m := (i + j) / 2;
        var r := Query(tip, tips[chain[m]]);
        if r {
          AncestorsBelow(graph, tip, tips, chain, m);
          i := m + 1;
        } else {
          NoAncestorsAbove(graph, tip, tips, chain, m);
          j := m;
        }
      }
      first := i;
      i, j := 0, |chain|;
      while i < j
        invariant Valid() && 0 <= i <= j <= |chain|
        invariant forall k :: 0 <= k < i ==> !Reaches(graph, tips[chain[k]], tip)
        invariant forall k :: j <= k < |chain| ==> Reaches(graph, tips[chain[k]], tip)
      {
        var m := (i + j) / 2;
        var r := Query(tips[chain[m]], tip);
        if r {
          DescendantsAbove(graph, tip, tips, chain, m);
          j := m;
        } else {
          NoDescendantsBelow(graph, tip, tips, chain, m);
          i := m + 1;
        }
      }
      last := if first > i then first else i;
    }
  }

  lemma ClockLength(g: Deps, done: map<Tip, Stamp>, t: Tip, heads: seq<nat>, clock: seq<nat>)
    requires JoinsDeps(g, done, t, heads, clock)
    ensures |clock| == |heads| + 1
  {}

  lemma NumberInRange(ids: map<Tip, nat>, nodes: seq<Vertex>, t: Tip)
    requires Numbered(ids, nodes) && t in ids
    ensures ids[t] < |nodes|
  {}

  lemma Idle(g: Deps, known: set<Tip>)
    ensures Searching(g, known, known, [])
  {}

  lemma TopFrame(g: Deps, known: set<Tip>, done: set<Tip>, stack: seq<Frame>)
    requires Searching(g, known, done, stack) && stack != []
    ensures var f := stack[|stack| - 1]; f.deps == DepsOf(g, f.tip) && f.next <= |f.deps|
  {
    assert FrameOk(g, stack[|stack| - 1]);
  }

  lemma DoneWhenStamped(ids: map<Tip, nat>, nodes: seq<Vertex>, t: Tip)
    requires Numbered(ids, nodes) && t in ids
    ensures ids[t] < |nodes| && (t in Done(ids, nodes) <==> nodes[ids[t]].clock.Some?)
  {}

  lemma WorkPops(stack: seq<Frame>)
    requires stack != []
    ensures Work(stack[..|stack| - 1]) < Work(stack)
  {}

  lemma NothingOpen(g: Deps, known: set<Tip>, done: set<Tip>)
    requires Searching(g, known, done, [])
    ensures known == done
  {}
}
