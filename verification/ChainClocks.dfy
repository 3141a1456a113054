/** Chain clocks: integer comparisons that decide reachability in a dependency graph. */
module ChainClocks {
  import opened Effects

  /** The dependencies of the effects that are present. */
  type Deps = map<Tip, seq<Tip>>

  /** An absent effect is reachable but leads nowhere. */
  function DepsOf(g: Deps, t: Tip): seq<Tip> {
    if t in g then g[t] else []
  }

  // ---------- Plain reachability ----------

  ghost predicate Leads(g: Deps, p: seq<Tip>) {
    p != [] && forall i :: 0 <= i < |p| - 1 ==> p[i + 1] in DepsOf(g, p[i])
  }

  ghost predicate Reaches(g: Deps, a: Tip, b: Tip) {
    exists p :: Leads(g, p) && p[0] == a && p[|p| - 1] == b
  }

  ghost predicate HasCycle(g: Deps) {
    exists p :: Leads(g, p) && |p| > 1 && p[0] == p[|p| - 1]
  }

  lemma ReachesItself(g: Deps, a: Tip)
    ensures Reaches(g, a, a)
  {
    assert Leads(g, [a]);
  }

  lemma ReachesFirst(g: Deps, a: Tip, d: Tip, b: Tip)
    requires d in DepsOf(g, a) && Reaches(g, d, b)
    ensures Reaches(g, a, b)
  {
    var p :| Leads(g, p) && p[0] == d && p[|p| - 1] == b;
    assert Leads(g, [a] + p);
  }

  lemma ReachesLast(g: Deps, a: Tip, b: Tip, d: Tip)
    requires Reaches(g, a, b) && d in DepsOf(g, b)
    ensures Reaches(g, a, d)
  {
    var p :| Leads(g, p) && p[0] == a && p[|p| - 1] == b;
    assert Leads(g, p + [d]);
  }

  lemma ReachesOnward(g: Deps, a: Tip, b: Tip, c: Tip)
    requires Reaches(g, a, b) && Reaches(g, b, c)
    ensures Reaches(g, a, c)
  {
    var p :| Leads(g, p) && p[0] == a && p[|p| - 1] == b;
    var q :| Leads(g, q) && q[0] == b && q[|q| - 1] == c;
    var r := p + q[1..];
    forall i | 0 <= i < |r| - 1 ensures r[i + 1] in DepsOf(g, r[i]) {
      if i >= |p| - 1 {
        var k := i - (|p| - 1);
        assert q[k + 1] in DepsOf(g, q[k]);
        assert r[i + 1] == q[k + 1] && r[i] == q[k];
      }
    }
    assert Leads(g, r) && r[0] == a && r[|r| - 1] == c;
  }

  lemma {:induction false} LeadsInside(g: Deps, inside: set<Tip>, p: seq<Tip>)
    requires Leads(g, p) && p[0] in inside && forall t, d :: t in inside && d in DepsOf(g, t) ==> d in inside
    ensures p[|p| - 1] in inside
  {
    if |p| > 1 {
      assert p[0 + 1] in DepsOf(g, p[0]);
      LeadsInside(g, inside, p[1..]);
    }
  }

  lemma ReachesInside(g: Deps, inside: set<Tip>, a: Tip, b: Tip)
    requires a in inside && Reaches(g, a, b) && forall t, d :: t in inside && d in DepsOf(g, t) ==> d in inside
    ensures b in inside
  {
    var p :| Leads(g, p) && p[0] == a && p[|p| - 1] == b;
    LeadsInside(g, inside, p);
  }

  // ---------- Stamps ----------

  /** The position of a vertex on its chain, and per chain how far down its ancestry goes. */
  datatype Stamp = Stamp(clock: seq<nat>, chain: nat, pos: nat)

  ghost predicate Below(a: seq<nat>, b: seq<nat>) {
    |a| <= |b| && forall c :: 0 <= c < |a| ==> a[c] <= b[c]
  }

  ghost predicate Fits(s: Stamp, heads: seq<nat>) {
    && |s.clock| <= |heads| && s.chain < |s.clock| && s.clock[s.chain] == s.pos && 1 <= s.pos
    && forall c :: 0 <= c < |s.clock| ==> s.clock[c] <= heads[c]
  }

  /** Every entry of the clock names a vertex that is really an ancestor. */
  ghost predicate Grounded(g: Deps, done: map<Tip, Stamp>, t: Tip, clock: seq<nat>) {
    forall c :: 0 <= c < |clock| && clock[c] >= 1 ==>
      exists u :: u in done && done[u].chain == c && done[u].pos == clock[c] && Reaches(g, t, u)
  }

  ghost predicate Fitting(done: map<Tip, Stamp>, heads: seq<nat>) {
    && (forall c :: 0 <= c < |heads| ==> heads[c] >= 1)
    && forall t :: t in done ==> Fits(done[t], heads)
  }

  /** A clock is nowhere behind the clocks of the dependencies. */
  ghost predicate Monotone(g: Deps, done: map<Tip, Stamp>) {
    forall t, d :: t in done && d in DepsOf(g, t) ==> d in done && Below(done[d].clock, done[t].clock)
  }

  ghost predicate AllGrounded(g: Deps, done: map<Tip, Stamp>) {
    forall t :: t in done ==> Grounded(g, done, t, done[t].clock)
  }

  /** A chain holds only vertices connected by dependency paths. */
  ghost predicate Chained(g: Deps, done: map<Tip, Stamp>) {
    forall u, w :: u in done && w in done && done[u].chain == done[w].chain && done[w].pos <= done[u].pos ==> Reaches(g, u, w)
  }

  /** The vertices stamped so far. */
  ghost predicate Stamped(g: Deps, done: map<Tip, Stamp>, heads: seq<nat>) {
    Fitting(done, heads) && Monotone(g, done) && AllGrounded(g, done) && Chained(g, done)
  }

  /** The comparison that replaces a search. */
  predicate Covers(a: Stamp, b: Stamp) {
    b.chain < |a.clock| && a.clock[b.chain] >= b.pos
  }

  lemma {:induction false} PathIsCovered(g: Deps, done: map<Tip, Stamp>, heads: seq<nat>, p: seq<Tip>)
    requires Fitting(done, heads) && Monotone(g, done) && Leads(g, p) && p[0] in done
    ensures p[|p| - 1] in done && Covers(done[p[0]], done[p[|p| - 1]])
  {
    if |p| > 1 {
      assert p[0 + 1] in DepsOf(g, p[0]);
      PathIsCovered(g, done, heads, p[1..]);
    }
  }

  lemma CoveredIsReached(g: Deps, done: map<Tip, Stamp>, a: Tip, b: Tip)
    requires AllGrounded(g, done) && Chained(g, done) && a in done && b in done && Covers(done[a], done[b]) && done[b].pos >= 1
    ensures Reaches(g, a, b)
  {
    hide Reaches;
    var c := done[b].chain;
    assert Grounded(g, done, a, done[a].clock) && done[a].clock[c] >= 1;
    var u :| u in done && done[u].chain == c && done[u].pos == done[a].clock[c] && Reaches(g, a, u);
    ReachesOnward(g, a, u, b);
  }

  /** The index is exact: one comparison of stamps decides reachability. */
  lemma CoversIffReaches(g: Deps, done: map<Tip, Stamp>, heads: seq<nat>, a: Tip, b: Tip)
    requires Stamped(g, done, heads) && a in done
    ensures Reaches(g, a, b) <==> b in done && Covers(done[a], done[b])
  {
    hide Reaches;
    if Reaches(g, a, b) {
      ReachedIsCovered(g, done, heads, a, b);
    }
    if b in done && Covers(done[a], done[b]) {
      assert Fits(done[b], heads);
      CoveredIsReached(g, done, a, b);
    }
  }

  lemma ReachedIsCovered(g: Deps, done: map<Tip, Stamp>, heads: seq<nat>, a: Tip, b: Tip)
    requires Fitting(done, heads) && Monotone(g, done) && a in done && Reaches(g, a, b)
    ensures b in done && Covers(done[a], done[b])
  {
    var p :| Leads(g, p) && p[0] == a && p[|p| - 1] == b;
    PathIsCovered(g, done, heads, p);
  }

  // ---------- Stamping one more vertex ----------

  /** The pointwise maximum of the clocks of the dependencies, one entry longer than `heads`. */
  ghost predicate JoinsDeps(g: Deps, done: map<Tip, Stamp>, t: Tip, heads: seq<nat>, clock: seq<nat>) {
    |clock| == |heads| + 1 && Joined(done, DepsOf(g, t), clock)
  }

  ghost predicate Joined(done: map<Tip, Stamp>, deps: seq<Tip>, clock: seq<nat>) {
    && (forall d :: d in deps ==> d in done && Below(done[d].clock, clock))
    && (forall c :: 0 <= c < |clock| && clock[c] >= 1 ==>
          exists d :: d in deps && d in done && c < |done[d].clock| && done[d].clock[c] == clock[c])
  }

  lemma JoinedIsGrounded(g: Deps, done: map<Tip, Stamp>, t: Tip, heads: seq<nat>, clock: seq<nat>)
    requires AllGrounded(g, done) && JoinsDeps(g, done, t, heads, clock)
    ensures Grounded(g, done, t, clock)
  {
    hide Reaches;
    forall c | 0 <= c < |clock| && clock[c] >= 1
      ensures exists u :: u in done && done[u].chain == c && done[u].pos == clock[c] && Reaches(g, t, u)
    {
      var d :| d in DepsOf(g, t) && d in done && c < |done[d].clock| && done[d].clock[c] == clock[c];
      assert Grounded(g, done, d, done[d].clock);
      var u :| u in done && done[u].chain == c && done[u].pos == done[d].clock[c] && Reaches(g, d, u);
      ReachesFirst(g, t, d, u);
    }
  }

  /** The stamp given to a vertex whose dependencies are stamped: the first chain whose head it
      reaches, or a new one. */
  function NextStamp(heads: seq<nat>, clock: seq<nat>, chain: nat): Stamp
    requires |clock| == |heads| + 1 && chain <= |heads|
  {
    if chain == |heads| then Stamp(clock[chain := 1], chain, 1)
    else Stamp(clock[chain := heads[chain] + 1][..|heads|], chain, heads[chain] + 1)
  }

  function NextHeads(heads: seq<nat>, chain: nat): seq<nat>
    requires chain <= |heads|
  {
    if chain == |heads| then heads + [1] else heads[chain := heads[chain] + 1]
  }

  ghost predicate Appendable(g: Deps, done: map<Tip, Stamp>, t: Tip, heads: seq<nat>, clock: seq<nat>, chain: nat) {
    && JoinsDeps(g, done, t, heads, clock) && clock[|heads|] == 0
    && chain <= |heads| && (chain < |heads| ==> clock[chain] == heads[chain])
  }

  lemma AppendFits(g: Deps, done: map<Tip, Stamp>, heads: seq<nat>, t: Tip, clock: seq<nat>, chain: nat)
    requires Fitting(done, heads) && t !in done && Appendable(g, done, t, heads, clock, chain)
    ensures Fitting(done[t := NextStamp(heads, clock, chain)], NextHeads(heads, chain))
  {
    var s := NextStamp(heads, clock, chain);
    forall c | 0 <= c < |heads| ensures clock[c] <= heads[c] {
      if clock[c] >= 1 {
        var d :| d in DepsOf(g, t) && d in done && c < |done[d].clock| && done[d].clock[c] == clock[c];
        assert Fits(done[d], heads);
      }
    }
    assert Fits(s, NextHeads(heads, chain));
    forall x | x in done ensures Fits(done[x], NextHeads(heads, chain)) {
      assert Fits(done[x], heads);
    }
  }

  lemma AppendMonotone(g: Deps, done: map<Tip, Stamp>, heads: seq<nat>, t: Tip, clock: seq<nat>, chain: nat)
    requires Fitting(done, heads) && Monotone(g, done) && t !in done && Appendable(g, done, t, heads, clock, chain)
    ensures Monotone(g, done[t := NextStamp(heads, clock, chain)])
  {
    var s := NextStamp(heads, clock, chain);
    forall d | d in DepsOf(g, t) ensures Below(done[d].clock, s.clock) {
      assert Fits(done[d], heads);
    }
  }

  lemma AppendChained(g: Deps, done: map<Tip, Stamp>, heads: seq<nat>, t: Tip, clock: seq<nat>, chain: nat)
    requires Fitting(done, heads) && Chained(g, done) && t !in done && Appendable(g, done, t, heads, clock, chain)
    requires Grounded(g, done, t, clock)
    ensures Chained(g, done[t := NextStamp(heads, clock, chain)])
  {
    hide Reaches;
    var s := NextStamp(heads, clock, chain);
    ReachesItself(g, t);
    forall w | w in done && done[w].chain == chain ensures Reaches(g, t, w) && done[w].pos < s.pos {
      assert Fits(done[w], heads);
      var u :| u in done && done[u].chain == chain && done[u].pos == clock[chain] && Reaches(g, t, u);
      ReachesOnward(g, t, u, w);
    }
  }

  lemma AppendGrounded(g: Deps, done: map<Tip, Stamp>, heads: seq<nat>, t: Tip, clock: seq<nat>, chain: nat)
    requires AllGrounded(g, done) && t !in done && Appendable(g, done, t, heads, clock, chain) && Grounded(g, done, t, clock)
    ensures AllGrounded(g, done[t := NextStamp(heads, clock, chain)])
  {
    hide Reaches;
    var s := NextStamp(heads, clock, chain);
    var done' := done[t := s];
    ReachesItself(g, t);
    forall x | x in done' ensures Grounded(g, done', x, done'[x].clock) {
      forall c | 0 <= c < |done'[x].clock| && done'[x].clock[c] >= 1
        ensures exists u :: u in done' && done'[u].chain == c && done'[u].pos == done'[x].clock[c] && Reaches(g, x, u)
      {
        if x == t && c == chain {
          assert t in done';
        } else {
          var k := if x == t then clock else done[x].clock;
          assert Grounded(g, done, x, k) && k[c] == done'[x].clock[c];
          var u :| u in done && done[u].chain == c && done[u].pos == k[c] && Reaches(g, x, u);
          assert u in done' && done'[u] == done[u];
        }
      }
    }
  }

  /** Stamping a vertex keeps the index exact. */
  lemma AppendKeepsStamped(g: Deps, done: map<Tip, Stamp>, heads: seq<nat>, t: Tip, clock: seq<nat>, chain: nat)
    requires Stamped(g, done, heads) && t !in done && Appendable(g, done, t, heads, clock, chain)
    ensures Stamped(g, done[t := NextStamp(heads, clock, chain)], NextHeads(heads, chain))
  {
    hide Fitting, Monotone, AllGrounded, Chained, Grounded;
    JoinedIsGrounded(g, done, t, heads, clock);
    AppendFits(g, done, heads, t, clock, chain);
    AppendMonotone(g, done, heads, t, clock, chain);
    AppendGrounded(g, done, heads, t, clock, chain);
    AppendChained(g, done, heads, t, clock, chain);
  }
}
