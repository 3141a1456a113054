/** The commit protocol goes through when nothing competes: an undisturbed transaction is emitted,
    answered without conflict, and committed. */
module CommitProgress {
  import opened Effects
  import opened Sequences
  import opened ChainClocks
  import opened Commit
  import opened CommitSafety
  import opened CommitRuns

  /** The transaction consumes just what the node has on each of its keys, and read the same. */
  ghost predicate UpToDate(s: State, n: Node, e: Effect<()>, initial: map<Key, set<Tip>>) {
    && n in s.nodes && e.kind.Bind?
    && forall kb :: kb in e.kind.keys ==> kb.key in initial && initial[kb.key] == TipsOf(s.nodes[n], kb.key) == Elems(kb.consumed)
  }

  /** No node has anything else on the keys of the transaction. */
  ghost predicate Undisturbed(s: State, e: Effect<()>) {
    e.kind.Bind? && forall m, kb :: m in s.nodes && kb in e.kind.keys ==> TipsOf(s.nodes[m], kb.key) <= Elems(kb.consumed)
  }

  // ---------- Emission ----------

  lemma QuietIsClear(s: State, b: Tip, e: Effect<()>, kb: KeyBind)
    requires Linked(s.log) && FreshBind(s, b, e) && kb in e.kind.keys
    ensures NoCompetitor(Emitted(s.log, b, e), kb.key, {kb.newTip}, kb.consumed)
  {
    hide Reaches, Linked, Emitted;
    var k, log2 := kb.key, Emitted(s.log, b, e);
    EmittedShape(s, b, e);
    EmittedLinked(s, b, e);
    forall c | Touches(log2, c, k) && Led(log2, k, {kb.newTip}, c)
      ensures exists t :: t in kb.consumed && Reaches(AllGraph(log2), t, NewTip(log2, c, k))
    {
      var t := StepsDown(log2, k, kb.newTip, c);
      KeyPathIsPath(log2, k, t, c);
      BindReaches(log2, k, c);
      ReachesOnward(AllGraph(log2), t, c, NewTip(log2, c, k));
    }
  }

  /** What a data effect leads to is led to by one of its dependencies. */
  lemma StepsDown(log: Log, k: Key, w: Tip, c: Tip) returns (t: Tip)
    requires w in log && log[w].kind.Data? && Touches(log, c, k) && Led(log, k, {w}, c)
    ensures t in log[w].deps && Reaches(KeyGraph(log, k), t, c)
  {
    var p :| Leads(KeyGraph(log, k), p) && p[0] == w && p[|p| - 1] == c;
    t := p[1];
    assert p[0 + 1] in DepsOf(KeyGraph(log, k), p[0]);
    assert Leads(KeyGraph(log, k), p[1..]) by {
      forall i | 0 <= i < |p[1..]| - 1 ensures p[1..][i + 1] in DepsOf(KeyGraph(log, k), p[1..][i]) {
        assert p[i + 1 + 1] in DepsOf(KeyGraph(log, k), p[i + 1]);
      }
    }
    assert p[1..][0] == t && p[1..][|p[1..]| - 1] == c;
  }

  /** A transaction that is up to date passes every check before emission. */
  lemma UpToDateIsEmitted(s: State, n: Node, b: Tip, e: Effect<()>, initial: map<Key, set<Tip>>)
    requires Inv(s) && FreshBind(s, b, e) && UpToDate(s, n, e, initial)
    ensures Enabled(s, Flush(n, b, e, initial))
  {
    hide Inv, NoCompetitor, Emitted, Led, FreshBind;
    assert Linked(s.log) by { LogLinked(s); }
    forall kb | kb in e.kind.keys
      ensures && Preflight(s.log, TipsOf(s.nodes[n], kb.key), initial[kb.key])
              && Retains(s.log, kb.key, initial[kb.key], kb.consumed)
              && NoCompetitor(Emitted(s.log, b, e), kb.key, Staged(s.nodes[n], initial, kb), kb.consumed)
    {
      QuietIsClear(s, b, e, kb);
      assert Staged(s.nodes[n], initial, kb) == {kb.newTip};
    }
  }

  lemma LogLinked(s: State)
    requires Inv(s)
    ensures Linked(s.log)
  {
  }

  // ---------- Replies ----------

  /** A replier that has nothing beyond what the bind consumed and wrote objects to nothing. */
  lemma SilentReply(log: Log, l: Local, b: Tip, m: Node)
    requires IsBind(log, b) && forall kb :: kb in log[b].kind.keys ==> TipsOf(l, kb.key) <= Elems(kb.consumed) + {kb.newTip}
    ensures Answer(log, Ingest(log, l, b), b, m) == Reply(b, m, map[])
  {
    var keys, l2 := log[b].kind.keys, Ingest(log, l, b);
    forall k | k in KeysOf(keys) ensures !Diverged(TipsOf(l2, k), b, keys, k) {
      var kb := KeyBindOf(keys, k);
      assert TipsOf(l2, k) <= Elems(kb.consumed) + {kb.newTip} + {b};
    }
  }

  /** Nodes of `left` have not answered yet; the others have, silently. */
  ghost predicate Asking(s: State, b: Tip, n: Node, left: set<Node>) {
    && IsBind(s.log, b) && b in s.origin && s.origin[b] == n && b in s.verdict && s.verdict[b] == Pending
    && n in s.nodes && left <= s.nodes.Keys - {n}
    && (forall m :: m in s.nodes && m != n && m !in left ==> Reply(b, m, map[]) in s.replies)
    && forall m, kb :: m in left && kb in s.log[b].kind.keys ==> TipsOf(s.nodes[m], kb.key) <= Elems(kb.consumed)
  }

  lemma AnswerOne(s: State, b: Tip, n: Node, left: set<Node>, m: Node)
    requires Asking(s, b, n, left) && m in left
    ensures Enabled(s, Receive(m, b)) && Asking(Apply(s, Receive(m, b)), b, n, left - {m})
  {
    hide Ingest, Answer;
    SilentReply(s.log, s.nodes[m], b, m);
  }

  lemma SilentIsUnbeaten(log: Log, b: Tip, m: Node)
    requires IsBind(log, b)
    ensures Unbeaten(log, b, Reply(b, m, map[]))
  {
  }

  lemma DecideCommits(s: State, b: Tip, n: Node)
    requires Asking(s, b, n, {})
    ensures exists heard :: Enabled(s, Decide(b, heard, Committed))
  {
    hide Unbeaten;
    var heard := map m | m in s.nodes.Keys - {n} :: Reply(b, m, map[]);
    forall m | m in heard ensures Unbeaten(s.log, b, heard[m]) {
      SilentIsUnbeaten(s.log, b, m);
    }
    assert Enabled(s, Decide(b, heard, Committed));
  }

  lemma {:induction false} AllAnswer(s: State, b: Tip, n: Node, left: set<Node>) returns (steps: seq<Step>, last: State)
    requires Asking(s, b, n, left)
    ensures Runs(s, steps, last) && b in last.verdict && last.verdict[b] == Committed
    decreases left
  {
    hide Asking, Enabled, Apply;
    if left == {} {
      DecideCommits(s, b, n);
      var heard :| Enabled(s, Decide(b, heard, Committed));
      last := Apply(s, Decide(b, heard, Committed));
      steps := [Decide(b, heard, Committed)];
      Decided(s, b, heard);
      assert Runs(last, [], last);
    } else {
      var m :| m in left;
      AnswerOne(s, b, n, left, m);
      var rest: seq<Step>;
      rest, last := AllAnswer(Apply(s, Receive(m, b)), b, n, left - {m});
      steps := [Receive(m, b)] + rest;
    }
  }

  lemma Decided(s: State, b: Tip, heard: map<Node, Reply>)
    requires Enabled(s, Decide(b, heard, Committed))
    ensures var s2 := Apply(s, Decide(b, heard, Committed)); b in s2.verdict && s2.verdict[b] == Committed
  {
  }

  lemma FlushAsks(s: State, n: Node, b: Tip, e: Effect<()>, initial: map<Key, set<Tip>>)
    requires Undisturbed(s, e) && Enabled(s, Flush(n, b, e, initial))
    ensures Asking(Apply(s, Flush(n, b, e, initial)), b, n, s.nodes.Keys - {n})
  {
    hide CanFlush, Flushed;
    EmittedShape(s, b, e);
  }

  /** From every reachable state: a transaction that is up to date where it runs, and whose keys
      hold nothing else anywhere, has a run that commits it. */
  lemma UndisturbedCommits(s: State, n: Node, b: Tip, e: Effect<()>, initial: map<Key, set<Tip>>) returns (steps: seq<Step>, last: State)
    requires Inv(s) && FreshBind(s, b, e) && UpToDate(s, n, e, initial) && Undisturbed(s, e)
    ensures Runs(s, [Flush(n, b, e, initial)] + steps, last) && b in last.verdict && last.verdict[b] == Committed
  {
    hide Asking, Enabled, Apply, Inv, FreshBind, UpToDate, Undisturbed;
    UpToDateIsEmitted(s, n, b, e, initial);
    FlushAsks(s, n, b, e, initial);
    steps, last := AllAnswer(Apply(s, Flush(n, b, e, initial)), b, n, s.nodes.Keys - {n});
  }

  // ---------- Writes and competitors ----------

  /** A plain write on top of whatever it read can always be made. */
  lemma WriteOnReadIsEnabled(s: State, n: Node, t: Tip, e: Effect<()>)
    requires Inv(s) && n in s.nodes && t !in s.log && !e.kind.Bind? && (forall d :: d in e.deps ==> d in s.log)
    requires Elems(e.deps) <= TipsOf(s.nodes[n], e.key)
    ensures Enabled(s, Write(n, t, e, Elems(e.deps)))
  {
    hide Inv, Led;
  }

  /** A reply that shows an unordered bind with a lower hash, at its frontier or right below an
      effect there that is neither data nor a bind, leaves only the abort. */
  lemma LowerHashAborts(s: State, b: Tip, heard: map<Node, Reply>, v: Verdict, m: Node, k: Key, t: Tip, c: Tip)
    requires Inv(s) && Enabled(s, Decide(b, heard, v)) && m in heard && k in heard[m].tips && t in heard[m].tips[k]
    requires t == c || (t in s.log && c in s.log[t].deps && !s.log[t].kind.Data? && !s.log[t].kind.Bind?)
    requires Touches(s.log, b, k) && Touches(s.log, c, k) && !Ordered(s.log, k, b, c) && s.log[c].hash < s.log[b].hash
    ensures v == Aborted
  {
    hide Inv, Ordered;
    if t == c {
      assert ShownBy(s.log, k, [c]);
    } else {
      assert ShownBy(s.log, k, [t, c]);
    }
    assert Exposed(s.log, k, heard[m].tips[k], c);
  }

  /** Frontiers of data, and of binds with no lower hash, do not prevent the commit, whatever lies
      below them. */
  lemma HigherHashesPass(s: State, b: Tip, heard: map<Node, Reply>)
    requires IsBind(s.log, b) && b in s.origin && b in s.verdict && s.verdict[b] == Pending && heard.Keys == s.nodes.Keys - {s.origin[b]}
    requires forall m :: m in heard ==> heard[m] in s.replies && heard[m].bind == b && heard[m].from == m
    requires forall m, k, t :: m in heard && k in heard[m].tips && t in heard[m].tips[k] ==>
      t in s.log && (s.log[t].kind.Data? || (s.log[t].kind.Bind? && s.log[t].hash >= s.log[b].hash))
    ensures Enabled(s, Decide(b, heard, Committed))
  {
    hide Ordered;
    forall m, k, c | m in heard && k in heard[m].tips && Exposed(s.log, k, heard[m].tips[k], c) ensures c in heard[m].tips[k] {
      var p :| ShownBy(s.log, k, p) && p[0] in heard[m].tips[k] && p[|p| - 1] == c;
      assert p[0] in s.log && !IsWrapper(s.log[p[0]]);
    }
  }
}
