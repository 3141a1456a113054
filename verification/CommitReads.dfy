/** What the check before emission protects: a transaction is not emitted over a write that its
    node indexed after the transaction read (effects/context.go, flushTx). */
module CommitReads {
  import opened Effects
  import opened Sequences
  import opened ChainClocks
  import opened Commit
  import opened CommitSafety
  import opened CommitRuns

  /** x lies in the past of what was read. */
  ghost predicate Known(log: Log, seen: set<Tip>, x: Tip) {
    exists t :: t in seen && Reaches(AllGraph(log), t, x)
  }

  /** Some tip of the key is news to a reader of `seen`, and is no subscription. */
  ghost predicate News(s: State, n: Node, k: Key, seen: set<Tip>) {
    && n in s.nodes
    && exists x :: x in TipsOf(s.nodes[n], k) && IsNews(s.log, seen, x)
  }

  ghost predicate IsNews(log: Log, seen: set<Tip>, x: Tip) {
    x in log && !log[x].kind.Subscription? && !Known(log, seen, x)
  }

  /** A step that takes tips of the key away at the node and leaves only a subscription for them. */
  ghost predicate Veils(s: State, step: Step, n: Node, k: Key) {
    match step
    case Write(m, t, e, read) => m == n && e.key == k && e.kind.Subscription? && read != {}
    case Learn(m, t) => m == n && t in s.log && s.log[t].key == k && s.log[t].kind.Subscription? && s.log[t].deps != []
    case _ => false
  }

  ghost predicate Unveiled(s: State, steps: seq<Step>, n: Node, k: Key)
    decreases |steps|
  {
    steps == [] || (Enabled(s, steps[0]) && !Veils(s, steps[0], n, k) && Unveiled(Apply(s, steps[0]), steps[1..], n, k))
  }

  // ---------- The past of a read does not change ----------

  lemma KnownStays(log: Log, log2: Log, seen: set<Tip>, x: Tip)
    requires Linked(log) && Grows(log, log2) && seen <= log.Keys && Known(log2, seen, x)
    ensures Known(log, seen, x) && x in log
  {
    var t :| t in seen && Reaches(AllGraph(log2), t, x);
    var p :| Leads(AllGraph(log2), p) && p[0] == t && p[|p| - 1] == x;
    LeadsBack(log, log2, p, |p| - 1);
    assert Leads(AllGraph(log), p) by {
      forall i | 0 <= i < |p| - 1 ensures p[i + 1] in DepsOf(AllGraph(log), p[i]) {
        LeadsBack(log, log2, p, i);
      }
    }
  }

  lemma {:induction false} LeadsBack(log: Log, log2: Log, p: seq<Tip>, i: nat)
    requires Linked(log) && Grows(log, log2) && Leads(AllGraph(log2), p) && p[0] in log && i < |p|
    ensures p[i] in log && DepsOf(AllGraph(log2), p[i]) == log[p[i]].deps == DepsOf(AllGraph(log), p[i])
  {
    if i > 0 {
      LeadsBack(log, log2, p, i - 1);
      assert p[i - 1 + 1] in DepsOf(AllGraph(log2), p[i - 1]);
    }
  }

  lemma NewsStays(log: Log, log2: Log, seen: set<Tip>, x: Tip)
    requires Linked(log) && Grows(log, log2) && seen <= log.Keys && IsNews(log, seen, x)
    ensures IsNews(log2, seen, x)
  {
    hide Known, Linked;
    if Known(log2, seen, x) {
      KnownStays(log, log2, seen, x);
    }
  }

  /** An effect written after the read is news. */
  lemma FreshIsNews(log: Log, log2: Log, seen: set<Tip>, x: Tip)
    requires Linked(log) && Grows(log, log2) && seen <= log.Keys && x !in log && x in log2 && !log2[x].kind.Subscription?
    ensures IsNews(log2, seen, x)
  {
    hide Known, Linked;
    if Known(log2, seen, x) {
      KnownStays(log, log2, seen, x);
    }
  }

  /** What depends on news is news. */
  lemma NewsAbove(log: Log, seen: set<Tip>, x: Tip, y: Tip)
    requires IsNews(log, seen, x) && y in log && x in log[y].deps && !log[y].kind.Subscription?
    ensures IsNews(log, seen, y)
  {
    hide Reaches;
    if Known(log, seen, y) {
      var t :| t in seen && Reaches(AllGraph(log), t, y);
      ReachesLast(AllGraph(log), t, y, x);
    }
  }

  // ---------- News stays at the tips ----------

  lemma IngestKeepsNews(log: Log, l: Local, t: Tip, k: Key, seen: set<Tip>, x: Tip) returns (y: Tip)
    requires Linked(log) && t in log && x in TipsOf(l, k) && IsNews(log, seen, x)
    requires !(log[t].kind.Subscription? && log[t].key == k && log[t].deps != [])
    ensures y in TipsOf(Ingest(log, l, t), k) && IsNews(log, seen, y)
  {
    hide IsNews;
    y := x;
    if x !in TipsOf(Ingest(log, l, t), k) {
      DroppedIsDep(log, l, t, k, x);
      assert !log[t].kind.Subscription?;
      NewsAbove(log, seen, x, t);
      y := t;
    }
  }

  /** Indexing an effect drops from a key only what the effect depends on. */
  lemma DroppedIsDep(log: Log, l: Local, t: Tip, k: Key, x: Tip)
    requires Linked(log) && t in log && x in TipsOf(l, k) && x !in TipsOf(Ingest(log, l, t), k)
    ensures x in log[t].deps && t in TipsOf(Ingest(log, l, t), k) && (log[t].kind.Bind? || log[t].key == k)
  {
    var e := log[t];
    if e.kind.Bind? {
      assert x in BoundTip(k, e.kind.keys);
      BoundIsDep(e.kind.keys, k, x);
    }
  }

  /** Indexing an effect puts it among the tips of its keys in place of its dependencies; a bind
      replaces its own write on the first key only. Other keys are left alone. */
  lemma IndexingReplaces(log: Log, l: Local, t: Tip, k: Key)
    requires Linked(log) && t in log
    ensures var e, tips := log[t], TipsOf(Ingest(log, l, t), k);
      && (!e.kind.Bind? && k == e.key ==> t in tips && forall d :: d in e.deps && d != t ==> d !in tips)
      && (e.kind.Bind? ==> forall kb :: kb in e.kind.keys && kb.key == k ==> t in tips)
      && (e.kind.Bind? && k == e.key ==>
           forall i: nat :: EntryFor(k, e.kind.keys, i) && e.kind.keys[i].newTip != t ==> e.kind.keys[i].newTip !in tips)
      && (!e.kind.Bind? && k != e.key ==> tips == TipsOf(l, k))
      && (e.kind.Bind? && k != e.key ==> TipsOf(l, k) <= tips)
  {
    var e := log[t];
    if e.kind.Bind? {
      forall i: nat | EntryFor(k, e.kind.keys, i) ensures BoundTip(k, e.kind.keys) == [e.kind.keys[i].newTip] && k in KeysOf(e.kind.keys) {
        BoundAt(k, e.kind.keys, i);
      }
    }
  }

  lemma {:induction false} BoundIsDep(keys: seq<KeyBind>, k: Key, x: Tip)
    requires x in BoundTip(k, keys)
    ensures x in NewTips(keys)
    decreases |keys|
  {
    if keys != [] {
      if keys[0].key == k {
        assert NewTips(keys)[0] == keys[0].newTip;
      } else {
        BoundIsDep(keys[1..], k, x);
        var i :| 0 <= i < |NewTips(keys[1..])| && NewTips(keys[1..])[i] == x;
        assert NewTips(keys)[i + 1] == x;
      }
    }
  }

  lemma WriteNews(s: State, step: Step, n: Node, k: Key, seen: set<Tip>)
    requires Linked(s.log) && step.Write? && Enabled(s, step) && News(s, n, k, seen) && seen <= s.log.Keys && !Veils(s, step, n, k)
    ensures News(Apply(s, step), n, k, seen)
  {
    hide IsNews, Retains, Linked;
    var s2 := Apply(s, step);
    var x :| x in TipsOf(s.nodes[n], k) && IsNews(s.log, seen, x);
    NewsStays(s.log, s2.log, seen, x);
    if x in TipsOf(s2.nodes[n], k) {
    } else {
      assert step.n == n && step.e.key == k && x in step.read;
      FreshIsNews(s.log, s2.log, seen, step.t);
      assert step.t in TipsOf(s2.nodes[n], k);
    }
  }

  lemma FlushNews(s: State, step: Step, n: Node, k: Key, seen: set<Tip>)
    requires Inv(s) && step.Flush? && Enabled(s, step) && News(s, n, k, seen) && seen <= s.log.Keys
    ensures News(Apply(s, step), n, k, seen)
  {
    hide IsNews, CanFlush, Spoken, Settled, OwnOrdered, RepliesSound, NodesSound;
    var s2 := Apply(s, step);
    var x :| x in TipsOf(s.nodes[n], k) && IsNews(s.log, seen, x);
    EmittedShape(s, step.b, step.e);
    NewsStays(s.log, s2.log, seen, x);
    if x in TipsOf(s2.nodes[n], k) {
    } else {
      FreshIsNews(s.log, s2.log, seen, step.b);
      assert step.b in TipsOf(s2.nodes[n], k);
    }
  }

  lemma IndexNews(s: State, step: Step, n: Node, k: Key, seen: set<Tip>)
    requires Linked(s.log) && (step.Learn? || step.Receive? || step.Decide?) && Enabled(s, step)
    requires News(s, n, k, seen) && seen <= s.log.Keys && !Veils(s, step, n, k)
    ensures News(Apply(s, step), n, k, seen)
  {
    hide IsNews, CanDecide, Answer, Linked, Ingest;
    var x :| x in TipsOf(s.nodes[n], k) && IsNews(s.log, seen, x);
    if step.Learn? && step.n == n {
      var y := IngestKeepsNews(s.log, s.nodes[n], step.t, k, seen, x);
    } else if step.Receive? && step.n == n {
      var y := IngestKeepsNews(s.log, s.nodes[n], step.b, k, seen, x);
    }
  }

  lemma StepKeepsNews(s: State, step: Step, n: Node, k: Key, seen: set<Tip>)
    requires Inv(s) && Enabled(s, step) && News(s, n, k, seen) && seen <= s.log.Keys && !Veils(s, step, n, k)
    ensures News(Apply(s, step), n, k, seen)
  {
    hide News, Enabled, Apply, Veils, NodesSound, Spoken, Settled, OwnOrdered, RepliesSound, OriginsSound, Linked;
    if step.Write? {
      WriteNews(s, step, n, k, seen);
    } else if step.Flush? {
      FlushNews(s, step, n, k, seen);
    } else {
      IndexNews(s, step, n, k, seen);
    }
  }

  lemma LogGrows(s: State, step: Step)
    requires Enabled(s, step)
    ensures Grows(s.log, Apply(s, step).log)
  {
    hide CanFlush, CanDecide, Retains;
    if step.Flush? {
      EmittedShape(s, step.b, step.e);
    }
  }

  lemma {:induction false} RunKeepsNews(s: State, steps: seq<Step>, last: State, n: Node, k: Key, seen: set<Tip>)
    requires Inv(s) && Runs(s, steps, last) && News(s, n, k, seen) && seen <= s.log.Keys && Unveiled(s, steps, n, k)
    ensures News(last, n, k, seen)
    decreases |steps|
  {
    hide News, Enabled, Apply, Inv, Veils;
    if steps != [] {
      StepKeepsInv(s, steps[0]);
      StepKeepsNews(s, steps[0], n, k, seen);
      LogGrows(s, steps[0]);
      RunKeepsNews(Apply(s, steps[0]), steps[1..], last, n, k, seen);
    }
  }

  // ---------- No emission over news ----------

  /** With news at the tips the transaction is not emitted. */
  lemma NewsAborts(s: State, n: Node, k: Key, seen: set<Tip>, b: Tip, e: Effect<()>, initial: map<Key, set<Tip>>)
    requires News(s, n, k, seen) && seen != {} && e.kind.Bind? && k in KeysOf(e.kind.keys) && k in initial && initial[k] == seen
    ensures !Enabled(s, Flush(n, b, e, initial))
  {
    hide FreshBind, Retains, NoCompetitor;
    var x :| x in TipsOf(s.nodes[n], k) && IsNews(s.log, seen, x);
    ReachesItself(AllGraph(s.log), x);
    assert x in seen ==> Known(s.log, seen, x);
    var kb :| kb in e.kind.keys && kb.key == k;
    assert !Preflight(s.log, TipsOf(s.nodes[n], kb.key), initial[kb.key]);
  }

  /** A tip that was read and is not a tip any more also ends the transaction. */
  lemma OverwrittenAborts(s: State, n: Node, k: Key, t: Tip, b: Tip, e: Effect<()>, initial: map<Key, set<Tip>>)
    requires n in s.nodes && e.kind.Bind? && k in KeysOf(e.kind.keys) && k in initial && t in initial[k] && t !in TipsOf(s.nodes[n], k)
    ensures !Enabled(s, Flush(n, b, e, initial))
  {
    hide FreshBind, Retains, NoCompetitor;
    var kb :| kb in e.kind.keys && kb.key == k;
    assert !Preflight(s.log, TipsOf(s.nodes[n], kb.key), initial[kb.key]);
  }

  /** The step indexes effect t at the node on the key. */
  ghost predicate Indexes(s: State, step: Step, n: Node, k: Key, t: Tip) {
    match step
    case Write(m, x, e, _) => m == n && x == t && e.key == k
    case Flush(m, b, e, _) => m == n && b == t && e.kind.Bind? && k in KeysOf(e.kind.keys)
    case Learn(m, x) => m == n && x == t && t in s.log && k in Superseded(s.log, t)
    case Receive(m, b) => m == n && b == t && IsBind(s.log, b) && k in KeysOf(s.log[b].kind.keys)
    case Decide(_, _, _) => false
  }

  lemma IndexedIsTip(s: State, step: Step, n: Node, k: Key, t: Tip)
    requires Enabled(s, step) && Indexes(s, step, n, k, t)
    ensures var s2 := Apply(s, step); n in s2.nodes && t in TipsOf(s2.nodes[n], k) && t in s2.log
  {
    hide CanFlush, Retains;
    if step.Flush? {
      EmittedShape(s, step.b, step.e);
    }
  }

  /** Over every run: the transaction reads the key's tips at its node; some time later a write or
      bind outside the past of what was read is indexed there; then, unless a subscription takes
      its place among the tips, the transaction is never emitted. */
  lemma LateWriteAborts(s: State, before: seq<Step>, mid: State, step: Step, after: seq<Step>, last: State,
                        n: Node, k: Key, t: Tip, b: Tip, e: Effect<()>, initial: map<Key, set<Tip>>)
    requires Inv(s) && n in s.nodes && Runs(s, before, mid) && Enabled(mid, step) && Runs(Apply(mid, step), after, last)
    requires Indexes(mid, step, n, k, t) && IsNews(Apply(mid, step).log, TipsOf(s.nodes[n], k), t) && TipsOf(s.nodes[n], k) != {}
    requires Unveiled(Apply(mid, step), after, n, k)
    requires e.kind.Bind? && k in KeysOf(e.kind.keys) && k in initial && initial[k] == TipsOf(s.nodes[n], k)
    ensures !Enabled(last, Flush(n, b, e, initial))
  {
    hide Enabled, Apply, Inv, IsNews, Runs, Indexes, Unveiled;
    var seen := TipsOf(s.nodes[n], k);
    assert seen <= s.log.Keys by { TipsLogged(s, n, k); }
    RunKeepsInv(s, before, mid);
    RunGrows(s, before, mid);
    LogGrows(mid, step);
    StepKeepsInv(mid, step);
    IndexedIsTip(mid, step, n, k, t);
    RunKeepsNews(Apply(mid, step), after, last, n, k, seen);
    NewsAborts(last, n, k, seen, b, e, initial);
  }

  lemma TipsLogged(s: State, n: Node, k: Key)
    requires Inv(s) && n in s.nodes
    ensures TipsOf(s.nodes[n], k) <= s.log.Keys
  {
    hide Serves;
  }

  lemma {:induction false} RunGrows(s: State, steps: seq<Step>, last: State)
    requires Runs(s, steps, last)
    ensures Grows(s.log, last.log)
    decreases |steps|
  {
    hide Enabled, Apply;
    if steps != [] {
      LogGrows(s, steps[0]);
      RunGrows(Apply(s, steps[0]), steps[1..], last);
    }
  }
}
