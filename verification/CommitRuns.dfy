/** Runs of the commit protocol: the invariant of every reachable state, and at most one commit. */
module CommitRuns {
  import opened Effects
  import opened Sequences
  import opened ChainClocks
  import opened Commit
  import opened CommitSafety

  ghost predicate NodesSound(s: State) {
    forall n :: n in s.nodes ==> Within(s.log, s.nodes[n]) && Serves(s.log, s.nodes[n])
  }

  ghost predicate OriginsSound(s: State) {
    && s.verdict.Keys == s.origin.Keys
    && (forall b :: b in s.origin ==> IsBind(s.log, b) && s.origin[b] in s.nodes && b in s.nodes[s.origin[b]].known)
    && forall b :: IsBind(s.log, b) ==> b in s.origin
  }

  ghost predicate RepliesSound(s: State) {
    forall r :: r in s.replies ==>
      && IsBind(s.log, r.bind) && r.from in s.nodes && r.bind in s.nodes[r.from].known
      && forall k :: k in r.tips ==> r.tips[k] <= s.log.Keys
  }

  /** The binds of one node are ordered on every key they share. */
  ghost predicate OwnOrdered(s: State) {
    forall b, c, k :: b in s.origin && c in s.origin && b != c && s.origin[b] == s.origin[c] && Touches(s.log, b, k) && Touches(s.log, c, k) ==>
      Ordered(s.log, k, b, c)
  }

  /** The reply orders the bind with c on k, or its frontier there leads to c. */
  ghost predicate Answers(log: Log, r: Reply, k: Key, c: Tip)
    requires Touches(log, r.bind, k) && Touches(log, c, k)
  {
    Ordered(log, k, r.bind, c) || (k in r.tips && Led(log, k, r.tips[k], c))
  }

  /** A reply accounts for every bind of the replier, earlier or later. */
  ghost predicate Spoken(s: State) {
    forall r, c, k :: r in s.replies && c in s.origin && s.origin[c] == r.from && c != r.bind && Touches(s.log, r.bind, k) && Touches(s.log, c, k) ==>
      Answers(s.log, r, k, c)
  }

  ghost predicate HeardFrom(s: State, b: Tip, m: Node)
    requires IsBind(s.log, b)
  {
    exists r :: r in s.replies && r.bind == b && r.from == m && Unbeaten(s.log, b, r)
  }

  ghost predicate Settled(s: State) {
    forall b, m :: b in s.verdict && s.verdict[b] == Committed && IsBind(s.log, b) && b in s.origin && m in s.nodes && m != s.origin[b] ==>
      HeardFrom(s, b, m)
  }

  ghost predicate Inv(s: State) {
    Linked(s.log) && NodesSound(s) && OriginsSound(s) && RepliesSound(s) && OwnOrdered(s) && Spoken(s) && Settled(s)
  }

  /** Every node starts with an index over effects that hold no bind; nothing is in flight. */
  ghost predicate Init(s: State) {
    && Linked(s.log) && (forall t :: t in s.log ==> !IsBind(s.log, t)) && s.origin == map[] && s.verdict == map[] && s.replies == {}
    && forall n :: n in s.nodes ==> Within(s.log, s.nodes[n])
  }

  lemma InitSound(s: State)
    requires Init(s)
    ensures Inv(s)
  {
  }

  // ---------- Growth of the log ----------

  lemma AnswersGrows(log: Log, log2: Log, r: Reply, k: Key, c: Tip)
    requires Grows(log, log2) && Touches(log, r.bind, k) && Touches(log, c, k) && Answers(log, r, k, c)
    ensures Answers(log2, r, k, c)
  {
    hide Led, Ordered;
    if Ordered(log, k, r.bind, c) {
      OrderedGrows(log, log2, k, r.bind, c);
    } else {
      LedGrows(log, log2, k, r.tips[k], c);
    }
  }

  /** Later effects do not change what an earlier reply shows. */
  lemma UnbeatenGrows(log: Log, log2: Log, b: Tip, r: Reply)
    requires Grows(log, log2) && Linked(log) && IsBind(log, b) && Unbeaten(log, b, r)
    requires forall k :: k in r.tips ==> r.tips[k] <= log.Keys
    ensures Unbeaten(log2, b, r)
  {
    hide Ordered, Exposed;
    forall k, c | k in r.tips && Touches(log2, b, k) && Touches(log2, c, k) && Exposed(log2, k, r.tips[k], c) && log2[c].hash < log2[b].hash
      ensures Ordered(log2, k, b, c)
    {
      ExposedStays(log, log2, k, r.tips[k], c);
      OrderedGrows(log, log2, k, b, c);
    }
  }

  lemma SettledGrows(s: State, s2: State)
    requires Linked(s.log) && OriginsSound(s) && RepliesSound(s) && Settled(s) && Grows(s.log, s2.log) && s.replies <= s2.replies
    requires s2.nodes.Keys == s.nodes.Keys
    requires forall b :: b in s2.verdict && s2.verdict[b] == Committed ==>
      b in s.verdict && s.verdict[b] == Committed && b in s2.origin && s2.origin[b] == s.origin[b]
    ensures Settled(s2)
  {
    hide Unbeaten;
    forall b, m | b in s2.verdict && s2.verdict[b] == Committed && IsBind(s2.log, b) && b in s2.origin && m in s2.nodes && m != s2.origin[b]
      ensures HeardFrom(s2, b, m)
    {
      assert HeardFrom(s, b, m);
      var r :| r in s.replies && r.bind == b && r.from == m && Unbeaten(s.log, b, r);
      UnbeatenGrows(s.log, s2.log, b, r);
    }
  }

  lemma SpokenGrows(s: State, s2: State)
    requires OriginsSound(s) && RepliesSound(s) && Spoken(s) && Grows(s.log, s2.log) && s2.replies == s.replies && s2.origin == s.origin
    ensures Spoken(s2)
  {
    hide Answers;
    forall r, c, k | r in s2.replies && c in s2.origin && s2.origin[c] == r.from && c != r.bind && Touches(s2.log, r.bind, k) && Touches(s2.log, c, k)
      ensures Answers(s2.log, r, k, c)
    {
      AnswersGrows(s.log, s2.log, r, k, c);
    }
  }

  lemma OwnOrderedGrows(s: State, s2: State)
    requires OriginsSound(s) && OwnOrdered(s) && Grows(s.log, s2.log) && s2.origin == s.origin
    ensures OwnOrdered(s2)
  {
    hide Ordered;
    forall b, c, k | b in s2.origin && c in s2.origin && b != c && s2.origin[b] == s2.origin[c] && Touches(s2.log, b, k) && Touches(s2.log, c, k)
      ensures Ordered(s2.log, k, b, c)
    {
      OrderedGrows(s.log, s2.log, k, b, c);
    }
  }

  // ---------- Ordinary writes ----------

  lemma WriteLinked(log: Log, t: Tip, e: Effect<()>)
    requires Linked(log) && t !in log && !e.kind.Bind? && forall d :: d in e.deps ==> d in log
    ensures Linked(log[t := e]) && Grows(log, log[t := e])
  {
    var log2 := log[t := e];
    forall u | u in log2 ensures (forall d :: d in log2[u].deps ==> d in log2) && LinkedBind(log2, log2[u]) {
      if u != t {
        assert LinkedBind(log, log[u]);
      }
    }
  }

  lemma WriteSupplants(log: Log, l: Local, t: Tip, e: Effect<()>, read: set<Tip>)
    requires Linked(log) && Within(log, l) && t !in log && !e.kind.Bind? && (forall d :: d in e.deps ==> d in log)
    requires Retains(log, e.key, read, e.deps)
    ensures Supplants(log[t := e], l, map[e.key := read], t)
  {
    hide Reaches;
    var k, log2 := e.key, log[t := e];
    WriteLinked(log, t, e);
    forall g, c | g in read && g in TipsOf(l, k) && Touches(log2, c, k) && Reaches(KeyGraph(log2, k), g, c)
      ensures Reaches(KeyGraph(log2, k), t, c)
    {
      assert TipsOf(l, k) <= log.Keys;
      ReachStays(log, log2, k, g, c);
      assert Led(log, k, read, c);
      var d :| d in Elems(e.deps) && Reaches(KeyGraph(log, k), d, c);
      PathGrows(KeyGraph(log, k), KeyGraph(log2, k), d, c);
      ReachesFirst(KeyGraph(log2, k), t, d, c);
    }
  }

  lemma OthersGrow(s: State, log2: Log, n: Node)
    requires NodesSound(s) && Grows(s.log, log2) && n in s.nodes
    ensures Within(log2, s.nodes[n]) && Serves(log2, s.nodes[n])
  {
    ServesGrows(s.log, log2, s.nodes[n]);
    forall k ensures TipsOf(s.nodes[n], k) <= log2.Keys {
      assert TipsOf(s.nodes[n], k) <= s.log.Keys;
    }
  }

  lemma WriteNodes(s: State, step: Step)
    requires Linked(s.log) && NodesSound(s) && step.Write? && Enabled(s, step)
    ensures NodesSound(Apply(s, step))
  {
    hide Serves, Supplants, Within, Retains;
    var s2 := Apply(s, step);
    WriteLinked(s.log, step.t, step.e);
    forall n | n in s2.nodes ensures Within(s2.log, s2.nodes[n]) && Serves(s2.log, s2.nodes[n]) {
      OthersGrow(s, s2.log, n);
      if n == step.n {
        WriteSupplants(s.log, s.nodes[n], step.t, step.e, step.read);
        ReindexServes(s2.log, s.nodes[n], map[step.e.key := step.read], step.t);
        ReindexWithin(s2.log, s.nodes[n], map[step.e.key := step.read], step.t);
      }
    }
  }

  lemma WriteKeepsInv(s: State, step: Step)
    requires Inv(s) && step.Write? && Enabled(s, step)
    ensures Inv(Apply(s, step))
  {
    hide Serves, Within, Retains, Answers, Ordered, Unbeaten, Linked;
    var s2 := Apply(s, step);
    WriteLinked(s.log, step.t, step.e);
    WriteNodes(s, step);
    SettledGrows(s, s2);
    SpokenGrows(s, s2);
    OwnOrderedGrows(s, s2);
    RepliesGrow(s, s2);
    OriginsGrow(s, s2);
  }

  lemma RepliesGrow(s: State, s2: State)
    requires RepliesSound(s) && Grows(s.log, s2.log) && s2.replies == s.replies && KnowMore(s, s2)
    ensures RepliesSound(s2)
  {
    forall r, k | r in s2.replies && k in r.tips ensures r.tips[k] <= s2.log.Keys {
      assert r.tips[k] <= s.log.Keys;
    }
  }

  lemma OriginsGrow(s: State, s2: State)
    requires OriginsSound(s) && Grows(s.log, s2.log) && KnowMore(s, s2) && s2.origin == s.origin && s2.verdict.Keys == s.verdict.Keys
    requires forall b :: IsBind(s2.log, b) ==> IsBind(s.log, b)
    ensures OriginsSound(s2)
  {
  }

  ghost predicate KnowMore(s: State, s2: State) {
    forall n :: n in s.nodes ==> n in s2.nodes && s.nodes[n].known <= s2.nodes[n].known
  }

  // ---------- Learning and answering ----------

  lemma IngestSound(s: State, n: Node, t: Tip)
    requires NodesSound(s) && n in s.nodes && t in s.log
    ensures NodesSound(s.(nodes := s.nodes[n := Ingest(s.log, s.nodes[n], t)]))
  {
    hide Serves, Within;
    IngestServes(s.log, s.nodes[n], t);
    ReindexWithin(s.log, s.nodes[n], Superseded(s.log, t), t);
  }

  lemma LearnKeepsInv(s: State, step: Step)
    requires Inv(s) && step.Learn? && Enabled(s, step)
    ensures Inv(Apply(s, step))
  {
    hide Serves, Within, Answers, Ordered, Unbeaten, Linked;
    var s2 := Apply(s, step);
    IngestSound(s, step.n, step.t);
    SettledGrows(s, s2);
    SpokenGrows(s, s2);
    OwnOrderedGrows(s, s2);
    RepliesGrow(s, s2);
    OriginsGrow(s, s2);
  }

  /** A reply that does not name a key's frontier has only tips the bind already follows. */
  lemma SilentMeansOrdered(log: Log, l: Local, b: Tip, n: Node, k: Key, c: Tip)
    requires Linked(log) && Touches(log, b, k) && Touches(log, c, k) && Led(log, k, TipsOf(l, k), c)
    ensures Answers(log, Answer(log, l, b, n), k, c)
  {
    hide Reaches;
    var keys, tips := log[b].kind.keys, TipsOf(l, k);
    TouchedKey(keys, k);
    if !Diverged(tips, b, keys, k) {
      var t :| t in tips && Reaches(KeyGraph(log, k), t, c);
      BindReaches(log, k, b);
      ReachesItself(AllGraph(log), b);
      assert t == b || t in BoundTip(k, keys) || t in ConsumedTips(k, keys);
      var kb := KeyBindOf(keys, k);
      assert Reaches(AllGraph(log), b, t);
      ReachedIsBefore(log, k, b, t, c);
    }
  }

  lemma AnswerSpeaks(s: State, n: Node, b: Tip, l: Local, c: Tip, k: Key)
    requires Linked(s.log) && OriginsSound(s) && n in s.nodes && Touches(s.log, b, k) && Touches(s.log, c, k)
    requires c in s.origin && s.origin[c] == n && l.known >= s.nodes[n].known && Serves(s.log, l)
    ensures Answers(s.log, Answer(s.log, l, b, n), k, c)
  {
    hide Led, Answers;
    SilentMeansOrdered(s.log, l, b, n, k, c);
  }

  lemma ReceiveSpoken(s: State, n: Node, b: Tip, l: Local, s2: State)
    requires Linked(s.log) && OriginsSound(s) && Spoken(s) && n in s.nodes && IsBind(s.log, b)
    requires l.known >= s.nodes[n].known && Serves(s.log, l)
    requires s2.log == s.log && s2.origin == s.origin && s2.replies == s.replies + {Answer(s.log, l, b, n)}
    ensures Spoken(s2)
  {
    hide Answers, Serves, Linked;
    forall r, c, k | r in s2.replies && c in s2.origin && s2.origin[c] == r.from && c != r.bind && Touches(s2.log, r.bind, k) && Touches(s2.log, c, k)
      ensures Answers(s2.log, r, k, c)
    {
      if r !in s.replies {
        AnswerSpeaks(s, n, b, l, c, k);
      }
    }
  }

  lemma ReceiveReplies(s: State, n: Node, b: Tip, l: Local, s2: State)
    requires RepliesSound(s) && n in s.nodes && IsBind(s.log, b) && Within(s.log, l) && b in l.known && l.known >= s.nodes[n].known
    requires s2.log == s.log && s2.nodes == s.nodes[n := l] && s2.replies == s.replies + {Answer(s.log, l, b, n)}
    ensures RepliesSound(s2)
  {
    var a := Answer(s.log, l, b, n);
    forall k | k in a.tips ensures a.tips[k] <= s.log.Keys {
      assert TipsOf(l, k) <= s.log.Keys;
    }
  }

  lemma ReceiveKeepsInv(s: State, step: Step)
    requires Inv(s) && step.Receive? && Enabled(s, step)
    ensures Inv(Apply(s, step))
  {
    hide Serves, Within, Answers, Ordered, Unbeaten, Linked, Answer;
    var s2 := Apply(s, step);
    var l := Ingest(s.log, s.nodes[step.n], step.b);
    IngestSound(s, step.n, step.b);
    assert s2.nodes[step.n] == l && Serves(s.log, l) && Within(s.log, l);
    ReceiveSpoken(s, step.n, step.b, l, s2);
    ReceiveReplies(s, step.n, step.b, l, s2);
    SettledGrows(s, s2);
    OwnOrderedGrows(s, s2);
    OriginsGrow(s, s2);
  }

  // ---------- Deciding ----------

  lemma DecideKeepsInv(s: State, step: Step)
    requires Inv(s) && step.Decide? && Enabled(s, step)
    ensures Inv(Apply(s, step))
  {
    hide Serves, Within, Answers, Ordered, Unbeaten, Linked;
    var s2 := Apply(s, step);
    SpokenGrows(s, s2);
    OwnOrderedGrows(s, s2);
    RepliesGrow(s, s2);
    OriginsGrow(s, s2);
    forall b, m | b in s2.verdict && s2.verdict[b] == Committed && IsBind(s2.log, b) && b in s2.origin && m in s2.nodes && m != s2.origin[b]
      ensures HeardFrom(s2, b, m)
    {
      if b == step.b {
        assert m in step.heard;
      } else {
        assert HeardFrom(s, b, m);
      }
    }
  }

  // ---------- Flushing ----------

  lemma FlushNodes(s: State, step: Step)
    requires Linked(s.log) && NodesSound(s) && step.Flush? && Enabled(s, step)
    ensures NodesSound(Apply(s, step))
  {
    hide Serves, Supplants, Within, Retains, NoCompetitor, Emitted;
    var s2, l := Apply(s, step), s.nodes[step.n];
    EmittedShape(s, step.b, step.e);
    FlushedSound(s, l, step.b, step.e, step.initial);
    forall n | n in s2.nodes ensures Within(s2.log, s2.nodes[n]) && Serves(s2.log, s2.nodes[n]) {
      OthersGrow(s, s2.log, n);
    }
  }

  lemma FlushedSound(s: State, l: Local, b: Tip, e: Effect<()>, initial: map<Key, set<Tip>>)
    requires Linked(s.log) && FreshBind(s, b, e) && Within(s.log, l) && Serves(s.log, l)
    requires forall kb :: kb in e.kind.keys ==> kb.key in initial && Retains(s.log, kb.key, initial[kb.key], kb.consumed)
    ensures Within(Emitted(s.log, b, e), Flushed(l, b, e.kind.keys, initial))
    ensures Serves(Emitted(s.log, b, e), Flushed(l, b, e.kind.keys, initial))
  {
    hide Supplants, Retains, Emitted;
    var log2, keys := Emitted(s.log, b, e), e.kind.keys;
    var gone := map k | k in KeysOf(keys) :: (if k in initial then initial[k] else {}) + Elems(BoundTip(k, keys));
    EmittedShape(s, b, e);
    FlushSupplants(s, l, b, e, initial, gone);
    ServesGrows(s.log, log2, l);
    forall k | Touches(log2, b, k) ensures k in gone {
      TouchedKey(keys, k);
    }
    ReindexServes(log2, l, gone, b);
    forall k ensures TipsOf(l, k) <= log2.Keys {
      assert TipsOf(l, k) <= s.log.Keys;
    }
    ReindexWithin(log2, l, gone, b);
    WritesAreNoBinds(s, b, e, Reindex(l, gone, b));
  }

  lemma WritesAreNoBinds(s: State, b: Tip, e: Effect<()>, l: Local)
    requires FreshBind(s, b, e) && Within(Emitted(s.log, b, e), l) && Serves(Emitted(s.log, b, e), l)
    ensures Within(Emitted(s.log, b, e), Local(l.index, l.known + Elems(e.deps)))
    ensures Serves(Emitted(s.log, b, e), Local(l.index, l.known + Elems(e.deps)))
  {
    hide Led, Emitted;
    var log2, l2 := Emitted(s.log, b, e), Local(l.index, l.known + Elems(e.deps));
    EmittedShape(s, b, e);
    forall k ensures TipsOf(l2, k) == TipsOf(l, k) {
    }
    forall k, c | c in l2.known && Touches(log2, c, k) ensures Led(log2, k, TipsOf(l2, k), c) {
      if c in e.deps {
        var kb := NewTipOrigin(e.kind.keys, c);
      }
    }
  }

  lemma FlushOwnOrdered(s: State, step: Step)
    requires Linked(s.log) && NodesSound(s) && OriginsSound(s) && OwnOrdered(s) && step.Flush? && Enabled(s, step)
    ensures OwnOrdered(Apply(s, step))
  {
    hide Serves, Within, Retains, NoCompetitor, Emitted, Reaches;
    var s2 := Apply(s, step);
    EmittedShape(s, step.b, step.e);
    forall b, c, k | b in s2.origin && c in s2.origin && b != c && s2.origin[b] == s2.origin[c] && Touches(s2.log, b, k) && Touches(s2.log, c, k)
      ensures Ordered(s2.log, k, b, c)
    {
      EmittedBinds(s, step.b, step.e, b, k);
      EmittedBinds(s, step.b, step.e, c, k);
      if c == step.b {
        SpeaksOnce(s, step.n, step.b, step.e, step.initial, k, b);
      } else if b == step.b {
        SpeaksOnce(s, step.n, step.b, step.e, step.initial, k, c);
      } else {
        OrderedGrows(s.log, s2.log, k, b, c);
      }
    }
  }

  lemma FlushSpoken(s: State, step: Step)
    requires Linked(s.log) && NodesSound(s) && OriginsSound(s) && RepliesSound(s) && Spoken(s) && step.Flush? && Enabled(s, step)
    ensures Spoken(Apply(s, step))
  {
    hide Serves, Within, Retains, NoCompetitor, Emitted, Reaches, Led;
    var s2 := Apply(s, step);
    EmittedShape(s, step.b, step.e);
    forall r, c, k | r in s2.replies && c in s2.origin && s2.origin[c] == r.from && c != r.bind && Touches(s2.log, r.bind, k) && Touches(s2.log, c, k)
      ensures Answers(s2.log, r, k, c)
    {
      EmittedBinds(s, step.b, step.e, r.bind, k);
      EmittedBinds(s, step.b, step.e, c, k);
      if c == step.b {
        SpeaksOnce(s, step.n, step.b, step.e, step.initial, k, r.bind);
      } else {
        AnswersGrows(s.log, s2.log, r, k, c);
      }
    }
  }

  lemma FlushedKnows(l: Local, b: Tip, keys: seq<KeyBind>, initial: map<Key, set<Tip>>)
    ensures Flushed(l, b, keys, initial).known == l.known + {b} + Elems(NewTips(keys))
  {
  }

  lemma NoOtherBind(s: State, b: Tip, e: Effect<()>, c: Tip)
    requires FreshBind(s, b, e) && IsBind(Emitted(s.log, b, e), c)
    ensures c == b || IsBind(s.log, c)
  {
    EmittedShape(s, b, e);
    EmittedVertex(s, b, e, c);
  }

  lemma FlushOrigins(s: State, step: Step)
    requires OriginsSound(s) && step.Flush? && Enabled(s, step)
    ensures OriginsSound(Apply(s, step)) && KnowMore(s, Apply(s, step))
  {
    hide CanFlush, Emitted, Flushed;
    var s2, n := Apply(s, step), step.n;
    EmittedShape(s, step.b, step.e);
    FlushedKnows(s.nodes[n], step.b, step.e.kind.keys, step.initial);
    assert KnowMore(s, s2);
    hide FreshBind;
    forall b | IsBind(s2.log, b) ensures b in s2.origin {
      NoOtherBind(s, step.b, step.e, b);
    }
  }

  lemma FlushKeepsInv(s: State, step: Step)
    requires Inv(s) && step.Flush? && Enabled(s, step)
    ensures Inv(Apply(s, step))
  {
    hide Serves, Within, Answers, Ordered, Unbeaten, Linked, CanFlush, Emitted, Flushed;
    var s2 := Apply(s, step);
    EmittedShape(s, step.b, step.e);
    EmittedLinked(s, step.b, step.e);
    FlushNodes(s, step);
    FlushOrigins(s, step);
    FlushOwnOrdered(s, step);
    FlushSpoken(s, step);
    RepliesGrow(s, s2);
    SettledGrows(s, s2);
  }

  // ---------- Every run ----------

  ghost predicate Runs(s: State, steps: seq<Step>, last: State)
    decreases |steps|
  {
    if steps == [] then s == last else Enabled(s, steps[0]) && Runs(Apply(s, steps[0]), steps[1..], last)
  }

  lemma StepKeepsInv(s: State, step: Step)
    requires Inv(s) && Enabled(s, step)
    ensures Inv(Apply(s, step))
  {
    hide Inv, Enabled, Apply;
    match step
    case Write(_, _, _, _) => WriteKeepsInv(s, step);
    case Flush(_, _, _, _) => FlushKeepsInv(s, step);
    case Learn(_, _) => LearnKeepsInv(s, step);
    case Receive(_, _) => ReceiveKeepsInv(s, step);
    case Decide(_, _, _) => DecideKeepsInv(s, step);
  }

  /** Whatever the order of steps, and whichever replies are never heard. */
  lemma {:induction false} RunKeepsInv(s: State, steps: seq<Step>, last: State)
    requires Inv(s) && Runs(s, steps, last)
    ensures Inv(last)
    decreases |steps|
  {
    hide Inv, Enabled, Apply;
    if steps != [] {
      StepKeepsInv(s, steps[0]);
      RunKeepsInv(Apply(s, steps[0]), steps[1..], last);
    }
  }

  // ---------- At most one commit ----------

  /** The replier's frontier leads to c, but only underneath another data effect or bind. */
  ghost predicate Buried(log: Log, k: Key, tips: set<Tip>, c: Tip) {
    Led(log, k, tips, c) && !Exposed(log, k, tips, c)
  }

  /** Two committed transactions that share a key are ordered, unless the node that issued the
      one with the lower hash had already built on it when it answered the other. */
  lemma BothCommit(s: State, steps: seq<Step>, last: State, b: Tip, c: Tip, k: Key)
    requires Init(s) && Runs(s, steps, last)
    requires b in last.verdict && last.verdict[b] == Committed && c in last.verdict && last.verdict[c] == Committed
    requires Touches(last.log, b, k) && Touches(last.log, c, k) && last.log[c].hash < last.log[b].hash
    ensures c in last.origin
    ensures Ordered(last.log, k, b, c) ||
      exists r :: r in last.replies && r.bind == b && r.from == last.origin[c] && k in r.tips && Buried(last.log, k, r.tips[k], c)
  {
    hide Init, Ordered, Led, Exposed, Serves, Within;
    RunKeepsInvFromInit(s, steps, last);
    if last.origin[b] != last.origin[c] {
      assert HeardFrom(last, b, last.origin[c]);
      var r :| r in last.replies && r.bind == b && r.from == last.origin[c] && Unbeaten(last.log, b, r);
      assert Answers(last.log, r, k, c);
    }
  }

  lemma RunKeepsInvFromInit(s: State, steps: seq<Step>, last: State)
    requires Init(s) && Runs(s, steps, last)
    ensures Inv(last)
  {
    InitSound(s);
    RunKeepsInv(s, steps, last);
  }

  /** No reply hides an unordered bind underneath another effect. */
  ghost predicate Open(s: State) {
    forall r, k, c :: r in s.replies && k in r.tips && Touches(s.log, r.bind, k) && Touches(s.log, c, k) && Buried(s.log, k, r.tips[k], c) ==>
      Ordered(s.log, k, r.bind, c)
  }

  /** Two transactions that share a key never both commit unordered. */
  lemma AtMostOneCommit(s: State, steps: seq<Step>, last: State, b: Tip, c: Tip, k: Key)
    requires Init(s) && Runs(s, steps, last) && Open(last)
    requires b in last.verdict && last.verdict[b] == Committed && c in last.verdict && last.verdict[c] == Committed
    requires Touches(last.log, b, k) && Touches(last.log, c, k) && last.log[c].hash != last.log[b].hash
    ensures Ordered(last.log, k, b, c)
  {
    hide Init, Runs, Before, Buried;
    if last.log[c].hash < last.log[b].hash {
      BothCommit(s, steps, last, b, c, k);
    } else {
      BothCommit(s, steps, last, c, b, k);
    }
  }
}
