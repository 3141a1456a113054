/** What every run of the commit protocol keeps, and when two concurrent transactions can both
    commit. */
module CommitSafety {
  import opened Effects
  import opened Sequences
  import opened ChainClocks
  import opened Commit

  // ---------- Growing logs ----------

  ghost predicate Grows(log: Log, log2: Log) {
    forall t :: t in log ==> t in log2 && log2[t] == log[t]
  }

  ghost predicate LinkedBind(log: Log, e: Effect<()>) {
    e.kind.Bind? ==>
      && e.deps == NewTips(e.kind.keys)
      && forall kb :: kb in e.kind.keys ==> kb.newTip in log && log[kb.newTip].deps == kb.consumed
  }

  /** Dependencies are present, and the write of a bind depends on what the bind consumed. */
  ghost predicate Linked(log: Log) {
    forall t :: t in log ==> (forall d :: d in log[t].deps ==> d in log) && LinkedBind(log, log[t])
  }

  lemma PathGrows(g: Deps, g2: Deps, a: Tip, b: Tip)
    requires Reaches(g, a, b) && forall t :: t in g ==> t in g2 && g2[t] == g[t]
    ensures Reaches(g2, a, b)
  {
    var p :| Leads(g, p) && p[0] == a && p[|p| - 1] == b;
    forall i | 0 <= i < |p| - 1 ensures p[i + 1] in DepsOf(g2, p[i]) {
      assert p[i + 1] in DepsOf(g, p[i]);
    }
    assert Leads(g2, p);
  }

  lemma LedGrows(log: Log, log2: Log, k: Key, tips: set<Tip>, c: Tip)
    requires Grows(log, log2) && Led(log, k, tips, c)
    ensures Led(log2, k, tips, c)
  {
    hide Reaches;
    var t :| t in tips && Reaches(KeyGraph(log, k), t, c);
    PathGrows(KeyGraph(log, k), KeyGraph(log2, k), t, c);
  }

  lemma OrderedGrows(log: Log, log2: Log, k: Key, b: Tip, c: Tip)
    requires Grows(log, log2) && Touches(log, b, k) && Touches(log, c, k) && Ordered(log, k, b, c)
    ensures Ordered(log2, k, b, c)
  {
    hide Reaches;
    if Before(log, k, b, c) {
      PathGrows(AllGraph(log), AllGraph(log2), c, NewTip(log, b, k));
    } else {
      PathGrows(AllGraph(log), AllGraph(log2), b, NewTip(log, c, k));
    }
  }

  lemma {:induction false} ShownStays(log: Log, log2: Log, k: Key, p: seq<Tip>)
    requires Grows(log, log2) && Linked(log) && ShownBy(log2, k, p) && p[0] in log
    ensures ShownBy(log, k, p) && p[|p| - 1] in log
  {
    if |p| > 1 {
      assert p[0] in log2 && IsWrapper(log2[p[0]]) && p[0 + 1] in log2[p[0]].deps;
      var q := p[1..];
      forall i | 0 <= i < |q| - 1 ensures q[i] in log2 && IsWrapper(log2[q[i]]) && q[i + 1] in log2[q[i]].deps {
        assert p[i + 1] in log2 && IsWrapper(log2[p[i + 1]]) && p[i + 1 + 1] in log2[p[i + 1]].deps;
      }
      ShownStays(log, log2, k, q);
      forall i | 0 <= i < |p| - 1 ensures p[i] in log && IsWrapper(log[p[i]]) && p[i + 1] in log[p[i]].deps {
        if i > 0 {
          assert q[i - 1] in log && IsWrapper(log[q[i - 1]]) && q[i - 1 + 1] in log[q[i - 1]].deps;
        }
      }
    }
  }

  lemma ExposedStays(log: Log, log2: Log, k: Key, tips: set<Tip>, c: Tip)
    requires Grows(log, log2) && Linked(log) && tips <= log.Keys && Exposed(log2, k, tips, c)
    ensures Exposed(log, k, tips, c) && c in log
  {
    var p :| ShownBy(log2, k, p) && p[0] in tips && p[|p| - 1] == c;
    ShownStays(log, log2, k, p);
  }

  // ---------- Keys of a bind ----------

  lemma {:induction false} KeyBindOf(keys: seq<KeyBind>, k: Key) returns (kb: KeyBind)
    requires k in KeysOf(keys)
    ensures kb in keys && kb.key == k && BoundTip(k, keys) == [kb.newTip] && ConsumedTips(k, keys) == kb.consumed
  {
    if keys[0].key == k {
      kb := keys[0];
    } else {
      kb := KeyBindOf(keys[1..], k);
    }
  }

  lemma {:induction false} TouchedKey(keys: seq<KeyBind>, k: Key)
    ensures BoundTip(k, keys) != [] <==> k in KeysOf(keys)
  {
    if keys != [] {
      TouchedKey(keys[1..], k);
      assert KeysOf(keys) == {keys[0].key} + KeysOf(keys[1..]) by {
        assert keys == [keys[0]] + keys[1..];
      }
    }
  }

  lemma NewTipIsDep(keys: seq<KeyBind>, kb: KeyBind)
    requires kb in keys
    ensures kb.newTip in NewTips(keys)
  {
    var i :| 0 <= i < |keys| && keys[i] == kb;
    assert NewTips(keys)[i] == kb.newTip;
  }

  lemma KeyEdgeIsEdge(log: Log, k: Key, t: Tip, d: Tip)
    requires Linked(log) && d in DepsOf(KeyGraph(log, k), t)
    ensures d in DepsOf(AllGraph(log), t)
  {
    if log[t].kind.Bind? {
      TouchedKey(log[t].kind.keys, k);
      var kb := KeyBindOf(log[t].kind.keys, k);
      NewTipIsDep(log[t].kind.keys, kb);
      assert LinkedBind(log, log[t]);
    }
  }

  /** A path on one key is a path. */
  lemma KeyPathIsPath(log: Log, k: Key, a: Tip, b: Tip)
    requires Linked(log) && Reaches(KeyGraph(log, k), a, b)
    ensures Reaches(AllGraph(log), a, b)
  {
    var p :| Leads(KeyGraph(log, k), p) && p[0] == a && p[|p| - 1] == b;
    forall i | 0 <= i < |p| - 1 ensures p[i + 1] in DepsOf(AllGraph(log), p[i]) {
      KeyEdgeIsEdge(log, k, p[i], p[i + 1]);
    }
    assert Leads(AllGraph(log), p);
  }

  /** From a bind to its write on a key, and on to what that write consumed. */
  lemma BindReaches(log: Log, k: Key, b: Tip)
    requires Linked(log) && Touches(log, b, k)
    ensures Reaches(AllGraph(log), b, NewTip(log, b, k))
    ensures forall t :: t in ConsumedTips(k, log[b].kind.keys) ==> Reaches(AllGraph(log), b, t)
  {
    hide Reaches;
    var keys := log[b].kind.keys;
    TouchedKey(keys, k);
    var kb := KeyBindOf(keys, k);
    NewTipIsDep(keys, kb);
    assert LinkedBind(log, log[b]);
    ReachesItself(AllGraph(log), kb.newTip);
    ReachesFirst(AllGraph(log), b, kb.newTip, kb.newTip);
    forall t | t in kb.consumed ensures Reaches(AllGraph(log), b, t) {
      ReachesLast(AllGraph(log), b, kb.newTip, t);
    }
  }

  /** A bind whose past on a key holds another bind comes after it. */
  lemma ReachedIsBefore(log: Log, k: Key, b: Tip, t: Tip, c: Tip)
    requires Linked(log) && Touches(log, b, k) && Touches(log, c, k)
    requires Reaches(AllGraph(log), b, t) && Reaches(KeyGraph(log, k), t, c)
    ensures Before(log, k, c, b)
  {
    hide Reaches;
    KeyPathIsPath(log, k, t, c);
    ReachesOnward(AllGraph(log), b, t, c);
    BindReaches(log, k, c);
    ReachesOnward(AllGraph(log), b, c, NewTip(log, c, k));
  }

  // ---------- What a node serves ----------

  /** The node's tips on a key lead to every bind on that key that it knows. */
  ghost predicate Serves(log: Log, l: Local) {
    forall k, c :: c in l.known && Touches(log, c, k) ==> Led(log, k, TipsOf(l, k), c)
  }

  ghost predicate Within(log: Log, l: Local) {
    l.known <= log.Keys && forall k :: TipsOf(l, k) <= log.Keys
  }

  /** Whatever is dropped from the index is still led to by t. */
  ghost predicate Supplants(log: Log, l: Local, gone: map<Key, set<Tip>>, t: Tip) {
    forall k, g, c :: k in gone && g in gone[k] && g in TipsOf(l, k) && Touches(log, c, k) && Reaches(KeyGraph(log, k), g, c) ==>
      Reaches(KeyGraph(log, k), t, c)
  }

  lemma ReindexServes(log: Log, l: Local, gone: map<Key, set<Tip>>, t: Tip)
    requires Serves(log, l) && Supplants(log, l, gone, t) && forall k :: Touches(log, t, k) ==> k in gone
    ensures Serves(log, Reindex(l, gone, t))
  {
    hide Reaches;
    var r := Reindex(l, gone, t);
    forall k, c | c in r.known && Touches(log, c, k) ensures Led(log, k, TipsOf(r, k), c) {
      if c == t {
        ReachesItself(KeyGraph(log, k), t);
      } else {
        var g :| g in TipsOf(l, k) && Reaches(KeyGraph(log, k), g, c);
        if g !in TipsOf(r, k) {
          assert t in TipsOf(r, k);
        }
      }
    }
  }

  lemma SupersededSupplants(log: Log, l: Local, t: Tip)
    requires t in log
    ensures Supplants(log, l, Superseded(log, t), t)
    ensures forall k :: Touches(log, t, k) ==> k in Superseded(log, t)
  {
    hide Reaches;
    var gone := Superseded(log, t);
    forall k, g, c | k in gone && g in gone[k] && g in TipsOf(l, k) && Touches(log, c, k) && Reaches(KeyGraph(log, k), g, c)
      ensures Reaches(KeyGraph(log, k), t, c)
    {
      ReachesFirst(KeyGraph(log, k), t, g, c);
    }
    forall k | Touches(log, t, k) ensures k in gone {
      TouchedKey(log[t].kind.keys, k);
    }
  }

  lemma IngestServes(log: Log, l: Local, t: Tip)
    requires Serves(log, l) && t in log
    ensures Serves(log, Ingest(log, l, t))
  {
    SupersededSupplants(log, l, t);
    ReindexServes(log, l, Superseded(log, t), t);
  }

  lemma ReindexWithin(log: Log, l: Local, gone: map<Key, set<Tip>>, t: Tip)
    requires Within(log, l) && t in log
    ensures Within(log, Reindex(l, gone, t))
  {
    var r := Reindex(l, gone, t);
    forall k ensures TipsOf(r, k) <= log.Keys {
      assert TipsOf(l, k) <= log.Keys;
    }
  }

  lemma ServesGrows(log: Log, log2: Log, l: Local)
    requires Grows(log, log2) && Within(log, l) && Serves(log, l)
    ensures Serves(log2, l)
  {
    hide Led;
    forall k, c | c in l.known && Touches(log2, c, k) ensures Led(log2, k, TipsOf(l, k), c) {
      LedGrows(log, log2, k, TipsOf(l, k), c);
    }
  }

  // ---------- Emitting a transaction ----------

  predicate DistinctKeys(keys: seq<KeyBind>) {
    forall i, j :: 0 <= i < j < |keys| ==> keys[i].key != keys[j].key && keys[i].newTip != keys[j].newTip
  }

  lemma NewTipsSplit(keys: seq<KeyBind>)
    requires keys != []
    ensures Elems(NewTips(keys)) == Elems(NewTips(keys[..|keys| - 1])) + {keys[|keys| - 1].newTip}
  {
    assert NewTips(keys) == NewTips(keys[..|keys| - 1]) + [keys[|keys| - 1].newTip];
  }

  lemma {:induction false} WrittenGrows(log: Log, keys: seq<KeyBind>, txn: string)
    requires forall kb :: kb in keys ==> kb.newTip !in log
    ensures Grows(log, Written(log, keys, txn)) && Written(log, keys, txn).Keys == log.Keys + Elems(NewTips(keys))
  {
    if keys != [] {
      WrittenGrows(log, keys[..|keys| - 1], txn);
      NewTipsSplit(keys);
    }
  }

  lemma {:induction false} WrittenAt(log: Log, keys: seq<KeyBind>, txn: string, i: nat)
    requires DistinctKeys(keys) && i < |keys|
    ensures keys[i].newTip in Written(log, keys, txn)
    ensures Written(log, keys, txn)[keys[i].newTip] == Effect(keys[i].key, Data(""), keys[i].consumed, txn, 0)
  {
    if i < |keys| - 1 {
      WrittenAt(log, keys[..|keys| - 1], txn, i);
    }
  }

  lemma EmittedShape(s: State, b: Tip, e: Effect<()>)
    requires FreshBind(s, b, e)
    ensures Grows(s.log, Emitted(s.log, b, e)) && Emitted(s.log, b, e).Keys == s.log.Keys + Elems(e.deps) + {b}
    ensures Emitted(s.log, b, e)[b] == e
    ensures forall kb :: kb in e.kind.keys ==>
      kb.newTip in Emitted(s.log, b, e) && Emitted(s.log, b, e)[kb.newTip] == Effect(kb.key, Data(""), kb.consumed, e.txn, 0)
  {
    var keys := e.kind.keys;
    forall kb | kb in keys ensures kb.newTip !in s.log && kb.newTip != b {
      NewTipIsDep(keys, kb);
    }
    WrittenGrows(s.log, keys, e.txn);
    forall kb | kb in keys
      ensures kb.newTip in Emitted(s.log, b, e) && Emitted(s.log, b, e)[kb.newTip] == Effect(kb.key, Data(""), kb.consumed, e.txn, 0)
    {
      var i :| 0 <= i < |keys| && keys[i] == kb;
      WrittenAt(s.log, keys, e.txn, i);
    }
  }

  lemma NewTipOrigin(keys: seq<KeyBind>, t: Tip) returns (kb: KeyBind)
    requires t in NewTips(keys)
    ensures kb in keys && kb.newTip == t
  {
    var i :| 0 <= i < |NewTips(keys)| && NewTips(keys)[i] == t;
    kb := keys[i];
  }

  /** The new vertices are the bind and one data effect for each of its keys. */
  lemma EmittedVertex(s: State, b: Tip, e: Effect<()>, t: Tip)
    requires FreshBind(s, b, e) && t in Emitted(s.log, b, e)
    ensures t in s.log || t == b ||
      exists kb :: kb in e.kind.keys && t == kb.newTip && Emitted(s.log, b, e)[t] == Effect(kb.key, Data(""), kb.consumed, e.txn, 0)
  {
    EmittedShape(s, b, e);
    if t !in s.log && t != b {
      var kb := NewTipOrigin(e.kind.keys, t);
    }
  }

  lemma EmittedLinked(s: State, b: Tip, e: Effect<()>)
    requires Linked(s.log) && FreshBind(s, b, e)
    ensures Linked(Emitted(s.log, b, e))
  {
    var log2 := Emitted(s.log, b, e);
    EmittedShape(s, b, e);
    forall t | t in log2 ensures (forall d :: d in log2[t].deps ==> d in log2) && LinkedBind(log2, log2[t]) {
      EmittedVertex(s, b, e, t);
      if t in s.log {
        assert LinkedBind(s.log, s.log[t]);
      }
    }
  }

  /** No bind but b is new. */
  lemma EmittedBinds(s: State, b: Tip, e: Effect<()>, c: Tip, k: Key)
    requires FreshBind(s, b, e)
    ensures Touches(Emitted(s.log, b, e), c, k) <==> if c == b then k in KeysOf(e.kind.keys) else Touches(s.log, c, k)
  {
    EmittedShape(s, b, e);
    TouchedKey(e.kind.keys, k);
    if c in Emitted(s.log, b, e) {
      EmittedVertex(s, b, e, c);
    }
  }

  /** On the grown log, the write reaches whatever the tips it replaced led to. */
  lemma WriteLeads(s: State, b: Tip, e: Effect<()>, kb: KeyBind, initial: set<Tip>, g: Tip, c: Tip)
    requires Linked(s.log) && FreshBind(s, b, e) && kb in e.kind.keys && Retains(s.log, kb.key, initial, kb.consumed)
    requires g in initial && Touches(s.log, c, kb.key) && Reaches(KeyGraph(s.log, kb.key), g, c)
    ensures Reaches(KeyGraph(Emitted(s.log, b, e), kb.key), kb.newTip, c)
  {
    hide Reaches;
    var k, log2 := kb.key, Emitted(s.log, b, e);
    EmittedShape(s, b, e);
    assert Led(s.log, k, initial, c);
    var t :| t in Elems(kb.consumed) && Reaches(KeyGraph(s.log, k), t, c);
    PathGrows(KeyGraph(s.log, k), KeyGraph(log2, k), t, c);
    assert t in DepsOf(KeyGraph(log2, k), kb.newTip);
    ReachesFirst(KeyGraph(log2, k), kb.newTip, t, c);
  }

  /** Staging the write loses sight of no known bind. */
  lemma StagedLeads(s: State, l: Local, b: Tip, e: Effect<()>, kb: KeyBind, initial: map<Key, set<Tip>>, c: Tip)
    requires Linked(s.log) && FreshBind(s, b, e) && kb in e.kind.keys && kb.key in initial
    requires Retains(s.log, kb.key, initial[kb.key], kb.consumed)
    requires Serves(s.log, l) && c in l.known && Touches(s.log, c, kb.key)
    ensures Led(Emitted(s.log, b, e), kb.key, Staged(l, initial, kb), c)
  {
    hide Reaches;
    var k, log2 := kb.key, Emitted(s.log, b, e);
    assert Led(s.log, k, TipsOf(l, k), c);
    var g :| g in TipsOf(l, k) && Reaches(KeyGraph(s.log, k), g, c);
    if g in initial[k] {
      WriteLeads(s, b, e, kb, initial[k], g, c);
      assert kb.newTip in Staged(l, initial, kb);
    } else {
      EmittedShape(s, b, e);
      PathGrows(KeyGraph(s.log, k), KeyGraph(log2, k), g, c);
      assert g in Staged(l, initial, kb);
    }
  }

  /** Once a node knows a bind, every bind it emits on that key comes after it. */
  lemma SpeaksOnce(s: State, n: Node, b: Tip, e: Effect<()>, initial: map<Key, set<Tip>>, k: Key, c: Tip)
    requires Linked(s.log) && n in s.nodes && Within(s.log, s.nodes[n]) && Serves(s.log, s.nodes[n])
    requires FreshBind(s, b, e) && CanFlush(s, n, b, e, initial)
    requires c in s.nodes[n].known && Touches(s.log, c, k) && k in KeysOf(e.kind.keys)
    ensures Touches(Emitted(s.log, b, e), c, k) && Before(Emitted(s.log, b, e), k, c, b)
  {
    hide Reaches;
    var log2 := Emitted(s.log, b, e);
    var kb := KeyBindOf(e.kind.keys, k);
    EmittedShape(s, b, e);
    EmittedLinked(s, b, e);
    EmittedBinds(s, b, e, c, k);
    EmittedBinds(s, b, e, b, k);
    StagedLeads(s, s.nodes[n], b, e, kb, initial, c);
    assert NoCompetitor(log2, k, Staged(s.nodes[n], initial, kb), kb.consumed);
    var t :| t in kb.consumed && Reaches(AllGraph(log2), t, NewTip(log2, c, k));
    BindReaches(log2, k, b);
    ReachesOnward(AllGraph(log2), b, t, NewTip(log2, c, k));
  }

  /** What a flush drops from the index the bind still leads to. */
  lemma FlushSupplants(s: State, l: Local, b: Tip, e: Effect<()>, initial: map<Key, set<Tip>>, gone: map<Key, set<Tip>>)
    requires Linked(s.log) && FreshBind(s, b, e) && Within(s.log, l)
    requires forall kb :: kb in e.kind.keys ==> kb.key in initial && Retains(s.log, kb.key, initial[kb.key], kb.consumed)
    requires gone.Keys == KeysOf(e.kind.keys) && forall k :: k in gone ==> gone[k] == initial[k] + Elems(BoundTip(k, e.kind.keys))
    ensures Supplants(Emitted(s.log, b, e), l, gone, b)
  {
    hide Reaches, Retains;
    var log2 := Emitted(s.log, b, e);
    EmittedShape(s, b, e);
    forall k, g, c | k in gone && g in gone[k] && g in TipsOf(l, k) && Touches(log2, c, k) && Reaches(KeyGraph(log2, k), g, c)
      ensures Reaches(KeyGraph(log2, k), b, c)
    {
      var kb := KeyBindOf(e.kind.keys, k);
      EmittedBinds(s, b, e, c, k);
      if g in initial[k] {
        ReachStays(s.log, log2, k, g, c);
        WriteLeads(s, b, e, kb, initial[k], g, c);
        ReachesFirst(KeyGraph(log2, k), b, kb.newTip, c);
      } else {
        ReachesFirst(KeyGraph(log2, k), b, g, c);
      }
    }
  }

  /** An old vertex reaches only old vertices. */
  lemma ReachStays(log: Log, log2: Log, k: Key, a: Tip, c: Tip)
    requires Linked(log) && Grows(log, log2) && a in log && Reaches(KeyGraph(log2, k), a, c)
    ensures Reaches(KeyGraph(log, k), a, c) && c in log
  {
    var p :| Leads(KeyGraph(log2, k), p) && p[0] == a && p[|p| - 1] == c;
    LeadsStays(log, log2, k, p);
  }

  lemma {:induction false} LeadsStays(log: Log, log2: Log, k: Key, p: seq<Tip>)
    requires Linked(log) && Grows(log, log2) && Leads(KeyGraph(log2, k), p) && p[0] in log
    ensures Leads(KeyGraph(log, k), p) && p[|p| - 1] in log
  {
    if |p| > 1 {
      assert p[0 + 1] in DepsOf(KeyGraph(log2, k), p[0]);
      KeyEdgeIsEdge(log, k, p[0], p[1]);
      var q := p[1..];
      forall i | 0 <= i < |q| - 1 ensures q[i + 1] in DepsOf(KeyGraph(log2, k), q[i]) {
        assert p[i + 1 + 1] in DepsOf(KeyGraph(log2, k), p[i + 1]);
      }
      LeadsStays(log, log2, k, q);
      forall i | 0 <= i < |p| - 1 ensures p[i + 1] in DepsOf(KeyGraph(log, k), p[i]) {
        if i > 0 {
          assert q[i - 1 + 1] in DepsOf(KeyGraph(log, k), q[i - 1]);
        }
      }
    }
  }
}
