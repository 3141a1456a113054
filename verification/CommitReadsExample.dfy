/** Two inputs of the check before emission: a read tip that was overwritten, and a concurrent
    write that a subscription hides. */
module CommitReadsExample {
  import opened Effects
  import opened Sequences
  import opened ChainClocks
  import opened Commit
  import opened CommitSafety
  import opened CommitRuns
  import opened CommitReads

  const READ := Tip(9, 1)
  const OTHER := Tip(9, 2)
  const WATCH := Tip(2, 1)
  const OURS := Tip(1, 1)
  const BIND := Tip(1, 2)

  function Plain(deps: seq<Tip>): Effect<()> { Effect("k", Data(""), deps, "", 0) }

  const WATCHING: Effect<()> := Effect("k", Subscription, [OTHER], "", 0)
  const TRANSACTION: Effect<()> := Effect("k", Bind([KeyBind("k", [READ], OURS)]), [OURS], "t", 1)

  function At(tips: set<Tip>, known: set<Tip>): Local { Local(map["k" := tips], known) }

  const EMISSION: Step := Flush(1, BIND, TRANSACTION, map["k" := {READ}])

  /** The node has moved from what was read to a write on top of it. */
  lemma Overwritten(s: State)
    requires s.log == map[READ := Plain([]), OTHER := Plain([READ])] && s.nodes == map[1 := At({OTHER}, {READ, OTHER})]
    ensures !Enabled(s, EMISSION)
  {
    assert TRANSACTION.kind.keys[0].key == "k";
    OverwrittenAborts(s, 1, "k", READ, BIND, TRANSACTION, map["k" := {READ}]);
  }

  /** The node has also learned a write concurrent with what was read. */
  lemma Concurrent(s: State)
    requires s.log == map[READ := Plain([]), OTHER := Plain([])] && s.nodes == map[1 := At({READ, OTHER}, {READ, OTHER})]
    ensures !Enabled(s, EMISSION)
  {
    assert TRANSACTION.kind.keys[0].key == "k";
    assert IsNews(s.log, {READ}, OTHER) by {
      if Known(s.log, {READ}, OTHER) {
        ReachesInside(AllGraph(s.log), {READ}, READ, OTHER);
      }
    }
    assert OTHER in TipsOf(s.nodes[1], "k");
    NewsAborts(s, 1, "k", {READ}, BIND, TRANSACTION, map["k" := {READ}]);
  }

  // ---------- The hidden write ----------

  function Log0(): Log { map[READ := Plain([]), OTHER := Plain([])] }
  function Log1(): Log { Log0()[WATCH := WATCHING] }
  function Nodes(tips: set<Tip>, known: set<Tip>, watch: set<Tip>): map<Node, Local> {
    map[1 := At(tips, known), 2 := At(watch, {OTHER} + watch)]
  }

  function Start(): State { State(Log0(), Nodes({READ}, {READ}, {OTHER}), map[], map[], {}) }
  function Watched(): State { State(Log1(), Nodes({READ}, {READ}, {WATCH}), map[], map[], {}) }
  function Arrived(): State { State(Log1(), Nodes({READ, OTHER}, {READ, OTHER}, {WATCH}), map[], map[], {}) }
  function Hidden(): State { State(Log1(), Nodes({READ, WATCH}, {READ, OTHER, WATCH}, {WATCH}), map[], map[], {}) }

  lemma WatchStep()
    ensures Enabled(Start(), Write(2, WATCH, WATCHING, {OTHER})) && Apply(Start(), Write(2, WATCH, WATCHING, {OTHER})) == Watched()
  {
    var s, l := Start(), Reindex(Start().nodes[2], map["k" := {OTHER}], WATCH);
    assert Retains(s.log, "k", {OTHER}, [OTHER]);
    assert l.index.Keys == {"k"} && l.index["k"] == {WATCH};
    assert l.index == map["k" := {WATCH}];
    assert l == At({WATCH}, {OTHER} + {WATCH});
    assert s.nodes[2 := l] == Watched().nodes;
  }

  lemma ArriveStep()
    ensures Enabled(Watched(), Learn(1, OTHER)) && Apply(Watched(), Learn(1, OTHER)) == Arrived()
  {
    var s, l := Watched(), Ingest(Log1(), Watched().nodes[1], OTHER);
    assert l.index.Keys == {"k"} && l.index["k"] == {READ, OTHER};
    assert l.index == map["k" := {READ, OTHER}];
    assert l == At({READ, OTHER}, {READ, OTHER});
    assert s.nodes[1 := l] == Arrived().nodes;
  }

  lemma HideStep()
    ensures Enabled(Arrived(), Learn(1, WATCH)) && Apply(Arrived(), Learn(1, WATCH)) == Hidden()
  {
    var s, l := Arrived(), Ingest(Log1(), Arrived().nodes[1], WATCH);
    assert OTHER in WATCHING.deps;
    assert Elems(WATCHING.deps) == {OTHER};
    assert l.index.Keys == {"k"} && l.index["k"] == {READ, WATCH};
    assert l.index == map["k" := {READ, WATCH}];
    assert l == At({READ, WATCH}, {READ, OTHER, WATCH});
    assert s.nodes[1 := l] == Hidden().nodes;
  }

  function Log2(): Log { Log1()[OURS := Effect("k", Data(""), [READ], "t", 0)][BIND := TRANSACTION] }

  lemma EmittedIs()
    ensures Emitted(Log1(), BIND, TRANSACTION) == Log2()
  {
    var keys := [KeyBind("k", [READ], OURS)];
    assert keys[..0] == [];
    assert Written(Log1(), keys[..0], "t") == Log1();
  }

  lemma HiddenEmits()
    ensures Enabled(Hidden(), EMISSION)
  {
    hide Reaches;
    var s, keys, initial := Hidden(), [KeyBind("k", [READ], OURS)], map["k" := {READ}];
    EmittedIs();
    assert NewTips(keys) == [OURS];
    assert keys[0] == KeyBind("k", [READ], OURS);
    assert FreshBind(s, BIND, TRANSACTION);
    assert Staged(s.nodes[1], initial, keys[0]) == {WATCH, OURS};
    assert Preflight(s.log, TipsOf(s.nodes[1], "k"), {READ});
    forall c | Led(Log2(), "k", {WATCH, OURS}, c) ensures !Touches(Log2(), c, "k") {
      var t :| t in {WATCH, OURS} && Reaches(KeyGraph(Log2(), "k"), t, c);
      SeesNoBind(t, c);
    }
  }

  lemma SeesNoBind(t: Tip, c: Tip)
    requires t in {WATCH, OURS} && Reaches(KeyGraph(Log2(), "k"), t, c)
    ensures !Touches(Log2(), c, "k")
  {
    ReachesInside(KeyGraph(Log2(), "k"), {READ, OTHER, WATCH, OURS}, t, c);
  }

  lemma OtherIsNews()
    ensures IsNews(Log1(), {READ}, OTHER)
  {
    if Known(Log1(), {READ}, OTHER) {
      ReachesInside(AllGraph(Log1()), {READ}, READ, OTHER);
    }
  }

  lemma StartIsInit()
    ensures Init(Start())
  {
    assert Within(Log0(), Start().nodes[1]) && Within(Log0(), Start().nodes[2]);
  }

  /** A run in which the node learns a concurrent write and then a subscription that depends on it:
      the transaction that did not read the write is still emitted. */
  lemma VeiledWriteIsMissed() returns (steps: seq<Step>)
    ensures Init(Start()) && TipsOf(Start().nodes[1], "k") == {READ} && Runs(Start(), steps, Hidden())
    ensures OTHER in Hidden().nodes[1].known && IsNews(Hidden().log, {READ}, OTHER) && Enabled(Hidden(), EMISSION)
  {
    hide Init, Enabled, Apply, IsNews;
    StartIsInit();
    WatchStep();
    ArriveStep();
    HideStep();
    HiddenEmits();
    OtherIsNews();
    assert Runs(Hidden(), [], Hidden());
    assert Runs(Arrived(), [Learn(1, WATCH)], Hidden());
    assert Runs(Watched(), [Learn(1, OTHER)] + [Learn(1, WATCH)], Hidden());
    steps := [Write(2, WATCH, WATCHING, {OTHER})] + ([Learn(1, OTHER)] + [Learn(1, WATCH)]);
  }
}
