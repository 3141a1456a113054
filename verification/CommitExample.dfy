/** A run in which two concurrent transactions on one base both commit: the first to commit is
    built upon before the second one's request is answered. */
module CommitExample {
  import opened Effects
  import opened Sequences
  import opened ChainClocks
  import opened Commit
  import opened CommitSafety
  import opened CommitRuns

  const BASE := Tip(9, 1)
  const LATE_WRITE := Tip(1, 1)
  const LATE := Tip(1, 2)
  const EARLY_WRITE := Tip(2, 1)
  const EARLY := Tip(2, 2)
  const NEXT_WRITE := Tip(2, 3)
  const NEXT := Tip(2, 4)

  function Transaction(consumed: Tip, write: Tip, hash: nat): Effect<()> {
    Effect("k", Bind([KeyBind("k", [consumed], write)]), [write], "t", hash)
  }

  function WriteOf(consumed: Tip): Effect<()> {
    Effect("k", Data(""), [consumed], "t", 0)
  }

  function Log0(): Log { map[BASE := Effect("k", Data(""), [], "", 0)] }
  function Log1(): Log { Log0()[LATE_WRITE := WriteOf(BASE)][LATE := Transaction(BASE, LATE_WRITE, 2)] }
  function Log2(): Log { Log1()[EARLY_WRITE := WriteOf(BASE)][EARLY := Transaction(BASE, EARLY_WRITE, 1)] }
  function Log3(): Log { Log2()[NEXT_WRITE := WriteOf(EARLY)][NEXT := Transaction(EARLY, NEXT_WRITE, 3)] }

  function At(tips: set<Tip>, known: set<Tip>): Local { Local(map["k" := tips], known) }

  function Start(): State {
    State(Log0(), map[1 := At({BASE}, {BASE}), 2 := At({BASE}, {BASE})], map[], map[], {})
  }

  function Flushing(n: Node, b: Tip, consumed: Tip, write: Tip, hash: nat): Step {
    Flush(n, b, Transaction(consumed, write, hash), map["k" := {consumed}])
  }

  lemma EmittedIs(log: Log, b: Tip, consumed: Tip, write: Tip, hash: nat)
    ensures Emitted(log, b, Transaction(consumed, write, hash)) == log[write := WriteOf(consumed)][b := Transaction(consumed, write, hash)]
  {
    var keys := [KeyBind("k", [consumed], write)];
    assert keys[..0] == [];
    assert Written(log, keys[..0], "t") == log;
  }

  lemma FlushedIs(l: Local, b: Tip, consumed: Tip, write: Tip)
    requires l.index == map["k" := {consumed}]
    ensures Flushed(l, b, [KeyBind("k", [consumed], write)], map["k" := {consumed}]) == At({b}, l.known + {b, write})
  {
    var keys := [KeyBind("k", [consumed], write)];
    assert keys[0] == KeyBind("k", [consumed], write);
    assert KeysOf(keys) == {"k"};
    assert NewTips(keys) == [write];
    assert BoundTip("k", keys) == [write];
    assert Elems([write]) == {write};
    var r := Flushed(l, b, keys, map["k" := {consumed}]);
    assert r.index.Keys == {"k"};
    assert r.index["k"] == {consumed} - ({consumed} + {write}) + {b} == {b};
    assert r.index == map["k" := {b}];
  }

  /** Nothing beyond `inside` is seen from the staged write, and the binds in it are behind `consumed`. */
  ghost predicate Clear(log: Log, inside: set<Tip>, consumed: Tip, write: Tip) {
    && write in inside && (forall t, d :: t in inside && d in DepsOf(KeyGraph(log, "k"), t) ==> d in inside)
    && forall c :: c in inside && Touches(log, c, "k") ==> Reaches(AllGraph(log), consumed, NewTip(log, c, "k"))
  }

  lemma FlushStep(s: State, n: Node, b: Tip, consumed: Tip, write: Tip, hash: nat, log2: Log, inside: set<Tip>)
    requires n in s.nodes && s.nodes[n].index == map["k" := {consumed}] && consumed in s.log && b !in s.log && write !in s.log && b != write
    requires log2 == s.log[write := WriteOf(consumed)][b := Transaction(consumed, write, hash)] && Clear(log2, inside, consumed, write)
    ensures Enabled(s, Flushing(n, b, consumed, write, hash))
    ensures Apply(s, Flushing(n, b, consumed, write, hash)) ==
      State(log2, s.nodes[n := At({b}, s.nodes[n].known + {b, write})], s.origin[b := n], s.verdict[b := Pending], s.replies)
  {
    hide Reaches;
    var keys, initial := [KeyBind("k", [consumed], write)], map["k" := {consumed}];
    EmittedIs(s.log, b, consumed, write, hash);
    FlushedIs(s.nodes[n], b, consumed, write);
    assert NewTips(keys) == [write];
    assert keys[0] == KeyBind("k", [consumed], write);
    assert Elems([consumed]) == {consumed};
    assert FreshBind(s, b, Transaction(consumed, write, hash));
    assert Staged(s.nodes[n], initial, keys[0]) == {write};
    forall c | Touches(log2, c, "k") && Led(log2, "k", {write}, c)
      ensures exists t :: t in [consumed] && Reaches(AllGraph(log2), t, NewTip(log2, c, "k"))
    {
      ReachesInside(KeyGraph(log2, "k"), inside, write, c);
      assert consumed in [consumed];
    }
  }

  lemma ReceiveStep(s: State, n: Node, b: Tip, tip: Tip, consumed: Tip, write: Tip, hash: nat)
    requires n in s.nodes && s.nodes[n].index == map["k" := {tip}] && b in s.log && s.log[b] == Transaction(consumed, write, hash)
    requires tip != b && tip != write && tip != consumed
    ensures Enabled(s, Receive(n, b))
    ensures Apply(s, Receive(n, b)) ==
      s.(nodes := s.nodes[n := At({tip, b}, s.nodes[n].known + {b})], replies := s.replies + {Reply(b, n, map["k" := {tip, b}])})
  {
    var keys := [KeyBind("k", [consumed], write)];
    assert keys[0] == KeyBind("k", [consumed], write);
    assert KeysOf(keys) == {"k"};
    assert BoundTip("k", keys) == [write];
    var l := Ingest(s.log, s.nodes[n], b);
    assert l.index.Keys == {"k"};
    assert l.index["k"] == {tip} - {write} + {b} == {tip, b};
    assert l.index == map["k" := {tip, b}];
    assert l == At({tip, b}, s.nodes[n].known + {b});
    assert ConsumedTips("k", keys) == [consumed];
    assert Diverged({tip, b}, b, keys, "k");
    var a := Answer(s.log, l, b, n);
    assert a.tips.Keys == {"k"};
    assert a.tips == map["k" := {tip, b}];
  }

  /** A bind shows nothing below itself. */
  lemma BindsHide(log: Log, tips: set<Tip>, c: Tip)
    requires (forall t :: t in tips ==> IsBind(log, t)) && Exposed(log, "k", tips, c)
    ensures c in tips
  {
    var p :| ShownBy(log, "k", p) && p[0] in tips && p[|p| - 1] == c;
    assert |p| > 1 ==> IsWrapper(log[p[0]]);
  }

  // ---------- The run ----------

  const FIRST := Reply(EARLY, 1, map["k" := {LATE, EARLY}])
  const SECOND := Reply(LATE, 2, map["k" := {NEXT, LATE}])

  function State1(): State {
    State(Log1(), Start().nodes[1 := At({LATE}, {BASE} + {LATE, LATE_WRITE})], map[LATE := 1], map[LATE := Pending], {})
  }

  function State2(): State {
    State(Log2(), State1().nodes[2 := At({EARLY}, {BASE} + {EARLY, EARLY_WRITE})],
          map[LATE := 1, EARLY := 2], map[LATE := Pending, EARLY := Pending], {})
  }

  function State3(): State {
    State2().(nodes := State2().nodes[1 := At({LATE, EARLY}, {BASE} + {LATE, LATE_WRITE} + {EARLY})], replies := {FIRST})
  }

  function State4(): State {
    State3().(verdict := map[LATE := Pending, EARLY := Committed])
  }

  function State5(): State {
    State(Log3(), State4().nodes[2 := At({NEXT}, {BASE} + {EARLY, EARLY_WRITE} + {NEXT, NEXT_WRITE})],
          State4().origin[NEXT := 2], State4().verdict[NEXT := Pending], {FIRST})
  }

  function State6(): State {
    State5().(nodes := State5().nodes[2 := At({NEXT, LATE}, {BASE} + {EARLY, EARLY_WRITE} + {NEXT, NEXT_WRITE} + {LATE})], replies := {FIRST, SECOND})
  }

  /** Node 1 ingests an effect that the reply led it to. */
  function Learned(s: State, t: Tip): State
    requires 1 in s.nodes && t in s.log
  {
    s.(nodes := s.nodes[1 := Ingest(s.log, s.nodes[1], t)])
  }

  /** Everything the second reply names, and what lies between it and the base, has been fetched. */
  function Fetched(): State {
    Learned(Learned(Learned(State6(), EARLY_WRITE), NEXT_WRITE), NEXT)
  }

  function State7(): State {
    Fetched().(verdict := Fetched().verdict[LATE := Committed])
  }

  lemma Clear1()
    ensures Clear(Log1(), {LATE_WRITE, BASE}, BASE, LATE_WRITE)
  {
    hide Reaches;
  }

  lemma Step1()
    ensures Enabled(Start(), Flushing(1, LATE, BASE, LATE_WRITE, 2)) && Apply(Start(), Flushing(1, LATE, BASE, LATE_WRITE, 2)) == State1()
  {
    hide Clear, Enabled, Apply;
    Clear1();
    FlushStep(Start(), 1, LATE, BASE, LATE_WRITE, 2, Log1(), {LATE_WRITE, BASE});
  }

  lemma Clear2()
    ensures Clear(Log2(), {EARLY_WRITE, BASE}, BASE, EARLY_WRITE)
  {
    hide Reaches;
  }

  lemma Step2()
    ensures Enabled(State1(), Flushing(2, EARLY, BASE, EARLY_WRITE, 1))
    ensures Apply(State1(), Flushing(2, EARLY, BASE, EARLY_WRITE, 1)) == State2()
  {
    hide Clear, Enabled, Apply;
    Clear2();
    FlushStep(State1(), 2, EARLY, BASE, EARLY_WRITE, 1, Log2(), {EARLY_WRITE, BASE});
  }

  lemma Step3()
    ensures Enabled(State2(), Receive(1, EARLY)) && Apply(State2(), Receive(1, EARLY)) == State3()
  {
    hide Enabled, Apply;
    ReceiveStep(State2(), 1, EARLY, LATE, BASE, EARLY_WRITE, 1);
  }

  /** A transaction commits over replies that show only binds with higher hashes. */
  lemma DecideStep(s: State, b: Tip, n: Node, r: Reply)
    requires IsBind(s.log, b) && b in s.origin && b in s.verdict && s.verdict[b] == Pending
    requires s.nodes.Keys == {s.origin[b], n} && n != s.origin[b]
    requires r in s.replies && r.bind == b && r.from == n && r.tips.Keys == {"k"}
    requires forall t :: t in r.tips["k"] ==> IsBind(s.log, t) && s.log[b].hash <= s.log[t].hash
    ensures Enabled(s, Decide(b, map[n := r], Committed))
    ensures Apply(s, Decide(b, map[n := r], Committed)) == s.(verdict := s.verdict[b := Committed])
  {
    hide Exposed, Ordered;
    forall c | Exposed(s.log, "k", r.tips["k"], c) ensures c in r.tips["k"] {
      BindsHide(s.log, r.tips["k"], c);
    }
    assert Unbeaten(s.log, b, r);
  }

  /** The competitor shown has the higher hash, so the first transaction commits. */
  lemma Step4()
    ensures Enabled(State3(), Decide(EARLY, map[1 := FIRST], Committed))
    ensures Apply(State3(), Decide(EARLY, map[1 := FIRST], Committed)) == State4()
  {
    hide Enabled, Apply;
    DecideStep(State3(), EARLY, 1, FIRST);
  }

  lemma Clear3()
    ensures Clear(Log3(), {NEXT_WRITE, EARLY, EARLY_WRITE, BASE}, EARLY, NEXT_WRITE)
  {
    hide Reaches;
    ReachesItself(AllGraph(Log3()), EARLY_WRITE);
    ReachesFirst(AllGraph(Log3()), EARLY, EARLY_WRITE, EARLY_WRITE);
    assert NewTip(Log3(), EARLY, "k") == EARLY_WRITE;
  }

  lemma Step5()
    ensures Enabled(State4(), Flushing(2, NEXT, EARLY, NEXT_WRITE, 3))
    ensures Apply(State4(), Flushing(2, NEXT, EARLY, NEXT_WRITE, 3)) == State5()
  {
    hide Clear, Enabled, Apply;
    Clear3();
    FlushStep(State4(), 2, NEXT, EARLY, NEXT_WRITE, 3, Log3(), {NEXT_WRITE, EARLY, EARLY_WRITE, BASE});
  }

  lemma Step6()
    ensures Enabled(State5(), Receive(2, LATE)) && Apply(State5(), Receive(2, LATE)) == State6()
  {
    hide Enabled, Apply;
    ReceiveStep(State5(), 2, LATE, NEXT, BASE, LATE_WRITE, 2);
  }

  /** The bind that won is underneath the one shown, so the second transaction commits too. */
  lemma Step7()
    ensures Enabled(Fetched(), Decide(LATE, map[2 := SECOND], Committed))
    ensures Apply(Fetched(), Decide(LATE, map[2 := SECOND], Committed)) == State7()
  {
    hide Enabled, Apply, Ingest;
    DecideStep(Fetched(), LATE, 2, SECOND);
  }

  lemma LearnStep(s: State, t: Tip)
    requires 1 in s.nodes && t in s.log
    ensures Enabled(s, Learn(1, t)) && Apply(s, Learn(1, t)) == Learned(s, t)
  {
  }

  /** Ingesting the replies before deciding changes nothing about the decision. */
  lemma IngestingRuns(steps: seq<Step>, last: State) returns (more: seq<Step>)
    requires Runs(Fetched(), steps, last)
    ensures Runs(State6(), more, last)
  {
    hide Runs, Enabled, Apply, Ingest;
    var s6 := State6();
    var s1 := Learned(s6, EARLY_WRITE);
    var s2 := Learned(s1, NEXT_WRITE);
    LearnStep(s6, EARLY_WRITE);
    LearnStep(s1, NEXT_WRITE);
    LearnStep(s2, NEXT);
    RunsOn(s2, Learn(1, NEXT), steps, last);
    more := [Learn(1, NEXT)] + steps;
    RunsOn(s1, Learn(1, NEXT_WRITE), more, last);
    more := [Learn(1, NEXT_WRITE)] + more;
    RunsOn(s6, Learn(1, EARLY_WRITE), more, last);
    more := [Learn(1, EARLY_WRITE)] + more;
  }

  lemma Unordered()
    ensures !Ordered(Log3(), "k", LATE, EARLY)
  {
    hide Reaches;
    if Before(Log3(), "k", LATE, EARLY) {
      ReachesInside(AllGraph(Log3()), {EARLY, EARLY_WRITE, BASE}, EARLY, LATE_WRITE);
    }
    if Before(Log3(), "k", EARLY, LATE) {
      ReachesInside(AllGraph(Log3()), {LATE, LATE_WRITE, BASE}, LATE, EARLY_WRITE);
    }
  }

  lemma RunsOn(s: State, step: Step, steps: seq<Step>, last: State)
    requires Enabled(s, step) && Runs(Apply(s, step), steps, last)
    ensures Runs(s, [step] + steps, last)
  {
    hide Enabled, Apply;
    assert ([step] + steps)[1..] == steps;
  }

  lemma TheRun() returns (steps: seq<Step>)
    ensures Runs(Start(), steps, State7())
  {
    hide *;
    Step1(); Step2(); Step3(); Step4(); Step5(); Step6(); Step7();
    steps := NoSteps(State7());
    RunsOn(Fetched(), Decide(LATE, map[2 := SECOND], Committed), steps, State7());
    steps := [Decide(LATE, map[2 := SECOND], Committed)] + steps;
    steps := IngestingRuns(steps, State7());
    RunsOn(State5(), Receive(2, LATE), steps, State7());
    steps := [Receive(2, LATE)] + steps;
    RunsOn(State4(), Flushing(2, NEXT, EARLY, NEXT_WRITE, 3), steps, State7());
    steps := [Flushing(2, NEXT, EARLY, NEXT_WRITE, 3)] + steps;
    RunsOn(State3(), Decide(EARLY, map[1 := FIRST], Committed), steps, State7());
    steps := [Decide(EARLY, map[1 := FIRST], Committed)] + steps;
    RunsOn(State2(), Receive(1, EARLY), steps, State7());
    steps := [Receive(1, EARLY)] + steps;
    RunsOn(State1(), Flushing(2, EARLY, BASE, EARLY_WRITE, 1), steps, State7());
    steps := [Flushing(2, EARLY, BASE, EARLY_WRITE, 1)] + steps;
    RunsOn(Start(), Flushing(1, LATE, BASE, LATE_WRITE, 2), steps, State7());
    steps := [Flushing(1, LATE, BASE, LATE_WRITE, 2)] + steps;
  }

  lemma NoSteps(s: State) returns (steps: seq<Step>)
    ensures steps == [] && Runs(s, steps, s)
  {
    steps := [];
  }

  lemma StartIsInit()
    ensures Init(Start())
  {
  }

  /** Both consume the same tip, neither follows the other, and both commit. */
  lemma BothCommitted() returns (steps: seq<Step>)
    ensures Init(Start()) && Runs(Start(), steps, State7())
    ensures State7().verdict[EARLY] == Committed && State7().verdict[LATE] == Committed
    ensures BASE in ConsumedTips("k", State7().log[EARLY].kind.keys) && BASE in ConsumedTips("k", State7().log[LATE].kind.keys)
    ensures !Ordered(State7().log, "k", LATE, EARLY)
  {
    hide Runs, Ordered, Init;
    StartIsInit();
    steps := TheRun();
    Unordered();
  }
}
