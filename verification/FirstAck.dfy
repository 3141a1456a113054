/** The first-ACK replication future (cluster/replication_request.go, cluster/replication.go) as a
    machine of atomic steps: counters and flags are read and written one at a time. */
module FirstAck {
  import opened Effects

  type Peer = nat

  /** Where one peer's request stands. A dropped peer carries the count its own drop produced. */
  datatype Request =
    | Fresh
    | Counted
    | Pending
    | Acking
    | Stopping
    | Dropping
    | Added(mine: nat)
    | SawSetup(mine: nat)
    | Dropped(mine: nat)
    | Finished

  datatype Outcome = Resolved | AllDropped | TimedOut

  /** The registering goroutine: waiting for the registrations, flag stored, counter loaded, done. */
  datatype Setup = Registering | FlagStored | Loaded(dropped: nat) | SetupOver

  datatype Future = Future(requests: map<Peer, Request>, expected: nat, dropped: nat, setupDone: bool, setup: Setup, outcome: Option<Outcome>)

  datatype Step =
    | Count(p: Peer)
    | Store(p: Peer)
    | ClaimAck(p: Peer)
    | Resolve(p: Peer)
    | ClaimStop(p: Peer)
    | RejectStopped(p: Peer)
    | ClaimDrop(p: Peer)
    | AddDrop(p: Peer)
    | LoadSetup(p: Peer)
    | LoadExpected(p: Peer)
    | StoreFlag
    | LoadDropped
    | Compare

  predicate Registered(r: Request) {
    !r.Fresh? && !r.Counted?
  }

  predicate IsAt(f: Future, p: Peer, r: Request) {
    p in f.requests && f.requests[p] == r
  }

  predicate Enabled(f: Future, s: Step) {
    match s
    case Count(p) => IsAt(f, p, Fresh)
    case Store(p) => IsAt(f, p, Counted)
    case ClaimAck(p) => IsAt(f, p, Pending)
    case Resolve(p) => IsAt(f, p, Acking)
    case ClaimStop(p) => IsAt(f, p, Pending)
    case RejectStopped(p) => IsAt(f, p, Stopping)
    case ClaimDrop(p) => IsAt(f, p, Pending)
    case AddDrop(p) => IsAt(f, p, Dropping)
    case LoadSetup(p) => p in f.requests && f.requests[p].Added?
    case LoadExpected(p) => p in f.requests && f.requests[p].SawSetup?
    case StoreFlag => f.setup == Registering && forall p :: p in f.requests ==> Registered(f.requests[p])
    case LoadDropped => f.setup == FlagStored
    case Compare => f.setup.Loaded?
  }

  /** Only the first completion counts. */
  function Complete(f: Future, o: Outcome): Future {
    if f.outcome.None? then f.(outcome := Some(o)) else f
  }

  function Move(f: Future, p: Peer, r: Request): Future {
    f.(requests := f.requests[p := r])
  }

  function Apply(f: Future, s: Step): Future
    requires Enabled(f, s)
  {
    match s
    case Count(p) => Move(f, p, Counted).(expected := f.expected + 1)
    case Store(p) => Move(f, p, Pending)
    case ClaimAck(p) => Move(f, p, Acking)
    case Resolve(p) => Complete(Move(f, p, Finished), Resolved)
    case ClaimStop(p) => Move(f, p, Stopping)
    case RejectStopped(p) => Complete(Move(f, p, Finished), TimedOut)
    case ClaimDrop(p) => Move(f, p, Dropping)
    case AddDrop(p) => Move(f, p, Added(f.dropped + 1)).(dropped := f.dropped + 1)
    case LoadSetup(p) => Move(f, p, if f.setupDone then SawSetup(f.requests[p].mine) else Dropped(f.requests[p].mine))
    case LoadExpected(p) =>
      var g := Move(f, p, Dropped(f.requests[p].mine));
      if f.requests[p].mine == f.expected then Complete(g, AllDropped) else g
    case StoreFlag => f.(setup := FlagStored, setupDone := true)
    case LoadDropped => f.(setup := Loaded(f.dropped))
    case Compare =>
      var g := f.(setup := SetupOver);
      if f.setup.dropped == f.expected then Complete(g, AllDropped) else g
  }

  /** Several peers register while the flag is down; a single peer registers with the flag up. */
  predicate Init(f: Future) {
    && (forall p :: p in f.requests ==> f.requests[p] == Fresh) && f.expected == 0 && f.dropped == 0 && f.outcome == None && f.requests != map[]
    && ((f.setup == Registering && !f.setupDone) || (f.setup == SetupOver && f.setupDone && |f.requests| == 1))
  }

  // ---------- Counting ----------

  predicate HasDropped(r: Request) {
    r.Added? || r.SawSetup? || r.Dropped?
  }

  ghost function CountedPeers(m: map<Peer, Request>): set<Peer> {
    set p | p in m && !m[p].Fresh?
  }

  ghost function DroppedPeers(m: map<Peer, Request>): set<Peer> {
    set p | p in m && HasDropped(m[p])
  }

  ghost predicate Counters(f: Future) {
    f.expected == |CountedPeers(f.requests)| && f.dropped == |DroppedPeers(f.requests)|
  }

  /** Once the flag is up no peer can still be added, except the only one. */
  ghost predicate FlagSound(f: Future) {
    && (f.setupDone <==> f.setup != Registering)
    && (f.setupDone ==> |f.requests| == 1 || forall p :: p in f.requests ==> Registered(f.requests[p]))
    && (f.setup.FlagStored? || f.setup.Loaded? ==> forall p :: p in f.requests ==> Registered(f.requests[p]))
    && (f.setup.Loaded? ==> f.setup.dropped <= f.dropped)
    && forall p :: p in f.requests && f.requests[p].SawSetup? ==> f.setupDone
  }

  /** Each drop's count is at most the total, and the latest drop holds the total. */
  ghost predicate MinesSound(f: Future) {
    && (forall p :: p in f.requests && HasDropped(f.requests[p]) ==> 1 <= f.requests[p].mine <= f.dropped)
    && (f.dropped > 0 ==> exists p :: p in f.requests && HasDropped(f.requests[p]) && f.requests[p].mine == f.dropped)
  }

  /** A rejection for drops means that every peer dropped. */
  ghost predicate RejectionSound(f: Future) {
    f.outcome == Some(AllDropped) ==> forall p :: p in f.requests ==> HasDropped(f.requests[p])
  }

  /** Whoever counted the last drop completed the future, or setup is about to. */
  ghost predicate NoLostDrop(f: Future) {
    forall p :: p in f.requests && f.requests[p].Dropped? && f.requests[p].mine == |f.requests| ==>
      f.outcome.Some? || f.setup == Registering || f.setup == FlagStored || f.setup == Loaded(|f.requests|)
  }

  ghost predicate AnswersSound(f: Future) {
    forall p :: p in f.requests && f.requests[p].Finished? ==> f.outcome.Some?
  }

  ghost predicate Inv(f: Future) {
    f.requests != map[] && Counters(f) && FlagSound(f) && MinesSound(f) && RejectionSound(f) && NoLostDrop(f) && AnswersSound(f)
  }

  lemma InitSound(f: Future)
    requires Init(f)
    ensures Inv(f)
  {
    assert CountedPeers(f.requests) == {} && DroppedPeers(f.requests) == {};
  }

  // ---------- Counters ----------

  lemma SubsetFull(a: set<Peer>, b: set<Peer>)
    requires a <= b
    ensures |a| <= |b| && (|a| == |b| ==> a == b)
  {
    assert b == a + (b - a);
    assert |b - a| == 0 ==> b - a == {};
  }

  /** How one request's move changes the two sets. */
  lemma MoveCounts(m: map<Peer, Request>, p: Peer, r: Request)
    requires p in m && !r.Fresh? && (HasDropped(m[p]) ==> HasDropped(r))
    ensures CountedPeers(m[p := r]) == CountedPeers(m) + {p}
    ensures DroppedPeers(m[p := r]) == DroppedPeers(m) + if HasDropped(r) then {p} else {}
  {
  }

  lemma CountersMove(f: Future, g: Future, p: Peer, r: Request)
    requires Counters(f) && p in f.requests && g.requests == f.requests[p := r] && !r.Fresh?
    requires (HasDropped(f.requests[p]) ==> HasDropped(r))
    requires g.expected == f.expected + if f.requests[p].Fresh? then 1 else 0
    requires g.dropped == f.dropped + if HasDropped(r) && !HasDropped(f.requests[p]) then 1 else 0
    ensures Counters(g)
  {
    MoveCounts(f.requests, p, r);
    assert p in CountedPeers(f.requests) <==> !f.requests[p].Fresh?;
    assert p in DroppedPeers(f.requests) <==> HasDropped(f.requests[p]);
    if p in CountedPeers(f.requests) {
      assert CountedPeers(f.requests) + {p} == CountedPeers(f.requests);
    }
    if p in DroppedPeers(f.requests) {
      assert DroppedPeers(f.requests) + {p} == DroppedPeers(f.requests);
    }
  }

  lemma CountersStep(f: Future, s: Step)
    requires Counters(f) && Enabled(f, s)
    ensures Counters(Apply(f, s))
  {
    var g := Apply(f, s);
    match s
    case StoreFlag =>
    case LoadDropped =>
    case Compare =>
    case _ => hide Counters; CountersMove(f, g, s.p, g.requests[s.p]);
  }

  /** With the flag up, a count that equals the expectation covers every peer. */
  lemma FullCount(f: Future, n: nat)
    requires Counters(f) && f.setupDone && n <= f.dropped && n == f.expected
    requires forall p :: p in f.requests ==> !f.requests[p].Fresh?
    ensures forall p :: p in f.requests ==> HasDropped(f.requests[p])
  {
    assert CountedPeers(f.requests) == f.requests.Keys;
    assert DroppedPeers(f.requests) <= f.requests.Keys;
    SubsetFull(DroppedPeers(f.requests), f.requests.Keys);
  }

  lemma AllCounted(f: Future)
    requires Counters(f) && forall p :: p in f.requests ==> !f.requests[p].Fresh?
    ensures f.expected == |f.requests|
  {
    assert CountedPeers(f.requests) == f.requests.Keys;
  }

  /** A single peer that has moved leaves no fresh peer. */
  lemma NoFresh(f: Future, p: Peer)
    requires FlagSound(f) && f.setupDone && p in f.requests && !f.requests[p].Fresh?
    ensures forall q :: q in f.requests ==> !f.requests[q].Fresh?
  {
    if |f.requests| == 1 {
      OnlyKey(f.requests, p);
    }
  }

  lemma OnlyKey(m: map<Peer, Request>, p: Peer)
    requires |m| == 1 && p in m
    ensures m.Keys == {p}
  {
    assert m.Keys == {p} + (m.Keys - {p});
    assert |m.Keys| == 1;
  }

  // ---------- Every step ----------

  lemma SameSize(f: Future, s: Step)
    requires Enabled(f, s)
    ensures Apply(f, s).requests.Keys == f.requests.Keys && |Apply(f, s).requests| == |f.requests|
  {
    assert Apply(f, s).requests.Keys == f.requests.Keys;
  }

  lemma FlagStep(f: Future, s: Step)
    requires FlagSound(f) && Counters(f) && Enabled(f, s)
    ensures FlagSound(Apply(f, s))
  {
    hide HasDropped, Counters;
    SameSize(f, s);
  }

  lemma MinesStep(f: Future, s: Step)
    requires MinesSound(f) && Enabled(f, s)
    ensures MinesSound(Apply(f, s))
  {
    var g := Apply(f, s);
    if f.dropped > 0 && !s.AddDrop? {
      var p :| p in f.requests && HasDropped(f.requests[p]) && f.requests[p].mine == f.dropped;
      assert HasDropped(g.requests[p]) && g.requests[p].mine == g.dropped;
    }
    if s.AddDrop? {
      assert HasDropped(g.requests[s.p]) && g.requests[s.p].mine == g.dropped;
    }
  }

  /** Comparing a count with the expectation rejects only when every peer dropped. */
  lemma RejectionStep(f: Future, s: Step)
    requires Inv(f) && Enabled(f, s)
    ensures RejectionSound(Apply(f, s))
  {
    hide Counters, NoLostDrop, AnswersSound;
    match s
    case LoadExpected(p) =>
      if f.requests[p].mine == f.expected {
        RejectingDrop(f, p);
      }
    case Compare =>
      if f.setup.dropped == f.expected {
        FullCount(f, f.setup.dropped);
      }
    case _ =>
  }

  lemma RejectingDrop(f: Future, p: Peer)
    requires Inv(f) && f.setupDone && p in f.requests && f.requests[p].SawSetup? && f.requests[p].mine == f.expected
    ensures forall q :: q in f.requests ==> HasDropped(f.requests[q])
  {
    hide NoLostDrop, AnswersSound, RejectionSound;
    NoFresh(f, p);
    FullCount(f, f.requests[p].mine);
  }

  /** The drop that completes the count is noticed: by its own comparison if it saw the flag, by
      setup's second look otherwise. */
  lemma NoLostStep(f: Future, s: Step)
    requires Inv(f) && Enabled(f, s)
    ensures NoLostDrop(Apply(f, s))
  {
    hide Counters, AnswersSound, RejectionSound;
    SameSize(f, s);
    match s
    case LoadExpected(p) =>
      NoFresh(f, p);
      AllCounted(f);
    case Compare =>
      AllCounted(f);
    case LoadDropped =>
      DropsBounded(f);
    case _ =>
  }

  lemma DropsBounded(f: Future)
    requires Counters(f)
    ensures f.dropped <= |f.requests|
  {
    SubsetFull(DroppedPeers(f.requests), f.requests.Keys);
  }

  lemma AnswersStep(f: Future, s: Step)
    requires AnswersSound(f) && Enabled(f, s)
    ensures AnswersSound(Apply(f, s))
  {
  }

  lemma StepKeepsInv(f: Future, s: Step)
    requires Inv(f) && Enabled(f, s)
    ensures Inv(Apply(f, s))
  {
    hide Counters, FlagSound, MinesSound, RejectionSound, NoLostDrop, AnswersSound;
    CountersStep(f, s);
    FlagStep(f, s);
    MinesStep(f, s);
    RejectionStep(f, s);
    NoLostStep(f, s);
    AnswersStep(f, s);
    SameSize(f, s);
  }

  predicate Runs(f: Future, steps: seq<Step>, last: Future)
    decreases |steps|
  {
    if steps == [] then f == last else Enabled(f, steps[0]) && Runs(Apply(f, steps[0]), steps[1..], last)
  }

  lemma {:induction false} RunKeepsInv(f: Future, steps: seq<Step>, last: Future)
    requires Inv(f) && Runs(f, steps, last)
    ensures Inv(last) && last.requests.Keys == f.requests.Keys && (f.outcome.Some? ==> last.outcome == f.outcome)
    decreases |steps|
  {
    hide Inv, Enabled, Apply;
    if steps != [] {
      StepKeepsInv(f, steps[0]);
      SameSize(f, steps[0]);
      OutcomeStays(f, steps[0]);
      RunKeepsInv(Apply(f, steps[0]), steps[1..], last);
    }
  }

  /** The future completes once. */
  lemma OutcomeStays(f: Future, s: Step)
    requires Enabled(f, s)
    ensures f.outcome.Some? ==> Apply(f, s).outcome == f.outcome
  {
  }

  /** A drop-caused rejection implies that every registered peer dropped. */
  lemma RejectedMeansAllDropped(f: Future, steps: seq<Step>, last: Future, p: Peer)
    requires Init(f) && Runs(f, steps, last) && last.outcome == Some(AllDropped) && p in f.requests
    ensures p in last.requests && HasDropped(last.requests[p])
  {
    InitSound(f);
    RunKeepsInv(f, steps, last);
  }

  predicate Settled(r: Request) {
    r.Finished? || r.Dropped?
  }

  /** Once setup is over and every claimed request has been worked off, the future is complete. */
  lemma NoLostWakeup(f: Future, steps: seq<Step>, last: Future)
    requires Init(f) && Runs(f, steps, last) && last.setup == SetupOver && forall p :: p in last.requests ==> Settled(last.requests[p])
    ensures last.outcome.Some?
  {
    hide Runs;
    InitSound(f);
    RunKeepsInv(f, steps, last);
    if forall p :: p in last.requests ==> last.requests[p].Dropped? {
      assert DroppedPeers(last.requests) == last.requests.Keys;
      assert last.dropped == |last.requests|;
      var p :| p in last.requests && HasDropped(last.requests[p]) && last.requests[p].mine == last.dropped;
      assert last.requests[p].Dropped? && last.requests[p].mine == |last.requests|;
    } else {
      var p :| p in last.requests && !last.requests[p].Dropped?;
      assert Settled(last.requests[p]);
    }
  }

  /** Position of a request: it only moves forward, so it leaves the pending table once. */
  function Rank(r: Request): nat {
    match r
    case Fresh => 0
    case Counted => 1
    case Pending => 2
    case Acking => 3
    case Stopping => 3
    case Dropping => 3
    case Added(_) => 4
    case SawSetup(_) => 5
    case Dropped(_) => 6
    case Finished => 6
  }

  /** A request leaves the pending table at most once, and never returns to it. */
  lemma ClaimedOnce(f: Future, steps: seq<Step>, last: Future, p: Peer)
    requires Runs(f, steps, last) && p in f.requests && Rank(f.requests[p]) > 2
    ensures p in last.requests && Rank(last.requests[p]) >= Rank(f.requests[p])
    ensures forall i :: 0 <= i < |steps| ==> steps[i] !in {ClaimAck(p), ClaimStop(p), ClaimDrop(p)}
    decreases |steps|
  {
    hide Apply;
    if steps != [] {
      RankGrows(f, steps[0], p);
      ClaimedOnce(Apply(f, steps[0]), steps[1..], last, p);
      forall i | 0 <= i < |steps| ensures steps[i] !in {ClaimAck(p), ClaimStop(p), ClaimDrop(p)} {
        assert i > 0 ==> steps[i] == steps[1..][i - 1];
      }
    }
  }

  lemma RankGrows(f: Future, s: Step, p: Peer)
    requires Enabled(f, s) && p in f.requests
    ensures p in Apply(f, s).requests && Rank(Apply(f, s).requests[p]) >= Rank(f.requests[p])
  {
  }

  // ---------- Which outcome ----------

  /** An ACK handler resolving the future, or a stopped sweep rejecting it. */
  predicate Ends(s: Step) {
    s.Resolve? || s.RejectStopped?
  }

  predicate FirstEnd(steps: seq<Step>, i: nat) {
    i < |steps| && Ends(steps[i]) && forall j :: 0 <= j < i ==> !Ends(steps[j])
  }

  lemma {:induction false} AllDroppedStays(f: Future, steps: seq<Step>, last: Future, i: nat)
    requires Runs(f, steps, last) && i < |steps| && forall p :: p in f.requests ==> HasDropped(f.requests[p])
    ensures !Ends(steps[i])
    decreases |steps|
  {
    if i > 0 {
      AllDroppedStays(Apply(f, steps[0]), steps[1..], last, i - 1);
    }
  }

  lemma StepOutcome(f: Future, s: Step)
    requires Enabled(f, s) && f.outcome == None
    ensures Apply(f, s).outcome ==
      if s.Resolve? then Some(Resolved)
      else if s.RejectStopped? then Some(TimedOut)
      else if Apply(f, s).outcome.Some? then Some(AllDropped) else None
  {
  }

  /** The first handler or stop to arrive decides, whatever the interleaving: drops cannot have
      completed the future before it. */
  lemma {:induction false} FirstEndDecides(f: Future, steps: seq<Step>, last: Future, i: nat)
    requires Inv(f) && f.outcome == None && Runs(f, steps, last) && FirstEnd(steps, i)
    ensures last.outcome == Some(if steps[i].Resolve? then Resolved else TimedOut)
    decreases |steps|
  {
    hide Inv, Enabled, Apply;
    var g := Apply(f, steps[0]);
    StepKeepsInv(f, steps[0]);
    StepOutcome(f, steps[0]);
    if i == 0 {
      RunKeepsInv(g, steps[1..], last);
    } else {
      assert steps[i] == steps[1..][i - 1];
      if g.outcome == Some(AllDropped) {
        AllRejected(g);
        AllDroppedStays(g, steps[1..], last, i - 1);
      }
      FirstEndDecides(g, steps[1..], last, i - 1);
    }
  }

  lemma AllRejected(f: Future)
    requires Inv(f) && f.outcome == Some(AllDropped)
    ensures forall p :: p in f.requests ==> HasDropped(f.requests[p])
  {
  }

  /** Without either, only drops complete it. */
  lemma {:induction false} OnlyDropsRemain(f: Future, steps: seq<Step>, last: Future)
    requires Inv(f) && (f.outcome == None || f.outcome == Some(AllDropped)) && Runs(f, steps, last)
    requires forall i :: 0 <= i < |steps| ==> !Ends(steps[i])
    ensures last.outcome == None || last.outcome == Some(AllDropped)
    decreases |steps|
  {
    hide Inv, Enabled, Apply;
    if steps != [] {
      var g := Apply(f, steps[0]);
      StepKeepsInv(f, steps[0]);
      OutcomeStays(f, steps[0]);
      if f.outcome == None {
        StepOutcome(f, steps[0]);
      }
      OnlyDropsRemain(g, steps[1..], last);
    }
  }

  /** How a request got where it is. */
  predicate Traced(steps: seq<Step>, p: Peer, r: Request) {
    && (r.Acking? ==> ClaimAck(p) in steps) && (r.Stopping? ==> ClaimStop(p) in steps)
    && (r.Dropping? ==> ClaimDrop(p) in steps) && (HasDropped(r) ==> ClaimDrop(p) in steps)
  }

  lemma TracedOn(f: Future, past: seq<Step>, s: Step, p: Peer)
    requires Enabled(f, s) && p in f.requests && Traced(past, p, f.requests[p])
    ensures p in Apply(f, s).requests && Traced(past + [s], p, Apply(f, s).requests[p])
  {
    assert (past + [s])[|past|] == s;
    forall x | x in past ensures x in past + [s] {
    }
  }

  lemma {:induction false} RunTraced(f: Future, past: seq<Step>, steps: seq<Step>, last: Future, p: Peer)
    requires Runs(f, steps, last) && p in f.requests && Traced(past, p, f.requests[p])
    ensures p in last.requests && Traced(past + steps, p, last.requests[p])
    decreases |steps|
  {
    hide Enabled, Apply, Traced;
    if steps == [] {
      assert past + steps == past;
    } else {
      TracedOn(f, past, steps[0], p);
      RunTraced(Apply(f, steps[0]), past + [steps[0]], steps[1..], last, p);
      assert past + [steps[0]] + steps[1..] == past + steps;
    }
  }

  /** The state just before a step of a run. */
  lemma {:induction false} StateAt(f: Future, steps: seq<Step>, last: Future, i: nat) returns (g: Future)
    requires Runs(f, steps, last) && i < |steps|
    ensures Runs(f, steps[..i], g) && Enabled(g, steps[i])
    decreases |steps|
  {
    hide Enabled, Apply;
    if i == 0 {
      g := f;
      assert Runs(f, steps[..0], g);
    } else {
      g := StateAt(Apply(f, steps[0]), steps[1..], last, i - 1);
      assert steps[..i][1..] == steps[1..][..i - 1];
    }
  }

  /** A handler resolves only for a peer whose ACK claimed its request, and a stop rejects only a
      request it claimed. */
  lemma EndIsClaimed(f: Future, steps: seq<Step>, last: Future, i: nat)
    requires Init(f) && Runs(f, steps, last) && i < |steps| && Ends(steps[i])
    ensures (if steps[i].Resolve? then ClaimAck(steps[i].p) else ClaimStop(steps[i].p)) in steps[..i]
  {
    hide Runs;
    var g := StateAt(f, steps, last, i);
    var p := steps[i].p;
    RunKeys(f, steps[..i], g);
    RunTraced(f, [], steps[..i], g, p);
    assert [] + steps[..i] == steps[..i];
  }

  lemma RunKeys(f: Future, steps: seq<Step>, last: Future)
    requires Init(f) && Runs(f, steps, last)
    ensures last.requests.Keys == f.requests.Keys
  {
    hide Runs, Inv;
    InitSound(f);
    RunKeepsInv(f, steps, last);
  }

  lemma SomeEnd(steps: seq<Step>) returns (i: nat)
    ensures FirstEnd(steps, i) || (i == |steps| && forall j :: 0 <= j < i ==> !Ends(steps[j]))
  {
    i := 0;
    while i < |steps| && !Ends(steps[i])
      invariant i <= |steps| && forall j :: 0 <= j < i ==> !Ends(steps[j])
    {
      i := i + 1;
    }
  }

  /** Every completion has its cause in the run: an ACK, a stop, or a drop at every peer. */
  lemma OutcomeHasCause(f: Future, steps: seq<Step>, last: Future)
    requires Init(f) && Runs(f, steps, last)
    ensures last.outcome == Some(Resolved) ==> exists p :: ClaimAck(p) in steps && Resolve(p) in steps
    ensures last.outcome == Some(TimedOut) ==> exists p :: ClaimStop(p) in steps && RejectStopped(p) in steps
    ensures last.outcome == Some(AllDropped) ==> forall p :: p in f.requests ==> ClaimDrop(p) in steps
  {
    hide Runs, Inv, Init, FirstEnd;
    assert Inv(f) && f.outcome == None by { Started(f); }
    var i := SomeEnd(steps);
    if FirstEnd(steps, i) {
      FirstEndDecides(f, steps, last, i);
      assert i < |steps| && Ends(steps[i]) by { EndIndex(steps, i); }
      EndIsClaimed(f, steps, last, i);
      assert steps[i] in steps && forall s :: s in steps[..i] ==> s in steps;
    } else {
      OnlyDropsRemain(f, steps, last);
      if last.outcome == Some(AllDropped) {
        forall p | p in f.requests ensures ClaimDrop(p) in steps {
          DropTraced(f, steps, last, p);
        }
      }
    }
  }

  lemma Started(f: Future)
    requires Init(f)
    ensures Inv(f) && f.outcome == None
  {
    InitSound(f);
  }

  lemma EndIndex(steps: seq<Step>, i: nat)
    requires FirstEnd(steps, i)
    ensures i < |steps| && Ends(steps[i])
  {
  }

  lemma DropTraced(f: Future, steps: seq<Step>, last: Future, p: Peer)
    requires Init(f) && Runs(f, steps, last) && last.outcome == Some(AllDropped) && p in f.requests
    ensures ClaimDrop(p) in steps
  {
    hide Runs;
    RejectedMeansAllDropped(f, steps, last, p);
    RunTraced(f, [], steps, last, p);
    assert [] + steps == steps;
  }

  /** An ACK handler that resolves before any stop rejects makes the write a success. */
  lemma AckResolves(f: Future, steps: seq<Step>, last: Future, i: nat)
    requires Init(f) && Runs(f, steps, last) && i < |steps| && steps[i].Resolve? && forall j :: 0 <= j < i ==> !steps[j].RejectStopped?
    ensures last.outcome == Some(Resolved)
  {
    hide Runs, Inv, Init;
    Started(f);
    var k := SomeEnd(steps);
    assert k <= i;
    FirstEndDecides(f, steps, last, k);
  }
}
