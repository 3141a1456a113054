/** Reducing a chain at once and effect by effect. */
module ReduceLaws {
  import opened Effects
  import opened Reduce

  /** The loop over a chain, which updates one accumulator. */
  method ReduceFlatOwned(c: Reading, seed: Option<Reduced>, es: seq<Event>) returns (out: Option<Reduced>)
    ensures out == Flat(c, seed, es)
  {
    var r, deleted := seed, false;
    if r.Some? && r.value.op == Remove && |es| > 0 {
      r, deleted := None, true;
    }
    for i := 0 to |es|
      invariant Acc(r, deleted) == Fold(c, Begin(seed, es), es[..i])
    {
      var e := es[i];
      assert es[..i + 1][..i] == es[..i] && es[..i + 1][i] == e;
      if IsDelete(e) {
        r, deleted := None, true;
        continue;
      }
      match e.act
      case Note(tag, element, expires) =>
        if r.None? {
          r := Some(BLANK);
        }
        r := Some(OnNote(r.value, tag, element, expires));
      case Skipped =>
      case Lead(release, leader) =>
        r := Some(OnLead(r, release, leader));
      case Write(d) =>
        if r.None? {
          r := Some(First(e, d));
        } else {
          r := Some(Accumulate(c, r.value, e, d));
        }
    }
    assert es[..|es|] == es;
    if r.None? && deleted && |es| > 0 {
      return Some(Marker(es[|es| - 1]));
    }
    if r.Some? && |es| > 0 {
      r := Some(r.value.(stamp := es[|es| - 1].stamp.(hash := es[0].stamp.hash)));
    }
    return r;
  }

  // ---------- What decides the next value ----------

  /** Two accumulators that show the same value and will keep doing so. */
  ghost predicate Alike(a: Reduced, b: Reduced) {
    && LiveOf(a) == LiveOf(b) && (a.scalar.Some? ==> a.rule == b.rule)
    && (a.collection == b.collection || (a.adds == map[] && a.ordered == []))
  }

  lemma {:induction false} OnScalarAlike(c: Reading, a: Reduced, b: Reduced, d: Payload)
    requires Alike(a, b) && a.collection == b.collection
    ensures Alike(OnScalar(c, a, d), OnScalar(c, b, d))
  {
    hide Wrap64, Larger;
    match d.rule
    case AdditiveInt =>
    case AdditiveFloat =>
    case _ =>
  }

  lemma {:induction false} OnKeyedAlike(c: Reading, a: Reduced, b: Reduced, e: Event, d: Payload)
    requires Alike(a, b) && a.collection == b.collection
    ensures Alike(OnKeyed(c, a, e, d), OnKeyed(c, b, e, d))
  {
  }

  lemma {:induction false} OnOrderedAlike(a: Reduced, b: Reduced, e: Event, d: Payload)
    requires Alike(a, b) && a.collection == b.collection
    ensures Alike(OnOrdered(a, e, d), OnOrdered(b, e, d))
  {
    hide Placed;
  }

  lemma AccumulateAlike(c: Reading, a: Reduced, b: Reduced, e: Event, d: Payload)
    requires Alike(a, b)
    ensures Alike(Accumulate(c, a, e, d), Accumulate(c, b, e, d))
  {
    hide OnScalar, OnKeyed, OnOrdered;
    var a1 := (if d.collection == Scalar && a.collection != Scalar
               then a.(adds := map[], removes := {}, ordered := []) else a).(collection := d.collection);
    var b1 := (if d.collection == Scalar && b.collection != Scalar
               then b.(adds := map[], removes := {}, ordered := []) else b).(collection := d.collection);
    assert Alike(a1, b1);
    match d.collection
    case Scalar => OnScalarAlike(c, a1, b1, d);
    case Keyed => OnKeyedAlike(c, a1, b1, e, d);
    case Ordered => OnOrderedAlike(a1, b1, e, d);
  }

  lemma OnNoteAlike(a: Reduced, b: Reduced, tag: Option<nat>, element: string, expires: Option<nat>)
    requires Alike(a, b)
    ensures Alike(OnNote(a, tag, element, expires), OnNote(b, tag, element, expires))
  {
  }

  /** Collection removals touch no mark that makes a value a delete marker. */
  lemma OpStays(c: Reading, a: Acc, e: Event)
    requires a.r.Some? && !IsDelete(e)
    ensures Step(c, a, e).r.Some? && Step(c, a, e).r.value.op == a.r.value.op
  {
  }

  lemma StepAlike(c: Reading, a: Acc, b: Acc, e: Event)
    requires a.r.Some? && b.r.Some? && Alike(a.r.value, b.r.value) && !IsDelete(e)
    ensures Step(c, a, e).r.Some? && Step(c, b, e).r.Some? && Alike(Step(c, a, e).r.value, Step(c, b, e).r.value)
  {
    hide Accumulate, OnNote;
    match e.act
    case Write(d) => AccumulateAlike(c, a.r.value, b.r.value, e, d);
    case Note(tag, element, expires) => OnNoteAlike(a.r.value, b.r.value, tag, element, expires);
    case _ =>
  }

  // ---------- Values that hold only removals ----------

  /** After this effect the accumulator holds nothing but collection removals. */
  predicate HollowStep(hollow: bool, none: bool, e: Event) {
    if IsDelete(e) then false
    else match e.act
      case Skipped => hollow
      case Write(d) => d.op == Remove && (none || hollow)
      case _ => false
  }

  /** Nothing has been written since the start, if that was bare, or since the last delete. */
  predicate Bare(bare: bool, es: seq<Event>)
    decreases |es|
  {
    if es == [] then bare
    else IsDelete(es[|es| - 1]) || (es[|es| - 1].act.Skipped? && Bare(bare, es[..|es| - 1]))
  }

  /** Since then only collection removals have been written. */
  predicate Hollow(bare: bool, es: seq<Event>)
    decreases |es|
  {
    es != [] && HollowStep(Hollow(bare, es[..|es| - 1]), Bare(bare, es[..|es| - 1]), es[|es| - 1])
  }

  lemma {:induction false} BareMeansNone(c: Reading, a: Acc, es: seq<Event>)
    ensures Bare(a.r.None?, es) <==> Fold(c, a, es).r.None?
    decreases |es|
  {
    hide Accumulate;
    if es != [] {
      BareMeansNone(c, a, es[..|es| - 1]);
    }
  }

  /** A chain starts bare on top of nothing or of a delete marker. */
  predicate StartsBare(seed: Option<Reduced>) {
    seed.None? || seed.value.op == Remove
  }

  /** As the first effect and on top of an empty value this write means different things: an
      in-place list update creates its element only as the first effect, and a collection write
      with an unknown operation inserts only on top of something. */
  predicate Uneven(d: Payload) {
    || (d.collection == Keyed && d.op == Unknown)
    || (d.collection == Ordered && (if d.placement == Self then d.op == Insert else d.op == Unknown))
  }

  /** No uneven write falls on nothing but removals: a property of the events alone. */
  predicate Fair(bare: bool, es: seq<Event>) {
    forall i :: 0 <= i < |es| && es[i].act.Write? && Hollow(bare, es[..i]) ==> !Uneven(es[i].act.d)
  }

  /** How the accumulator of one long call relates to the result of one call per effect. */
  ghost predicate Matches(a: Acc, hollow: bool, i: Option<Reduced>) {
    if a.r.None? then !hollow && (if a.deleted then i.Some? && i.value.op == Remove else i.None?)
    else if hollow then i.Some? && i.value.op == Remove && LiveOf(a.r.value) == NO_VALUE
    else i.Some? && i.value.op != Remove && Alike(a.r.value, i.value)
  }

  /** A starting value with a chain on top of it. */
  function Start(seed: Option<Reduced>): Acc {
    if seed.Some? && seed.value.op == Remove then Acc(None, true) else Acc(seed, false)
  }

  /** One more effect, seen from both sides. */
  function Next(c: Reading, i: Option<Reduced>, e: Event): Option<Reduced> {
    Flat(c, i, [e])
  }

  lemma NextIs(c: Reading, i: Option<Reduced>, e: Event)
    ensures var b := Step(c, Start(i), e);
      Next(c, i, e) == if b.r.None? then (if b.deleted then Some(Marker(e)) else None) else Some(b.r.value.(stamp := e.stamp))
  {
    var b := Begin(i, [e]);
    assert [e][..0] == [];
    assert Fold(c, b, [e]) == Step(c, Fold(c, b, [e][..0]), e);
  }

  lemma EmptyNext(c: Reading, a: Acc, i: Option<Reduced>, e: Event)
    requires a.r.None? && Matches(a, false, i)
    ensures Matches(Step(c, a, e), HollowStep(false, true, e), Next(c, i, e))
  {
    NextIs(c, i, e);
  }

  lemma HollowNext(c: Reading, a: Acc, i: Option<Reduced>, e: Event)
    requires a.r.Some? && Matches(a, true, i) && (e.act.Write? ==> !Uneven(e.act.d))
    ensures Matches(Step(c, a, e), HollowStep(true, false, e), Next(c, i, e))
  {
    hide OnNote;
    NextIs(c, i, e);
    if !IsDelete(e) {
      match e.act
      case Write(d) => HollowWrite(c, a.r.value, e, d);
      case Note(tag, element, expires) =>
        OnNoteAlike(a.r.value, BLANK, tag, element, expires);
        NoteKeepsOp(BLANK, tag, element, expires);
      case _ =>
    }
  }

  lemma NoteKeepsOp(r: Reduced, tag: Option<nat>, element: string, expires: Option<nat>)
    ensures OnNote(r, tag, element, expires).op == r.op
  {
  }

  /** On top of nothing but removals a write acts as the first effect would. */
  lemma HollowWrite(c: Reading, a: Reduced, e: Event, d: Payload)
    requires LiveOf(a) == NO_VALUE && !Uneven(d) && !(d.op == Remove && d.collection == Scalar)
    ensures if d.op == Remove then LiveOf(Accumulate(c, a, e, d)) == NO_VALUE && LiveOf(First(e, d)) == NO_VALUE
            else Alike(Accumulate(c, a, e, d), First(e, d))
    ensures First(e, d).op == d.op
  {
    assert Find([], d.id) == None && Find([], d.reference) == None;
    assert InsertAt([], 0, ElementOf(e, d)) == [ElementOf(e, d)];
  }

  lemma FullNext(c: Reading, a: Acc, i: Option<Reduced>, e: Event)
    requires a.r.Some? && Matches(a, false, i)
    ensures Matches(Step(c, a, e), HollowStep(false, false, e), Next(c, i, e))
  {
    hide Step;
    NextIs(c, i, e);
    if IsDelete(e) {
      DeleteStep(c, a, e);
      DeleteStep(c, Acc(i, false), e);
    } else {
      StepAlike(c, a, Acc(i, false), e);
      OpStays(c, Acc(i, false), e);
    }
  }

  lemma DeleteStep(c: Reading, a: Acc, e: Event)
    requires IsDelete(e)
    ensures Step(c, a, e) == Acc(None, true)
  {
  }

  lemma {:induction false} FairMatches(c: Reading, seed: Option<Reduced>, a: Acc, es: seq<Event>)
    requires Fair(StartsBare(seed), es) && a == Start(seed)
    ensures Matches(Fold(c, a, es), Hollow(StartsBare(seed), es), OneByOne(c, seed, es))
    decreases |es|
  {
    hide Step, HollowStep, Next;
    if es != [] {
      var init, e := es[..|es| - 1], es[|es| - 1];
      assert forall k :: 0 <= k < |init| ==> es[..k] == init[..k];
      FairMatches(c, seed, a, init);
      var b, i := Fold(c, a, init), OneByOne(c, seed, init);
      NextIsFlat(c, i, e);
      BareMeansNone(c, a, init);
      if b.r.None? {
        EmptyNext(c, b, i, e);
      } else if Hollow(StartsBare(seed), init) {
        assert es[|init|] == e && es[..|init|] == init;
        HollowNext(c, b, i, e);
      } else {
        FullNext(c, b, i, e);
      }
    }
  }

  lemma NextIsFlat(c: Reading, i: Option<Reduced>, e: Event)
    ensures Next(c, i, e) == Flat(c, i, [e])
  {
  }

  // ---------- Batch and incremental reduction ----------

  /** A result that is a delete marker shows nothing. */
  lemma RemovedIsEmpty(c: Reading, i: Option<Reduced>, e: Event)
    ensures Next(c, i, e).Some? && Next(c, i, e).value.op == Remove ==> LiveOf(Next(c, i, e).value) == NO_VALUE
  {
    hide Accumulate, OnNote;
    NextIs(c, i, e);
    if i.Some? && i.value.op != Remove && !IsDelete(e) {
      OpStays(c, Acc(i, false), e);
    } else {
      match e.act
      case Note(tag, element, expires) => NoteKeepsOp(BLANK, tag, element, expires);
      case _ =>
    }
  }

  lemma FlatFromStart(c: Reading, seed: Option<Reduced>, es: seq<Event>)
    requires es != []
    ensures Flat(c, seed, es) == Finish(Fold(c, Start(seed), es), es)
  {
  }

  lemma MatchesShowsSame(c: Reading, a: Acc, hollow: bool, i: Option<Reduced>, e: Event, es: seq<Event>)
    requires Matches(a, hollow, Next(c, i, e)) && es != []
    ensures Visible(Finish(a, es)) == Visible(Next(c, i, e))
  {
    hide Next;
    RemovedIsEmpty(c, i, e);
  }

  /** One call over a fair chain shows the same value as one call per effect. */
  lemma BatchIsIncremental(c: Reading, seed: Option<Reduced>, es: seq<Event>)
    requires es != [] && Fair(StartsBare(seed), es)
    ensures Visible(Flat(c, seed, es)) == Visible(OneByOne(c, seed, es))
  {
    hide Fold, Hollow, Matches, Finish, Fair;
    FairMatches(c, seed, Start(seed), es);
    FlatFromStart(c, seed, es);
    var i, e := OneByOne(c, seed, es[..|es| - 1]), es[|es| - 1];
    NextIsFlat(c, i, e);
    MatchesShowsSame(c, Fold(c, Start(seed), es), Hollow(StartsBare(seed), es), i, e, es);
  }

  /** An uneven write on top of nothing but removals tells the two apart. */
  lemma UnevenDiffers(c: Reading, a: Acc, i: Option<Reduced>, e: Event, es: seq<Event>)
    requires a.r.Some? && Matches(a, true, i) && e.act.Write? && Uneven(e.act.d) && es != []
    ensures Visible(Finish(Step(c, a, e), es)) != Visible(Next(c, i, e))
  {
    NextIs(c, i, e);
    var d := e.act.d;
    assert Find([], d.id) == None && Find([], d.reference) == None;
    assert d.collection == Keyed ==> d.id in Accumulate(c, a.r.value, e, d).adds;
    assert |InsertAt([], 0, ElementOf(e, d))| == 1;
  }

  lemma {:induction false} HollowHasValue(c: Reading, a: Acc, es: seq<Event>)
    requires Hollow(a.r.None?, es)
    ensures Fold(c, a, es).r.Some?
    decreases |es|
  {
    hide Accumulate;
    if Hollow(a.r.None?, es[..|es| - 1]) {
      HollowHasValue(c, a, es[..|es| - 1]);
    }
  }

  /** The prefix before the first unfair write is fair. */
  lemma {:induction false} FirstUnfair(bare: bool, es: seq<Event>) returns (k: nat)
    requires !Fair(bare, es)
    ensures k < |es| && es[k].act.Write? && Hollow(bare, es[..k]) && Uneven(es[k].act.d) && Fair(bare, es[..k])
    decreases |es|
  {
    hide Hollow, Uneven;
    var init := es[..|es| - 1];
    assert forall i :: 0 <= i < |init| ==> init[..i] == es[..i];
    if Fair(bare, init) {
      k := |es| - 1;
    } else {
      k := FirstUnfair(bare, init);
      assert init[..k] == es[..k];
    }
  }

  lemma FairPrefix(bare: bool, es: seq<Event>, n: nat)
    requires Fair(bare, es) && n <= |es|
    ensures Fair(bare, es[..n])
  {
    hide Hollow, Uneven;
    assert forall i :: 0 <= i < n ==> es[..n][..i] == es[..i];
  }

  /** Reducing at once and effect by effect agree all along a chain exactly when it is fair. */
  lemma AgreementIffFair(c: Reading, seed: Option<Reduced>, es: seq<Event>)
    ensures (forall n :: 1 <= n <= |es| ==> Visible(Flat(c, seed, es[..n])) == Visible(OneByOne(c, seed, es[..n]))) <==> Fair(StartsBare(seed), es)
  {
    hide Visible, Flat, Hollow;
    var bare := StartsBare(seed);
    if Fair(bare, es) {
      forall n | 1 <= n <= |es| ensures Visible(Flat(c, seed, es[..n])) == Visible(OneByOne(c, seed, es[..n])) {
        FairPrefix(bare, es, n);
        BatchIsIncremental(c, seed, es[..n]);
      }
    } else {
      var k := FirstUnfair(bare, es);
      UnfairShows(c, seed, es[..k], es[k]);
      assert es[..k] + [es[k]] == es[..k + 1];
    }
  }

  lemma UnfairShows(c: Reading, seed: Option<Reduced>, init: seq<Event>, e: Event)
    requires Fair(StartsBare(seed), init) && Hollow(StartsBare(seed), init) && e.act.Write? && Uneven(e.act.d)
    ensures Visible(Flat(c, seed, init + [e])) != Visible(OneByOne(c, seed, init + [e]))
  {
    hide Hollow, Fair, Step, Matches, Uneven, Finish, Visible;
    var a, es := Start(seed), init + [e];
    assert es[..|es| - 1] == init;
    FairMatches(c, seed, a, init);
    HollowHasValue(c, a, init);
    FlatFromStart(c, seed, es);
    NextIsFlat(c, OneByOne(c, seed, init), e);
    UnevenDiffers(c, Fold(c, a, init), OneByOne(c, seed, init), e, es);
  }

  /** Removing from an empty list and then updating in place leaves an element only when the two
      effects are reduced one at a time. */
  lemma InPlaceAfterRemoval(c: Reading)
    ensures var gone := Event(Write(Payload(Remove, LastWriteWins, Ordered, "x", Nothing, NoPlace, "")), "", NO_STAMP);
      var here := Event(Write(Payload(Insert, LastWriteWins, Ordered, "y", Nothing, Self, "")), "", NO_STAMP);
      Visible(Flat(c, None, [gone, here])).ordered == [] && |Visible(OneByOne(c, None, [gone, here])).ordered| == 1
  {
    var gone := Event(Write(Payload(Remove, LastWriteWins, Ordered, "x", Nothing, NoPlace, "")), "", NO_STAMP);
    var here := Event(Write(Payload(Insert, LastWriteWins, Ordered, "y", Nothing, Self, "")), "", NO_STAMP);
    var es := [gone, here];
    assert es[..1] == [gone] && [gone][..0] == [];
    var a := Acc(None, false);
    assert Fold(c, a, [gone]) == Step(c, Fold(c, a, [gone][..0]), gone);
    assert Fold(c, a, es) == Step(c, Fold(c, a, es[..1]), here);
    assert Find([], "y") == None;
    NextIs(c, None, gone);
    NextIs(c, Next(c, None, gone), here);
    assert OneByOne(c, None, [gone]) == Next(c, None, gone);
    assert OneByOne(c, None, es) == Next(c, OneByOne(c, None, es[..1]), here);
  }
}
