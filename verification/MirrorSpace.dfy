/** Nothing leaks: every slot of the mirror is free, reserved or live, and every allocation is
    reserved, live, punched or on its way to be punched. */
module MirrorSpace {
  import opened Effects
  import opened Mirror
  import opened MirrorInv
  import opened MirrorSteps
  import opened MirrorSync
  import opened MirrorCrash

  ghost predicate LiveAt(b: Bucket, x: nat, p: nat) {
    x in b.entries && b.entries[x] in b.cells && Last(b.cells[b.entries[x]]).pos == p
  }

  /** A live record or a publication in progress owns the allocation. */
  ghost predicate Owned(b: Bucket, p: nat) {
    (exists x :: LiveAt(b, x, p)) || exists s :: s in b.flight && b.flight[s].pos == p
  }

  ghost predicate Waiting(b: Bucket, p: nat) {
    p in b.punches || p in b.toPunch || (b.sync.Some? && p in b.sync.value.punches)
  }

  ghost predicate SpaceKept(b: Bucket) {
    forall p :: p in b.extents ==> Owned(b, p) || Waiting(b, p) || b.extents[p].body.Punched?
  }

  ghost predicate SlotInUse(b: Bucket, s: SlotId) {
    s in b.flight || exists x :: x in b.entries && b.entries[x] == s
  }

  ghost predicate SlotsKept(b: Bucket) {
    forall s :: s in b.cells ==> s in b.free || SlotInUse(b, s)
  }

  ghost predicate Tight(c: Params, b: Bucket) {
    Inv(c, b) && SpaceKept(b) && SlotsKept(b)
  }

  // ---------- What a step does to owners ----------

  /** Live records keep their slot and their allocation. */
  ghost predicate SameLives(b: Bucket, b2: Bucket) {
    && b2.entries == b.entries && b.cells.Keys <= b2.cells.Keys
    && forall x :: x in b.entries && b.entries[x] in b.cells ==> Last(b2.cells[b.entries[x]]).pos == Last(b.cells[b.entries[x]]).pos
  }

  lemma OwnedStays(b: Bucket, b2: Bucket, p: nat)
    requires SameLives(b, b2) && Owned(b, p)
    requires forall s :: s in b.flight ==> s in b2.flight && b2.flight[s].pos == b.flight[s].pos
    ensures Owned(b2, p)
  {
    if x :| LiveAt(b, x, p) {
      assert LiveAt(b2, x, p);
    } else {
      var s :| s in b.flight && b.flight[s].pos == p;
      assert s in b2.flight && b2.flight[s].pos == p;
    }
  }

  lemma InUseStays(b: Bucket, b2: Bucket, s: SlotId)
    requires SlotInUse(b, s) && b2.entries == b.entries && b.flight.Keys <= b2.flight.Keys
    ensures SlotInUse(b2, s)
  {
    assert s in b.flight.Keys ==> s in b2.flight.Keys;
  }

  /** Steps that only add space, or move waiting space along. */
  lemma QuietStep(b: Bucket, b2: Bucket)
    requires SpaceKept(b) && SlotsKept(b) && SameLives(b, b2)
    requires forall s :: s in b.flight ==> s in b2.flight && b2.flight[s].pos == b.flight[s].pos
    requires forall p :: p in b2.extents ==> p in b.extents && (b.extents[p].body.Punched? ==> b2.extents[p].body.Punched?)
    requires forall p :: p in b2.extents && Waiting(b, p) ==> Waiting(b2, p) || b2.extents[p].body.Punched?
    requires forall s :: s in b2.cells ==> s in b2.free || (s in b.cells && s !in b.free)
    ensures SpaceKept(b2) && SlotsKept(b2)
  {
    hide Owned, SameLives, Waiting, SlotInUse;
    forall p | p in b2.extents ensures Owned(b2, p) || Waiting(b2, p) || b2.extents[p].body.Punched? {
      if Owned(b, p) {
        OwnedStays(b, b2, p);
      }
    }
    forall s | s in b2.cells && s !in b2.free ensures SlotInUse(b2, s) {
      assert b2.entries == b.entries && b.flight.Keys <= b2.flight.Keys by { LivesSame(b, b2); }
      InUseStays(b, b2, s);
    }
  }

  lemma LivesSame(b: Bucket, b2: Bucket)
    requires SameLives(b, b2) && forall s :: s in b.flight ==> s in b2.flight && b2.flight[s].pos == b.flight[s].pos
    ensures b2.entries == b.entries && b.flight.Keys <= b2.flight.Keys
  {
  }

  lemma LiveIsElsewhere(c: Params, b: Bucket, x: nat, s: SlotId)
    requires Inv(c, b) && x in b.entries && (s in b.free || s in b.flight)
    ensures b.entries[x] in b.cells && b.entries[x] != s
  {
    assert LiveSlot(c, b, x, b.entries[x]);
  }

  // ---------- Steps ----------

  lemma BeginTight(c: Params, b: Bucket, step: Step)
    requires ValidParams(c) && Tight(c, b) && step.Begin? && Enabled(c, b, step)
    ensures SpaceKept(Apply(c, b, step)) && SlotsKept(Apply(c, b, step))
  {
    hide Inv, Owned, SlotInUse;
    var b2, s := Apply(c, b, step), step.slot;
    BeginLives(c, b, step);
    forall p | p in b2.extents ensures Owned(b2, p) || Waiting(b2, p) || b2.extents[p].body.Punched? {
      if p == b.cursor {
        NewFlightOwns(b2, s);
      } else if Owned(b, p) {
        OwnedStays(b, b2, p);
      }
    }
    forall t | t in b2.cells && t !in b2.free ensures SlotInUse(b2, t) {
      if t == s {
        FlightInUse(b2, s);
      } else {
        InUseStays(b, b2, t);
      }
    }
  }

  lemma BeginLives(c: Params, b: Bucket, step: Step)
    requires ValidParams(c) && Tight(c, b) && step.Begin? && Enabled(c, b, step)
    ensures var b2 := Apply(c, b, step); SameLives(b, b2) && forall s :: s in b.flight ==> s in b2.flight && b2.flight[s].pos == b.flight[s].pos
  {
    hide Inv, SpaceKept, SlotsKept;
    forall x | x in b.entries ensures b.entries[x] in b.cells && b.entries[x] != step.slot {
      LiveIsElsewhere(c, b, x, step.slot);
    }
    assert step.slot !in b.flight by { FreeIsIdle(c, b, step.slot); }
  }

  lemma FreeIsIdle(c: Params, b: Bucket, s: SlotId)
    requires Inv(c, b) && s in b.free
    ensures s !in b.flight
  {
  }

  lemma NewFlightOwns(b: Bucket, s: SlotId)
    requires s in b.flight
    ensures Owned(b, b.flight[s].pos)
  {
  }

  lemma FlightInUse(b: Bucket, s: SlotId)
    requires s in b.flight
    ensures SlotInUse(b, s)
  {
  }

  lemma CopyFillTight(c: Params, b: Bucket, step: Step)
    requires ValidParams(c) && Tight(c, b) && (step.Copy? || step.Fill?) && Enabled(c, b, step)
    ensures SpaceKept(Apply(c, b, step)) && SlotsKept(Apply(c, b, step))
  {
    hide Inv, SpaceKept, SlotsKept;
    var b2 := Apply(c, b, step);
    forall x | x in b.entries ensures b.entries[x] in b.cells && b.entries[x] != step.slot {
      LiveIsElsewhere(c, b, x, step.slot);
    }
    if step.Copy? {
      assert !b.extents[b.flight[step.slot].pos].body.Punched? by { ReservedBlank(c, b, step.slot); }
    }
    assert SlotsKept(b) && SpaceKept(b);
    FlightIsBusy(c, b, step.slot);
    QuietStep(b, b2);
  }

  lemma ReservedBlank(c: Params, b: Bucket, s: SlotId)
    requires Inv(c, b) && s in b.flight
    ensures b.flight[s].pos in b.extents && !b.extents[b.flight[s].pos].body.Punched?
  {
    assert Reserved(c, b, s, b.flight[s]);
  }

  lemma FlightIsBusy(c: Params, b: Bucket, s: SlotId)
    requires Inv(c, b) && s in b.flight
    ensures s in b.cells && s !in b.free
  {
    assert Reserved(c, b, s, b.flight[s]);
  }

  lemma PublishTight(c: Params, b: Bucket, step: Step)
    requires ValidParams(c) && Tight(c, b) && step.Publish? && Enabled(c, b, step)
    ensures SpaceKept(Apply(c, b, step)) && SlotsKept(Apply(c, b, step))
  {
    hide Inv, Waiting;
    var b2, s := Apply(c, b, step), step.slot;
    var f := b.flight[s];
    PublishFacts(c, b, s);
    forall x | x in b.entries ensures b.entries[x] in b.cells && b.entries[x] != s {
      LiveIsElsewhere(c, b, x, s);
    }
    assert LiveAt(b2, f.offset, f.pos);
    forall p | p in b2.extents ensures Owned(b2, p) || Waiting(b, p) || b2.extents[p].body.Punched? {
      if x :| LiveAt(b, x, p) {
        assert LiveAt(b2, x, p);
      } else if t :| t in b.flight && b.flight[t].pos == p {
        assert t == s || t in b2.flight;
      }
    }
    assert forall p :: Waiting(b2, p) <==> Waiting(b, p) by { SameWaiting(b, b2); }
    forall t | t in b2.cells && t !in b2.free ensures SlotInUse(b2, t) {
      if t != s && t !in b.flight {
        var x :| x in b.entries && b.entries[x] == t;
        assert b2.entries[x] == t;
      }
    }
  }

  lemma SameWaiting(b: Bucket, b2: Bucket)
    requires b2.punches == b.punches && b2.toPunch == b.toPunch && b2.sync == b.sync
    ensures forall p :: Waiting(b2, p) <==> Waiting(b, p)
  {
  }

  lemma PublishFacts(c: Params, b: Bucket, s: SlotId)
    requires Inv(c, b) && s in b.flight && b.flight[s].filled
    ensures s in b.cells && s !in b.free && b.flight[s].offset !in b.entries && Last(b.cells[s]).pos == b.flight[s].pos
  {
    assert Reserved(c, b, s, b.flight[s]);
  }

  lemma DeleteTight(c: Params, b: Bucket, x: nat)
    requires Tight(c, b) && x in b.entries && b.entries[x] in b.cells
    ensures SpaceKept(Deleting(b, x)) && SlotsKept(Deleting(b, x))
  {
    hide Inv;
    var b2, s := Deleting(b, x), b.entries[x];
    forall p | p in b2.extents ensures Owned(b2, p) || Waiting(b2, p) || b2.extents[p].body.Punched? {
      if y :| LiveAt(b, y, p) {
        if y != x {
          OneSlotEach(c, b, x, y);
          assert LiveAt(b2, y, p);
        }
      }
    }
    forall t | t in b2.cells && t !in b2.free ensures SlotInUse(b2, t) {
      if t !in b.flight {
        var y :| y in b.entries && b.entries[y] == t;
        assert y in b2.entries && b2.entries[y] == t;
      }
    }
  }

  lemma OneSlotEach(c: Params, b: Bucket, x: nat, y: nat)
    requires Inv(c, b) && x in b.entries && y in b.entries && x != y
    ensures b.entries[x] != b.entries[y]
  {
    assert LiveSlot(c, b, x, b.entries[x]) && LiveSlot(c, b, y, b.entries[y]);
  }

  lemma CreatedTight(c: Params)
    requires ValidParams(c)
    ensures Tight(c, Created(c))
  {
    hide Inv;
    CreatedSound(c);
  }

  lemma CrashTight(c: Params, m: Image, b2: Bucket)
    requires Reopened(m, b2) && NoDuplicates(m)
    ensures SpaceKept(b2) && SlotsKept(b2)
  {
    hide SameContents, NoDuplicates;
    forall p | p in b2.extents ensures Owned(b2, p) {
      var s :| s in m.slots && m.slots[s].mark == Published && m.slots[s].pos == p;
      PublishedIsLive(m, b2, s);
      assert LiveAt(b2, m.slots[s].offset, p);
    }
    forall s | s in b2.cells && s !in b2.free ensures SlotInUse(b2, s) {
      PublishedIsLive(m, b2, s);
    }
  }

  lemma PublishedIsLive(m: Image, b2: Bucket, s: SlotId)
    requires Reopened(m, b2) && NoDuplicates(m) && s in m.slots && m.slots[s].mark == Published
    ensures m.slots[s].offset in b2.entries && b2.entries[m.slots[s].offset] == s && s in b2.cells && Last(b2.cells[s]) == m.slots[s]
  {
    hide SameContents, SameExtents;
    var x := m.slots[s].offset;
    assert Holds(m, b2.entries[x], x);
  }

  lemma OtherTight(c: Params, b: Bucket, step: Step)
    requires ValidParams(c) && Tight(c, b) && Enabled(c, b, step)
    requires step.Grow? || step.SyncStart? || step.SyncFail? || step.SyncDone? || step.Punch? || step.PunchFail?
    ensures SpaceKept(Apply(c, b, step)) && SlotsKept(Apply(c, b, step))
  {
    hide Inv, SpaceKept, SlotsKept;
    var b2 := Apply(c, b, step);
    assert SpaceKept(b) && SlotsKept(b);
    assert b.sync.Some? ==> b.toPunch == {} by { SyncIsAlone(c, b); }
    QuietStep(b, b2);
  }

  lemma SyncIsAlone(c: Params, b: Bucket)
    requires Inv(c, b)
    ensures b.sync.Some? ==> b.toPunch == {}
  {
  }

  lemma StepKeepsTight(c: Params, b: Bucket, step: Step)
    requires ValidParams(c) && Tight(c, b) && Enabled(c, b, step)
    ensures Tight(c, Apply(c, b, step))
  {
    hide Inv, SpaceKept, SlotsKept, Possible, Starts, Reopened, Apply, Enabled;
    StepKeepsInv(c, b, step);
    match step
    case Begin(_, _, _) => BeginTight(c, b, step);
    case Copy(_) => CopyFillTight(c, b, step);
    case Fill(_) => CopyFillTight(c, b, step);
    case Publish(_) => PublishTight(c, b, step);
    case Delete(x) => DeleteStepTight(c, b, step);
    case Remove => RemoveTight(c, b, step);
    case Crash(_, _) => CrashStepTight(c, b, step);
    case AddPage => AddPageTight(c, b, step);
    case _ => OtherTight(c, b, step);
  }

  lemma NewPageIsNew(c: Params, b: Bucket, s: SlotId)
    requires Inv(c, b) && s in b.cells
    ensures s !in SlotsOf(c, b.cursor)
  {
    assert s.page in b.pages;
  }

  lemma AddPageTight(c: Params, b: Bucket, step: Step)
    requires ValidParams(c) && Tight(c, b) && step.AddPage? && Enabled(c, b, step)
    ensures SpaceKept(Apply(c, b, step)) && SlotsKept(Apply(c, b, step))
  {
    hide Inv, SpaceKept, SlotsKept, SlotsOf;
    assert SpaceKept(b) && SlotsKept(b);
    forall s | s in b.cells ensures s !in SlotsOf(c, b.cursor) {
      NewPageIsNew(c, b, s);
    }
    QuietStep(b, Apply(c, b, step));
  }

  lemma DeleteStepTight(c: Params, b: Bucket, step: Step)
    requires ValidParams(c) && Tight(c, b) && step.Delete? && Enabled(c, b, step)
    ensures SpaceKept(Apply(c, b, step)) && SlotsKept(Apply(c, b, step))
  {
    hide Tight, SpaceKept, SlotsKept, Deleting;
    DeleteTight(c, b, step.offset);
  }

  lemma RemoveTight(c: Params, b: Bucket, step: Step)
    requires ValidParams(c) && step.Remove? && Enabled(c, b, step)
    ensures SpaceKept(Apply(c, b, step)) && SlotsKept(Apply(c, b, step))
  {
    hide SpaceKept, SlotsKept, Inv;
    CreatedTight(c);
  }

  lemma CrashStepTight(c: Params, b: Bucket, step: Step)
    requires ValidParams(c) && step.Crash? && Enabled(c, b, step)
    ensures SpaceKept(Apply(c, b, step)) && SlotsKept(Apply(c, b, step))
  {
    hide SpaceKept, SlotsKept, Possible, Reopened, Fits, ChecksumsMatch, NoDuplicates;
    CrashTight(c, step.image, step.after);
  }

  lemma {:induction false} RunKeepsTight(c: Params, b: Bucket, steps: seq<Step>, last: Bucket)
    requires ValidParams(c) && Tight(c, b) && Runs(c, b, steps, last)
    ensures Tight(c, last)
    decreases |steps|
  {
    hide Tight, Enabled, Apply;
    if steps != [] {
      StepKeepsTight(c, b, steps[0]);
      RunKeepsTight(c, Apply(c, b, steps[0]), steps[1..], last);
    }
  }

  /** From creation on, over every run: a slot that is neither live nor reserved is free, and once
      a sync and the punching after it have caught up, so is the space of every evicted record. */
  lemma NothingLeaks(c: Params, steps: seq<Step>, last: Bucket, s: SlotId, p: nat)
    requires ValidParams(c) && Runs(c, Created(c), steps, last)
    ensures s in last.cells ==> s in last.free || s in last.flight || exists x :: x in last.entries && last.entries[x] == s
    ensures p in last.extents && last.punches == {} && last.toPunch == {} && last.sync == None ==> Owned(last, p) || last.extents[p].body.Punched?
  {
    hide Inv, Runs, Owned;
    CreatedTight(c);
    RunKeepsTight(c, Created(c), steps, last);
  }
}
