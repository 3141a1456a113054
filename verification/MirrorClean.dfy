/** A bucket with nothing dirty has no unsynced tombstone, and a crash then loses nothing. */
module MirrorClean {
  import opened Effects
  import opened Mirror
  import opened MirrorInv
  import opened MirrorSteps
  import opened MirrorSync
  import opened MirrorCrash

  /** From version `from` on, a published version of the slot is the present one. */
  ghost predicate Final(cell: Cell, from: nat) {
    forall i :: from <= i < |cell.hist| && cell.hist[i].mark == Published ==> Last(cell) == cell.hist[i]
  }

  /** No deletion is newer than the sync with its generation, completed or running. */
  ghost predicate TombstonesCounted(b: Bucket) {
    && (b.synced == b.generation ==> NoRecentTombstone(b))
    && (b.sync.Some? && b.sync.value.gen == b.generation ==> forall s :: s in b.cells ==> Final(b.cells[s], MarkOf(b.sync.value, s)))
  }

  ghost predicate Sound(c: Params, b: Bucket) {
    Inv(c, b) && TombstonesCounted(b)
  }

  lemma FinalIsNoTombstone(b: Bucket)
    ensures NoRecentTombstone(b) <==> forall s :: s in b.cells ==> Final(b.cells[s], b.cells[s].lo)
  {
  }

  /** Writing to an unpublished slot without publishing it. */
  lemma FinalAppended(cell: Cell, v: Slot, from: nat)
    requires Final(cell, from) && Last(cell).mark != Published && v.mark != Published
    ensures Final(Append(cell, v), from)
  {
    var a := Append(cell, v);
    assert forall i :: from <= i < |cell.hist| ==> cell.hist[i].mark != Published && a.hist[i] == cell.hist[i];
  }

  lemma CountedAppended(b: Bucket, b2: Bucket, s: SlotId, v: Slot)
    requires TombstonesCounted(b) && s in b.cells && b2.cells == Write(b, s, v) && Last(b.cells[s]).mark != Published && v.mark != Published
    requires b2.generation == b.generation && b2.synced == b.synced && b2.sync == b.sync
    ensures TombstonesCounted(b2)
  {
    hide Final, NoRecentTombstone;
    FinalIsNoTombstone(b);
    FinalIsNoTombstone(b2);
    if b.synced == b.generation {
      FinalAppended(b.cells[s], v, b.cells[s].lo);
    }
    if b.sync.Some? && b.sync.value.gen == b.generation {
      FinalAppended(b.cells[s], v, MarkOf(b.sync.value, s));
    }
  }

  /** A deletion or publication makes the bucket dirtier than any sync so far. */
  lemma DirtyIsCounted(b: Bucket, b2: Bucket)
    requires KeptSound(b) && SyncSound(b) && b2.generation == b.generation + 1 && b2.synced == b.synced
    requires b2.sync.Some? ==> b.sync.Some? && b2.sync.value.gen == b.sync.value.gen
    ensures TombstonesCounted(b2)
  {
    hide Durable, Covered, CoveredSound;
  }

  lemma ReservedIsUnpublished(c: Params, b: Bucket, s: SlotId)
    requires Inv(c, b) && (s in b.flight || s in b.free)
    ensures s in b.cells && Last(b.cells[s]).mark != Published
  {
    assert s in b.flight ==> Reserved(c, b, s, b.flight[s]);
  }

  lemma ZeroIsFinal(from: nat)
    ensures Final(Cell([ZERO_SLOT], 0), from)
  {
  }

  lemma AddPageCounted(c: Params, b: Bucket, b2: Bucket)
    requires TombstonesCounted(b) && b2.generation == b.generation && b2.synced == b.synced && b2.sync == b.sync
    requires forall s :: s in b2.cells ==> b2.cells[s] == Cell([ZERO_SLOT], 0) || (s in b.cells && b2.cells[s] == b.cells[s])
    ensures TombstonesCounted(b2)
  {
    hide Final, NoRecentTombstone;
    FinalIsNoTombstone(b);
    FinalIsNoTombstone(b2);
    forall s, from: nat | s in b2.cells && b2.cells[s] == Cell([ZERO_SLOT], 0) ensures Final(b2.cells[s], from) {
      ZeroIsFinal(from);
    }
  }

  lemma StartedCounted(b: Bucket)
    requires TombstonesCounted(b)
    ensures TombstonesCounted(b.(sync := Some(Started(b)), punches := {}))
  {
    hide Shows;
  }

  lemma SyncedCounted(b: Bucket)
    requires TombstonesCounted(b) && b.sync.Some?
    ensures TombstonesCounted(Synced(b, b.sync.value))
  {
    var r := b.sync.value;
    var b2 := Synced(b, r);
    FinalIsNoTombstone(b2);
    if b2.synced == b2.generation {
      forall s | s in b2.cells ensures Final(b2.cells[s], b2.cells[s].lo) {
        assert Final(b.cells[s], MarkOf(r, s));
      }
    }
  }

  lemma FreshCellsCounted(b: Bucket)
    requires b.sync == None && forall s :: s in b.cells ==> |b.cells[s].hist| == 1
    ensures TombstonesCounted(b)
  {
  }

  lemma BeginCounted(c: Params, b: Bucket, step: Step)
    requires ValidParams(c) && Sound(c, b) && step.Begin? && Enabled(c, b, step)
    ensures TombstonesCounted(Apply(c, b, step))
  {
    hide Inv, TombstonesCounted;
    ReservedIsUnpublished(c, b, step.slot);
    CountedAppended(b, Apply(c, b, step), step.slot, Last(b.cells[step.slot]).(mark := Empty));
  }

  lemma FillCounted(c: Params, b: Bucket, step: Step)
    requires ValidParams(c) && Sound(c, b) && step.Fill? && Enabled(c, b, step)
    ensures TombstonesCounted(Apply(c, b, step))
  {
    hide Inv, TombstonesCounted;
    ReservedIsUnpublished(c, b, step.slot);
    var f := b.flight[step.slot];
    CountedAppended(b, Apply(c, b, step), step.slot, Record(c, f.offset, f.pos, f.alloc, f.data).(mark := Empty));
  }

  lemma StepKeepsSound(c: Params, b: Bucket, step: Step)
    requires ValidParams(c) && Sound(c, b) && Enabled(c, b, step)
    ensures Sound(c, Apply(c, b, step))
  {
    hide Inv, TombstonesCounted, Possible, Starts, Synced;
    StepKeepsInv(c, b, step);
    var b2 := Apply(c, b, step);
    match step
    case Begin(_, _, _) => BeginCounted(c, b, step);
    case Fill(_) => FillCounted(c, b, step);
    case Publish(_) => assert KeptSound(b) && SyncSound(b) by { SyncFacts(c, b); } DirtyIsCounted(b, b2);
    case Delete(_) => assert KeptSound(b) && SyncSound(b) by { SyncFacts(c, b); } DirtyIsCounted(b, b2);
    case PunchFail => assert KeptSound(b) && SyncSound(b) by { SyncFacts(c, b); } DirtyIsCounted(b, b2);
    case AddPage => AddPageCounted(c, b, b2);
    case Remove => FreshCellsCounted(b2);
    case SyncStart => StartedCounted(b);
    case SyncDone => SyncedCounted(b);
    case Crash(m, after) => FreshCellsCounted(b2);
    case Copy(_) => SameCounted(b, b2);
    case Grow(_) => SameCounted(b, b2);
    case Punch(_) => SameCounted(b, b2);
    case SyncFail => SameCounted(b, b2);
  }

  lemma SyncFacts(c: Params, b: Bucket)
    requires Inv(c, b)
    ensures KeptSound(b) && SyncSound(b)
  {
    hide KeptSound, SyncSound;
  }

  lemma SameCounted(b: Bucket, b2: Bucket)
    requires TombstonesCounted(b) && b2.cells == b.cells && b2.generation == b.generation && b2.synced == b.synced
    requires b2.sync == None || b2.sync == b.sync
    ensures TombstonesCounted(b2)
  {
    hide Final;
    FinalIsNoTombstone(b);
    FinalIsNoTombstone(b2);
  }

  lemma {:induction false} RunKeepsSound(c: Params, b: Bucket, steps: seq<Step>, last: Bucket)
    requires ValidParams(c) && Sound(c, b) && Runs(c, b, steps, last)
    ensures Sound(c, last)
    decreases |steps|
  {
    hide Sound, Enabled, Apply;
    if steps != [] {
      StepKeepsSound(c, b, steps[0]);
      RunKeepsSound(c, Apply(c, b, steps[0]), steps[1..], last);
    }
  }

  lemma CreatedIsSound(c: Params)
    requires ValidParams(c)
    ensures Sound(c, Created(c))
  {
    hide Inv;
    CreatedSound(c);
    FreshCellsCounted(Created(c));
  }

  /** When nothing is dirty, no deletion is newer than the last sync. */
  lemma CleanHasNoTombstone(c: Params, b: Bucket)
    requires Sound(c, b) && b.generation == b.synced
    ensures NoRecentTombstone(b)
  {
  }

  /** Recovery after a crash with nothing dirty and the file length on disk. */
  lemma CleanStarts(c: Params, b: Bucket, m: Image)
    requires Sound(c, b) && Possible(c, b, m) && b.sizeLo == b.size && b.generation == b.synced
    ensures Starts(c, m)
  {
    hide Shows, OneOwner, FlightSound, PendingSound, SyncSound, Disjoint, PunchSound, HistorySound, Durable, Final;
    CleanHasNoTombstone(c, b);
    NoTombstoneNoDuplicates(c, b, m);
    DurableLengthFits(c, b, m);
    forall s | s in m.slots && m.slots[s].mark == Published ensures Intact(c, m, m.slots[s]) {
      var i := FoundVersion(c, b, m, s);
      var x := m.slots[s].offset;
      assert b.entries[x] == s;
      KeptIsFound(c, b, m, x);
    }
  }

  /** From creation on, over every run: with nothing dirty every crash image opens, and holds just
      the live effects. */
  lemma CleanRestart(c: Params, steps: seq<Step>, last: Bucket, m: Image)
    requires ValidParams(c) && Runs(c, Created(c), steps, last) && Possible(c, last, m)
    requires last.sizeLo == last.size && last.generation == last.synced
    ensures Starts(c, m)
    ensures forall x :: x in last.entries <==> exists s :: Holds(m, s, x)
  {
    hide Runs, Possible, Starts, Inv;
    CreatedIsSound(c);
    RunKeepsSound(c, Created(c), steps, last);
    CleanStarts(c, last, m);
    forall x ensures x in last.entries <==> exists s :: Holds(m, s, x) {
      if x in last.entries {
        CleanIsKept(c, last, x);
        KeptIsFound(c, last, m, x);
      }
      if s :| Holds(m, s, x) {
        FoundIsLive(c, last, m, s);
      }
    }
  }

  lemma FoundIsLive(c: Params, b: Bucket, m: Image, s: SlotId)
    requires Sound(c, b) && Possible(c, b, m) && b.generation == b.synced && s in m.slots && m.slots[s].mark == Published
    ensures m.slots[s].offset in b.entries
  {
    hide Shows, OneOwner, FlightSound, PendingSound, SyncSound, KeptSound, Disjoint, PunchSound, HistorySound, Final;
    CleanHasNoTombstone(c, b);
    var i := FoundVersion(c, b, m, s);
  }
}
