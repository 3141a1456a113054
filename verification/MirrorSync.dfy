/** Syncing, reclaiming and growing keep the invariant of the mirror. */
module MirrorSync {
  import opened Effects
  import opened Mirror
  import opened MirrorInv
  import opened MirrorSteps

  // ---------- Growing ----------

  lemma GrowKeepsInv(c: Params, b: Bucket, step: Step)
    requires ValidParams(c) && Inv(c, b) && step.Grow? && Enabled(c, b, step)
    ensures Inv(c, Apply(c, b, step))
  {
    hide Shows, Disjoint, HistorySound, OneOwner, Unreachable, Covered, Durable, CoveredSound, PendingSound, RunSound;
    var b2 := Apply(c, b, step);
    forall x | x in b.entries ensures LiveSlot(c, b2, x, b2.entries[x]) && Stays(b, b2, x) {
      LiveEntry(c, b, x);
    }
    SameLiveKeeps(b, b2);
  }

  lemma ZeroShowsNothing(from: nat, p: nat)
    ensures !Shows(Cell([ZERO_SLOT], 0), from, p)
  {
  }

  /** Old slots are as they were; new slots are zero. */
  ghost predicate Extends(cells: map<SlotId, Cell>, cells2: map<SlotId, Cell>) {
    && (forall s :: s in cells ==> s in cells2 && cells2[s] == cells[s])
    && forall s :: s in cells2 && s !in cells ==> cells2[s] == Cell([ZERO_SLOT], 0)
  }

  lemma DisjointPaged(pages: seq<nat>, extents: map<nat, Extent>, cursor: nat)
    requires Disjoint(pages, extents, cursor)
    ensures Disjoint(pages + [cursor], extents, cursor + 1)
  {
    var pages2 := pages + [cursor];
    forall i, j | 0 <= i < j < |pages2| ensures pages2[i] < pages2[j] {
      if j == |pages| {
        assert pages[i] in pages;
      }
    }
  }

  lemma AddPageCells(c: Params, b: Bucket, step: Step)
    requires ValidParams(c) && CellsSound(c, b.cells, b.pages) && Disjoint(b.pages, b.extents, b.cursor)
    requires step.AddPage? && Enabled(c, b, step)
    ensures var b2 := Apply(c, b, step); CellsSound(c, b2.cells, b2.pages) && Extends(b.cells, b2.cells)
    ensures forall s :: s in SlotsOf(c, b.cursor) ==> s !in b.cells
  {
    var b2 := Apply(c, b, step);
    forall s | s in SlotsOf(c, b.cursor) ensures s !in b.cells {
      assert s.page == b.cursor;
    }
  }

  lemma HistoryExtended(c: Params, cells: map<SlotId, Cell>, extents: map<nat, Extent>, cells2: map<SlotId, Cell>)
    requires HistorySound(c, cells, extents) && Extends(cells, cells2)
    ensures HistorySound(c, cells2, extents)
  {
    forall s, i | s in cells2 && 0 <= i < |cells2[s].hist| ensures Allocated(c, extents, cells2[s].hist[i]) {
      if s in cells {
        assert Allocated(c, extents, cells[s].hist[i]);
      }
    }
  }

  lemma ShownExtended(b: Bucket, b2: Bucket)
    requires ShownSound(b) && Extends(b.cells, b2.cells) && b2.extents == b.extents && b2.punches == b.punches
    requires b2.toPunch == b.toPunch && b2.sync == b.sync
    ensures ShownSound(b2)
  {
    hide Shows;
    forall s, from: nat, p: nat | s in b2.cells && s !in b.cells ensures !Shows(b2.cells[s], from, p) {
      ZeroShowsNothing(from, p);
    }
  }

  lemma AddPageSlots(c: Params, b: Bucket, b2: Bucket)
    requires EntriesSound(c, b) && FreeSound(b) && Extends(b.cells, b2.cells) && b.free == {}
    requires b2 == b.(cells := b2.cells, pages := b2.pages, free := b2.free, cursor := b2.cursor)
    requires b.pages <= b2.pages && b.flight == map[]
    requires forall s :: s in b2.free ==> s in b2.cells && s !in b.cells
    ensures EntriesSound(c, b2) && FreeSound(b2) && FlightSound(c, b2) && SameLive(b, b2)
  {
    forall x | x in b.entries ensures LiveSlot(c, b2, x, b2.entries[x]) && Stays(b, b2, x) {
      assert LiveSlot(c, b, x, b.entries[x]);
    }
  }

  lemma AddPageKeepsInv(c: Params, b: Bucket, step: Step)
    requires ValidParams(c) && Inv(c, b) && step.AddPage? && Enabled(c, b, step)
    ensures Inv(c, Apply(c, b, step))
  {
    hide Shows, Disjoint, HistorySound, EntriesSound, FreeSound, FlightSound, OneOwner, Unreachable, PendingSound,
         CoveredSound, RunSound, KeptSound, CellsSound, SameLive, Extends;
    var b2 := Apply(c, b, step);
    AddPageCells(c, b, step);
    DisjointPaged(b.pages, b.extents, b.cursor);
    HistoryExtended(c, b.cells, b.extents, b2.cells);
    ShownExtended(b, b2);
    AddPageSlots(c, b, b2);
    SameLiveKeeps(b, b2);
  }

  // ---------- Starting a sync ----------

  lemma StartedCovers(c: Params, b: Bucket)
    requires CellsSound(c, b.cells, b.pages) && PendingSound(b.cells, b.punches)
    ensures CoveredSound(b.cells, Started(b))
  {
    hide Shows;
  }

  lemma StartedCovered(c: Params, b: Bucket, x: nat)
    requires CellsSound(c, b.cells, b.pages) && Disjoint(b.pages, b.extents, b.cursor) && Bounds(b) && x in b.entries
    requires LiveSlot(c, b, x, b.entries[x])
    ensures Covered(b, Started(b), x)
  {
    assert b.pages[..|b.pages|] == b.pages;
  }

  lemma StartedRuns(c: Params, b: Bucket)
    requires CellsSound(c, b.cells, b.pages) && Disjoint(b.pages, b.extents, b.cursor) && Bounds(b) && EntriesSound(c, b) && KeptSound(b)
    ensures RunSound(b, Started(b))
  {
    hide Disjoint, CellsSound, Covered, LiveSlot;
    var r := Started(b);
    forall x | x in r.live ensures Covered(b, r, x) {
      StartedCovered(c, b, x);
    }
  }

  lemma SyncStartKeepsInv(c: Params, b: Bucket, step: Step)
    requires ValidParams(c) && Inv(c, b) && step.SyncStart? && Enabled(c, b, step)
    ensures Inv(c, Apply(c, b, step))
  {
    hide Shows, Disjoint, HistorySound, OneOwner, Unreachable, Covered, Durable, CellsSound, Started;
    StartedCovers(c, b);
    StartedRuns(c, b);
    var b2 := Apply(c, b, step);
    StartedPunches(b);
    forall x | x in b2.kept ensures Durable(b2, x, b2.kept[x]) {
      SameDurable(b, b2, x, b.kept[x]);
    }
    RunIgnoresSync(b, b2, Started(b));
  }

  lemma StartedPunches(b: Bucket)
    ensures Started(b).punches == b.punches
  {
  }

  lemma SameDurable(b: Bucket, b2: Bucket, x: nat, data: Bytes)
    requires Durable(b, x, data) && b2 == b.(sync := b2.sync, punches := b2.punches, toPunch := b2.toPunch, generation := b2.generation)
    ensures Durable(b2, x, data)
  {
  }

  lemma RunIgnoresSync(b: Bucket, b2: Bucket, r: SyncRun)
    requires RunSound(b, r) && b2 == b.(sync := b2.sync, punches := b2.punches)
    ensures RunSound(b2, r)
  {
    forall x | x in r.live ensures Covered(b2, r, x) {
      assert Covered(b, r, x);
    }
  }

  // ---------- Finishing a sync ----------

  lemma FailedPending(b: Bucket, r: SyncRun)
    requires CoveredSound(b.cells, r) && PendingSound(b.cells, b.punches)
    ensures PendingSound(b.cells, b.punches + r.punches)
  {
    hide Shows;
    forall p, s | p in b.punches + r.punches && s in b.cells && b.cells[s].hist != [] ensures !Shows(b.cells[s], |b.cells[s].hist| - 1, p) {
      if p !in b.punches && Shows(b.cells[s], |b.cells[s].hist| - 1, p) {
        ShowsLater(b.cells[s], MarkOf(r, s), |b.cells[s].hist| - 1, p);
      }
    }
  }

  lemma FailedSlots(c: Params, b: Bucket, b2: Bucket)
    requires EntriesSound(c, b) && FreeSound(b) && FlightSound(c, b) && b.sync.Some?
    requires b2 == b.(sync := None, punches := b.punches + b.sync.value.punches)
    ensures EntriesSound(c, b2) && FreeSound(b2) && FlightSound(c, b2)
  {
    hide Shows;
    forall x | x in b2.entries ensures LiveSlot(c, b2, x, b2.entries[x]) {
      assert LiveSlot(c, b, x, b.entries[x]);
    }
    forall s | s in b2.flight ensures Reserved(c, b2, s, b2.flight[s]) {
      assert Reserved(c, b, s, b.flight[s]);
    }
  }

  lemma SyncFailKeepsInv(c: Params, b: Bucket, step: Step)
    requires ValidParams(c) && Inv(c, b) && step.SyncFail? && Enabled(c, b, step)
    ensures Inv(c, Apply(c, b, step))
  {
    hide Shows, Disjoint, HistorySound, OneOwner, Unreachable, Durable, RunSound, CellsSound, PendingSound,
         EntriesSound, FreeSound, FlightSound, CoveredSound;
    var b2 := Apply(c, b, step);
    FailedPending(b, b.sync.value);
    FailedSlots(c, b, b2);
    forall x | x in b2.kept ensures Durable(b2, x, b2.kept[x]) {
      SameDurable(b, b2, x, b.kept[x]);
    }
  }

  lemma SyncedCells(c: Params, b: Bucket, r: SyncRun)
    requires CellsSound(c, b.cells, b.pages) && HistorySound(c, b.cells, b.extents) && OneOwner(b.cells) && CoveredSound(b.cells, r)
    ensures var b2 := Synced(b, r); CellsSound(c, b2.cells, b2.pages) && HistorySound(c, b2.cells, b2.extents) && OneOwner(b2.cells)
  {
    var b2 := Synced(b, r);
    forall s, i | s in b2.cells && 0 <= i < |b2.cells[s].hist| ensures Allocated(c, b2.extents, b2.cells[s].hist[i]) {
      assert Allocated(c, b.extents, b.cells[s].hist[i]);
    }
    hide OneOwner;
    assert forall s :: s in b.cells ==> b2.cells[s].hist == b.cells[s].hist;
    OwnersByHistory(b.cells, b2.cells);
  }

  lemma SameShown(cell: Cell, cell2: Cell, from: nat, p: nat)
    requires cell.hist == cell2.hist
    ensures Shows(cell, from, p) <==> Shows(cell2, from, p)
  {
  }

  lemma OwnersByHistory(cells: map<SlotId, Cell>, cells2: map<SlotId, Cell>)
    requires OneOwner(cells) && cells2.Keys == cells.Keys && forall s :: s in cells ==> cells2[s].hist == cells[s].hist
    ensures OneOwner(cells2)
  {
    hide Shows;
    forall s, t, p | s in cells2 && t in cells2 && Shows(cells2[s], 0, p) && Shows(cells2[t], 0, p) ensures s == t {
      SameShown(cells2[s], cells[s], 0, p);
      SameShown(cells2[t], cells[t], 0, p);
    }
  }

  /** Covered tombstones are on disk, so their space can be reclaimed. */
  lemma SyncedPunches(b: Bucket, r: SyncRun)
    requires PunchSound(b) && CoveredSound(b.cells, r)
    ensures PunchSound(Synced(b, r))
  {
    hide Shows;
    var b2 := Synced(b, r);
    forall p | p in b2.toPunch || (p in b2.extents && b2.extents[p].body.Punched?) ensures Unreachable(b2.cells, p) {
      forall s | s in b2.cells ensures !Shows(b2.cells[s], b2.cells[s].lo, p) {
        SameShown(b2.cells[s], b.cells[s], b2.cells[s].lo, p);
        if Shows(b.cells[s], b2.cells[s].lo, p) {
          ShowsLater(b.cells[s], b.cells[s].lo, b2.cells[s].lo, p);
          ShowsLater(b.cells[s], MarkOf(r, s), b2.cells[s].lo, p);
        }
      }
    }
  }

  lemma SteadyLater(cell: Cell, from: nat, cell2: Cell, v: Slot)
    requires Steady(cell, from, v) && cell2.hist == cell.hist && from <= cell2.lo < |cell2.hist|
    ensures Steady(cell2, cell2.lo, v)
  {
  }

  lemma SyncedAt(b: Bucket, r: SyncRun, s: SlotId)
    requires s in b.cells
    ensures var b2 := Synced(b, r); s in b2.cells && b2.cells[s] == if s in r.marks then Raised(b.cells[s], r.marks[s]) else b.cells[s]
  {
  }

  /** What was in place when the sync began is durable when it ends. */
  lemma NewlyDurable(c: Params, b: Bucket, r: SyncRun, x: nat)
    requires CellsSound(c, b.cells, b.pages) && CoveredSound(b.cells, r) && Covered(b, r, x) && LiveSlot(c, b, x, b.entries[x])
    ensures Durable(Synced(b, r), x, Payload(b, x))
  {
    hide Steady, Shows;
    var b2, s := Synced(b, r), b.entries[x];
    SyncedAt(b, r, s);
    SteadyLater(b.cells[s], r.marks[s], b2.cells[s], Last(b.cells[s]));
  }

  lemma StillDurable(c: Params, b: Bucket, r: SyncRun, x: nat, data: Bytes)
    requires CellsSound(c, b.cells, b.pages) && CoveredSound(b.cells, r) && Durable(b, x, data)
    requires b.pagesLo <= r.pages <= |b.pages| && b.sizeLo <= r.size
    ensures Durable(Synced(b, r), x, data)
  {
    hide Steady, Shows;
    var b2, s := Synced(b, r), b.entries[x];
    SyncedAt(b, r, s);
    SteadyLater(b.cells[s], b.cells[s].lo, b2.cells[s], Last(b.cells[s]));
    var i :| 0 <= i < b.pagesLo && b.pages[i] == s.page;
    assert b.pages[..r.pages][i] == s.page;
  }

  lemma SyncedDurable(c: Params, b: Bucket, r: SyncRun, x: nat)
    requires CellsSound(c, b.cells, b.pages) && EntriesSound(c, b) && CoveredSound(b.cells, r) && RunSound(b, r)
    requires KeptSound(b) && x in Synced(b, r).kept
    ensures Durable(Synced(b, r), x, Synced(b, r).kept[x])
  {
    hide CellsSound, CoveredSound, LiveSlot, Covered, Durable;
    if x in r.live {
      CoveredIsLive(b, r, x);
      LiveEntry(c, b, x);
      NewlyDurable(c, b, r, x);
    } else {
      StillDurable(c, b, r, x, b.kept[x]);
    }
  }

  lemma SyncedSlots(c: Params, b: Bucket, r: SyncRun)
    requires EntriesSound(c, b) && FreeSound(b) && FlightSound(c, b) && b.sync == Some(r)
    ensures var b2 := Synced(b, r); EntriesSound(c, b2) && FreeSound(b2) && FlightSound(c, b2)
  {
    hide LiveSlot, Reserved;
    var b2 := Synced(b, r);
    forall x | x in b2.entries ensures LiveSlot(c, b2, x, b2.entries[x]) {
      SyncedLive(c, b, r, x);
    }
    forall s | s in b2.flight ensures Reserved(c, b2, s, b2.flight[s]) {
      SyncedReserved(c, b, r, s);
    }
  }

  lemma SyncedLive(c: Params, b: Bucket, r: SyncRun, x: nat)
    requires x in b.entries && LiveSlot(c, b, x, b.entries[x])
    ensures LiveSlot(c, Synced(b, r), x, b.entries[x])
  {
  }

  lemma SyncedReserved(c: Params, b: Bucket, r: SyncRun, s: SlotId)
    requires s in b.flight && Reserved(c, b, s, b.flight[s]) && b.sync == Some(r)
    ensures Reserved(c, Synced(b, r), s, b.flight[s])
  {
    hide Shows;
    var b2, p := Synced(b, r), b.flight[s].pos;
    forall t | t in b2.cells ensures !Shows(b2.cells[t], 0, p) {
      SameShown(b2.cells[t], b.cells[t], 0, p);
    }
  }

  lemma SyncedPending(b: Bucket, r: SyncRun)
    requires PendingSound(b.cells, b.punches)
    ensures PendingSound(Synced(b, r).cells, Synced(b, r).punches)
  {
    hide Shows;
    var b2 := Synced(b, r);
    forall p, s | p in b2.punches && s in b2.cells && b2.cells[s].hist != [] ensures !Shows(b2.cells[s], |b2.cells[s].hist| - 1, p) {
      SameShown(b2.cells[s], b.cells[s], |b2.cells[s].hist| - 1, p);
    }
  }

  lemma SyncedBounds(b: Bucket, r: SyncRun)
    requires RunSound(b, r) && KeptSound(b) && Bounds(b) && Disjoint(b.pages, b.extents, b.cursor)
    ensures var b2 := Synced(b, r);
      && Bounds(b2) && Disjoint(b2.pages, b2.extents, b2.cursor)
      && b2.synced <= b2.generation && (b2.synced == b2.generation ==> b2.entries.Keys <= b2.kept.Keys)
  {
    hide Covered, Durable;
  }

  lemma SyncDoneKeepsInv(c: Params, b: Bucket, step: Step)
    requires ValidParams(c) && Inv(c, b) && step.SyncDone? && Enabled(c, b, step)
    ensures Inv(c, Apply(c, b, step))
  {
    hide Disjoint, HistorySound, EntriesSound, FreeSound, FlightSound, OneOwner, PunchSound, PendingSound, CellsSound,
         Durable, Bounds, RunSound, CoveredSound;
    var r := b.sync.value;
    SyncedCells(c, b, r);
    SyncedPunches(b, r);
    SyncedSlots(c, b, r);
    SyncedPending(b, r);
    SyncedBounds(b, r);
    forall x | x in Synced(b, r).kept ensures Durable(Synced(b, r), x, Synced(b, r).kept[x]) {
      SyncedDurable(c, b, r, x);
    }
    SyncedKnown(b, r);
  }

  lemma SyncedKnown(b: Bucket, r: SyncRun)
    requires Known(b) && b.sync == Some(r)
    ensures Known(Synced(b, r)) && Synced(b, r).sync == None
  {
  }

  // ---------- Reclaiming ----------

  lemma PunchSlots(c: Params, b: Bucket, step: Step)
    requires ValidParams(c) && Inv(c, b) && step.Punch? && Enabled(c, b, step)
    ensures var b2 := Apply(c, b, step); EntriesSound(c, b2) && forall x :: x in b.entries ==> Last(b.cells[b.entries[x]]).pos != step.pos
  {
    hide Shows, OneOwner, PendingSound, SyncSound, KeptSound, HistorySound, Disjoint;
    var b2 := Apply(c, b, step);
    forall x | x in b.entries ensures LiveSlot(c, b2, x, b2.entries[x]) && Last(b.cells[b.entries[x]]).pos != step.pos {
      LiveEntry(c, b, x);
      var cell := b.cells[b.entries[x]];
      ShowsLast(cell, Last(cell).pos);
      ShowsLater(cell, cell.lo, |cell.hist| - 1, Last(cell).pos);
    }
  }

  lemma PunchKeepsInv(c: Params, b: Bucket, step: Step)
    requires ValidParams(c) && Inv(c, b) && step.Punch? && Enabled(c, b, step)
    ensures Inv(c, Apply(c, b, step))
  {
    hide Shows, Disjoint, HistorySound, EntriesSound, OneOwner, Unreachable, PendingSound, CoveredSound, RunSound, CellsSound;
    var b2 := Apply(c, b, step);
    PunchSlots(c, b, step);
    PunchLayout(c, b, step);
    forall x | x in b2.kept ensures Durable(b2, x, b2.kept[x]) {
      assert Durable(b, x, b.kept[x]);
    }
  }

  lemma PunchLayout(c: Params, b: Bucket, step: Step)
    requires ValidParams(c) && step.Punch? && Enabled(c, b, step) && Disjoint(b.pages, b.extents, b.cursor)
    requires HistorySound(c, b.cells, b.extents)
    ensures var b2 := Apply(c, b, step); Disjoint(b2.pages, b2.extents, b2.cursor) && HistorySound(c, b2.cells, b2.extents)
  {
    hide Disjoint, HistorySound;
    var b2 := Apply(c, b, step);
    HistoryKept(c, b.cells, b.extents, b2.extents);
    DisjointKept(b.pages, b.extents, b.cursor, b2.extents);
  }

  lemma Requeued(c: Params, b: Bucket)
    requires CellsSound(c, b.cells, b.pages) && PunchSound(b) && PendingSound(b.cells, b.punches)
    ensures PendingSound(b.cells, b.punches + b.toPunch)
  {
    hide Shows;
    forall p, s | p in b.punches + b.toPunch && s in b.cells ensures !Shows(b.cells[s], |b.cells[s].hist| - 1, p) {
      if p !in b.punches && Shows(b.cells[s], |b.cells[s].hist| - 1, p) {
        ShowsLater(b.cells[s], b.cells[s].lo, |b.cells[s].hist| - 1, p);
      }
    }
  }

  lemma PunchFailKeepsInv(c: Params, b: Bucket, step: Step)
    requires ValidParams(c) && Inv(c, b) && step.PunchFail? && Enabled(c, b, step)
    ensures Inv(c, Apply(c, b, step))
  {
    hide Shows, Disjoint, HistorySound, OneOwner, Covered, Durable, CoveredSound, CellsSound, LiveSlot, PendingSound, Unreachable;
    var b2 := Apply(c, b, step);
    Requeued(c, b);
    PunchFailSlots(c, b, b2);
    forall x | x in b2.kept ensures Durable(b2, x, b2.kept[x]) {
      SameDurable(b, b2, x, b.kept[x]);
    }
    if b.sync.Some? {
      forall x | x in b.sync.value.live ensures Covered(b2, b.sync.value, x) {
        SameCovered(b, b2, b.sync.value, x);
      }
    }
  }

  lemma PunchFailSlots(c: Params, b: Bucket, b2: Bucket)
    requires EntriesSound(c, b) && FreeSound(b) && FlightSound(c, b)
    requires b2 == b.(punches := b.punches + b.toPunch, toPunch := {}, generation := b2.generation)
    ensures EntriesSound(c, b2) && FreeSound(b2) && FlightSound(c, b2)
  {
    hide Shows;
    forall x | x in b2.entries ensures LiveSlot(c, b2, x, b2.entries[x]) {
      assert LiveSlot(c, b, x, b.entries[x]);
    }
    forall s | s in b2.flight ensures Reserved(c, b2, s, b2.flight[s]) {
      assert Reserved(c, b, s, b.flight[s]);
    }
  }

  lemma SameCovered(b: Bucket, b2: Bucket, r: SyncRun, x: nat)
    requires Covered(b, r, x) && b2 == b.(punches := b2.punches, toPunch := b2.toPunch, generation := b2.generation)
    ensures Covered(b2, r, x)
  {
  }
}
