/** Each step of the mirror keeps the invariant. */
module MirrorSteps {
  import opened Effects
  import opened Mirror
  import opened MirrorInv

  // ---------- Writing to a slot that is not live ----------

  /** An unpublished value changes what no slot shows. */
  lemma Unpublished(cells: map<SlotId, Cell>, s: SlotId, v: Slot, cells2: map<SlotId, Cell>)
    requires s in cells && v.mark != Published && cells2 == cells[s := Append(cells[s], v)]
    ensures forall t, from: nat, p: nat :: t in cells && from <= |cells[t].hist| ==> (Shows(cells2[t], from, p) <==> Shows(cells[t], from, p))
    ensures forall p :: !Shows(cells2[s], |cells[s].hist|, p)
  {
    hide Shows;
    forall t, from: nat, p: nat | t in cells && from <= |cells[t].hist| ensures Shows(cells2[t], from, p) <==> Shows(cells[t], from, p) {
      if t == s {
        ShowsAppended(cells[s], v, from, p);
      }
    }
    forall p ensures !Shows(cells2[s], |cells[s].hist|, p) {
      NothingShown(cells[s], p);
      ShowsAppended(cells[s], v, |cells[s].hist|, p);
    }
  }

  lemma NothingShown(cell: Cell, p: nat)
    ensures !Shows(cell, |cell.hist|, p)
  {
  }

  /** The parts of the invariant that speak only of what slots show. */
  ghost predicate ShownSound(b: Bucket) {
    OneOwner(b.cells) && PunchSound(b) && PendingSound(b.cells, b.punches) && (b.sync.Some? ==> CoveredSound(b.cells, b.sync.value))
  }

  lemma UnpublishedShown(c: Params, b: Bucket, s: SlotId, v: Slot, b2: Bucket)
    requires CellsSound(c, b.cells, b.pages) && ShownSound(b)
    requires s in b.cells && v.mark != Published && b2.cells == Write(b, s, v)
    requires b2.punches == b.punches && b2.toPunch == b.toPunch
    requires b2.sync.Some? ==> b.sync.Some? && b2.sync.value.marks == b.sync.value.marks && b2.sync.value.punches == b.sync.value.punches
    requires forall p :: p in b2.extents && b2.extents[p].body.Punched? ==> p in b.extents && b.extents[p].body.Punched?
    ensures ShownSound(b2)
  {
    hide Shows;
    Unpublished(b.cells, s, v, b2.cells);
    forall p | Unreachable(b.cells, p) ensures Unreachable(b2.cells, p) {
      forall t | t in b2.cells ensures !Shows(b2.cells[t], b2.cells[t].lo, p) {
        assert b2.cells[t].lo == b.cells[t].lo;
      }
    }
    if b2.sync.Some? {
      var r, r2 := b.sync.value, b2.sync.value;
      forall p, t | p in r2.punches && t in b2.cells ensures !Shows(b2.cells[t], MarkOf(r2, t), p) {
        assert MarkOf(r, t) == MarkOf(r2, t) && !Shows(b.cells[t], MarkOf(r, t), p);
      }
    }
  }

  lemma AppendKeeps(cell: Cell, v: Slot)
    ensures Last(Append(cell, v)) == v && Append(cell, v).lo == cell.lo && |Append(cell, v).hist| == |cell.hist| + 1
  {
  }

  // ---------- Reservation ----------

  /** No allocation is dropped or resized. */
  ghost predicate KeepsAllocations(extents: map<nat, Extent>, extents2: map<nat, Extent>) {
    forall p :: p in extents ==> p in extents2 && extents2[p].alloc == extents[p].alloc
  }

  lemma HistoryAppended(c: Params, cells: map<SlotId, Cell>, extents: map<nat, Extent>, s: SlotId, v: Slot, extents2: map<nat, Extent>)
    requires HistorySound(c, cells, extents) && s in cells && KeepsAllocations(extents, extents2) && Allocated(c, extents2, v)
    ensures HistorySound(c, cells[s := Append(cells[s], v)], extents2)
  {
    var cells2 := cells[s := Append(cells[s], v)];
    forall t, i | t in cells2 && 0 <= i < |cells2[t].hist| ensures Allocated(c, extents2, cells2[t].hist[i]) {
      if t != s || i < |cells[s].hist| {
        assert Allocated(c, extents, cells[t].hist[i]);
      }
    }
  }

  lemma DisjointAllocated(pages: seq<nat>, extents: map<nat, Extent>, cursor: nat, n: nat)
    requires Disjoint(pages, extents, cursor) && n >= 1
    ensures cursor !in extents && Disjoint(pages, extents[cursor := Extent(n, Blank, false)], cursor + n)
  {
  }

  lemma BeginLayout(c: Params, b: Bucket, step: Step)
    requires ValidParams(c) && Inv(c, b) && step.Begin? && Enabled(c, b, step)
    ensures var b2 := Apply(c, b, step);
      && CellsSound(c, b2.cells, b2.pages) && Disjoint(b2.pages, b2.extents, b2.cursor) && Bounds(b2)
      && HistorySound(c, b2.cells, b2.extents) && b.cursor !in b.extents && Known(b2)
  {
    hide Shows, OneOwner, EntriesSound, FlightSound, PunchSound, PendingSound, SyncSound, KeptSound, Disjoint, HistorySound;
    DisjointAllocated(b.pages, b.extents, b.cursor, Blocks(c, |step.data|));
    HistoryAppended(c, b.cells, b.extents, step.slot, Last(b.cells[step.slot]).(mark := Empty), Apply(c, b, step).extents);
  }

  lemma BeginSlots(c: Params, b: Bucket, step: Step)
    requires ValidParams(c) && Inv(c, b) && step.Begin? && Enabled(c, b, step) && b.cursor !in b.extents
    ensures var b2 := Apply(c, b, step); EntriesSound(c, b2) && FreeSound(b2)
  {
    hide Shows, OneOwner, FlightSound, PunchSound, PendingSound, SyncSound, KeptSound, HistorySound, Disjoint;
    var b2 := Apply(c, b, step);
    AppendKeeps(b.cells[step.slot], Last(b.cells[step.slot]).(mark := Empty));
    forall x | x in b2.entries ensures LiveSlot(c, b2, x, b2.entries[x]) {
      assert LiveSlot(c, b, x, b.entries[x]);
    }
  }

  lemma BeginReserved(c: Params, b: Bucket, step: Step, s: SlotId)
    requires ValidParams(c) && step.Begin? && Enabled(c, b, step) && s in b.flight && Reserved(c, b, s, b.flight[s])
    requires s != step.slot && b.cursor !in b.extents
    ensures Reserved(c, Apply(c, b, step), s, b.flight[s])
  {
    hide Shows;
    var v := Last(b.cells[step.slot]).(mark := Empty);
    AppendKeeps(b.cells[step.slot], v);
    Unpublished(b.cells, step.slot, v, Apply(c, b, step).cells);
  }

  lemma BeginReserves(c: Params, b: Bucket, step: Step)
    requires ValidParams(c) && step.Begin? && Enabled(c, b, step) && HistorySound(c, b.cells, b.extents) && Known(b)
    requires b.cursor !in b.extents
    ensures var b2 := Apply(c, b, step); Reserved(c, b2, step.slot, b2.flight[step.slot])
  {
    hide Shows, HistorySound;
    var b2 := Apply(c, b, step);
    var v := Last(b.cells[step.slot]).(mark := Empty);
    AppendKeeps(b.cells[step.slot], v);
    Unpublished(b.cells, step.slot, v, b2.cells);
    forall t | t in b.cells ensures !Shows(b.cells[t], 0, b.cursor) {
      if Shows(b.cells[t], 0, b.cursor) {
        ShownIsAllocated(c, b.cells, b.extents, t, b.cursor);
      }
    }
  }

  lemma BeginFlight(c: Params, b: Bucket, step: Step)
    requires ValidParams(c) && step.Begin? && Enabled(c, b, step) && b.cursor !in b.extents
    requires HistorySound(c, b.cells, b.extents) && Known(b) && FreeSound(b) && FlightSound(c, b)
    ensures FlightSound(c, Apply(c, b, step))
  {
    hide HistorySound, Reserved;
    var b2 := Apply(c, b, step);
    BeginReserves(c, b, step);
    forall s | s in b2.flight ensures Reserved(c, b2, s, b2.flight[s]) && (s != step.slot ==> b.flight[s].pos in b.extents) {
      if s != step.slot {
        BeginReserved(c, b, step, s);
        ReservedIsAllocated(c, b, s);
      }
    }
  }

  lemma ReservedIsAllocated(c: Params, b: Bucket, s: SlotId)
    requires s in b.flight && Reserved(c, b, s, b.flight[s])
    ensures b.flight[s].pos in b.extents
  {
  }

  lemma ShownIsAllocated(c: Params, cells: map<SlotId, Cell>, extents: map<nat, Extent>, t: SlotId, p: nat)
    requires HistorySound(c, cells, extents) && t in cells && Shows(cells[t], 0, p)
    ensures p in extents
  {
    var i :| 0 <= i < |cells[t].hist| && cells[t].hist[i].mark == Published && cells[t].hist[i].pos == p;
    assert Allocated(c, extents, cells[t].hist[i]);
  }

  // ---------- Records unaffected by a write ----------

  ghost predicate Frame(b: Bucket, b2: Bucket) {
    && b2.sizeLo == b.sizeLo && b2.pagesLo == b.pagesLo && b.pages <= b2.pages
    && b.size <= b2.size && b2.synced == b.synced && b.generation <= b2.generation
    && forall p :: p in b.extents && b.extents[p].body.Written? ==> p in b2.extents && b2.extents[p] == b.extents[p]
  }

  /** The record of x is where it was. */
  ghost predicate Stays(b: Bucket, b2: Bucket, x: nat) {
    && x in b.entries && x in b2.entries && b2.entries[x] == b.entries[x] && b.entries[x] in b.cells && b.entries[x] in b2.cells
    && b2.cells[b.entries[x]] == b.cells[b.entries[x]]
  }

  lemma OnPagesStays(b: Bucket, b2: Bucket, n: nat, s: SlotId)
    requires OnPages(b, n, s) && b.pages <= b2.pages
    ensures OnPages(b2, n, s)
  {
    assert b2.pages[..n] == b.pages[..n];
  }

  lemma KeptStays(b: Bucket, b2: Bucket)
    requires KeptSound(b) && Frame(b, b2) && forall x :: x in b2.kept ==> x in b.kept && b2.kept[x] == b.kept[x] && Stays(b, b2, x)
    requires b2.synced == b2.generation ==> b2.entries.Keys <= b2.kept.Keys
    ensures KeptSound(b2)
  {
    hide Steady;
    forall x | x in b2.kept ensures Durable(b2, x, b2.kept[x]) {
      assert Durable(b, x, b.kept[x]);
      OnPagesStays(b, b2, b.pagesLo, b.entries[x]);
    }
  }

  lemma RunStays(b: Bucket, b2: Bucket, r: SyncRun, r2: SyncRun)
    requires RunSound(b, r) && Frame(b, b2) && r2 == r.(live := r2.live)
    requires forall x :: x in r2.live ==> x in r.live && r2.live[x] == r.live[x] && Stays(b, b2, x)
    requires r2.gen == b2.generation ==> b2.entries.Keys <= r2.live.Keys
    ensures RunSound(b2, r2)
  {
    hide Steady;
    forall x | x in r2.live ensures Covered(b2, r2, x) {
      assert Covered(b, r, x);
      OnPagesStays(b, b2, r.pages, r.live[x]);
    }
  }

  /** Steps that leave every live record alone keep what syncs have promised. */
  ghost predicate SameLive(b: Bucket, b2: Bucket) {
    && Frame(b, b2) && b2.generation == b.generation && b2.entries == b.entries && b2.kept == b.kept && b2.sync == b.sync
    && forall x :: x in b.entries ==> Stays(b, b2, x)
  }

  lemma SameLiveKeeps(b: Bucket, b2: Bucket)
    requires KeptSound(b) && SyncSound(b) && SameLive(b, b2)
    ensures KeptSound(b2) && (b2.sync.Some? ==> RunSound(b2, b2.sync.value))
  {
    hide Durable, Covered, CoveredSound;
    forall x | x in b.kept ensures x in b.entries {
      KeptIsLive(b, x);
    }
    KeptStays(b, b2);
    if b.sync.Some? {
      forall x | x in b.sync.value.live ensures x in b.entries {
        CoveredIsLive(b, b.sync.value, x);
      }
      RunStays(b, b2, b.sync.value, b.sync.value);
    }
  }

  lemma KeptIsLive(b: Bucket, x: nat)
    requires KeptSound(b) && x in b.kept
    ensures x in b.entries
  {
    assert Durable(b, x, b.kept[x]);
  }

  lemma CoveredIsLive(b: Bucket, r: SyncRun, x: nat)
    requires RunSound(b, r) && x in r.live
    ensures x in b.entries && b.entries[x] == r.live[x]
  {
    assert Covered(b, r, x);
  }

  lemma BeginKeepsInv(c: Params, b: Bucket, step: Step)
    requires ValidParams(c) && Inv(c, b) && step.Begin? && Enabled(c, b, step)
    ensures Inv(c, Apply(c, b, step))
  {
    hide Shows, Disjoint, HistorySound, LiveSlot, Reserved, OneOwner, Unreachable, Covered, Durable, RunSound, CoveredSound;
    var b2 := Apply(c, b, step);
    BeginLayout(c, b, step);
    BeginSlots(c, b, step);
    BeginFlight(c, b, step);
    UnpublishedShown(c, b, step.slot, Last(b.cells[step.slot]).(mark := Empty), b2);
    BeginLive(c, b, step);
    SameLiveKeeps(b, b2);
  }

  lemma BeginLive(c: Params, b: Bucket, step: Step)
    requires ValidParams(c) && Inv(c, b) && step.Begin? && Enabled(c, b, step) && b.cursor !in b.extents
    ensures SameLive(b, Apply(c, b, step))
  {
    hide Shows, Disjoint, HistorySound, OneOwner, PunchSound, PendingSound, SyncSound, KeptSound, FlightSound;
    var b2 := Apply(c, b, step);
    forall x | x in b.entries ensures Stays(b, b2, x) {
      assert LiveSlot(c, b, x, b.entries[x]);
    }
  }

  // ---------- Copying and filling in ----------

  lemma CopySlots(c: Params, b: Bucket, step: Step)
    requires ValidParams(c) && Inv(c, b) && step.Copy? && Enabled(c, b, step)
    ensures var b2 := Apply(c, b, step); EntriesSound(c, b2) && FreeSound(b2) && SameLive(b, b2)
  {
    hide Shows, OneOwner, PunchSound, PendingSound, SyncSound, KeptSound, HistorySound, Disjoint;
    var b2 := Apply(c, b, step);
    assert Reserved(c, b, step.slot, b.flight[step.slot]);
    forall x | x in b2.entries ensures LiveSlot(c, b2, x, b2.entries[x]) && Stays(b, b2, x) {
      assert LiveSlot(c, b, x, b.entries[x]);
    }
  }

  lemma CopyFlight(c: Params, b: Bucket, step: Step)
    requires ValidParams(c) && Inv(c, b) && step.Copy? && Enabled(c, b, step)
    ensures FlightSound(c, Apply(c, b, step))
  {
    hide Shows, OneOwner, PunchSound, PendingSound, SyncSound, KeptSound, HistorySound, Disjoint, EntriesSound;
    var b2 := Apply(c, b, step);
    forall s | s in b2.flight ensures Reserved(c, b2, s, b2.flight[s]) {
      assert Reserved(c, b, s, b.flight[s]);
    }
  }

  lemma HistoryKept(c: Params, cells: map<SlotId, Cell>, extents: map<nat, Extent>, extents2: map<nat, Extent>)
    requires HistorySound(c, cells, extents) && KeepsAllocations(extents, extents2)
    ensures HistorySound(c, cells, extents2)
  {
    forall s, i | s in cells && 0 <= i < |cells[s].hist| ensures Allocated(c, extents2, cells[s].hist[i]) {
      assert Allocated(c, extents, cells[s].hist[i]);
    }
  }

  lemma DisjointKept(pages: seq<nat>, extents: map<nat, Extent>, cursor: nat, extents2: map<nat, Extent>)
    requires Disjoint(pages, extents, cursor) && extents2.Keys == extents.Keys && KeepsAllocations(extents, extents2)
    ensures Disjoint(pages, extents2, cursor)
  {
  }

  lemma CopyLayout(c: Params, b: Bucket, step: Step)
    requires ValidParams(c) && Inv(c, b) && step.Copy? && Enabled(c, b, step)
    ensures var b2 := Apply(c, b, step); Disjoint(b2.pages, b2.extents, b2.cursor) && HistorySound(c, b2.cells, b2.extents) && PunchSound(b2)
  {
    hide Disjoint, HistorySound, OneOwner, PendingSound, SyncSound, KeptSound, EntriesSound, FlightSound, Unreachable,
         CellsSound, FreeSound;
    var b2 := Apply(c, b, step);
    HistoryKept(c, b.cells, b.extents, b2.extents);
    DisjointKept(b.pages, b.extents, b.cursor, b2.extents);
  }

  lemma CopyKeepsInv(c: Params, b: Bucket, step: Step)
    requires ValidParams(c) && Inv(c, b) && step.Copy? && Enabled(c, b, step)
    ensures Inv(c, Apply(c, b, step))
  {
    hide Shows, Disjoint, HistorySound, LiveSlot, Reserved, OneOwner, Unreachable, Covered, Durable, RunSound, CoveredSound;
    CopySlots(c, b, step);
    CopyFlight(c, b, step);
    CopyLayout(c, b, step);
    SameLiveKeeps(b, Apply(c, b, step));
  }

  lemma FillSlots(c: Params, b: Bucket, step: Step)
    requires ValidParams(c) && Inv(c, b) && step.Fill? && Enabled(c, b, step)
    ensures var b2 := Apply(c, b, step); EntriesSound(c, b2) && FreeSound(b2) && SameLive(b, b2)
  {
    hide Shows, OneOwner, FlightSound, PunchSound, PendingSound, SyncSound, KeptSound, HistorySound, Disjoint;
    var b2, f := Apply(c, b, step), b.flight[step.slot];
    AppendKeeps(b.cells[step.slot], Record(c, f.offset, f.pos, f.alloc, f.data).(mark := Empty));
    forall x | x in b2.entries ensures LiveSlot(c, b2, x, b2.entries[x]) && Stays(b, b2, x) {
      assert LiveSlot(c, b, x, b.entries[x]);
    }
  }

  lemma FillReserved(c: Params, b: Bucket, step: Step, s: SlotId)
    requires ValidParams(c) && step.Fill? && Enabled(c, b, step) && s in b.flight && Reserved(c, b, s, b.flight[s])
    ensures Reserved(c, Apply(c, b, step), s, Apply(c, b, step).flight[s])
  {
    hide Shows;
    var b2, f := Apply(c, b, step), b.flight[step.slot];
    var v := Record(c, f.offset, f.pos, f.alloc, f.data).(mark := Empty);
    AppendKeeps(b.cells[step.slot], v);
    Unpublished(b.cells, step.slot, v, b2.cells);
  }

  lemma FillFlight(c: Params, b: Bucket, step: Step)
    requires ValidParams(c) && FlightSound(c, b) && step.Fill? && Enabled(c, b, step)
    ensures FlightSound(c, Apply(c, b, step))
  {
    hide Reserved;
    var b2 := Apply(c, b, step);
    forall s | s in b2.flight ensures Reserved(c, b2, s, b2.flight[s]) {
      FillReserved(c, b, step, s);
    }
  }

  lemma FillKeepsInv(c: Params, b: Bucket, step: Step)
    requires ValidParams(c) && Inv(c, b) && step.Fill? && Enabled(c, b, step)
    ensures Inv(c, Apply(c, b, step))
  {
    hide Shows, Disjoint, HistorySound, EntriesSound, FreeSound, FlightSound, OneOwner, Unreachable, KeptSound,
         RunSound, CoveredSound, SameLive, PendingSound;
    var b2, f := Apply(c, b, step), b.flight[step.slot];
    var v := Record(c, f.offset, f.pos, f.alloc, f.data).(mark := Empty);
    FillSlots(c, b, step);
    FillFlight(c, b, step);
    UnpublishedShown(c, b, step.slot, v, b2);
    HistoryAppended(c, b.cells, b.extents, step.slot, v, b.extents);
    SameLiveKeeps(b, b2);
  }

  // ---------- Publication ----------

  /** Publishing at an allocation that nothing shows adds exactly one owner. */
  lemma PublishedShown(c: Params, b: Bucket, s: SlotId, v: Slot, b2: Bucket)
    requires CellsSound(c, b.cells, b.pages) && ShownSound(b) && SyncSound(b)
    requires s in b.cells && v.mark == Published && b2.cells == Write(b, s, v) && b2.punches == b.punches
    requires b2.toPunch == b.toPunch && b2.sync == b.sync
    requires b2.extents == b.extents && v.pos in b.extents && !b.extents[v.pos].body.Punched?
    requires v.pos !in b.punches && v.pos !in b.toPunch && (b.sync.Some? ==> v.pos !in b.sync.value.punches)
    requires forall t :: t in b.cells ==> !Shows(b.cells[t], 0, v.pos)
    ensures ShownSound(b2)
  {
    hide Shows, RunSound;
    forall t, from: nat, p: nat | t in b.cells && from <= |b.cells[t].hist|
      ensures Shows(b2.cells[t], from, p) <==> Shows(b.cells[t], from, p) || (t == s && p == v.pos)
    {
      if t == s {
        ShowsAppended(b.cells[s], v, from, p);
      }
    }
    forall p | p != v.pos && Unreachable(b.cells, p) ensures Unreachable(b2.cells, p) {
      forall t | t in b2.cells ensures !Shows(b2.cells[t], b2.cells[t].lo, p) {
        assert b2.cells[t].lo == b.cells[t].lo;
      }
    }
    forall p, t | p in b2.punches && t in b2.cells ensures !Shows(b2.cells[t], |b2.cells[t].hist| - 1, p) {
      NothingShown(b.cells[t], p);
    }
    if b2.sync.Some? {
      var r := b.sync.value;
      forall p, t | p in r.punches && t in b2.cells ensures !Shows(b2.cells[t], MarkOf(r, t), p) {
        assert !Shows(b.cells[t], MarkOf(r, t), p);
      }
    }
  }

  lemma PublishLive(c: Params, b: Bucket, step: Step, x: nat)
    requires ValidParams(c) && Inv(c, b) && step.Publish? && Enabled(c, b, step)
    ensures var b2 := Apply(c, b, step); x in b2.entries ==> LiveSlot(c, b2, x, b2.entries[x]) && (x in b.entries ==> Stays(b, b2, x))
  {
    hide Shows, OneOwner, PunchSound, PendingSound, SyncSound, KeptSound, HistorySound, Disjoint;
    var f := b.flight[step.slot];
    assert Reserved(c, b, step.slot, f);
    AppendKeeps(b.cells[step.slot], Last(b.cells[step.slot]).(mark := Published));
    if x in b.entries {
      assert LiveSlot(c, b, x, b.entries[x]);
    }
  }

  lemma PublishSlots(c: Params, b: Bucket, step: Step)
    requires ValidParams(c) && Inv(c, b) && step.Publish? && Enabled(c, b, step)
    ensures var b2 := Apply(c, b, step); EntriesSound(c, b2) && FreeSound(b2) && Frame(b, b2) && forall x :: x in b.entries ==> Stays(b, b2, x)
  {
    hide Shows, OneOwner, PunchSound, PendingSound, SyncSound, KeptSound, HistorySound, Disjoint, LiveSlot, Stays,
         CellsSound, Bounds, Known;
    var b2, f := Apply(c, b, step), b.flight[step.slot];
    PublishedLast(c, b, step.slot);
    forall x ensures x in b2.entries ==> LiveSlot(c, b2, x, b2.entries[x]) && (x in b.entries ==> Stays(b, b2, x)) {
      PublishLive(c, b, step, x);
    }
  }

  lemma PublishedLast(c: Params, b: Bucket, s: SlotId)
    requires FlightSound(c, b) && s in b.flight && b.flight[s].filled && s in b.cells
    ensures b.flight[s].offset !in b.entries
    ensures var v := Last(b.cells[s]).(mark := Published); v.offset == b.flight[s].offset && Last(Append(b.cells[s], v)) == v
  {
    assert Reserved(c, b, s, b.flight[s]);
  }

  lemma PublishFlight(c: Params, b: Bucket, step: Step)
    requires ValidParams(c) && Inv(c, b) && step.Publish? && Enabled(c, b, step)
    ensures FlightSound(c, Apply(c, b, step))
  {
    hide Shows, OneOwner, PunchSound, PendingSound, SyncSound, KeptSound, HistorySound, Disjoint, EntriesSound;
    var b2, f := Apply(c, b, step), b.flight[step.slot];
    var v := Last(b.cells[step.slot]).(mark := Published);
    assert Reserved(c, b, step.slot, f);
    forall s | s in b2.flight ensures Reserved(c, b2, s, b2.flight[s]) {
      assert Reserved(c, b, s, b.flight[s]);
      ShowsAppended(b.cells[step.slot], v, 0, b.flight[s].pos);
    }
  }

  lemma PublishKeepsInv(c: Params, b: Bucket, step: Step)
    requires ValidParams(c) && Inv(c, b) && step.Publish? && Enabled(c, b, step)
    ensures Inv(c, Apply(c, b, step))
  {
    hide Shows, Disjoint, HistorySound, LiveSlot, OneOwner, Unreachable, Covered, Durable, CoveredSound, RunSound,
         Stays, KeptSound, FreeSound, PendingSound, EntriesSound;
    var b2, f := Apply(c, b, step), b.flight[step.slot];
    var v := Last(b.cells[step.slot]).(mark := Published);
    assert Reserved(c, b, step.slot, f);
    assert v == Record(c, f.offset, f.pos, f.alloc, f.data);
    PublishSlots(c, b, step);
    PublishFlight(c, b, step);
    PublishedShown(c, b, step.slot, v, b2);
    HistoryAppended(c, b.cells, b.extents, step.slot, v, b.extents);
    PublishKept(c, b, b2);
  }

  lemma PublishKept(c: Params, b: Bucket, b2: Bucket)
    requires KeptSound(b) && SyncSound(b) && Frame(b, b2) && b2.generation == b.generation + 1 && b2.kept == b.kept && b2.sync == b.sync
    requires forall x :: x in b.entries ==> Stays(b, b2, x)
    ensures KeptSound(b2) && (b2.sync.Some? ==> RunSound(b2, b2.sync.value))
  {
    hide Durable, Covered, CoveredSound;
    forall x | x in b.kept ensures x in b.entries {
      KeptIsLive(b, x);
    }
    KeptStays(b, b2);
    if b.sync.Some? {
      forall x | x in b.sync.value.live ensures x in b.entries {
        CoveredIsLive(b, b.sync.value, x);
      }
      RunStays(b, b2, b.sync.value, b.sync.value);
    }
  }

  // ---------- Eviction ----------

  lemma DeleteLive(c: Params, b: Bucket, x: nat, y: nat)
    requires x in b.entries && y in b.entries && x != y && LiveSlot(c, b, x, b.entries[x]) && LiveSlot(c, b, y, b.entries[y])
    ensures LiveSlot(c, Deleting(b, x), y, b.entries[y]) && Stays(b, Deleting(b, x), y)
  {
  }

  lemma DeleteSlots(c: Params, b: Bucket, x: nat)
    requires EntriesSound(c, b) && FreeSound(b) && x in b.entries && b.entries[x] in b.cells
    ensures var b2 := Deleting(b, x); EntriesSound(c, b2) && FreeSound(b2) && Frame(b, b2) && forall y :: y in b.entries && y != x ==> Stays(b, b2, y)
  {
    hide LiveSlot, Stays;
    var b2, s := Deleting(b, x), b.entries[x];
    AppendKeeps(b.cells[s], Last(b.cells[s]).(mark := Deleted));
    LiveIsBusy(c, b, x);
    forall y | y in b2.entries ensures LiveSlot(c, b2, y, b2.entries[y]) && Stays(b, b2, y) {
      DeleteLive(c, b, x, y);
    }
    forall t | t in b2.cells && Last(b2.cells[t]).mark == Published
      ensures Last(b2.cells[t]).offset in b2.entries && b2.entries[Last(b2.cells[t]).offset] == t
    {
      assert t != s;
    }
  }

  lemma LiveIsBusy(c: Params, b: Bucket, x: nat)
    requires x in b.entries && LiveSlot(c, b, x, b.entries[x])
    ensures var s := b.entries[x]; s !in b.free && s !in b.flight && Last(b.cells[s]).mark == Published && Last(b.cells[s]).offset == x
  {
  }

  lemma LiveShows(cell: Cell, p: nat)
    requires cell.hist != [] && Last(cell).mark == Published && Last(cell).pos == p
    ensures Shows(cell, 0, p)
  {
    ShowsLast(cell, p);
    ShowsLater(cell, 0, |cell.hist| - 1, p);
  }

  lemma DeleteFlight(c: Params, b: Bucket, x: nat)
    requires ValidParams(c) && Inv(c, b) && x in b.entries && b.entries[x] in b.cells
    ensures FlightSound(c, Deleting(b, x))
  {
    hide Shows, OneOwner, PunchSound, PendingSound, SyncSound, KeptSound, HistorySound, Disjoint;
    var b2, s := Deleting(b, x), b.entries[x];
    var v := Last(b.cells[s]).(mark := Deleted);
    assert LiveSlot(c, b, x, s);
    LiveShows(b.cells[s], v.pos);
    AppendKeeps(b.cells[s], v);
    Unpublished(b.cells, s, v, b2.cells);
    forall t | t in b2.flight ensures Reserved(c, b2, t, b2.flight[t]) {
      assert Reserved(c, b, t, b.flight[t]);
    }
  }

  /** The evicted allocation is shown by no slot in memory. */
  lemma DeletePending(c: Params, b: Bucket, x: nat)
    requires CellsSound(c, b.cells, b.pages) && OneOwner(b.cells) && PendingSound(b.cells, b.punches)
    requires x in b.entries && LiveSlot(c, b, x, b.entries[x])
    ensures PendingSound(Deleting(b, x).cells, Deleting(b, x).punches)
  {
    hide Shows;
    var b2, s := Deleting(b, x), b.entries[x];
    var v := Last(b.cells[s]).(mark := Deleted);
    LiveShows(b.cells[s], v.pos);
    Unpublished(b.cells, s, v, b2.cells);
    forall p, t | p in b2.punches && t in b2.cells ensures !Shows(b2.cells[t], |b2.cells[t].hist| - 1, p) {
      if t == s {
        AppendKeeps(b.cells[s], v);
        assert b2.cells[s] == Append(b.cells[s], v);
        assert !Shows(b2.cells[s], |b.cells[s].hist|, p);
      } else if p in b.punches {
        assert !Shows(b.cells[t], |b.cells[t].hist| - 1, p);
        assert b2.cells[t] == b.cells[t];
      } else if Shows(b.cells[t], |b.cells[t].hist| - 1, v.pos) {
        ShowsLater(b.cells[t], 0, |b.cells[t].hist| - 1, v.pos);
      }
    }
  }

  lemma DeleteKept(c: Params, b: Bucket, x: nat)
    requires KeptSound(b) && SyncSound(b) && x in b.entries && b.entries[x] in b.cells && Frame(b, Deleting(b, x))
    requires forall y :: y in b.entries && y != x ==> Stays(b, Deleting(b, x), y)
    ensures var b2 := Deleting(b, x); KeptSound(b2) && (b2.sync.Some? ==> RunSound(b2, b2.sync.value))
  {
    hide Durable, Covered, CoveredSound, Stays;
    var b2 := Deleting(b, x);
    forall y | y in b.kept ensures y in b.entries {
      KeptIsLive(b, y);
    }
    KeptStays(b, b2);
    if b.sync.Some? {
      forall y | y in b.sync.value.live ensures y in b.entries {
        CoveredIsLive(b, b.sync.value, y);
      }
      RunStays(b, b2, b.sync.value, b2.sync.value);
    }
  }

  lemma LiveEntry(c: Params, b: Bucket, x: nat)
    requires EntriesSound(c, b) && x in b.entries
    ensures LiveSlot(c, b, x, b.entries[x]) && b.entries[x] in b.cells && Last(b.cells[b.entries[x]]).pos in b.extents
  {
  }

  lemma DeleteKeepsInv(c: Params, b: Bucket, step: Step)
    requires ValidParams(c) && Inv(c, b) && step.Delete? && Enabled(c, b, step)
    ensures Inv(c, Apply(c, b, step))
  {
    hide Shows, Disjoint, HistorySound, LiveSlot, Stays, RunSound, Reserved, OneOwner, Unreachable, Covered, Durable,
         CoveredSound, PendingSound, KeptSound, FlightSound, FreeSound, EntriesSound;
    var x := step.offset;
    var b2, s := Deleting(b, x), b.entries[x];
    var v := Last(b.cells[s]).(mark := Deleted);
    LiveEntry(c, b, x);
    DeleteSlots(c, b, x);
    DeleteFlight(c, b, x);
    DeletePending(c, b, x);
    UnpublishedShown(c, b, s, v, b2.(punches := b.punches));
    HistoryAppended(c, b.cells, b.extents, s, v, b.extents);
    DeleteKept(c, b, x);
  }
}
