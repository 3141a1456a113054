/** What every step of the mirror keeps. */
module MirrorInv {
  import opened Effects
  import opened Mirror

  // ---------- Slot histories ----------

  /** From version `from` on, the slot has been published at p. */
  ghost predicate Shows(cell: Cell, from: nat, p: nat) {
    exists i :: from <= i < |cell.hist| && cell.hist[i].mark == Published && cell.hist[i].pos == p
  }

  /** From version `from` on, the slot has held exactly v. */
  ghost predicate Steady(cell: Cell, from: nat, v: Slot) {
    from < |cell.hist| && forall i :: from <= i < |cell.hist| ==> cell.hist[i] == v
  }

  lemma ShowsAppended(cell: Cell, v: Slot, from: nat, p: nat)
    requires from <= |cell.hist|
    ensures Shows(Append(cell, v), from, p) <==> Shows(cell, from, p) || (v.mark == Published && v.pos == p)
  {
    var a := Append(cell, v);
    if Shows(cell, from, p) {
      var i :| from <= i < |cell.hist| && cell.hist[i].mark == Published && cell.hist[i].pos == p;
      assert a.hist[i] == cell.hist[i];
    }
    assert a.hist[|cell.hist|] == v;
  }

  lemma ShowsLater(cell: Cell, from: nat, later: nat, p: nat)
    requires from <= later && Shows(cell, later, p)
    ensures Shows(cell, from, p)
  {
  }

  lemma ShowsLast(cell: Cell, p: nat)
    requires cell.hist != []
    ensures Shows(cell, |cell.hist| - 1, p) <==> Last(cell).mark == Published && Last(cell).pos == p
  {
  }

  // ---------- Layout ----------

  ghost predicate CellsSound(c: Params, cells: map<SlotId, Cell>, pages: seq<nat>) {
    && (forall s :: s in cells <==> s.page in pages && 1 <= s.index <= c.perPage)
    && forall s :: s in cells ==> cells[s].lo < |cells[s].hist|
  }

  /** Pages and allocations own disjoint blocks below the cursor. */
  ghost predicate Disjoint(pages: seq<nat>, extents: map<nat, Extent>, cursor: nat) {
    && (forall q :: q in pages ==> q < cursor)
    && (forall p :: p in extents ==> extents[p].alloc >= 1 && p + extents[p].alloc <= cursor)
    && (forall p, r :: p in extents && r in extents && p < r ==> p + extents[p].alloc <= r)
    && (forall q, p :: q in pages && p in extents ==> q < p || p + extents[p].alloc <= q)
    && forall i, j :: 0 <= i < j < |pages| ==> pages[i] < pages[j]
  }

  ghost predicate Bounds(b: Bucket) {
    1 <= b.pagesLo <= |b.pages| && b.sizeLo <= b.size && b.cursor <= b.size
  }

  /** A published version names an allocation that holds it. */
  ghost predicate Allocated(c: Params, extents: map<nat, Extent>, v: Slot) {
    v.mark == Published ==> v.pos in extents && v.alloc == extents[v.pos].alloc && v.size <= v.alloc * c.block
  }

  ghost predicate HistorySound(c: Params, cells: map<SlotId, Cell>, extents: map<nat, Extent>) {
    forall s, i :: s in cells && 0 <= i < |cells[s].hist| ==> Allocated(c, extents, cells[s].hist[i])
  }

  /** An allocation is published through one slot only. */
  ghost predicate OneOwner(cells: map<SlotId, Cell>) {
    forall s, t, p :: s in cells && t in cells && Shows(cells[s], 0, p) && Shows(cells[t], 0, p) ==> s == t
  }

  // ---------- Live, free and reserved slots ----------

  ghost predicate LiveSlot(c: Params, b: Bucket, x: nat, s: SlotId) {
    && s in b.cells && s !in b.free && s !in b.flight
    && var v := Last(b.cells[s]);
      v.pos in b.extents && b.extents[v.pos].body.Written? && v == Record(c, x, v.pos, b.extents[v.pos].alloc, b.extents[v.pos].body.data)
  }

  ghost predicate EntriesSound(c: Params, b: Bucket) {
    && (forall x :: x in b.entries ==> LiveSlot(c, b, x, b.entries[x]))
    && forall s :: s in b.cells && Last(b.cells[s]).mark == Published ==>
      Last(b.cells[s]).offset in b.entries && b.entries[Last(b.cells[s]).offset] == s
  }

  ghost predicate FreeSound(b: Bucket) {
    forall s :: s in b.free ==> s in b.cells && Last(b.cells[s]).mark != Published && s !in b.flight
  }

  /** A reservation's allocation is its own and not yet visible anywhere. */
  ghost predicate Reserved(c: Params, b: Bucket, s: SlotId, f: Flight) {
    && s in b.cells && Last(b.cells[s]).mark == Empty && f.offset !in b.entries
    && f.pos in b.extents && b.extents[f.pos].alloc == f.alloc && |f.data| <= f.alloc * c.block
    && b.extents[f.pos].body == (if f.copied then Written(f.data) else Blank)
    && (f.filled ==> f.copied && Last(b.cells[s]) == Record(c, f.offset, f.pos, f.alloc, f.data).(mark := Empty))
    && f.pos !in b.punches && f.pos !in b.toPunch && (b.sync.Some? ==> f.pos !in b.sync.value.punches)
    && forall t :: t in b.cells ==> !Shows(b.cells[t], 0, f.pos)
  }

  ghost predicate FlightSound(c: Params, b: Bucket) {
    && (forall s :: s in b.flight ==> Reserved(c, b, s, b.flight[s]))
    && forall s, t :: s in b.flight && t in b.flight && s != t ==> b.flight[s].pos != b.flight[t].pos && b.flight[s].offset != b.flight[t].offset
  }

  // ---------- Reclaimed space ----------

  /** No slot can be found on disk published at a punched allocation. */
  ghost predicate Unreachable(cells: map<SlotId, Cell>, p: nat) {
    forall s :: s in cells ==> !Shows(cells[s], cells[s].lo, p)
  }

  ghost predicate PunchSound(b: Bucket) {
    && (forall p :: p in b.toPunch ==> Unreachable(b.cells, p))
    && forall p :: p in b.extents && b.extents[p].body.Punched? ==> Unreachable(b.cells, p)
  }

  /** Space waiting for a sync is unpublished in memory. */
  ghost predicate PendingSound(cells: map<SlotId, Cell>, punches: set<nat>) {
    forall p, s :: p in punches && s in cells && cells[s].hist != [] ==> !Shows(cells[s], |cells[s].hist| - 1, p)
  }

  ghost predicate Known(b: Bucket) {
    b.punches <= b.extents.Keys && b.toPunch <= b.extents.Keys && (b.sync.Some? ==> b.sync.value.punches <= b.extents.Keys)
  }

  function MarkOf(r: SyncRun, s: SlotId): nat {
    if s in r.marks then r.marks[s] else 0
  }

  /** A running sync covers slots that are already unpublished. */
  ghost predicate CoveredSound(cells: map<SlotId, Cell>, r: SyncRun) {
    && (forall s :: s in r.marks ==> s in cells && r.marks[s] < |cells[s].hist|)
    && forall p, s :: p in r.punches && s in cells ==> !Shows(cells[s], MarkOf(r, s), p)
  }

  // ---------- Durable records ----------

  ghost predicate OnPages(b: Bucket, n: nat, s: SlotId) {
    n <= |b.pages| && s.page in b.pages[..n]
  }

  /** The record has been in place since the sync began. */
  ghost predicate Covered(b: Bucket, r: SyncRun, x: nat) {
    && x in b.entries && x in r.live && b.entries[x] == r.live[x] && r.live[x] in r.marks && r.live[x] in b.cells
    && var s := r.live[x];
      var v := Last(b.cells[s]);
      Steady(b.cells[s], r.marks[s], v) && v.pos in r.written && OnPages(b, r.pages, s) && v.pos + v.alloc <= r.size
  }

  ghost predicate RunSound(b: Bucket, r: SyncRun) {
    && b.sizeLo <= r.size <= b.size && b.pagesLo <= r.pages <= |b.pages| && b.synced <= r.gen <= b.generation
    && (forall p :: p in r.written ==> p in b.extents && b.extents[p].body.Written?)
    && (forall x :: x in r.live ==> Covered(b, r, x))
    && (r.gen == b.generation ==> b.entries.Keys <= r.live.Keys)
  }

  ghost predicate SyncSound(b: Bucket) {
    b.sync.Some? ==> CoveredSound(b.cells, b.sync.value) && RunSound(b, b.sync.value) && b.toPunch == {}
  }

  /** Every version that can be on disk is the record, and its bytes are on disk. */
  ghost predicate Durable(b: Bucket, x: nat, data: Bytes) {
    && x in b.entries && b.entries[x] in b.cells
    && var s := b.entries[x];
      var v := Last(b.cells[s]);
      Steady(b.cells[s], b.cells[s].lo, v) && v.pos in b.extents && b.extents[v.pos].body == Written(data) && b.extents[v.pos].durable
      && OnPages(b, b.pagesLo, s) && v.pos + v.alloc <= b.sizeLo
  }

  ghost predicate KeptSound(b: Bucket) {
    && (forall x :: x in b.kept ==> Durable(b, x, b.kept[x]))
    && b.synced <= b.generation && (b.synced == b.generation ==> b.entries.Keys <= b.kept.Keys)
  }

  ghost predicate Inv(c: Params, b: Bucket) {
    && CellsSound(c, b.cells, b.pages) && Disjoint(b.pages, b.extents, b.cursor) && Bounds(b)
    && HistorySound(c, b.cells, b.extents) && OneOwner(b.cells)
    && EntriesSound(c, b) && FreeSound(b) && FlightSound(c, b)
    && Known(b) && PunchSound(b) && PendingSound(b.cells, b.punches) && SyncSound(b) && KeptSound(b)
  }

  lemma CreatedSound(c: Params)
    requires ValidParams(c)
    ensures Inv(c, Created(c))
  {
  }
}
