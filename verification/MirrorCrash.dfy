/** Crashes: what is found on disk, what reopening gives back, and what every run keeps. */
module MirrorCrash {
  import opened Mirror
  import opened MirrorInv
  import opened MirrorSteps
  import opened MirrorSync

  // ---------- What can be on disk ----------

  lemma FoundVersion(c: Params, b: Bucket, m: Image, s: SlotId) returns (i: nat)
    requires Possible(c, b, m) && s in m.slots
    ensures s in b.cells && b.cells[s].lo <= i < |b.cells[s].hist| && b.cells[s].hist[i] == m.slots[s]
  {
    assert OnDisk(b.cells[s], m.slots[s]);
    i :| b.cells[s].lo <= i < |b.cells[s].hist| && b.cells[s].hist[i] == m.slots[s];
  }

  /** A slot found published names an allocation that no reclaiming has touched or is about to. */
  lemma PublishedIsUnpunched(c: Params, b: Bucket, m: Image, s: SlotId)
    requires Inv(c, b) && Possible(c, b, m) && s in m.slots && m.slots[s].mark == Published
    ensures var v := m.slots[s]; v.pos in b.extents && b.extents[v.pos].alloc == v.alloc && v.size <= v.alloc * c.block
    ensures var v := m.slots[s]; !b.extents[v.pos].body.Punched? && v.pos !in b.toPunch
    ensures s in b.cells && Shows(b.cells[s], 0, m.slots[s].pos)
  {
    hide OneOwner, EntriesSound, FlightSound, PendingSound, SyncSound, KeptSound, Disjoint;
    var i := FoundVersion(c, b, m, s);
    assert Allocated(c, b.extents, b.cells[s].hist[i]);
    assert Shows(b.cells[s], b.cells[s].lo, m.slots[s].pos);
  }

  /** Two slots found published never share an allocation. */
  lemma PublishedApart(c: Params, b: Bucket, m: Image, s: SlotId, t: SlotId)
    requires Inv(c, b) && Possible(c, b, m) && s in m.slots && t in m.slots && m.slots[s].mark == Published && m.slots[t].mark == Published
    requires m.slots[s].pos == m.slots[t].pos
    ensures s == t
  {
    hide Shows, EntriesSound, FlightSound, PendingSound, SyncSound, KeptSound, Disjoint, PunchSound, Possible;
    PublishedIsUnpunched(c, b, m, s);
    PublishedIsUnpunched(c, b, m, t);
  }

  /** A record that a completed sync covered, and that was not evicted since, is on disk, whole. */
  lemma KeptIsFound(c: Params, b: Bucket, m: Image, x: nat)
    requires Inv(c, b) && Possible(c, b, m) && x in b.kept
    ensures x in b.entries && Holds(m, b.entries[x], x)
    ensures var v := m.slots[b.entries[x]]; Content(m, v) == b.kept[x] && Intact(c, m, v) && v.pos + v.alloc <= m.size
  {
    hide Shows, OneOwner, FlightSound, PendingSound, SyncSound, Disjoint, PunchSound, HistorySound;
    assert Durable(b, x, b.kept[x]);
    var s := b.entries[x];
    LiveEntry(c, b, x);
    var n :| b.pagesLo <= n <= |b.pages| && m.pages == b.pages[..n];
    var j :| 0 <= j < b.pagesLo && b.pages[j] == s.page;
    assert m.pages[j] == s.page;
    var i := FoundVersion(c, b, m, s);
    assert m.slots[s] == Last(b.cells[s]);
  }

  // ---------- Reopening ----------

  lemma ReopenedLayout(c: Params, b: Bucket, m: Image, b2: Bucket)
    requires Inv(c, b) && Possible(c, b, m) && Starts(c, m) && Reopened(m, b2)
    ensures CellsSound(c, b2.cells, b2.pages) && Bounds(b2)
  {
    hide Shows, OneOwner, EntriesSound, FlightSound, PendingSound, SyncSound, KeptSound, Disjoint, PunchSound,
         HistorySound, SameEntries, SameExtents, SameContents, Starts;
    var n :| b.pagesLo <= n <= |b.pages| && m.pages == b.pages[..n];
    forall s ensures s in b2.cells <==> s.page in b2.pages && 1 <= s.index <= c.perPage {
      assert s.page in m.pages ==> s.page in b.pages;
    }
  }

  lemma ReopenedExtent(c: Params, b: Bucket, m: Image, b2: Bucket, p: nat)
    requires Inv(c, b) && Possible(c, b, m) && Fits(m) && SameExtents(m, b2) && p in b2.extents
    ensures p in b.extents && b2.extents[p].alloc == b.extents[p].alloc && p + b2.extents[p].alloc <= m.size
    ensures b2.extents[p].body.Written? && b2.extents[p].durable
  {
    hide Shows, Inv, Possible;
    var s :| s in m.slots && m.slots[s].mark == Published && m.slots[s].pos == p;
    PublishedIsUnpunched(c, b, m, s);
  }

  lemma PagesPrefix(c: Params, b: Bucket, m: Image)
    requires Possible(c, b, m)
    ensures m.pages <= b.pages
  {
    hide OnDisk;
  }

  /** New allocations start behind everything found, and what is found does not overlap. */
  lemma ReopenedDisjoint(c: Params, b: Bucket, m: Image, b2: Bucket)
    requires Inv(c, b) && Possible(c, b, m) && Fits(m) && SameExtents(m, b2)
    ensures Disjoint(m.pages, b2.extents, m.size)
  {
    PagesPrefix(c, b, m);
    forall p | p in b2.extents ensures p in b.extents && b2.extents[p].alloc == b.extents[p].alloc && p + b2.extents[p].alloc <= m.size {
      ReopenedExtent(c, b, m, b2, p);
    }
    DisjointSmaller(b.pages, b.extents, b.cursor, m, b2.extents);
  }

  lemma DisjointSmaller(pages: seq<nat>, extents: map<nat, Extent>, cursor: nat, m: Image, extents2: map<nat, Extent>)
    requires Disjoint(pages, extents, cursor) && m.pages <= pages && Fits(m)
    requires forall p :: p in extents2 ==> p in extents && extents2[p].alloc == extents[p].alloc && p + extents2[p].alloc <= m.size
    ensures Disjoint(m.pages, extents2, m.size)
  {
    forall q | q in m.pages ensures q in pages {
    }
    forall i, j | 0 <= i < j < |m.pages| ensures m.pages[i] < m.pages[j] {
      assert m.pages[i] == pages[i] && m.pages[j] == pages[j];
    }
  }

  lemma OneVersion(v: Slot, from: nat, p: nat)
    ensures Shows(Cell([v], 0), from, p) <==> from == 0 && v.mark == Published && v.pos == p
    ensures Last(Cell([v], 0)) == v && Steady(Cell([v], 0), 0, v)
  {
    assert [v][0] == v;
  }

  lemma ReopenedHistory(c: Params, b: Bucket, m: Image, b2: Bucket)
    requires Inv(c, b) && Possible(c, b, m) && Reopened(m, b2)
    ensures HistorySound(c, b2.cells, b2.extents) && OneOwner(b2.cells)
  {
    hide Shows, Inv, Possible, SameEntries, SameContents;
    forall s, i | s in b2.cells && 0 <= i < |b2.cells[s].hist| ensures Allocated(c, b2.extents, b2.cells[s].hist[i]) {
      if m.slots[s].mark == Published {
        PublishedIsUnpunched(c, b, m, s);
      }
    }
    forall s, t, p | s in b2.cells && t in b2.cells && Shows(b2.cells[s], 0, p) && Shows(b2.cells[t], 0, p) ensures s == t {
      OneVersion(m.slots[s], 0, p);
      OneVersion(m.slots[t], 0, p);
      PublishedApart(c, b, m, s, t);
    }
  }

  /** A published slot whose checksum matches is a whole record. */
  lemma IntactIsRecord(c: Params, b: Bucket, m: Image, s: SlotId)
    requires Inv(c, b) && Possible(c, b, m) && s in m.slots && m.slots[s].mark == Published && Intact(c, m, m.slots[s])
    ensures var v := m.slots[s]; v == Record(c, v.offset, v.pos, v.alloc, Content(m, v))
  {
    hide Inv, Shows, OnDisk;
    PublishedIsUnpunched(c, b, m, s);
  }

  lemma ReopenedLive(c: Params, b: Bucket, m: Image, b2: Bucket, x: nat)
    requires Inv(c, b) && Possible(c, b, m) && Starts(c, m) && Reopened(m, b2) && x in b2.entries
    ensures LiveSlot(c, b2, x, b2.entries[x])
  {
    hide Inv, Shows, Possible;
    var s := b2.entries[x];
    assert Holds(m, s, x);
    IntactIsRecord(c, b, m, s);
    OneVersion(m.slots[s], 0, 0);
  }

  lemma ReopenedEntries(c: Params, b: Bucket, m: Image, b2: Bucket)
    requires Inv(c, b) && Possible(c, b, m) && Starts(c, m) && Reopened(m, b2)
    ensures EntriesSound(c, b2) && FreeSound(b2)
  {
    hide Inv, Shows, Possible, LiveSlot, SameExtents, SameContents, ChecksumsMatch, Fits;
    forall x | x in b2.entries ensures LiveSlot(c, b2, x, b2.entries[x]) {
      ReopenedLive(c, b, m, b2, x);
    }
    forall s | s in b2.cells ensures Last(b2.cells[s]) == m.slots[s] {
      OneVersion(m.slots[s], 0, 0);
    }
    forall s | s in b2.cells && Last(b2.cells[s]).mark == Published
      ensures Last(b2.cells[s]).offset in b2.entries && b2.entries[Last(b2.cells[s]).offset] == s
    {
      assert Holds(m, b2.entries[m.slots[s].offset], m.slots[s].offset);
    }
  }

  lemma ReopenedRecord(m: Image, b2: Bucket, x: nat)
    requires Reopened(m, b2) && x in b2.kept
    ensures x in b2.entries && Holds(m, b2.entries[x], x)
    ensures var s := b2.entries[x]; s in b2.cells && b2.cells[s] == Cell([m.slots[s]], 0) && b2.kept[x] == Content(m, m.slots[s])
    ensures var v := m.slots[b2.entries[x]]; v.pos in b2.extents && b2.extents[v.pos] == Extent(v.alloc, Written(b2.kept[x]), true)
  {
    hide Content;
    assert Holds(m, b2.entries[x], x);
  }

  lemma ReopenedDurable(c: Params, b: Bucket, m: Image, b2: Bucket, x: nat)
    requires Possible(c, b, m) && Fits(m) && Reopened(m, b2) && x in b2.kept
    ensures Durable(b2, x, b2.kept[x])
  {
    hide Possible, Steady, SameEntries, SameExtents, SameContents, Content;
    ReopenedRecord(m, b2, x);
    var s := b2.entries[x];
    SlotOnPage(c, b, m, s);
    OneVersion(m.slots[s], 0, 0);
    assert m.pages[..|m.pages|] == m.pages;
  }

  lemma SlotOnPage(c: Params, b: Bucket, m: Image, s: SlotId)
    requires Possible(c, b, m) && s in m.slots
    ensures s.page in m.pages
  {
    hide OnDisk;
  }

  /** Everything recovered is durable. */
  lemma ReopenedKept(c: Params, b: Bucket, m: Image, b2: Bucket)
    requires Possible(c, b, m) && Fits(m) && Reopened(m, b2)
    ensures KeptSound(b2)
  {
    hide Possible, Durable, SameEntries, SameExtents, Fits;
    forall x | x in b2.kept ensures Durable(b2, x, b2.kept[x]) {
      ReopenedDurable(c, b, m, b2, x);
    }
  }

  lemma CrashKeepsInv(c: Params, b: Bucket, m: Image, b2: Bucket)
    requires Inv(c, b) && Possible(c, b, m) && Starts(c, m) && Reopened(m, b2)
    ensures Inv(c, b2)
  {
    hide Disjoint, HistorySound, OneOwner, CellsSound, EntriesSound, KeptSound, Possible, SameContents, SameEntries;
    ReopenedLayout(c, b, m, b2);
    ReopenedDisjoint(c, b, m, b2);
    ReopenedHistory(c, b, m, b2);
    ReopenedEntries(c, b, m, b2);
    ReopenedKept(c, b, m, b2);
    forall p | p in b2.extents ensures b2.extents[p].body.Written? {
      ReopenedExtent(c, b, m, b2, p);
    }
  }

  /** A crash loses nothing that was kept. */
  lemma CrashKeepsKept(c: Params, b: Bucket, m: Image, b2: Bucket, x: nat)
    requires Inv(c, b) && Possible(c, b, m) && Starts(c, m) && Reopened(m, b2) && x in b.kept
    ensures x in b2.kept && b2.kept[x] == b.kept[x]
  {
    hide Inv, Possible, SameExtents;
    KeptIsFound(c, b, m, x);
    var s := b.entries[x];
    assert Holds(m, b2.entries[x], x);
    assert b2.entries[x] == s;
  }

  // ---------- Every run ----------

  lemma StepKeepsInv(c: Params, b: Bucket, step: Step)
    requires ValidParams(c) && Inv(c, b) && Enabled(c, b, step)
    ensures Inv(c, Apply(c, b, step))
  {
    hide Inv;
    match step
    case Begin(_, _, _) => BeginKeepsInv(c, b, step);
    case Copy(_) => CopyKeepsInv(c, b, step);
    case Fill(_) => FillKeepsInv(c, b, step);
    case Publish(_) => PublishKeepsInv(c, b, step);
    case Grow(_) => GrowKeepsInv(c, b, step);
    case AddPage => AddPageKeepsInv(c, b, step);
    case Delete(_) => DeleteKeepsInv(c, b, step);
    case Remove => CreatedSound(c);
    case SyncStart => SyncStartKeepsInv(c, b, step);
    case SyncFail => SyncFailKeepsInv(c, b, step);
    case SyncDone => SyncDoneKeepsInv(c, b, step);
    case Punch(_) => PunchKeepsInv(c, b, step);
    case PunchFail => PunchFailKeepsInv(c, b, step);
    case Crash(m, after) => CrashKeepsInv(c, b, m, after);
  }

  ghost predicate Runs(c: Params, b: Bucket, steps: seq<Step>, last: Bucket)
    requires ValidParams(c)
    decreases |steps|
  {
    if steps == [] then b == last else Enabled(c, b, steps[0]) && Runs(c, Apply(c, b, steps[0]), steps[1..], last)
  }

  lemma {:induction false} RunKeepsInv(c: Params, b: Bucket, steps: seq<Step>, last: Bucket)
    requires ValidParams(c) && Inv(c, b) && Runs(c, b, steps, last)
    ensures Inv(c, last)
    decreases |steps|
  {
    hide Inv, Enabled, Apply;
    if steps != [] {
      StepKeepsInv(c, b, steps[0]);
      RunKeepsInv(c, Apply(c, b, steps[0]), steps[1..], last);
    }
  }

  /** Only evicting x itself ends the promise to keep it. */
  lemma StepKeepsKept(c: Params, b: Bucket, step: Step, x: nat)
    requires ValidParams(c) && Inv(c, b) && Enabled(c, b, step) && x in b.kept && step != Delete(x)
    ensures x in Apply(c, b, step).kept && Apply(c, b, step).kept[x] == b.kept[x]
  {
    hide Inv, Possible, Starts, Reopened;
    KeptEntry(c, b, x);
    match step
    case Crash(m, after) => CrashKeepsKept(c, b, m, after, x);
    case _ =>
  }

  lemma KeptEntry(c: Params, b: Bucket, x: nat)
    requires Inv(c, b) && x in b.kept
    ensures x in b.entries && Payload(b, x) == b.kept[x]
  {
    assert Durable(b, x, b.kept[x]);
  }

  /** Through any further writes, evictions of other effects, syncs, reclaiming and restarts, a
      record once synced is on disk, whole, in every crash image until it is evicted itself. */
  lemma {:induction false} SyncedSurvives(c: Params, b: Bucket, steps: seq<Step>, last: Bucket, x: nat, m: Image)
    requires ValidParams(c) && Inv(c, b) && Runs(c, b, steps, last) && x in b.kept && Delete(x) !in steps
    requires Possible(c, last, m)
    ensures exists s :: Holds(m, s, x) && Content(m, m.slots[s]) == b.kept[x] && Intact(c, m, m.slots[s])
    decreases |steps|
  {
    hide Inv, Enabled, Apply, Possible, Intact;
    if steps == [] {
      KeptIsFound(c, b, m, x);
    } else {
      StepKeepsInv(c, b, steps[0]);
      StepKeepsKept(c, b, steps[0], x);
      SyncedSurvives(c, Apply(c, b, steps[0]), steps[1..], last, x, m);
    }
  }

  /** When nothing is dirty, which is when a sync returns at once, everything live is kept. */
  lemma CleanIsKept(c: Params, b: Bucket, x: nat)
    requires Inv(c, b) && b.generation == b.synced && x in b.entries
    ensures x in b.kept && b.kept[x] == Payload(b, x)
  {
    hide Durable, EntriesSound, FlightSound, SyncSound;
    KeptEntry(c, b, x);
  }

  // ---------- When recovery succeeds ----------

  /** No slot was given up after the last sync. */
  ghost predicate NoRecentTombstone(b: Bucket) {
    forall s, i :: s in b.cells && b.cells[s].lo <= i < |b.cells[s].hist| && b.cells[s].hist[i].mark == Published ==>
      Last(b.cells[s]) == b.cells[s].hist[i]
  }

  /** Two slots can be found with the same effect only if one was given up after the last sync. */
  lemma NoTombstoneNoDuplicates(c: Params, b: Bucket, m: Image)
    requires Inv(c, b) && Possible(c, b, m) && NoRecentTombstone(b)
    ensures NoDuplicates(m)
  {
    hide Shows, OneOwner, FlightSound, PendingSound, SyncSound, KeptSound, Disjoint, PunchSound, HistorySound;
    forall s, t | s in m.slots && t in m.slots && s != t && m.slots[s].mark == Published && m.slots[t].mark == Published
      ensures m.slots[s].offset != m.slots[t].offset
    {
      var i := FoundVersion(c, b, m, s);
      var j := FoundVersion(c, b, m, t);
      assert Last(b.cells[s]) == m.slots[s] && Last(b.cells[t]) == m.slots[t];
    }
  }

  /** A file whose length is durable holds all its pages and allocations. */
  lemma DurableLengthFits(c: Params, b: Bucket, m: Image)
    requires Inv(c, b) && Possible(c, b, m) && b.sizeLo == b.size
    ensures Fits(m)
  {
    hide Shows, OneOwner, EntriesSound, FlightSound, PendingSound, SyncSound, KeptSound, PunchSound, HistorySound;
    PagesPrefix(c, b, m);
    forall q | q in m.pages ensures q + 1 <= m.size {
      assert q in b.pages;
    }
    forall s | s in m.slots && m.slots[s].mark == Published ensures m.slots[s].pos + m.slots[s].alloc <= m.size {
      PublishedIsUnpunched(c, b, m, s);
    }
  }

  // ---------- When a crash can make the file unreadable ----------

  /** Slot s may be found with version i. */
  ghost predicate MayFind(b: Bucket, s: SlotId, i: nat) {
    s in b.cells && b.cells[s].lo <= i < |b.cells[s].hist|
  }

  /** Since the last sync two slots have been published for one effect. */
  ghost predicate StoredTwice(b: Bucket) {
    exists s: SlotId, t: SlotId, i: nat, j: nat :: s != t && MayFind(b, s, i) && MayFind(b, t, j)
      && b.cells[s].hist[i].mark == Published && b.cells[t].hist[j].mark == Published && b.cells[s].hist[i].offset == b.cells[t].hist[j].offset
  }

  /** Everything as in memory, except for two slots. */
  ghost function ImageWith(c: Params, b: Bucket, s: SlotId, i: nat, t: SlotId, j: nat): Image
    requires MayFind(b, s, i) && MayFind(b, t, j)
  {
    Image(b.size, b.pages, map u | u in b.cells :: if u == s then b.cells[s].hist[i] else if u == t then b.cells[t].hist[j] else Last(b.cells[u]),
          map p | p in b.extents :: (if b.extents[p].body.Written? then b.extents[p].body.data else []) + seq(b.extents[p].alloc * c.block, _ => 0))
  }

  lemma ImageWithPossible(c: Params, b: Bucket, s: SlotId, i: nat, t: SlotId, j: nat)
    requires Inv(c, b) && MayFind(b, s, i) && MayFind(b, t, j) && s != t
    ensures Possible(c, b, ImageWith(c, b, s, i, t, j))
  {
    hide Shows, OneOwner, EntriesSound, FlightSound, PendingSound, SyncSound, KeptSound, PunchSound, HistorySound, Disjoint;
    var m := ImageWith(c, b, s, i, t, j);
    assert m.pages == b.pages[..|b.pages|];
    forall u | u in m.slots ensures OnDisk(b.cells[u], m.slots[u]) {
      LastOnDisk(b.cells[u]);
    }
    forall p | p in b.extents ensures |m.bytes[p]| >= b.extents[p].alloc * c.block {
    }
  }

  lemma LastOnDisk(cell: Cell)
    requires cell.lo < |cell.hist|
    ensures OnDisk(cell, Last(cell))
  {
    assert cell.hist[|cell.hist| - 1] == Last(cell);
  }

  /** A crash can leave a duplicate exactly when two slots were published for one effect since
      the last sync. */
  lemma DuplicateIffStoredTwice(c: Params, b: Bucket)
    requires Inv(c, b)
    ensures StoredTwice(b) <==> exists m :: Possible(c, b, m) && !NoDuplicates(m)
  {
    hide Inv;
    if StoredTwice(b) {
      var s: SlotId, t: SlotId, i: nat, j: nat :| s != t && MayFind(b, s, i) && MayFind(b, t, j)
        && b.cells[s].hist[i].mark == Published && b.cells[t].hist[j].mark == Published && b.cells[s].hist[i].offset == b.cells[t].hist[j].offset;
      ImageWithPossible(c, b, s, i, t, j);
      var m := ImageWith(c, b, s, i, t, j);
      assert m.slots[s] == b.cells[s].hist[i] && m.slots[t] == b.cells[t].hist[j];
    }
    if m :| Possible(c, b, m) && !NoDuplicates(m) {
      var s, t :| s in m.slots && t in m.slots && s != t
        && m.slots[s].mark == Published && m.slots[t].mark == Published && m.slots[s].offset == m.slots[t].offset;
      var i := FoundVersion(c, b, m, s);
      var j := FoundVersion(c, b, m, t);
      assert MayFind(b, s, i) && MayFind(b, t, j);
    }
  }
}
