/** Exactly when a crash can leave a bucket file that opening or recovery refuses. */
module MirrorRecovery {
  import opened Mirror
  import opened MirrorInv
  import opened MirrorSteps
  import opened MirrorSync
  import opened MirrorCrash

  // ---------- What published versions say ----------

  /** The version is the record of the payload its allocation holds in memory. */
  ghost predicate Tells(c: Params, extents: map<nat, Extent>, v: Slot) {
    v.pos in extents && extents[v.pos].body.Written? && v == Record(c, v.offset, v.pos, extents[v.pos].alloc, extents[v.pos].body.data)
  }

  /** Every published version that may be on disk was right when it was written, and still is. */
  ghost predicate VersionsSound(c: Params, b: Bucket) {
    forall s, i: nat :: MayFind(b, s, i) && b.cells[s].hist[i].mark == Published ==> Tells(c, b.extents, b.cells[s].hist[i])
  }

  ghost predicate Whole(c: Params, b: Bucket) {
    Inv(c, b) && VersionsSound(c, b)
  }

  lemma CreatedWhole(c: Params)
    requires ValidParams(c)
    ensures Whole(c, Created(c))
  {
    hide Inv;
    CreatedSound(c);
  }

  /** A slot gets one more version, and the allocations named so far stay as they were. */
  lemma AppendTells(c: Params, b: Bucket, b2: Bucket, s: SlotId, v: Slot)
    requires VersionsSound(c, b) && s in b.cells && b.cells[s].lo <= |b.cells[s].hist| && b2.cells == Write(b, s, v)
    requires v.mark == Published ==> Tells(c, b2.extents, v)
    requires forall t, i: nat :: MayFind(b, t, i) && b.cells[t].hist[i].mark == Published ==>
      && b.cells[t].hist[i].pos in b.extents && b.cells[t].hist[i].pos in b2.extents
      && b2.extents[b.cells[t].hist[i].pos] == b.extents[b.cells[t].hist[i].pos]
    ensures VersionsSound(c, b2)
  {
    forall t, i: nat | MayFind(b2, t, i) && b2.cells[t].hist[i].mark == Published ensures Tells(c, b2.extents, b2.cells[t].hist[i]) {
      if t != s || i < |b.cells[s].hist| {
        assert MayFind(b, t, i) && b2.cells[t].hist[i] == b.cells[t].hist[i];
        assert Tells(c, b.extents, b.cells[t].hist[i]);
      }
    }
  }

  lemma VersionShows(b: Bucket, s: SlotId, i: nat)
    requires MayFind(b, s, i) && b.cells[s].hist[i].mark == Published
    ensures Shows(b.cells[s], 0, b.cells[s].hist[i].pos) && Shows(b.cells[s], b.cells[s].lo, b.cells[s].hist[i].pos)
  {
  }

  lemma BeginTells(c: Params, b: Bucket, step: Step)
    requires ValidParams(c) && Whole(c, b) && step.Begin? && Enabled(c, b, step)
    ensures VersionsSound(c, Apply(c, b, step))
  {
    hide Shows, OneOwner, EntriesSound, FlightSound, PendingSound, SyncSound, KeptSound, PunchSound, HistorySound;
    var b2, v := Apply(c, b, step), Last(b.cells[step.slot]).(mark := Empty);
    forall t, i: nat | MayFind(b, t, i) && b.cells[t].hist[i].mark == Published
      ensures var p := b.cells[t].hist[i].pos; p in b.extents && p in b2.extents && b2.extents[p] == b.extents[p]
    {
      assert Tells(c, b.extents, b.cells[t].hist[i]);
    }
    AppendTells(c, b, b2, step.slot, v);
  }

  lemma CopyTells(c: Params, b: Bucket, step: Step)
    requires ValidParams(c) && Whole(c, b) && step.Copy? && Enabled(c, b, step)
    ensures VersionsSound(c, Apply(c, b, step))
  {
    hide Shows, OneOwner, EntriesSound, PendingSound, SyncSound, KeptSound, PunchSound, HistorySound, Disjoint;
    var b2, f := Apply(c, b, step), b.flight[step.slot];
    assert Reserved(c, b, step.slot, f);
    forall t, i: nat | MayFind(b2, t, i) && b2.cells[t].hist[i].mark == Published ensures Tells(c, b2.extents, b2.cells[t].hist[i]) {
      assert MayFind(b, t, i);
      VersionShows(b, t, i);
      assert Tells(c, b.extents, b.cells[t].hist[i]);
    }
  }

  lemma SameExtentsTell(c: Params, b: Bucket, b2: Bucket, s: SlotId, v: Slot)
    requires Whole(c, b) && s in b.cells && b2.cells == Write(b, s, v) && b2.extents == b.extents
    requires (v.mark == Published ==> Tells(c, b.extents, v))
    ensures VersionsSound(c, b2)
  {
    hide Shows, OneOwner, EntriesSound, FlightSound, PendingSound, SyncSound, KeptSound, PunchSound, HistorySound, Disjoint;
    forall t, i: nat | MayFind(b, t, i) && b.cells[t].hist[i].mark == Published ensures b.cells[t].hist[i].pos in b.extents {
      assert Tells(c, b.extents, b.cells[t].hist[i]);
    }
    AppendTells(c, b, b2, s, v);
  }

  lemma PublishTells(c: Params, b: Bucket, step: Step)
    requires ValidParams(c) && Whole(c, b) && step.Publish? && Enabled(c, b, step)
    ensures VersionsSound(c, Apply(c, b, step))
  {
    hide Shows, OneOwner, EntriesSound, PendingSound, SyncSound, KeptSound, PunchSound, HistorySound, Disjoint, VersionsSound;
    var f := b.flight[step.slot];
    assert Reserved(c, b, step.slot, f);
    SameExtentsTell(c, b, Apply(c, b, step), step.slot, Last(b.cells[step.slot]).(mark := Published));
  }

  lemma AddPageTells(c: Params, b: Bucket, step: Step)
    requires ValidParams(c) && Whole(c, b) && step.AddPage? && Enabled(c, b, step)
    ensures VersionsSound(c, Apply(c, b, step))
  {
    hide Shows, OneOwner, EntriesSound, FlightSound, PendingSound, SyncSound, KeptSound, PunchSound, HistorySound, Disjoint;
    var b2 := Apply(c, b, step);
    forall t, i: nat | MayFind(b2, t, i) && b2.cells[t].hist[i].mark == Published ensures Tells(c, b2.extents, b2.cells[t].hist[i]) {
      if t !in SlotsOf(c, b.cursor) {
        assert MayFind(b, t, i);
      }
    }
  }

  lemma SyncDoneTells(c: Params, b: Bucket, step: Step)
    requires ValidParams(c) && Whole(c, b) && step.SyncDone? && Enabled(c, b, step)
    ensures VersionsSound(c, Apply(c, b, step))
  {
    hide Inv;
    var b2 := Apply(c, b, step);
    forall t, i: nat | MayFind(b2, t, i) && b2.cells[t].hist[i].mark == Published ensures Tells(c, b2.extents, b2.cells[t].hist[i]) {
      assert MayFind(b, t, i);
      assert Tells(c, b.extents, b.cells[t].hist[i]);
    }
  }

  lemma PunchTells(c: Params, b: Bucket, step: Step)
    requires ValidParams(c) && Whole(c, b) && step.Punch? && Enabled(c, b, step)
    ensures VersionsSound(c, Apply(c, b, step))
  {
    hide Shows, OneOwner, EntriesSound, FlightSound, PendingSound, SyncSound, KeptSound, HistorySound, Disjoint;
    var b2 := Apply(c, b, step);
    forall t, i: nat | MayFind(b2, t, i) && b2.cells[t].hist[i].mark == Published ensures Tells(c, b2.extents, b2.cells[t].hist[i]) {
      assert MayFind(b, t, i);
      VersionShows(b, t, i);
      assert Unreachable(b.cells, step.pos);
    }
  }

  lemma CrashTells(c: Params, b: Bucket, m: Image, b2: Bucket)
    requires Inv(c, b) && Possible(c, b, m) && Starts(c, m) && Reopened(m, b2)
    ensures VersionsSound(c, b2)
  {
    hide Inv, Possible, SameEntries, SameContents, Content;
    forall s, i: nat | MayFind(b2, s, i) && b2.cells[s].hist[i].mark == Published ensures Tells(c, b2.extents, b2.cells[s].hist[i]) {
      IntactIsRecord(c, b, m, s);
    }
  }

  lemma StepKeepsWhole(c: Params, b: Bucket, step: Step)
    requires ValidParams(c) && Whole(c, b) && Enabled(c, b, step)
    ensures Whole(c, Apply(c, b, step))
  {
    hide Inv, VersionsSound, Enabled, Apply;
    StepKeepsInv(c, b, step);
    match step
    case Begin(_, _, _) => BeginTells(c, b, step);
    case Copy(_) => CopyTells(c, b, step);
    case Fill(_) => FillTells(c, b, step);
    case Publish(_) => PublishTells(c, b, step);
    case AddPage => AddPageTells(c, b, step);
    case Delete(_) => DeleteTells(c, b, step);
    case SyncDone => SyncDoneTells(c, b, step);
    case Punch(_) => PunchTells(c, b, step);
    case _ => OtherTells(c, b, step);
  }

  lemma FillTells(c: Params, b: Bucket, step: Step)
    requires ValidParams(c) && Whole(c, b) && step.Fill? && Enabled(c, b, step)
    ensures VersionsSound(c, Apply(c, b, step))
  {
    hide Whole, VersionsSound;
    var f := b.flight[step.slot];
    SameExtentsTell(c, b, Apply(c, b, step), step.slot, Record(c, f.offset, f.pos, f.alloc, f.data).(mark := Empty));
  }

  lemma DeleteTells(c: Params, b: Bucket, step: Step)
    requires ValidParams(c) && Whole(c, b) && step.Delete? && Enabled(c, b, step)
    ensures VersionsSound(c, Apply(c, b, step))
  {
    hide Whole, VersionsSound;
    var s := b.entries[step.offset];
    SameExtentsTell(c, b, Apply(c, b, step), s, Last(b.cells[s]).(mark := Deleted));
  }

  lemma OtherTells(c: Params, b: Bucket, step: Step)
    requires ValidParams(c) && Whole(c, b) && Enabled(c, b, step)
    requires step.Grow? || step.Remove? || step.SyncStart? || step.SyncFail? || step.PunchFail? || step.Crash?
    ensures VersionsSound(c, Apply(c, b, step))
  {
    hide Inv, VersionsSound, Possible, Starts, Reopened;
    if step.Remove? {
      CreatedWhole(c);
    } else if step.Crash? {
      CrashTells(c, b, step.image, step.after);
    } else {
      SameBucketTells(c, b, Apply(c, b, step));
    }
  }

  lemma SameBucketTells(c: Params, b: Bucket, b2: Bucket)
    requires VersionsSound(c, b) && b2.cells == b.cells && b2.extents == b.extents
    ensures VersionsSound(c, b2)
  {
    forall t, i: nat | MayFind(b2, t, i) && b2.cells[t].hist[i].mark == Published ensures Tells(c, b2.extents, b2.cells[t].hist[i]) {
      assert MayFind(b, t, i);
    }
  }

  lemma {:induction false} RunKeepsWhole(c: Params, b: Bucket, steps: seq<Step>, last: Bucket)
    requires ValidParams(c) && Whole(c, b) && Runs(c, b, steps, last)
    ensures Whole(c, last)
    decreases |steps|
  {
    hide Whole, Enabled, Apply;
    if steps != [] {
      StepKeepsWhole(c, b, steps[0]);
      RunKeepsWhole(c, Apply(c, b, steps[0]), steps[1..], last);
    }
  }

  // ---------- When a crash can make the file unreadable ----------

  ghost predicate CollisionFree(c: Params) {
    forall o, p, n, a, x, y :: |x| == |y| == n && c.crc(o, p, n, a, x) == c.crc(o, p, n, a, y) ==> x == y
  }

  /** A slot may be found published whose payload need not have reached the disk. */
  ghost predicate Torn(b: Bucket) {
    exists s, i: nat :: MayFind(b, s, i) && Exposed(b, b.cells[s].hist[i])
  }

  ghost predicate Exposed(b: Bucket, v: Slot) {
    v.mark == Published && v.size > 0 && v.pos in b.extents && !b.extents[v.pos].durable
  }

  /** A page, or a slot that may be found published, lies beyond the length known to be on disk. */
  ghost predicate Short(b: Bucket) {
    || (exists q :: q in b.pages && b.sizeLo < q + 1)
    || exists s, i: nat :: MayFind(b, s, i) && Beyond(b, b.cells[s].hist[i])
  }

  ghost predicate Beyond(b: Bucket, v: Slot) {
    v.mark == Published && b.sizeLo < v.pos + v.alloc
  }

  function OtherBytes(data: Bytes): (r: Bytes)
    requires data != []
    ensures |r| == |data| && r != data
  {
    assert data[0] + 1 != data[0];
    data[0 := data[0] + 1]
  }

  /** Version i of slot s, everything else as in memory, at a given length and with given bytes
      at allocation p. */
  ghost function ImageAt(c: Params, b: Bucket, s: SlotId, i: nat, size: nat, p: nat, bytes: Bytes): Image
    requires MayFind(b, s, i)
  {
    Image(size, b.pages, map u | u in b.cells :: if u == s then b.cells[s].hist[i] else Last(b.cells[u]),
          map q | q in b.extents ::
            (if q == p then bytes else if b.extents[q].body.Written? then b.extents[q].body.data else []) + seq(b.extents[q].alloc * c.block, _ => 0))
  }

  lemma ImageAtPossible(c: Params, b: Bucket, s: SlotId, i: nat, size: nat, p: nat, bytes: Bytes)
    requires Inv(c, b) && MayFind(b, s, i) && b.sizeLo <= size <= b.size
    requires p in b.extents && b.extents[p].durable && b.extents[p].body.Written? ==> b.extents[p].body.data <= bytes
    ensures Possible(c, b, ImageAt(c, b, s, i, size, p, bytes))
  {
    hide Shows, OneOwner, EntriesSound, FlightSound, PendingSound, SyncSound, KeptSound, PunchSound, HistorySound, Disjoint;
    var m := ImageAt(c, b, s, i, size, p, bytes);
    assert m.pages == b.pages[..|b.pages|];
    forall u | u in m.slots ensures OnDisk(b.cells[u], m.slots[u]) {
      LastOnDisk(b.cells[u]);
    }
  }

  lemma TornRefuses(c: Params, b: Bucket) returns (m: Image)
    requires Whole(c, b) && CollisionFree(c) && Torn(b)
    ensures Possible(c, b, m) && !ChecksumsMatch(c, m)
  {
    hide Inv, OnDisk, VersionsSound, Possible;
    var s, i: nat :| MayFind(b, s, i) && Exposed(b, b.cells[s].hist[i]);
    var v := b.cells[s].hist[i];
    VersionTells(c, b, s, i);
    SizesBound(c, b);
    var other := OtherBytes(b.extents[v.pos].body.data);
    m := ImageAt(c, b, s, i, b.size, v.pos, other);
    ImageAtPossible(c, b, s, i, b.size, v.pos, other);
    OtherContent(c, b, s, i, b.size, v.pos, other);
    assert !Intact(c, m, m.slots[s]) by { BytesMatter(c, v.offset, v.pos, v.size, v.alloc, other, b.extents[v.pos].body.data); }
  }

  lemma VersionTells(c: Params, b: Bucket, s: SlotId, i: nat)
    requires VersionsSound(c, b) && MayFind(b, s, i) && b.cells[s].hist[i].mark == Published
    ensures Tells(c, b.extents, b.cells[s].hist[i])
  {
  }

  lemma OtherContent(c: Params, b: Bucket, s: SlotId, i: nat, size: nat, p: nat, bytes: Bytes)
    requires MayFind(b, s, i) && p in b.extents && b.cells[s].hist[i].pos == p && b.cells[s].hist[i].size == |bytes|
    ensures var m := ImageAt(c, b, s, i, size, p, bytes); s in m.slots && m.slots[s] == b.cells[s].hist[i] && Content(m, m.slots[s]) == bytes
  {
    var m := ImageAt(c, b, s, i, size, p, bytes);
    assert m.bytes[p] == bytes + seq(b.extents[p].alloc * c.block, _ => 0);
  }

  lemma BytesMatter(c: Params, o: nat, p: nat, n: nat, a: nat, x: Bytes, y: Bytes)
    requires CollisionFree(c) && |x| == |y| == n && x != y
    ensures c.crc(o, p, n, a, x) != c.crc(o, p, n, a, y)
  {
  }

  lemma SizesBound(c: Params, b: Bucket)
    requires Inv(c, b)
    ensures b.sizeLo <= b.size && b.pages != []
  {
  }

  lemma ShortRefuses(c: Params, b: Bucket) returns (m: Image)
    requires ValidParams(c) && Whole(c, b) && Short(b)
    ensures Possible(c, b, m) && !Fits(m)
  {
    hide Inv, OnDisk;
    SizesBound(c, b);
    if s, i: nat :| MayFind(b, s, i) && Beyond(b, b.cells[s].hist[i]) {
      m := ImageAt(c, b, s, i, b.sizeLo, 0, if 0 in b.extents && b.extents[0].body.Written? then b.extents[0].body.data else []);
      ImageAtPossible(c, b, s, i, b.sizeLo, 0, if 0 in b.extents && b.extents[0].body.Written? then b.extents[0].body.data else []);
      assert m.slots[s] == b.cells[s].hist[i];
    } else {
      var q :| q in b.pages && b.sizeLo < q + 1;
      var s, i := SomeSlot(c, b, q);
      m := ImageAt(c, b, s, i, b.sizeLo, 0, if 0 in b.extents && b.extents[0].body.Written? then b.extents[0].body.data else []);
      ImageAtPossible(c, b, s, i, b.sizeLo, 0, if 0 in b.extents && b.extents[0].body.Written? then b.extents[0].body.data else []);
      assert q in m.pages;
    }
  }

  lemma SomeSlot(c: Params, b: Bucket, q: nat) returns (s: SlotId, i: nat)
    requires ValidParams(c) && Inv(c, b) && q in b.pages
    ensures MayFind(b, s, i)
  {
    hide Shows, OneOwner, EntriesSound, FlightSound, PendingSound, SyncSound, KeptSound, PunchSound, HistorySound, Disjoint;
    s := SlotId(q, 1);
    assert s in b.cells;
    i := b.cells[s].lo;
  }

  lemma TwiceRefuses(c: Params, b: Bucket) returns (m: Image)
    requires Inv(c, b) && StoredTwice(b)
    ensures Possible(c, b, m) && !NoDuplicates(m)
  {
    hide Inv, Possible, NoDuplicates, StoredTwice;
    DuplicateIffStoredTwice(c, b);
    m :| Possible(c, b, m) && !NoDuplicates(m);
  }

  /** A payload that is on disk matches its checksum. */
  lemma DurableIntact(c: Params, b: Bucket, m: Image, s: SlotId, i: nat)
    requires Whole(c, b) && Possible(c, b, m) && s in m.slots && MayFind(b, s, i) && b.cells[s].hist[i] == m.slots[s]
    requires m.slots[s].mark == Published
    requires !Exposed(b, m.slots[s])
    ensures Intact(c, m, m.slots[s])
  {
    hide Inv, OnDisk;
    var v := m.slots[s];
    assert Tells(c, b.extents, v);
    assert Content(m, v) == b.extents[v.pos].body.data;
  }

  lemma RefusedNames(c: Params, b: Bucket, m: Image)
    requires Whole(c, b) && Possible(c, b, m) && !Starts(c, m)
    ensures StoredTwice(b) || Torn(b) || Short(b)
  {
    hide Inv, Exposed, StoredTwice, Possible, Intact;
    if !NoDuplicates(m) {
      DuplicateIffStoredTwice(c, b);
    } else if !Fits(m) {
      UnfitIsShort(c, b, m);
    } else {
      var s :| s in m.slots && m.slots[s].mark == Published && !Intact(c, m, m.slots[s]);
      var i := FoundVersion(c, b, m, s);
      assert MayFind(b, s, i);
      if !Exposed(b, m.slots[s]) {
        DurableIntact(c, b, m, s, i);
      }
    }
  }

  lemma UnfitIsShort(c: Params, b: Bucket, m: Image)
    requires Possible(c, b, m) && !Fits(m)
    ensures Short(b)
  {
    PagesPrefix(c, b, m);
    if q :| q in m.pages && m.size < q + 1 {
      assert q in b.pages;
    } else {
      var s :| s in m.slots && m.slots[s].mark == Published && m.size < m.slots[s].pos + m.slots[s].alloc;
      var i := FoundVersion(c, b, m, s);
      assert MayFind(b, s, i) && Beyond(b, b.cells[s].hist[i]);
    }
  }

  /** A crash can leave a file that opening or recovery refuses exactly when an effect was stored
      twice, a payload may be missing, or the length may be short, since the last sync. */
  lemma RefusedIff(c: Params, b: Bucket)
    requires ValidParams(c) && Whole(c, b) && CollisionFree(c)
    ensures (exists m :: Possible(c, b, m) && !Starts(c, m)) <==> StoredTwice(b) || Torn(b) || Short(b)
  {
    hide Possible, Fits, NoDuplicates, ChecksumsMatch, StoredTwice, Torn, Short, VersionsSound, Inv;
    if StoredTwice(b) {
      var m := TwiceRefuses(c, b);
    } else if Torn(b) {
      var m := TornRefuses(c, b);
    } else if Short(b) {
      var m := ShortRefuses(c, b);
    }
    if m :| Possible(c, b, m) && !Starts(c, m) {
      RefusedNames(c, b, m);
    }
  }

  /** From creation on: a record once synced and not evicted since is recovered with its bytes by
      every restart that is not refused, and no restart is refused unless one of the three holds. */
  lemma SyncedRecovers(c: Params, before: seq<Step>, b: Bucket, after: seq<Step>, last: Bucket, x: nat, m: Image, b2: Bucket)
    requires ValidParams(c) && Runs(c, Created(c), before, b) && Runs(c, b, after, last) && x in b.kept && Delete(x) !in after
    requires Possible(c, last, m)
    ensures !StoredTwice(last) && !Torn(last) && !Short(last) ==> Starts(c, m)
    ensures Starts(c, m) && Reopened(m, b2) ==> x in b2.kept && b2.kept[x] == b.kept[x]
  {
    hide Whole, Runs, Possible, Starts, Reopened, StoredTwice, Torn, Short;
    CreatedWhole(c);
    RunKeepsWhole(c, Created(c), before, b);
    RunKeepsWhole(c, b, after, last);
    WholeSound(c, b);
    WholeSound(c, last);
    KeptThrough(c, b, after, last, x);
    if !Starts(c, m) {
      RefusedNames(c, last, m);
    } else if Reopened(m, b2) {
      CrashKeepsKept(c, last, m, b2, x);
    }
  }

  lemma WholeSound(c: Params, b: Bucket)
    requires Whole(c, b)
    ensures Inv(c, b)
  {
    hide Inv;
  }

  lemma {:induction false} KeptThrough(c: Params, b: Bucket, steps: seq<Step>, last: Bucket, x: nat)
    requires ValidParams(c) && Inv(c, b) && Runs(c, b, steps, last) && x in b.kept && Delete(x) !in steps
    ensures x in last.kept && last.kept[x] == b.kept[x]
    decreases |steps|
  {
    hide Inv, Enabled, Apply;
    if steps != [] {
      StepKeepsInv(c, b, steps[0]);
      StepKeepsKept(c, b, steps[0], x);
      KeptThrough(c, Apply(c, b, steps[0]), steps[1..], last, x);
    }
  }
}
