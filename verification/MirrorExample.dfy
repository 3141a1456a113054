/** A crash after which the bucket refuses to open: an effect is evicted and stored again through
    another slot, and the disk keeps the first slot's older value beside the second's newer one. */
module MirrorExample {
  import opened Mirror
  import opened MirrorInv
  import opened MirrorCrash

  /** The four stores of one publication. */
  function Storing(x: nat, data: Bytes, s: SlotId): seq<Step> {
    [Begin(x, data, s), Copy(s), Fill(s), Publish(s)]
  }

  function Stored(c: Params, b: Bucket, x: nat, data: Bytes, s: SlotId): Bucket
    requires ValidParams(c) && s in b.cells
  {
    var n := Blocks(c, |data|);
    var v := Record(c, x, b.cursor, n, data);
    b.(free := b.free - {s}, cursor := b.cursor + n, generation := b.generation + 1, entries := b.entries[x := s],
       extents := b.extents[b.cursor := Extent(n, Written(data), false)],
       cells := b.cells[s := Cell(b.cells[s].hist + [Last(b.cells[s]).(mark := Empty), v.(mark := Empty), v], b.cells[s].lo)])
  }

  /** The bucket just before publication. */
  function Filled(c: Params, b: Bucket, x: nat, data: Bytes, s: SlotId): Bucket
    requires ValidParams(c) && s in b.cells
  {
    var n := Blocks(c, |data|);
    b.(free := b.free - {s}, cursor := b.cursor + n, flight := b.flight[s := Flight(x, b.cursor, n, data, true, true)],
       extents := b.extents[b.cursor := Extent(n, Written(data), false)],
       cells := b.cells[s := Append(Append(b.cells[s], Last(b.cells[s]).(mark := Empty)), Record(c, x, b.cursor, n, data).(mark := Empty))])
  }

  lemma FillingRuns(c: Params, b: Bucket, x: nat, data: Bytes, s: SlotId, steps: seq<Step>, last: Bucket)
    requires ValidParams(c) && Enabled(c, b, Begin(x, data, s)) && Runs(c, Filled(c, b, x, data, s), steps, last)
    ensures Runs(c, b, [Begin(x, data, s)] + ([Copy(s)] + ([Fill(s)] + steps)), last)
  {
    hide Runs, Filled, Copied;
    FillFills(c, b, x, data, s);
    RunsOn(c, Copied(c, b, x, data, s), Fill(s), steps, last);
    CopyingRuns(c, b, x, data, s, [Fill(s)] + steps, last);
  }

  /** The bucket once the payload is in place. */
  function Copied(c: Params, b: Bucket, x: nat, data: Bytes, s: SlotId): Bucket
    requires ValidParams(c) && s in b.cells
  {
    var n := Blocks(c, |data|);
    b.(free := b.free - {s}, cursor := b.cursor + n, flight := b.flight[s := Flight(x, b.cursor, n, data, true, false)],
       extents := b.extents[b.cursor := Extent(n, Written(data), false)], cells := Write(b, s, Last(b.cells[s]).(mark := Empty)))
  }

  lemma FillFills(c: Params, b: Bucket, x: nat, data: Bytes, s: SlotId)
    requires ValidParams(c) && s in b.cells
    ensures Enabled(c, Copied(c, b, x, data, s), Fill(s)) && Apply(c, Copied(c, b, x, data, s), Fill(s)) == Filled(c, b, x, data, s)
  {
  }

  lemma CopyingRuns(c: Params, b: Bucket, x: nat, data: Bytes, s: SlotId, steps: seq<Step>, last: Bucket)
    requires ValidParams(c) && Enabled(c, b, Begin(x, data, s)) && Runs(c, Copied(c, b, x, data, s), steps, last)
    ensures Runs(c, b, [Begin(x, data, s)] + ([Copy(s)] + steps), last)
  {
    hide Runs;
    var b1 := Apply(c, b, Begin(x, data, s));
    assert Apply(c, b1, Copy(s)) == Copied(c, b, x, data, s);
    RunsOn(c, b1, Copy(s), steps, last);
    RunsOn(c, b, Begin(x, data, s), [Copy(s)] + steps, last);
  }

  lemma PublishStores(c: Params, b: Bucket, x: nat, data: Bytes, s: SlotId)
    requires ValidParams(c) && s in b.cells && b.flight == map[]
    ensures Enabled(c, Filled(c, b, x, data, s), Publish(s)) && Apply(c, Filled(c, b, x, data, s), Publish(s)) == Stored(c, b, x, data, s)
  {
    var h, e, v := b.cells[s].hist, Last(b.cells[s]).(mark := Empty), Record(c, x, b.cursor, Blocks(c, |data|), data);
    assert h + [e] + [v.(mark := Empty)] + [v] == h + [e, v.(mark := Empty), v];
    assert Apply(c, Filled(c, b, x, data, s), Publish(s)).flight == map[];
  }

  lemma StoringRuns(c: Params, b: Bucket, x: nat, data: Bytes, s: SlotId, steps: seq<Step>, last: Bucket)
    requires ValidParams(c) && Enabled(c, b, Begin(x, data, s)) && b.flight == map[] && Runs(c, Stored(c, b, x, data, s), steps, last)
    ensures Runs(c, b, Storing(x, data, s) + steps, last)
  {
    hide Runs, Filled, Stored, Apply;
    PublishStores(c, b, x, data, s);
    RunsOn(c, Filled(c, b, x, data, s), Publish(s), steps, last);
    FillingRuns(c, b, x, data, s, [Publish(s)] + steps, last);
    assert Storing(x, data, s) + steps == [Begin(x, data, s)] + ([Copy(s)] + ([Fill(s)] + ([Publish(s)] + steps)));
  }

  lemma RunsOn(c: Params, b: Bucket, step: Step, steps: seq<Step>, last: Bucket)
    requires ValidParams(c) && Enabled(c, b, step) && Runs(c, Apply(c, b, step), steps, last)
    ensures Runs(c, b, [step] + steps, last)
  {
    hide Enabled, Apply;
    assert ([step] + steps)[1..] == steps;
  }

  // ---------- The run ----------

  const SLOT_A := SlotId(1, 1)
  const SLOT_B := SlotId(1, 2)

  function Setting(): Params {
    Params(1, 2, (offset: nat, pos: nat, size: nat, alloc: nat, data: Bytes) => 0)
  }

  function Grown(): Bucket {
    Created(Setting()).(size := 8)
  }

  function First(): Bucket {
    Stored(Setting(), Grown(), 7, [1], SLOT_A)
  }

  function Evicted(): Bucket {
    Deleting(First(), 7)
  }

  function Reused(): Bucket {
    Stored(Setting(), Evicted(), 8, [2], SLOT_A)
  }

  function Again(): Bucket {
    Stored(Setting(), Reused(), 7, [3], SLOT_B)
  }

  /** The first slot as it was before the eviction, the second as it is now. */
  function Survived(): Image {
    Image(8, [1], map[SLOT_A := Record(Setting(), 7, 2, 1, [1]), SLOT_B := Record(Setting(), 7, 4, 1, [3])], map[2 := [1], 3 := [2], 4 := [3]])
  }

  lemma SlotsAre()
    ensures SlotsOf(Setting(), 1) == {SLOT_A, SLOT_B}
  {
    forall i | 1 <= i <= 2 ensures SlotId(1, i) in {SLOT_A, SLOT_B} {
    }
  }

  /** What the final state holds. */
  lemma AgainHolds()
    ensures var b := Again();
      && b.size == 8 && b.sizeLo == 2 && b.pages == [1] && b.pagesLo == 1 && b.cells.Keys == {SLOT_A, SLOT_B}
      && b.cells[SLOT_A].lo == 0 && |b.cells[SLOT_A].hist| > 3 && b.cells[SLOT_A].hist[3] == Record(Setting(), 7, 2, 1, [1])
      && b.cells[SLOT_B].lo == 0 && |b.cells[SLOT_B].hist| > 3 && b.cells[SLOT_B].hist[3] == Record(Setting(), 7, 4, 1, [3])
      && b.extents == map[2 := Extent(1, Written([1]), false), 3 := Extent(1, Written([2]), false), 4 := Extent(1, Written([3]), false)]
  {
    SlotsAre();
    assert Blocks(Setting(), 1) == 1;
  }

  lemma TheRun() returns (steps: seq<Step>)
    ensures Runs(Setting(), Created(Setting()), steps, Again())
  {
    hide Runs;
    SlotsAre();
    var c := Setting();
    assert Blocks(c, 1) == 1;
    steps := NoSteps(c, Again());
    StoringRuns(c, Reused(), 7, [3], SLOT_B, steps, Again());
    steps := Storing(7, [3], SLOT_B) + steps;
    StoringRuns(c, Evicted(), 8, [2], SLOT_A, steps, Again());
    steps := Storing(8, [2], SLOT_A) + steps;
    RunsOn(c, First(), Delete(7), steps, Again());
    steps := [Delete(7)] + steps;
    StoringRuns(c, Grown(), 7, [1], SLOT_A, steps, Again());
    steps := Storing(7, [1], SLOT_A) + steps;
    RunsOn(c, Created(c), Grow(8), steps, Again());
    steps := [Grow(8)] + steps;
  }

  lemma NoSteps(c: Params, b: Bucket) returns (steps: seq<Step>)
    requires ValidParams(c)
    ensures steps == [] && Runs(c, b, steps, b)
  {
    steps := [];
  }

  /** The image can be found after a crash, and it is refused because both slots hold effect 7. */
  lemma Refused() returns (steps: seq<Step>)
    ensures Runs(Setting(), Created(Setting()), steps, Again()) && Possible(Setting(), Again(), Survived())
    ensures !NoDuplicates(Survived()) && !Starts(Setting(), Survived())
  {
    hide Runs, Again;
    steps := TheRun();
    AgainHolds();
    var b, m := Again(), Survived();
    assert m.pages == b.pages[..1];
    forall s | s in m.slots ensures OnDisk(b.cells[s], m.slots[s]) {
      assert b.cells[s].hist[3] == m.slots[s];
    }
    assert m.slots[SLOT_A].offset == m.slots[SLOT_B].offset;
  }
}
