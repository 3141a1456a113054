/** A crash after which recovery refuses the bucket: another effect's slot has reached the disk and
    its payload has not, so a record that was synced long before is not given back either. */
module MirrorTornExample {
  import opened Effects
  import opened Mirror
  import opened MirrorInv
  import opened MirrorCrash
  import opened MirrorExample
  import opened MirrorRecovery

  /** The checksum is the first byte. */
  function FirstByte(): Params {
    Params(1, 2, (offset: nat, pos: nat, size: nat, alloc: nat, data: Bytes) => if data == [] then 0 else data[0] as nat)
  }

  function Room(): Bucket {
    Created(FirstByte()).(size := 8)
  }

  function Seven(): Bucket {
    Stored(FirstByte(), Room(), 7, [1], SLOT_A)
  }

  function Running(): Bucket {
    Seven().(sync := Some(Started(Seven())), punches := {})
  }

  function Safe(): Bucket {
    Synced(Running(), Started(Seven()))
  }

  function Eight(): Bucket {
    Stored(FirstByte(), Safe(), 8, [2], SLOT_B)
  }

  /** Both slots published, and the second payload not there. */
  function Half(): Image {
    Image(8, [1], map[SLOT_A := Record(FirstByte(), 7, 2, 1, [1]), SLOT_B := Record(FirstByte(), 8, 3, 1, [2])], map[2 := [1], 3 := [0]])
  }

  lemma RoomHas()
    ensures var b := Room(); b.cells.Keys == {SLOT_A, SLOT_B} == b.free && b.cells[SLOT_A] == b.cells[SLOT_B] == Cell([ZERO_SLOT], 0)
  {
    forall i | 1 <= i <= 2 ensures SlotId(1, i) in {SLOT_A, SLOT_B} {
    }
    assert Blocks(FirstByte(), 1) == 1;
  }

  lemma SevenHolds()
    ensures var b := Seven();
      && b.cells.Keys == {SLOT_A, SLOT_B} && b.entries == map[7 := SLOT_A] && b.free == {SLOT_B} && b.cursor == 3 && b.flight == map[]
      && |b.cells[SLOT_A].hist| == 4 && b.cells[SLOT_A].lo == 0 && b.cells[SLOT_A].hist[3] == Record(FirstByte(), 7, 2, 1, [1])
      && b.cells[SLOT_B] == Cell([ZERO_SLOT], 0) && b.extents == map[2 := Extent(1, Written([1]), false)]
      && b.sync == None && b.toPunch == {} && b.punches == {} && b.generation == 1
      && b.synced == 0 && b.size == 8 && b.kept == map[] && b.pages == [1]
  {
    RoomHas();
    assert Blocks(FirstByte(), 1) == 1;
  }

  lemma SafeHolds()
    ensures var b := Safe();
      && b.cells.Keys == {SLOT_A, SLOT_B} && b.entries == map[7 := SLOT_A] && b.free == {SLOT_B} && b.cursor == 3 && b.flight == map[]
      && |b.cells[SLOT_A].hist| == 4 && b.cells[SLOT_A].lo == 3 && b.cells[SLOT_A].hist[3] == Record(FirstByte(), 7, 2, 1, [1])
      && b.cells[SLOT_B] == Cell([ZERO_SLOT], 0) && b.extents == map[2 := Extent(1, Written([1]), true)]
      && b.size == b.sizeLo == 8 && b.kept == map[7 := [1]] && b.pages == [1] && b.pagesLo == 1
  {
    hide Seven;
    SevenHolds();
  }

  lemma EightHolds()
    ensures var b := Eight();
      && b.cells.Keys == {SLOT_A, SLOT_B} && b.size == b.sizeLo == 8 && b.pages == [1] && b.pagesLo == 1 && b.kept == map[7 := [1]]
      && |b.cells[SLOT_A].hist| == 4 && b.cells[SLOT_A].lo == 3 && b.cells[SLOT_A].hist[3] == Record(FirstByte(), 7, 2, 1, [1])
      && |b.cells[SLOT_B].hist| == 4 && b.cells[SLOT_B].lo == 0 && b.cells[SLOT_B].hist[3] == Record(FirstByte(), 8, 3, 1, [2])
      && (forall i :: 0 <= i < 3 ==> b.cells[SLOT_B].hist[i].mark == Empty)
      && b.extents == map[2 := Extent(1, Written([1]), true), 3 := Extent(1, Written([2]), false)]
  {
    hide Safe;
    SafeHolds();
    assert Blocks(FirstByte(), 1) == 1;
  }

  lemma SyncedRun() returns (steps: seq<Step>)
    ensures Runs(FirstByte(), Created(FirstByte()), steps, Safe())
  {
    hide Runs, Safe, Seven, Synced, Started;
    var c := FirstByte();
    RoomHas();
    SevenHolds();
    assert Blocks(c, 1) == 1;
    steps := NoSteps(c, Safe());
    assert Apply(c, Running(), SyncDone) == Safe() by { SafeIs(); }
    RunsOn(c, Running(), SyncDone, steps, Safe());
    steps := [SyncDone] + steps;
    RunsOn(c, Seven(), SyncStart, steps, Safe());
    steps := [SyncStart] + steps;
    assert Seven() == Stored(c, Room(), 7, [1], SLOT_A) by { SevenIs(); }
    StoringRuns(c, Room(), 7, [1], SLOT_A, steps, Safe());
    steps := Storing(7, [1], SLOT_A) + steps;
    RunsOn(c, Created(c), Grow(8), steps, Safe());
    steps := [Grow(8)] + steps;
  }

  lemma SafeIs()
    ensures Safe() == Synced(Running(), Started(Seven()))
  {
  }

  lemma SevenIs()
    ensures Seven() == Stored(FirstByte(), Room(), 7, [1], SLOT_A)
  {
  }

  lemma FurtherRun() returns (steps: seq<Step>)
    ensures Runs(FirstByte(), Safe(), steps, Eight()) && Delete(7) !in steps
  {
    hide Runs, Safe;
    SafeHolds();
    assert Blocks(FirstByte(), 1) == 1;
    steps := NoSteps(FirstByte(), Eight());
    StoringRuns(FirstByte(), Safe(), 8, [2], SLOT_B, steps, Eight());
    steps := Storing(8, [2], SLOT_B) + steps;
  }

  /** Effect 7 is promised and not evicted, no effect is stored twice and everything fits, and yet
      the file is refused, because effect 8 is torn. */
  lemma TornAway() returns (before: seq<Step>, after: seq<Step>)
    ensures Runs(FirstByte(), Created(FirstByte()), before, Safe()) && 7 in Safe().kept
    ensures Runs(FirstByte(), Safe(), after, Eight()) && Delete(7) !in after
    ensures Possible(FirstByte(), Eight(), Half()) && NoDuplicates(Half()) && Fits(Half()) && !Starts(FirstByte(), Half())
    ensures Torn(Eight()) && !StoredTwice(Eight()) && !Short(Eight())
  {
    hide Runs, Safe, Eight, Torn, StoredTwice, Short, Possible, Starts, Fits, NoDuplicates;
    before := SyncedRun();
    after := FurtherRun();
    SafeHolds();
    HalfIsPossible();
    HalfIsRefused();
    EightIsTorn();
  }

  lemma HalfIsPossible()
    ensures Possible(FirstByte(), Eight(), Half())
  {
    hide Eight;
    EightHolds();
    var b, m := Eight(), Half();
    assert m.pages == b.pages[..1];
    forall s | s in m.slots ensures OnDisk(b.cells[s], m.slots[s]) {
      assert b.cells[s].hist[3] == m.slots[s];
    }
  }

  lemma HalfIsRefused()
    ensures NoDuplicates(Half()) && Fits(Half()) && !Starts(FirstByte(), Half())
  {
    var m := Half();
    assert Content(m, m.slots[SLOT_B]) == [0];
    assert !Intact(FirstByte(), m, m.slots[SLOT_B]);
  }

  lemma EightIsTorn()
    ensures Torn(Eight()) && !StoredTwice(Eight()) && !Short(Eight())
  {
    hide Eight;
    EightHolds();
    var b := Eight();
    assert MayFind(b, SLOT_B, 3) && Exposed(b, b.cells[SLOT_B].hist[3]);
    forall s, i: nat | MayFind(b, s, i) && b.cells[s].hist[i].mark == Published ensures i == 3 {
    }
  }
}
