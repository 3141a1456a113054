/** One bucket file of the local effect mirror (durability/store.go): concurrent publication,
    eviction, syncing, hole punching and crash recovery. Positions count allocation blocks. */
module Mirror {
  import opened Effects

  type Bytes = seq<bv8>

  /** `crc` is the checksum over a record's metadata and payload; `block` is in bytes. */
  datatype Params = Params(block: nat, perPage: nat, crc: (nat, nat, nat, nat, Bytes) -> nat)

  datatype Mark = Empty | Published | Deleted

  /** A slot of a table-of-contents page. */
  datatype Slot = Slot(mark: Mark, offset: nat, pos: nat, size: nat, alloc: nat, sum: nat)

  const ZERO_SLOT := Slot(Empty, 0, 0, 0, 0, 0)

  datatype SlotId = SlotId(page: nat, index: nat)

  /** Everything a slot has held in memory since the file was opened. The disk holds one of the
      values from `lo` on. */
  datatype Cell = Cell(hist: seq<Slot>, lo: nat)

  datatype Body = Blank | Written(data: Bytes) | Punched

  /** An allocation. Its bytes are on disk once `durable`. */
  datatype Extent = Extent(alloc: nat, body: Body, durable: bool)

  /** A publication in progress. */
  datatype Flight = Flight(offset: nat, pos: nat, alloc: nat, data: Bytes, copied: bool, filled: bool)

  /** What a running sync covers: the state at its start. */
  datatype SyncRun = SyncRun(marks: map<SlotId, nat>, written: set<nat>, size: nat, pages: nat, punches: set<nat>, gen: nat, live: map<nat, SlotId>)

  /** `kept` records what completed syncs have promised to keep. */
  datatype Bucket = Bucket(
    size: nat, sizeLo: nat, pages: seq<nat>, pagesLo: nat, cells: map<SlotId, Cell>, extents: map<nat, Extent>, cursor: nat,
    entries: map<nat, SlotId>, free: set<SlotId>, flight: map<SlotId, Flight>,
    punches: set<nat>, sync: Option<SyncRun>, toPunch: set<nat>, generation: nat, synced: nat, kept: map<nat, Bytes>)

  predicate ValidParams(c: Params) {
    c.block >= 1 && c.perPage >= 1
  }

  /** Blocks owned by a payload of n bytes; an empty payload owns one. */
  function Blocks(c: Params, n: nat): (r: nat)
    requires ValidParams(c)
    ensures r >= 1 && n <= r * c.block
  {
    var m := if n == 0 then 1 else n;
    var r := (m + c.block - 1) / c.block;
    DivideUp(m, c.block);
    r
  }

  lemma DivideUp(m: nat, b: nat)
    requires m >= 1 && b >= 1
    ensures (m + b - 1) / b >= 1 && m <= (m + b - 1) / b * b
  {
    var q, r := (m + b - 1) / b, (m + b - 1) % b;
    assert m + b - 1 == q * b + r && r < b;
    assert q >= 1 by {
      assert q * b >= 1;
    }
  }

  function SlotsOf(c: Params, page: nat): set<SlotId> {
    set i | 1 <= i <= c.perPage :: SlotId(page, i)
  }

  function Record(c: Params, offset: nat, pos: nat, alloc: nat, data: Bytes): Slot {
    Slot(Published, offset, pos, |data|, alloc, c.crc(offset, pos, |data|, alloc, data))
  }

  function Last(cell: Cell): Slot {
    if cell.hist == [] then ZERO_SLOT else cell.hist[|cell.hist| - 1]
  }

  function Append(cell: Cell, v: Slot): Cell {
    Cell(cell.hist + [v], cell.lo)
  }

  /** A newly created file: a header block and one page. */
  function Created(c: Params): Bucket {
    Bucket(2, 2, [1], 1, map s | s in SlotsOf(c, 1) :: Cell([ZERO_SLOT], 0), map[], 2, map[], SlotsOf(c, 1), map[], {}, None, {}, 0, 0, map[])
  }

  // ---------- Crash images ----------

  /** What is found on disk: `bytes` gives the contents from each allocation on. */
  datatype Image = Image(size: nat, pages: seq<nat>, slots: map<SlotId, Slot>, bytes: map<nat, Bytes>)

  ghost predicate OnDisk(cell: Cell, v: Slot) {
    exists i :: cell.lo <= i < |cell.hist| && cell.hist[i] == v
  }

  /** Each slot, each payload, the file length and each page link may reach the disk
      independently of the others, but never earlier than the last sync. */
  ghost predicate Possible(c: Params, b: Bucket, m: Image) {
    && b.sizeLo <= m.size <= b.size
    && (exists n :: b.pagesLo <= n <= |b.pages| && m.pages == b.pages[..n])
    && (forall s :: s in m.slots <==> s in b.cells && s.page in m.pages)
    && (forall s :: s in m.slots && s in b.cells ==> OnDisk(b.cells[s], m.slots[s]))
    && m.bytes.Keys == b.extents.Keys && (forall p :: p in b.extents ==> |m.bytes[p]| >= b.extents[p].alloc * c.block)
    && forall p :: p in b.extents && b.extents[p].body.Written? && b.extents[p].durable ==> b.extents[p].body.data <= m.bytes[p]
  }

  /** Every page and every published allocation lies inside the file. */
  predicate Fits(m: Image) {
    && (forall q :: q in m.pages ==> q + 1 <= m.size)
    && forall s :: s in m.slots && m.slots[s].mark == Published ==> m.slots[s].pos + m.slots[s].alloc <= m.size
  }

  predicate NoDuplicates(m: Image) {
    forall s, t :: s in m.slots && t in m.slots && s != t && m.slots[s].mark == Published && m.slots[t].mark == Published ==>
      m.slots[s].offset != m.slots[t].offset
  }

  /** The bytes a slot refers to. */
  function Content(m: Image, s: Slot): Bytes {
    if s.pos in m.bytes && s.size <= |m.bytes[s.pos]| then m.bytes[s.pos][..s.size] else []
  }

  predicate Intact(c: Params, m: Image, s: Slot) {
    s.sum == c.crc(s.offset, s.pos, s.size, s.alloc, Content(m, s))
  }

  predicate ChecksumsMatch(c: Params, m: Image) {
    forall s :: s in m.slots && m.slots[s].mark == Published ==> Intact(c, m, m.slots[s])
  }

  /** Opening and recovery succeed. */
  predicate Starts(c: Params, m: Image) {
    Fits(m) && NoDuplicates(m) && ChecksumsMatch(c, m)
  }

  ghost predicate Holds(m: Image, s: SlotId, offset: nat) {
    s in m.slots && m.slots[s].mark == Published && m.slots[s].offset == offset
  }

  ghost predicate SameEntries(m: Image, b: Bucket) {
    && (forall x :: x in b.entries ==> Holds(m, b.entries[x], x))
    && (forall s :: s in m.slots && m.slots[s].mark == Published ==> m.slots[s].offset in b.entries)
    && (forall s :: s in b.free <==> s in m.slots && m.slots[s].mark != Published)
  }

  ghost predicate SameExtents(m: Image, b: Bucket) {
    && (forall p :: p in b.extents ==> exists s :: s in m.slots && m.slots[s].mark == Published && m.slots[s].pos == p)
    && (forall s :: s in m.slots && m.slots[s].mark == Published ==>
         m.slots[s].pos in b.extents && b.extents[m.slots[s].pos] == Extent(m.slots[s].alloc, Written(Content(m, m.slots[s])), true))
  }

  ghost predicate SameContents(m: Image, b: Bucket) {
    b.kept.Keys == b.entries.Keys && forall x :: x in b.kept && b.entries[x] in m.slots ==> b.kept[x] == Content(m, m.slots[b.entries[x]])
  }

  /** b is the bucket after opening the image. Nothing below the end of the file is reused. */
  ghost predicate Reopened(m: Image, b: Bucket) {
    && b.size == b.sizeLo == b.cursor == m.size && b.pages == m.pages && b.pagesLo == |m.pages|
    && b.cells == (map s | s in m.slots :: Cell([m.slots[s]], 0)) && SameEntries(m, b) && SameExtents(m, b)
    && b.flight == map[] && b.punches == {} && b.sync == None && b.toPunch == {} && b.generation == 0 && b.synced == 0
    && SameContents(m, b)
  }

  // ---------- Steps ----------

  datatype Step =
    | Begin(offset: nat, data: Bytes, slot: SlotId)
    | Copy(slot: SlotId)
    | Fill(slot: SlotId)
    | Publish(slot: SlotId)
    | Grow(size: nat)
    | AddPage
    | Delete(offset: nat)
    | Remove
    | SyncStart
    | SyncFail
    | SyncDone
    | Punch(pos: nat)
    | PunchFail
    | Crash(image: Image, after: Bucket)

  function Write(b: Bucket, s: SlotId, v: Slot): map<SlotId, Cell>
    requires s in b.cells
  {
    b.cells[s := Append(b.cells[s], v)]
  }

  /** An id is published by one writer at a time. */
  predicate Idle(b: Bucket, offset: nat) {
    offset !in b.entries && forall s :: s in b.flight ==> b.flight[s].offset != offset
  }

  ghost predicate Enabled(c: Params, b: Bucket, step: Step)
    requires ValidParams(c)
  {
    match step
    case Begin(x, data, s) => Idle(b, x) && s in b.free && s in b.cells && b.cursor + Blocks(c, |data|) <= b.size
    case Copy(s) => s in b.flight && !b.flight[s].copied && b.flight[s].pos in b.extents
    case Fill(s) => s in b.flight && b.flight[s].copied && !b.flight[s].filled && s in b.cells
    case Publish(s) => s in b.flight && b.flight[s].filled && s in b.cells
    case Grow(size) => b.flight == map[] && b.size <= size
    case AddPage => b.flight == map[] && b.free == {} && b.cursor + 1 <= b.size
    case Delete(x) => x in b.entries && b.entries[x] in b.cells
    case Remove => b.flight == map[] && b.entries == map[] && b.sync == None
    case SyncStart => b.sync == None && b.toPunch == {} && b.generation != b.synced
    case SyncFail => b.sync.Some?
    case SyncDone => b.sync.Some?
    case Punch(p) => b.flight == map[] && p in b.toPunch && p in b.extents
    case PunchFail => true
    case Crash(m, after) => Possible(c, b, m) && Starts(c, m) && Reopened(m, after)
  }

  function Started(b: Bucket): SyncRun {
    SyncRun(map s | s in b.cells && b.cells[s].hist != [] :: |b.cells[s].hist| - 1,
            (set p | p in b.extents && b.extents[p].body.Written?), b.size, |b.pages|, b.punches, b.generation, b.entries)
  }

  function Raised(cell: Cell, lo: nat): Cell {
    Cell(cell.hist, if cell.lo <= lo then lo else cell.lo)
  }

  /** The payload a live entry refers to. */
  function Payload(b: Bucket, x: nat): Bytes
    requires x in b.entries
  {
    var s := b.entries[x];
    if s in b.cells && Last(b.cells[s]).pos in b.extents && b.extents[Last(b.cells[s]).pos].body.Written?
    then b.extents[Last(b.cells[s]).pos].body.data else []
  }

  function Synced(b: Bucket, r: SyncRun): Bucket {
    b.(cells := map s | s in b.cells :: if s in r.marks then Raised(b.cells[s], r.marks[s]) else b.cells[s],
       extents := map p | p in b.extents :: if p in r.written then b.extents[p].(durable := true) else b.extents[p],
       sizeLo := r.size, pagesLo := r.pages, sync := None, toPunch := r.punches, synced := r.gen,
       kept := b.kept + map x | x in r.live && x in b.entries :: Payload(b, x))
  }

  function Deleting(b: Bucket, x: nat): Bucket
    requires x in b.entries && b.entries[x] in b.cells
  {
    var s := b.entries[x];
    var v := Last(b.cells[s]);
    b.(cells := Write(b, s, v.(mark := Deleted)), punches := b.punches + {v.pos}, entries := b.entries - {x}, free := b.free + {s},
       generation := b.generation + 1, kept := b.kept - {x},
       sync := if b.sync.Some? then Some(b.sync.value.(live := b.sync.value.live - {x})) else None)
  }

  ghost function Apply(c: Params, b: Bucket, step: Step): Bucket
    requires ValidParams(c) && Enabled(c, b, step)
  {
    match step
    case Begin(x, data, s) =>
      var n := Blocks(c, |data|);
      b.(free := b.free - {s}, cursor := b.cursor + n, cells := Write(b, s, Last(b.cells[s]).(mark := Empty)),
         extents := b.extents[b.cursor := Extent(n, Blank, false)], flight := b.flight[s := Flight(x, b.cursor, n, data, false, false)])
    case Copy(s) =>
      var f := b.flight[s];
      b.(flight := b.flight[s := f.(copied := true)], extents := b.extents[f.pos := b.extents[f.pos].(body := Written(f.data))])
    case Fill(s) =>
      var f := b.flight[s];
      b.(flight := b.flight[s := f.(filled := true)], cells := Write(b, s, Record(c, f.offset, f.pos, f.alloc, f.data).(mark := Empty)))
    case Publish(s) =>
      b.(flight := b.flight - {s}, entries := b.entries[b.flight[s].offset := s], cells := Write(b, s, Last(b.cells[s]).(mark := Published)),
         generation := b.generation + 1)
    case Grow(size) => b.(size := size)
    case AddPage =>
      b.(pages := b.pages + [b.cursor], cells := b.cells + map s | s in SlotsOf(c, b.cursor) :: Cell([ZERO_SLOT], 0),
         free := SlotsOf(c, b.cursor), cursor := b.cursor + 1)
    case Delete(x) => Deleting(b, x)
    case Remove => Created(c)
    case SyncStart => b.(sync := Some(Started(b)), punches := {})
    case SyncFail => b.(sync := None, punches := b.punches + b.sync.value.punches)
    case SyncDone => Synced(b, b.sync.value)
    case Punch(p) => b.(extents := b.extents[p := b.extents[p].(body := Punched)], toPunch := b.toPunch - {p})
    case PunchFail => b.(punches := b.punches + b.toPunch, toPunch := {}, generation := b.generation + 1)
    case Crash(m, after) => after
  }
}
