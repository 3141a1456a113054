/** Reduction of a chain of effects to a value (effects/reduce.go). */
module Reduce {
  import opened Effects

  type Bytes = seq<bv8>

  datatype Op = Unknown | Insert | Remove

  /** `Other` stands for rules this version does not know. */
  datatype Rule = LastWriteWins | FirstWriteWins | AdditiveInt | AdditiveFloat | MaxInt | MaxBytes | Other

  datatype Collection = Scalar | Keyed | Ordered

  datatype Placement = NoPlace | Head | Tail | After | Before | Self

  datatype Value = Nothing | IntVal(i: int) | FloatVal(f: real) | Raw(b: Bytes) | Packed(tag: nat)

  datatype Payload = Payload(op: Op, rule: Rule, collection: Collection, id: string, value: Value, placement: Placement, reference: string)

  /** Where and when an effect was made; `hash` is its fork-choice hash. */
  datatype Stamp = Stamp(hlc: nat, node: nat, hash: nat)

  datatype Act =
    | Write(d: Payload)
    | Note(tag: Option<nat>, element: string, expires: Option<nat>)
    | Lead(release: bool, leader: nat)
    | Skipped

  /** `part` is the virtual partition; "" is the root. */
  datatype Event = Event(act: Act, part: string, stamp: Stamp)

  datatype Element = Element(data: Payload, stamp: Stamp, expires: Option<nat>)

  datatype Reduced = Reduced(
    op: Op, rule: Rule, collection: Collection, commutative: bool, scalar: Option<Payload>, adds: map<string, Element>, removes: set<string>,
    ordered: seq<Element>,
                       tag: Option<nat>, expires: Option<nat>, leader: Option<nat>, stamp: Stamp)

  /** How stored bytes read as numbers and as plain bytes. */
  datatype Reading = Reading(int64: Value -> int, float64: Value -> real, bytes: Value -> Bytes)

  const NO_STAMP := Stamp(0, 0, 0)

  const BLANK := Reduced(Unknown, LastWriteWins, Scalar, false, None, map[], {}, [], None, None, None, NO_STAMP)

  // ---------- Numbers and bytes ----------

  function Wrap64(n: int): int {
    (n + 0x8000_0000_0000_0000) % 0x1_0000_0000_0000_0000 - 0x8000_0000_0000_0000
  }

  function IntOf(v: Value): int {
    if v.IntVal? then v.i else 0
  }

  function FloatOf(v: Value): real {
    if v.FloatVal? then v.f else 0.0
  }

  function IntBase(c: Reading, v: Value): int {
    if v.IntVal? then v.i else c.int64(v)
  }

  function FloatBase(c: Reading, v: Value): real {
    if v.FloatVal? then v.f else c.float64(v)
  }

  function ByteAt(b: Bytes, i: nat): bv8 {
    if i < |b| then b[i] else 0
  }

  function MaxByte(a: bv8, b: bv8): bv8 {
    if a < b then b else a
  }

  /** Bytewise maximum; the shorter side counts as zero. */
  function Larger(a: Bytes, b: Bytes): Bytes {
    seq(if |a| < |b| then |b| else |a|, i requires 0 <= i => MaxByte(ByteAt(a, i), ByteAt(b, i)))
  }

  predicate IsCommutative(r: Rule) {
    r.AdditiveInt? || r.AdditiveFloat? || r.MaxInt? || r.MaxBytes?
  }

  // ---------- One effect ----------

  function ElementOf(e: Event, d: Payload): Element {
    Element(d, e.stamp, None)
  }

  function First(e: Event, d: Payload): Reduced {
    var r := BLANK.(op := d.op, rule := d.rule, collection := d.collection, commutative := IsCommutative(d.rule), stamp := e.stamp);
    match d.collection
    case Scalar => r.(scalar := Some(d))
    case Keyed => if d.op == Insert then r.(adds := map[d.id := ElementOf(e, d)]) else r.(removes := {d.id})
    case Ordered => if d.op == Insert then r.(ordered := [ElementOf(e, d)]) else r
  }

  function OnScalar(c: Reading, r: Reduced, d: Payload): Reduced {
    if r.scalar.None? then r.(scalar := Some(d), rule := d.rule)
    else
      var s := r.scalar.value;
      match d.rule
      case AdditiveInt =>
        if r.rule == AdditiveInt then r.(scalar := Some(s.(value := IntVal(Wrap64(IntOf(s.value) + IntOf(d.value))))))
        else if r.rule == LastWriteWins then
          r.(scalar := Some(s.(value := IntVal(Wrap64(IntBase(c, s.value) + IntOf(d.value))), rule := LastWriteWins)), commutative := false)
        else r
      case AdditiveFloat =>
        if r.rule == AdditiveFloat then r.(scalar := Some(s.(value := FloatVal(FloatOf(s.value) + FloatOf(d.value)))))
        else if r.rule == LastWriteWins then
          r.(scalar := Some(s.(value := FloatVal(FloatBase(c, s.value) + FloatOf(d.value)), rule := LastWriteWins)), commutative := false)
        else r
      case LastWriteWins => r.(scalar := Some(d), rule := LastWriteWins, commutative := false, expires := None)
      case MaxInt => if IntOf(d.value) > IntOf(s.value) then r.(scalar := Some(s.(value := IntVal(IntOf(d.value))))) else r
      case MaxBytes => r.(scalar := Some(s.(value := Raw(Larger(c.bytes(s.value), c.bytes(d.value))))))
      case FirstWriteWins => r
      case Other => r
  }

  function Combined(c: Reading, was: Element, e: Event, d: Payload): Element {
    match d.rule
    case AdditiveInt => Element(was.data.(value := IntVal(Wrap64(IntBase(c, was.data.value) + IntOf(d.value)))), was.stamp.(hash := 0), was.expires)
    case AdditiveFloat => Element(was.data.(value := FloatVal(FloatBase(c, was.data.value) + FloatOf(d.value))), was.stamp.(hash := 0), was.expires)
    case MaxInt =>
      if IntOf(d.value) > IntOf(was.data.value) then Element(was.data.(value := IntVal(IntOf(d.value))), was.stamp.(hash := 0), was.expires) else was
    case LastWriteWins => ElementOf(e, d)
    case FirstWriteWins => ElementOf(e, d)
    case MaxBytes => ElementOf(e, d)
    case Other => ElementOf(e, d)
  }

  function OnKeyed(c: Reading, r: Reduced, e: Event, d: Payload): Reduced {
    if d.op == Remove then
      if d.id in r.adds then r.(adds := r.adds - {d.id}) else r.(removes := r.removes + {d.id})
    else if d.id !in r.adds then r.(adds := r.adds[d.id := ElementOf(e, d)], removes := r.removes - {d.id})
    else r.(adds := r.adds[d.id := Combined(c, r.adds[d.id], e, d)])
  }

  /** Position of an element in a list, or None. */
  function Find(s: seq<Element>, id: string): (r: Option<nat>)
    ensures r.Some? ==> r.value < |s| && s[r.value].data.id == id
  {
    if s == [] then None
    else if s[0].data.id == id then Some(0)
    else match Find(s[1..], id)
      case None => None
      case Some(i) => Some(i + 1)
  }

  function InsertAt(s: seq<Element>, i: nat, x: Element): seq<Element>
    requires i <= |s|
  {
    s[..i] + [x] + s[i..]
  }

  /** The list after a removal or a placement. */
  function Placed(s: seq<Element>, e: Event, d: Payload): seq<Element> {
    var found := Find(s, d.id);
    var at := Find(s, d.reference);
    var x := ElementOf(e, d);
    if d.op == Remove then if found.Some? then s[..found.value] + s[found.value + 1..] else s
    else match d.placement
      case Head => InsertAt(s, 0, x)
      case Tail => s + [x]
      case NoPlace => s + [x]
      case Before => InsertAt(s, if at.Some? then at.value else 0, x)
      case After => if at.Some? then InsertAt(s, at.value + 1, x) else s + [x]
      case Self => if found.Some? then s[found.value := x] else s
  }

  function OnOrdered(r: Reduced, e: Event, d: Payload): Reduced {
    r.(ordered := Placed(r.ordered, e, d), removes := if d.op == Remove && Find(r.ordered, d.id).None? then r.removes + {d.id} else r.removes)
  }

  /** A scalar write on top of a collection clears the collection. */
  function Accumulate(c: Reading, r: Reduced, e: Event, d: Payload): Reduced {
    var cleared := if d.collection == Scalar && r.collection != Scalar then r.(adds := map[], removes := {}, ordered := []) else r;
    var r1 := cleared.(collection := d.collection);
    match d.collection
    case Scalar => OnScalar(c, r1, d)
    case Keyed => OnKeyed(c, r1, e, d)
    case Ordered => OnOrdered(r1, e, d)
  }

  function OnNote(r: Reduced, tag: Option<nat>, element: string, expires: Option<nat>): Reduced {
    var r1 := if tag.Some? then r.(tag := tag) else r;
    if element != "" then
      if element in r1.adds then r1.(adds := r1.adds[element := r1.adds[element].(expires := expires)]) else r1
    else if expires.Some? || tag.None? then r1.(expires := expires)
    else r1
  }

  predicate IsDelete(e: Event) {
    e.act.Write? && e.act.d.op == Remove && e.act.d.collection == Scalar
  }

  function OrBlank(r: Option<Reduced>): Reduced {
    if r.None? then BLANK else r.value
  }

  function OnLead(r: Option<Reduced>, release: bool, leader: nat): Reduced {
    (if r.None? then BLANK.(commutative := true) else r.value).(leader := if release then None else Some(leader))
  }

  /** The value so far, and whether a delete was seen. */
  datatype Acc = Acc(r: Option<Reduced>, deleted: bool)

  function Step(c: Reading, a: Acc, e: Event): Acc {
    if IsDelete(e) then Acc(None, true)
    else match e.act
      case Note(tag, element, expires) => a.(r := Some(OnNote(OrBlank(a.r), tag, element, expires)))
      case Lead(release, leader) => a.(r := Some(OnLead(a.r, release, leader)))
      case Skipped => a
      case Write(d) => a.(r := Some(if a.r.None? then First(e, d) else Accumulate(c, a.r.value, e, d)))
  }

  function Fold(c: Reading, a: Acc, es: seq<Event>): Acc {
    if es == [] then a else Step(c, Fold(c, a, es[..|es| - 1]), es[|es| - 1])
  }

  /** A delete marker as the starting value is dropped. */
  function Begin(seed: Option<Reduced>, es: seq<Event>): Acc {
    if seed.Some? && seed.value.op == Remove && es != [] then Acc(None, true) else Acc(seed, false)
  }

  function Marker(last: Event): Reduced {
    BLANK.(op := Remove, stamp := last.stamp.(hash := 0))
  }

  function Finish(a: Acc, es: seq<Event>): Option<Reduced> {
    if es == [] then a.r
    else if a.r.None? then if a.deleted then Some(Marker(es[|es| - 1])) else None
    else Some(a.r.value.(stamp := es[|es| - 1].stamp.(hash := es[0].stamp.hash)))
  }

  /** One call over a whole chain. */
  function Flat(c: Reading, seed: Option<Reduced>, es: seq<Event>): Option<Reduced> {
    Finish(Fold(c, Begin(seed, es), es), es)
  }

  /** One call per effect. */
  function OneByOne(c: Reading, seed: Option<Reduced>, es: seq<Event>): Option<Reduced> {
    if es == [] then seed else Flat(c, OneByOne(c, seed, es[..|es| - 1]), [es[|es| - 1]])
  }

  // ---------- The live value ----------

  datatype Live = Live(scalar: Option<Payload>, adds: map<string, Element>, ordered: seq<Element>,
                       tag: Option<nat>, expires: Option<nat>, leader: Option<nat>)

  const NO_VALUE := Live(None, map[], [], None, None, None)

  function LiveOf(r: Reduced): Live {
    Live(r.scalar, r.adds, r.ordered, r.tag, r.expires, r.leader)
  }

  function Visible(r: Option<Reduced>): Live {
    if r.None? then NO_VALUE else LiveOf(r.value)
  }
}
