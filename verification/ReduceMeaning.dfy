/** What reduced values mean: sums, maxima, membership and positions, independently of how they
    are accumulated. */
module ReduceMeaning {
  import opened Effects
  import opened Reduce

  // ---------- Counters ----------

  lemma WrapAdd(a: int, b: int)
    ensures Wrap64(Wrap64(a) + b) == Wrap64(a + b)
  {
    var m, h := 0x1_0000_0000_0000_0000, 0x8000_0000_0000_0000;
    var q := (a + h) / m;
    assert Wrap64(a) == a - q * m;
    assert (a + b + h - q * m) % m == (a + b + h) % m;
  }

  predicate IsIncrement(e: Event) {
    && e.act.Write? && e.act.d.collection == Scalar && e.act.d.rule == AdditiveInt && e.act.d.op != Remove && e.act.d.value.IntVal?
    && -0x8000_0000_0000_0000 <= e.act.d.value.i < 0x8000_0000_0000_0000
  }

  function Total(es: seq<Event>): int
    requires forall i :: 0 <= i < |es| ==> IsIncrement(es[i])
  {
    if es == [] then 0
    else
      assert IsIncrement(es[|es| - 1]);
      Total(es[..|es| - 1]) + es[|es| - 1].act.d.value.i
  }

  /** A chain of increments reduces to its sum, in 64-bit arithmetic. */
  lemma {:induction false} IncrementsAddUp(c: Reading, es: seq<Event>)
    requires es != [] && forall i :: 0 <= i < |es| ==> IsIncrement(es[i])
    ensures var r := Fold(c, Acc(None, false), es).r;
      && r.Some? && r.value.scalar.Some? && r.value.rule == AdditiveInt && r.value.collection == Scalar
      && r.value.scalar.value.value == IntVal(Wrap64(Total(es)))
    decreases |es|
  {
    hide Wrap64;
    var init, e := es[..|es| - 1], es[|es| - 1];
    assert IsIncrement(e);
    if init == [] {
      assert Fold(c, Acc(None, false), init) == Acc(None, false);
      assert Total(init) == 0;
      InRange(e.act.d.value.i);
    } else {
      IncrementsAddUp(c, init);
      WrapAdd(Total(init), e.act.d.value.i);
    }
  }

  lemma InRange(n: int)
    requires -0x8000_0000_0000_0000 <= n < 0x8000_0000_0000_0000
    ensures Wrap64(n) == n
  {
  }

  // ---------- Registers ----------

  lemma LargerAt(a: Bytes, b: Bytes, i: nat)
    ensures |Larger(a, b)| == (if |a| < |b| then |b| else |a|)
    ensures ByteAt(Larger(a, b), i) == MaxByte(ByteAt(a, i), ByteAt(b, i))
  {
    if i >= |Larger(a, b)| {
      assert MaxByte(0, 0) == 0;
    }
  }

  lemma MaxByteMerges(x: bv8, y: bv8, z: bv8)
    ensures MaxByte(x, y) == MaxByte(y, x) && MaxByte(x, x) == x && MaxByte(MaxByte(x, y), z) == MaxByte(x, MaxByte(y, z))
  {
  }

  lemma LargerCommutes(a: Bytes, b: Bytes)
    ensures Larger(a, b) == Larger(b, a) && Larger(a, a) == a
  {
    hide Larger, MaxByte, ByteAt;
    forall i: nat ensures ByteAt(Larger(a, b), i) == ByteAt(Larger(b, a), i) && ByteAt(Larger(a, a), i) == ByteAt(a, i) {
      LargerAt(a, b, i);
      LargerAt(b, a, i);
      LargerAt(a, a, i);
      MaxByteMerges(ByteAt(a, i), ByteAt(b, i), ByteAt(a, i));
    }
    LargerAt(a, b, 0);
    LargerAt(b, a, 0);
    LargerAt(a, a, 0);
    SameBytes(Larger(a, b), Larger(b, a));
    SameBytes(Larger(a, a), a);
  }

  lemma LargerAssociates(a: Bytes, b: Bytes, d: Bytes)
    ensures Larger(Larger(a, b), d) == Larger(a, Larger(b, d))
  {
    hide Larger, MaxByte, ByteAt;
    forall i: nat ensures ByteAt(Larger(Larger(a, b), d), i) == ByteAt(Larger(a, Larger(b, d)), i) {
      LargerAt(a, b, i);
      LargerAt(b, d, i);
      LargerAt(Larger(a, b), d, i);
      LargerAt(a, Larger(b, d), i);
      MaxByteMerges(ByteAt(a, i), ByteAt(b, i), ByteAt(d, i));
    }
    LargerAt(a, b, 0);
    LargerAt(b, d, 0);
    LargerAt(Larger(a, b), d, 0);
    LargerAt(a, Larger(b, d), 0);
    SameBytes(Larger(Larger(a, b), d), Larger(a, Larger(b, d)));
  }

  /** Registers merge in any order and any grouping, and merging twice changes nothing. */
  lemma LargerMerges(a: Bytes, b: Bytes, d: Bytes)
    ensures Larger(a, b) == Larger(b, a) && Larger(a, a) == a && Larger(Larger(a, b), d) == Larger(a, Larger(b, d))
  {
    hide Larger;
    LargerCommutes(a, b);
    LargerAssociates(a, b, d);
  }

  lemma SameBytes(a: Bytes, b: Bytes)
    requires |a| == |b| && forall i: nat :: ByteAt(a, i) == ByteAt(b, i)
    ensures a == b
  {
    forall i | 0 <= i < |a| ensures a[i] == b[i] {
      assert ByteAt(a, i) == ByteAt(b, i);
    }
  }

  // ---------- Keyed elements ----------

  predicate IsKeyed(e: Event) {
    e.act.Write? && e.act.d.collection == Keyed && e.act.d.op != Unknown
  }

  /** The last thing a chain did to an element. */
  function LastOn(es: seq<Event>, id: string): Option<Op>
    requires forall i :: 0 <= i < |es| ==> IsKeyed(es[i])
  {
    if es == [] then None
    else
      assert IsKeyed(es[|es| - 1]);
      if es[|es| - 1].act.d.id == id then Some(es[|es| - 1].act.d.op) else LastOn(es[..|es| - 1], id)
  }

  function Holds(r: Option<Reduced>, id: string): bool {
    r.Some? && id in r.value.adds
  }

  /** An element is there exactly if the last write to it inserted it, or if it was there before
      and nothing was written to it. */
  lemma {:induction false} KeyedMembership(c: Reading, a: Acc, es: seq<Event>, id: string)
    requires forall i :: 0 <= i < |es| ==> IsKeyed(es[i])
    ensures Holds(Fold(c, a, es).r, id) <==> match LastOn(es, id) case None => Holds(a.r, id) case Some(op) => op == Insert
    decreases |es|
  {
    if es != [] {
      var init, e := es[..|es| - 1], es[|es| - 1];
      assert IsKeyed(e);
      KeyedMembership(c, a, init, id);
    }
  }

  // ---------- Lists ----------

  /** The first element with the id, if there is one. */
  lemma {:induction false} FindIsFirst(s: seq<Element>, id: string)
    ensures match Find(s, id)
      case Some(i) => i < |s| && s[i].data.id == id && forall j :: 0 <= j < i ==> s[j].data.id != id
      case None => forall j :: 0 <= j < |s| ==> s[j].data.id != id
    decreases |s|
  {
    if s != [] && s[0].data.id != id {
      FindIsFirst(s[1..], id);
      forall j | 0 < j < |s| ensures s[j] == s[1..][j - 1] {
      }
    }
  }

  predicate Mentions(s: seq<Element>, id: string) {
    exists j :: 0 <= j < |s| && s[j].data.id == id
  }

  /** An insertion adds one element and keeps the order of the others. Next to a reference it is
      the neighbour, on the named side, of the first element with that id. */
  lemma InsertionPlaces(s: seq<Element>, e: Event, d: Payload) returns (i: nat)
    requires d.op != Remove && d.placement != Self
    ensures var r := Placed(s, e, d); i < |r| == |s| + 1 && r[i] == ElementOf(e, d) && r[..i] + r[i + 1..] == s
    ensures d.placement == Head ==> i == 0
    ensures d.placement == Tail || d.placement == NoPlace ==> i == |s|
    ensures d.placement == Before ==> forall j :: 0 <= j < i ==> s[j].data.id != d.reference
    ensures d.placement == Before ==> (i < |s| && s[i].data.id == d.reference) || (i == 0 && !Mentions(s, d.reference))
    ensures d.placement == After ==> forall j :: 0 <= j < i - 1 ==> s[j].data.id != d.reference
    ensures d.placement == After ==> (i > 0 && s[i - 1].data.id == d.reference) || (i == |s| && !Mentions(s, d.reference))
  {
    hide Find;
    FindIsFirst(s, d.reference);
    var at := Find(s, d.reference);
    i := if d.placement == Head then 0
         else if d.placement == Before then if at.Some? then at.value else 0
         else if d.placement == After then if at.Some? then at.value + 1 else |s|
         else |s|;
    assert s[..|s|] == s && s[|s|..] == [];
    InsertedAt(s, i, ElementOf(e, d));
  }

  lemma InsertedAt(s: seq<Element>, i: nat, x: Element)
    requires i <= |s|
    ensures var r := s[..i] + [x] + s[i..]; |r| == |s| + 1 && r[i] == x && r[..i] + r[i + 1..] == s
  {
    var r := s[..i] + [x] + s[i..];
    assert r[..i] == s[..i] && r[i + 1..] == s[i..];
  }

  /** A removal takes out the first element with the id; an in-place update replaces it; without
      such an element nothing changes. */
  lemma RemovalAndUpdate(s: seq<Element>, e: Event, d: Payload) returns (i: nat)
    requires d.op == Remove || d.placement == Self
    ensures i <= |s| && forall j :: 0 <= j < i ==> s[j].data.id != d.id
    ensures i == |s| ==> Placed(s, e, d) == s
    ensures i < |s| ==> s[i].data.id == d.id && Placed(s, e, d) == if d.op == Remove then s[..i] + s[i + 1..] else s[i := ElementOf(e, d)]
  {
    hide Find, InsertAt;
    FindIsFirst(s, d.id);
    var found := Find(s, d.id);
    i := if found.Some? then found.value else |s|;
  }
}
