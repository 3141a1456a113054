/** What a chain of effects is worth, said on the chain itself: the write a scalar or an element
    goes back to and what was added since, and the effect that decides tag, expiry and leader. */
module ReduceValues {
  import opened Effects
  import opened Reduce
  import opened ReduceMeaning

  // ---------- Writes since a base ----------

  predicate SetsScalar(e: Event) {
    e.act.Write? && e.act.d.collection == Scalar && e.act.d.op != Remove
  }

  /** The scalar writes since the last delete; a starting scalar counts as one. */
  function ScalarWrites(a: Acc, es: seq<Event>): seq<Payload> {
    if es == [] then if a.r.Some? && a.r.value.scalar.Some? then [a.r.value.scalar.value] else []
    else
      var rest, e := ScalarWrites(a, es[..|es| - 1]), es[|es| - 1];
      if IsDelete(e) then [] else if SetsScalar(e) then rest + [e.act.d] else rest
  }

  /** The write a scalar goes back to: the last that replaces, or else the first of all. */
  predicate IsBase(ws: seq<Payload>, b: nat) {
    b < |ws| && (b == 0 || ws[b].rule == LastWriteWins) && forall i :: b < i < |ws| ==> ws[i].rule != LastWriteWins
  }

  function Sum(ws: seq<Payload>): int {
    if ws == [] then 0 else Sum(ws[..|ws| - 1]) + IntOf(ws[|ws| - 1].value)
  }

  function FloatSum(ws: seq<Payload>): real {
    if ws == [] then 0.0 else FloatSum(ws[..|ws| - 1]) + FloatOf(ws[|ws| - 1].value)
  }

  predicate All(ws: seq<Payload>, rule: Rule) {
    forall i :: 0 <= i < |ws| ==> ws[i].rule == rule
  }

  /** A write that a base of this rule takes no notice of. */
  predicate Ignored(rule: Rule, w: Payload) {
    || w.rule == FirstWriteWins || w.rule == Other
    || (w.rule == AdditiveInt && rule != AdditiveInt && rule != LastWriteWins)
    || (w.rule == AdditiveFloat && rule != AdditiveFloat && rule != LastWriteWins)
  }

  /** n is the largest of the numbers. */
  predicate IsLargest(n: int, v: Value, ws: seq<Payload>) {
    && n >= IntOf(v) && (forall i :: 0 <= i < |ws| ==> n >= IntOf(ws[i].value))
    && (n == IntOf(v) || exists i :: 0 <= i < |ws| && n == IntOf(ws[i].value))
  }

  /** Raw bytes read as themselves. */
  ghost predicate ReadsRaw(c: Reading) {
    forall b :: c.bytes(Raw(b)) == b
  }

  /** x is the largest of the bytes. */
  predicate IsTop(x: bv8, xs: seq<bv8>) {
    x in xs && forall j :: 0 <= j < |xs| ==> AtMost(xs[j], x)
  }

  predicate AtMost(a: bv8, b: bv8) {
    a <= b
  }

  /** The bytes at one place, in the value and in the writes. */
  function Column(c: Reading, i: nat, v: Value, ws: seq<Payload>): seq<bv8> {
    if ws == [] then [ByteAt(c.bytes(v), i)] else Column(c, i, v, ws[..|ws| - 1]) + [ByteAt(c.bytes(ws[|ws| - 1].value), i)]
  }

  /** A value with one more write added to it. */
  function Added(c: Reading, rule: Rule, u: Value, w: Payload): Value {
    if Ignored(rule, w) then u
    else match w.rule
      case AdditiveInt => IntVal(Wrap64((if rule == LastWriteWins then IntBase(c, u) else IntOf(u)) + IntOf(w.value)))
      case AdditiveFloat => FloatVal((if rule == LastWriteWins then FloatBase(c, u) else FloatOf(u)) + FloatOf(w.value))
      case MaxInt => if IntOf(w.value) > IntOf(u) then IntVal(IntOf(w.value)) else u
      case MaxBytes => Raw(Larger(c.bytes(u), c.bytes(w.value)))
      case _ => w.value
  }

  function Grown(c: Reading, rule: Rule, v: Value, ws: seq<Payload>): Value {
    if ws == [] then v else Added(c, rule, Grown(c, rule, v, ws[..|ws| - 1]), ws[|ws| - 1])
  }

  lemma GrownOn(c: Reading, rule: Rule, v: Value, ws: seq<Payload>, w: Payload)
    ensures Grown(c, rule, v, ws + [w]) == Added(c, rule, Grown(c, rule, v, ws), w)
  {
    assert (ws + [w])[..|ws|] == ws;
  }

  lemma {:induction false} IgnoredLeave(c: Reading, rule: Rule, v: Value, ws: seq<Payload>)
    requires forall i :: 0 <= i < |ws| ==> Ignored(rule, ws[i])
    ensures Grown(c, rule, v, ws) == v
    decreases |ws|
  {
    if ws != [] {
      IgnoredLeave(c, rule, v, ws[..|ws| - 1]);
    }
  }

  lemma {:induction false} IntsAdd(c: Reading, rule: Rule, v: Value, ws: seq<Payload>)
    requires ws != [] && All(ws, AdditiveInt) && (rule == AdditiveInt || rule == LastWriteWins)
    ensures Grown(c, rule, v, ws) == IntVal(Wrap64((if rule == LastWriteWins then IntBase(c, v) else IntOf(v)) + Sum(ws)))
    decreases |ws|
  {
    hide Wrap64;
    var init := ws[..|ws| - 1];
    var base := if rule == LastWriteWins then IntBase(c, v) else IntOf(v);
    if init == [] {
      assert Sum(init) == 0 && Grown(c, rule, v, init) == v;
    } else {
      IntsAdd(c, rule, v, init);
      WrapAdd(base + Sum(init), IntOf(ws[|ws| - 1].value));
    }
  }

  lemma {:induction false} FloatsAdd(c: Reading, rule: Rule, v: Value, ws: seq<Payload>)
    requires ws != [] && All(ws, AdditiveFloat) && (rule == AdditiveFloat || rule == LastWriteWins)
    ensures Grown(c, rule, v, ws) == FloatVal((if rule == LastWriteWins then FloatBase(c, v) else FloatOf(v)) + FloatSum(ws))
    decreases |ws|
  {
    var init := ws[..|ws| - 1];
    if init == [] {
      assert FloatSum(init) == 0.0 && Grown(c, rule, v, init) == v;
    } else {
      FloatsAdd(c, rule, v, init);
    }
  }

  lemma {:induction false} LargestStays(c: Reading, rule: Rule, v: Value, ws: seq<Payload>)
    requires All(ws, MaxInt)
    ensures IsLargest(IntOf(Grown(c, rule, v, ws)), v, ws)
    decreases |ws|
  {
    if ws != [] {
      var init, w := ws[..|ws| - 1], ws[|ws| - 1];
      LargestStays(c, rule, v, init);
      var n := IntOf(Grown(c, rule, v, init));
      if n != IntOf(v) {
        var i :| 0 <= i < |init| && n == IntOf(init[i].value);
        assert n == IntOf(ws[i].value);
      }
    }
  }

  lemma AtMostOrders(a: bv8, b: bv8, d: bv8)
    ensures (AtMost(a, b) && AtMost(b, d) ==> AtMost(a, d)) && AtMost(a, MaxByte(a, b)) && AtMost(b, MaxByte(a, b))
    ensures MaxByte(a, b) == a || MaxByte(a, b) == b
  {
  }

  lemma TopOn(x: bv8, xs: seq<bv8>, y: bv8)
    requires IsTop(x, xs)
    ensures IsTop(MaxByte(x, y), xs + [y])
  {
    hide AtMost, MaxByte;
    var top, more := MaxByte(x, y), xs + [y];
    assert more[|xs|] == y;
    AtMostOrders(x, y, y);
    forall j | 0 <= j < |more| ensures AtMost(more[j], top) {
      if j < |xs| {
        AtMostOrders(xs[j], x, top);
      }
    }
  }

  lemma {:induction false} LargestBytesStay(c: Reading, rule: Rule, v: Value, ws: seq<Payload>, i: nat)
    requires ReadsRaw(c) && All(ws, MaxBytes)
    ensures IsTop(ByteAt(c.bytes(Grown(c, rule, v, ws)), i), Column(c, i, v, ws))
    decreases |ws|
  {
    hide Larger, ByteAt, MaxByte;
    if ws == [] {
      AtMostOrders(ByteAt(c.bytes(v), i), ByteAt(c.bytes(v), i), 0);
    } else {
      hide IsTop;
      var init, w := ws[..|ws| - 1], ws[|ws| - 1];
      LargestBytesStay(c, rule, v, init, i);
      var u := c.bytes(Grown(c, rule, v, init));
      LargerAt(u, c.bytes(w.value), i);
      TopOn(ByteAt(u, i), Column(c, i, v, init), ByteAt(c.bytes(w.value), i));
    }
  }

  // ---------- The scalar ----------

  /** The stored rule is that of the scalar. */
  predicate Tidy(a: Acc) {
    a.r.Some? && a.r.value.scalar.Some? ==> a.r.value.rule == a.r.value.scalar.value.rule
  }

  function ScalarOf(a: Acc): Option<Payload> {
    if a.r.Some? then a.r.value.scalar else None
  }

  /** The scalar is the base with the later writes added to it. */
  predicate Shows(c: Reading, scalar: Option<Payload>, ws: seq<Payload>, b: nat)
    requires IsBase(ws, b)
  {
    scalar == Some(ws[b].(value := Grown(c, ws[b].rule, ws[b].value, ws[b + 1..])))
  }

  lemma AddStep(c: Reading, a: Acc, e: Event, p: Payload)
    requires SetsScalar(e) && a.r.Some? && a.r.value.scalar == Some(p) && a.r.value.rule == p.rule && e.act.d.rule != LastWriteWins
    ensures ScalarOf(Step(c, a, e)) == Some(p.(value := Added(c, p.rule, p.value, e.act.d))) && Tidy(Step(c, a, e))
  {
    hide Wrap64, Larger, IntBase, FloatBase, IntOf, FloatOf;
  }

  lemma ReplaceStep(c: Reading, a: Acc, e: Event)
    requires SetsScalar(e) && e.act.d.rule == LastWriteWins
    ensures ScalarOf(Step(c, a, e)) == Some(e.act.d) && Tidy(Step(c, a, e))
  {
  }

  lemma StepScalar(c: Reading, a: Acc, e: Event, ws: seq<Payload>, b: nat) returns (b2: nat)
    requires Tidy(a) && SetsScalar(e) && IsBase(ws, b) && Shows(c, ScalarOf(a), ws, b)
    ensures var ws2 := ws + [e.act.d]; IsBase(ws2, b2) && Shows(c, ScalarOf(Step(c, a, e)), ws2, b2)
    ensures Tidy(Step(c, a, e))
  {
    hide Step, Added, Grown;
    var d := e.act.d;
    var ws2 := ws + [d];
    if d.rule == LastWriteWins {
      b2 := |ws|;
      assert ws2[b2 + 1..] == [];
      ReplaceStep(c, a, e);
      GrownNone(c, d.rule, d.value);
    } else {
      b2 := b;
      assert ws2[b + 1..] == ws[b + 1..] + [d];
      GrownOn(c, ws[b].rule, ws[b].value, ws[b + 1..], d);
      AddStep(c, a, e, ScalarOf(a).value);
    }
  }

  lemma GrownNone(c: Reading, rule: Rule, v: Value)
    ensures Grown(c, rule, v, []) == v
  {
  }

  lemma StepElse(c: Reading, a: Acc, e: Event)
    requires Tidy(a) && !SetsScalar(e) && !IsDelete(e)
    ensures Tidy(Step(c, a, e)) && ScalarOf(Step(c, a, e)) == ScalarOf(a)
  {
    hide OnKeyed, Combined, Find, Placed;
    assert e.act.Write? ==> e.act.d.collection != Scalar;
    if e.act.Write? && a.r.Some? {
      KeyedKeepsScalar(c, a.r.value.(collection := e.act.d.collection), e, e.act.d);
    }
  }

  lemma KeyedKeepsScalar(c: Reading, r: Reduced, e: Event, d: Payload)
    ensures OnKeyed(c, r, e, d).scalar == r.scalar && OnKeyed(c, r, e, d).rule == r.rule
  {
    hide Combined;
  }

  /** For every chain and every starting value: without scalar writes since the last delete there
      is no scalar; otherwise it is the last replacing write (or the first write) with the later
      ones added to it. */
  lemma {:induction false} ScalarGrowsFromBase(c: Reading, a: Acc, es: seq<Event>) returns (b: nat)
    requires Tidy(a)
    ensures Tidy(Fold(c, a, es))
    ensures ScalarWrites(a, es) == [] <==> ScalarOf(Fold(c, a, es)) == None
    ensures ScalarWrites(a, es) != [] ==> IsBase(ScalarWrites(a, es), b) && Shows(c, ScalarOf(Fold(c, a, es)), ScalarWrites(a, es), b)
    decreases |es|
  {
    hide Step, Grown;
    b := 0;
    if es == [] {
      StartShows(c, a);
    } else {
      var init, e := es[..|es| - 1], es[|es| - 1];
      b := ScalarGrowsFromBase(c, a, init);
      var before, ws := Fold(c, a, init), ScalarWrites(a, init);
      if IsDelete(e) {
        assert Step(c, before, e) == Acc(None, true) by { DeleteStep(c, before, e); }
      } else if !SetsScalar(e) {
        StepElse(c, before, e);
      } else if ws == [] {
        b := 0;
        FirstScalar(c, before, e);
        assert ScalarWrites(a, es) == [e.act.d];
      } else {
        b := StepScalar(c, before, e, ws, b);
      }
    }
  }

  lemma StartShows(c: Reading, a: Acc)
    requires Tidy(a)
    ensures ScalarWrites(a, []) == [] <==> ScalarOf(a) == None
    ensures ScalarWrites(a, []) != [] ==> IsBase(ScalarWrites(a, []), 0) && Shows(c, ScalarOf(a), ScalarWrites(a, []), 0)
  {
  }

  lemma DeleteStep(c: Reading, a: Acc, e: Event)
    requires IsDelete(e)
    ensures Step(c, a, e) == Acc(None, true)
  {
  }

  lemma FirstScalar(c: Reading, a: Acc, e: Event)
    requires SetsScalar(e) && ScalarOf(a) == None
    ensures Tidy(Step(c, a, e)) && ScalarOf(Step(c, a, e)) == Some(e.act.d)
    ensures IsBase([e.act.d], 0) && Shows(c, Some(e.act.d), [e.act.d], 0)
  {
  }

  /** What that comes to, rule by rule. */
  lemma ScalarMeans(c: Reading, a: Acc, es: seq<Event>, ws: seq<Payload>) returns (b: nat, p: Payload)
    requires Tidy(a) && ws == ScalarWrites(a, es) != []
    ensures ScalarOf(Fold(c, a, es)) == Some(p) && IsBase(ws, b) && p == ws[b].(value := p.value)
    ensures (forall i :: b < i < |ws| ==> Ignored(ws[b].rule, ws[i])) ==> p == ws[b]
    ensures b + 1 < |ws| && All(ws[b + 1..], AdditiveInt) && ws[b].rule == LastWriteWins ==>
      p.value == IntVal(Wrap64(IntBase(c, ws[b].value) + Sum(ws[b + 1..])))
    ensures b + 1 < |ws| && All(ws[b + 1..], AdditiveInt) && ws[b].rule == AdditiveInt ==>
      p.value == IntVal(Wrap64(IntOf(ws[b].value) + Sum(ws[b + 1..])))
    ensures b + 1 < |ws| && All(ws[b + 1..], AdditiveFloat) && ws[b].rule == LastWriteWins ==>
      p.value == FloatVal(FloatBase(c, ws[b].value) + FloatSum(ws[b + 1..]))
    ensures b + 1 < |ws| && All(ws[b + 1..], AdditiveFloat) && ws[b].rule == AdditiveFloat ==>
      p.value == FloatVal(FloatOf(ws[b].value) + FloatSum(ws[b + 1..]))
    ensures All(ws[b + 1..], MaxInt) ==> IsLargest(IntOf(p.value), ws[b].value, ws[b + 1..])
    ensures ReadsRaw(c) && All(ws[b + 1..], MaxBytes) ==>
      forall i: nat :: IsTop(ByteAt(c.bytes(p.value), i), Column(c, i, ws[b].value, ws[b + 1..]))
  {
    hide Fold, ScalarWrites, Grown, Wrap64, IsLargest, IsTop, Column, ReadsRaw, IntBase, FloatBase;
    b := ScalarGrowsFromBase(c, a, es);
    p := ScalarOf(Fold(c, a, es)).value;
    var rule, v, tail := ws[b].rule, ws[b].value, ws[b + 1..];
    if forall i :: b < i < |ws| ==> Ignored(ws[b].rule, ws[i]) {
      IgnoredLeave(c, rule, v, tail);
    }
    if b + 1 < |ws| && All(tail, AdditiveInt) && (rule == LastWriteWins || rule == AdditiveInt) {
      IntsAdd(c, rule, v, tail);
    }
    if b + 1 < |ws| && All(tail, AdditiveFloat) && (rule == LastWriteWins || rule == AdditiveFloat) {
      FloatsAdd(c, rule, v, tail);
    }
    if All(tail, MaxInt) {
      LargestStays(c, rule, v, tail);
    }
    if ReadsRaw(c) && All(tail, MaxBytes) {
      forall i: nat ensures IsTop(ByteAt(c.bytes(p.value), i), Column(c, i, v, tail)) {
        LargestBytesStay(c, rule, v, tail, i);
      }
    }
  }

  // ---------- Tag and leader ----------

  function TagOf(a: Acc): Option<nat> { if a.r.Some? then a.r.value.tag else None }

  function LeaderOf(a: Acc): Option<nat> { if a.r.Some? then a.r.value.leader else None }

  function ExpiryOf(a: Acc): Option<nat> { if a.r.Some? then a.r.value.expires else None }

  predicate NamesTag(e: Event) {
    IsDelete(e) || (e.act.Note? && e.act.tag.Some?)
  }

  predicate NamesLeader(e: Event) {
    IsDelete(e) || e.act.Lead?
  }

  /** Position i holds the last effect of the kind; there is none if it is -1. */
  predicate IsLast(es: seq<Event>, names: Event -> bool, i: int) {
    -1 <= i < |es| && (i >= 0 ==> names(es[i])) && forall j :: i < j < |es| ==> !names(es[j])
  }

  lemma WriteKeepsMarks(c: Reading, a: Acc, e: Event)
    requires e.act.Write? && !IsDelete(e)
    ensures TagOf(Step(c, a, e)) == TagOf(a) && LeaderOf(Step(c, a, e)) == LeaderOf(a)
    ensures !SetsScalar(e) ==> ExpiryOf(Step(c, a, e)) == ExpiryOf(a)
  {
    hide OnScalar, OnKeyed, OnOrdered;
    if a.r.Some? {
      var d := e.act.d;
      var r := a.r.value;
      var cleared := if d.collection == Scalar && r.collection != Scalar then r.(adds := map[], removes := {}, ordered := []) else r;
      ScalarKeepsMarks(c, cleared.(collection := d.collection), d);
      KeyedKeepsMarks(c, cleared.(collection := d.collection), e, d);
      OrderedKeepsMarks(cleared.(collection := d.collection), e, d);
    }
  }

  predicate SameMarks(r: Reduced, r2: Reduced) {
    r.tag == r2.tag && r.leader == r2.leader
  }

  lemma ScalarKeepsMarks(c: Reading, r: Reduced, d: Payload)
    ensures SameMarks(r, OnScalar(c, r, d))
  {
    hide Wrap64, Larger, IntBase, FloatBase;
  }

  lemma KeyedKeepsMarks(c: Reading, r: Reduced, e: Event, d: Payload)
    ensures SameMarks(r, OnKeyed(c, r, e, d)) && r.expires == OnKeyed(c, r, e, d).expires
  {
    hide Combined;
  }

  lemma OrderedKeepsMarks(r: Reduced, e: Event, d: Payload)
    ensures SameMarks(r, OnOrdered(r, e, d)) && r.expires == OnOrdered(r, e, d).expires
  {
    hide Placed, Find;
  }

  /** The type tag is that of the last effect that names one; a delete clears it. */
  lemma {:induction false} TagIsLast(c: Reading, a: Acc, es: seq<Event>, i: int)
    requires IsLast(es, NamesTag, i)
    ensures TagOf(Fold(c, a, es)) == if i < 0 then TagOf(a) else if es[i].act.Note? then es[i].act.tag else None
    decreases |es|
  {
    if es != [] {
      hide Accumulate, First;
      var init, e := es[..|es| - 1], es[|es| - 1];
      if i < |init| {
        TagIsLast(c, a, init, i);
        if e.act.Write? {
          WriteKeepsMarks(c, Fold(c, a, init), e);
        }
      }
    }
  }

  /** The leader is the one of the last lead effect, unless it released or the key was deleted. */
  lemma {:induction false} LeaderIsLast(c: Reading, a: Acc, es: seq<Event>, i: int)
    requires IsLast(es, NamesLeader, i)
    ensures LeaderOf(Fold(c, a, es)) ==
      if i < 0 then LeaderOf(a) else if es[i].act.Lead? && !es[i].act.release then Some(es[i].act.leader) else None
    decreases |es|
  {
    if es != [] {
      hide Accumulate, First;
      var init, e := es[..|es| - 1], es[|es| - 1];
      if i < |init| {
        LeaderIsLast(c, a, init, i);
        if e.act.Write? {
          WriteKeepsMarks(c, Fold(c, a, init), e);
        }
      }
    }
  }

  // ---------- Expiry ----------

  /** A note on the whole key that sets its expiry or clears it. */
  predicate NotesExpiry(e: Event) {
    e.act.Note? && e.act.element == "" && (e.act.expires.Some? || e.act.tag.None?)
  }

  /** The effect at i decides the expiry: a delete, a note, or a replacing write over a scalar. */
  predicate DecidesExpiry(a: Acc, es: seq<Event>, i: nat)
    requires i < |es|
  {
    IsDelete(es[i]) || NotesExpiry(es[i]) || (SetsScalar(es[i]) && es[i].act.d.rule == LastWriteWins && ScalarWrites(a, es[..i]) != [])
  }

  lemma WriteDecides(c: Reading, a: Acc, e: Event)
    requires SetsScalar(e)
    ensures ExpiryOf(Step(c, a, e)) == if e.act.d.rule == LastWriteWins && ScalarOf(a).Some? then None else ExpiryOf(a)
  {
    hide Wrap64, Larger;
  }

  /** The expiry is that of the last effect that decides it. In particular a replacing write clears
      it, except as the first scalar write since the last delete. */
  lemma {:induction false} ExpiryIsLast(c: Reading, a: Acc, es: seq<Event>, i: int)
    requires Tidy(a) && -1 <= i < |es| && (i >= 0 ==> DecidesExpiry(a, es, i)) && forall j: nat :: i < j < |es| ==> !DecidesExpiry(a, es, j)
    ensures ExpiryOf(Fold(c, a, es)) == if i < 0 then ExpiryOf(a) else if es[i].act.Note? then es[i].act.expires else None
    decreases |es|
  {
    if es != [] {
      hide Step, ScalarWrites, IsDelete, NotesExpiry, SetsScalar;
      var init, e := es[..|es| - 1], es[|es| - 1];
      assert es[..|init|] == init;
      ExpiryStep(c, a, init, e);
      if i < |init| {
        forall j: nat | j < |init| ensures DecidesExpiry(a, es, j) == DecidesExpiry(a, init, j) {
          assert es[..j] == init[..j];
        }
        assert !DecidesExpiry(a, es, |init|);
        ExpiryIsLast(c, a, init, i);
      }
    }
  }

  lemma ExpiryStep(c: Reading, a: Acc, init: seq<Event>, e: Event)
    requires Tidy(a)
    ensures ExpiryOf(Step(c, Fold(c, a, init), e)) ==
      if IsDelete(e) then None
      else if NotesExpiry(e) then e.act.expires
      else if SetsScalar(e) && e.act.d.rule == LastWriteWins && ScalarWrites(a, init) != [] then None
      else ExpiryOf(Fold(c, a, init))
  {
    hide Accumulate, First, ScalarWrites, Fold;
    var b := ScalarGrowsFromBase(c, a, init);
    if SetsScalar(e) {
      WriteDecides(c, Fold(c, a, init), e);
    } else if e.act.Write? && !IsDelete(e) {
      WriteKeepsMarks(c, Fold(c, a, init), e);
    }
  }

  /** An expiry noted before anything was written survives the first replacing write. */
  lemma FirstSetKeepsExpiry(c: Reading, d: Payload, s: Stamp)
    requires d.collection == Scalar && d.rule == LastWriteWins && d.op == Insert
    ensures var es := [Event(Note(None, "", Some(5)), "", s), Event(Write(d), "", s)];
      && ScalarOf(Fold(c, Acc(None, false), es)) == Some(d) && ExpiryOf(Fold(c, Acc(None, false), es)) == Some(5)
      && ExpiryOf(Fold(c, Acc(None, false), es + [es[1]])) == None
  {
    var none, es := Acc(None, false), [Event(Note(None, "", Some(5)), "", s), Event(Write(d), "", s)];
    var more := es + [es[1]];
    assert es[..1] == [es[0]] && es[..0] == [] && more[..2] == es;
    assert ScalarWrites(none, es[..1]) == ScalarWrites(none, es[..0]) == [];
    assert ScalarWrites(none, es) == [d];
    var b, p := ScalarMeans(c, none, es, [d]);
    ExpiryIsLast(c, none, es, 0);
    ExpiryIsLast(c, none, more, 2);
  }

  // ---------- Keyed elements ----------

  predicate Accumulates(d: Payload) {
    d.rule == AdditiveInt || d.rule == AdditiveFloat || d.rule == MaxInt
  }

  predicate OnElement(e: Event, id: string) {
    e.act.Write? && e.act.d.collection == Keyed && e.act.d.id == id
  }

  /** The element stays, and what is written to it is added to it. */
  predicate Adds(e: Event, id: string) {
    !IsDelete(e) && !SetsScalar(e) && (OnElement(e, id) ==> e.act.d.op != Remove && Accumulates(e.act.d))
  }

  function ElementWrites(es: seq<Event>, id: string): seq<Payload> {
    if es == [] then []
    else
      var rest, e := ElementWrites(es[..|es| - 1], id), es[|es| - 1];
      if OnElement(e, id) then rest + [e.act.d] else rest
  }

  predicate IsNoteOn(e: Event, id: string) {
    e.act.Note? && e.act.element == id != ""
  }

  /** The expiry last noted for the element. */
  function NotedExpiry(es: seq<Event>, id: string): Option<nat> {
    if es == [] then None
    else if IsNoteOn(es[|es| - 1], id) then es[|es| - 1].act.expires
    else NotedExpiry(es[..|es| - 1], id)
  }

  /** The element is e0's insertion with the writes added, and keeps its time and node. */
  ghost predicate Has(a: Acc, id: string, e0: Event, ws: seq<Payload>, expires: Option<nat>, c: Reading)
    requires e0.act.Write?
  {
    var d := e0.act.d;
    && a.r.Some? && id in a.r.value.adds && a.r.value.adds[id].expires == expires
    && a.r.value.adds[id].stamp == e0.stamp.(hash := a.r.value.adds[id].stamp.hash)
    && a.r.value.adds[id].data == d.(value := Grown(c, LastWriteWins, d.value, ws))
  }

  lemma ElementStep(c: Reading, a: Acc, e: Event, id: string, e0: Event, ws: seq<Payload>, expires: Option<nat>)
    requires e0.act.Write? && OnElement(e, id) && Adds(e, id) && Has(a, id, e0, ws, expires, c)
    ensures Has(Step(c, a, e), id, e0, ws + [e.act.d], expires, c)
  {
    hide Grown, Wrap64, Larger, Find, Placed, IntBase, FloatBase, IntOf, FloatOf;
    GrownOn(c, LastWriteWins, e0.act.d.value, ws, e.act.d);
  }

  lemma ElementElse(c: Reading, a: Acc, e: Event, id: string)
    requires !OnElement(e, id) && Adds(e, id) && a.r.Some? && id in a.r.value.adds
    ensures var r := Step(c, a, e).r; r.Some? && id in r.value.adds && r.value.adds[id] == a.r.value.adds[id].(expires := r.value.adds[id].expires)
    ensures var r := Step(c, a, e).r;
      r.value.adds[id].expires == if IsNoteOn(e, id) then e.act.expires else a.r.value.adds[id].expires
  {
    hide Combined, Find, Placed;
  }

  lemma Inserted(c: Reading, a: Acc, e: Event, id: string)
    requires OnElement(e, id) && e.act.d.op == Insert && (!Accumulates(e.act.d) || !Holds(a.r, id))
    ensures Has(Step(c, a, e), id, e, [], None, c)
  {
    hide Find, Placed;
  }

  /** An element that was inserted at i, replacing or new, and neither removed nor replaced since,
      is that insertion with the later writes to it added, and the expiry last noted. */
  lemma {:induction false} ElementGrows(c: Reading, a: Acc, es: seq<Event>, i: nat, id: string)
    requires i < |es| && OnElement(es[i], id) && es[i].act.d.op == Insert
    requires !Accumulates(es[i].act.d) || !Holds(Fold(c, a, es[..i]).r, id)
    requires forall j :: i < j < |es| ==> Adds(es[j], id)
    ensures Has(Fold(c, a, es), id, es[i], ElementWrites(es[i + 1..], id), NotedExpiry(es[i + 1..], id), c)
    decreases |es|
  {
    hide Step, Has, Grown;
    var init, e := es[..|es| - 1], es[|es| - 1];
    var before := Fold(c, a, init);
    if i == |init| {
      assert es[..i] == init && es[i + 1..] == [];
      Inserted(c, before, e, id);
    } else {
      assert init[..i] == es[..i];
      ElementGrows(c, a, init, i, id);
      var since := es[i + 1..];
      assert since[..|since| - 1] == init[i + 1..] && since[|since| - 1] == e;
      var ws, expires := ElementWrites(init[i + 1..], id), NotedExpiry(init[i + 1..], id);
      if OnElement(e, id) {
        ElementStep(c, before, e, id, es[i], ws, expires);
      } else {
        HasElse(c, before, e, id, es[i], ws, expires);
      }
    }
  }

  lemma HasElse(c: Reading, a: Acc, e: Event, id: string, e0: Event, ws: seq<Payload>, expires: Option<nat>)
    requires e0.act.Write? && !OnElement(e, id) && Adds(e, id) && Has(a, id, e0, ws, expires, c)
    ensures Has(Step(c, a, e), id, e0, ws, if IsNoteOn(e, id) then e.act.expires else expires, c)
  {
    hide Step, Grown;
    ElementElse(c, a, e, id);
  }

  /** What that comes to: the last replacing insertion, or the sum or maximum since. */
  lemma ElementMeans(c: Reading, a: Acc, id: string, e0: Event, d: Payload, ws: seq<Payload>, expires: Option<nat>)
    requires e0.act == Write(d) && Has(a, id, e0, ws, expires, c)
    ensures ws == [] ==> a.r.value.adds[id].data == d
    ensures ws != [] && All(ws, AdditiveInt) ==> a.r.value.adds[id].data == d.(value := IntVal(Wrap64(IntBase(c, d.value) + Sum(ws))))
    ensures ws != [] && All(ws, AdditiveFloat) ==> a.r.value.adds[id].data == d.(value := FloatVal(FloatBase(c, d.value) + FloatSum(ws)))
    ensures All(ws, MaxInt) ==> IsLargest(IntOf(a.r.value.adds[id].data.value), d.value, ws)
  {
    hide Wrap64, IntBase, FloatBase, IsLargest;
    if ws != [] && All(ws, AdditiveInt) {
      IntsAdd(c, LastWriteWins, d.value, ws);
    }
    if ws != [] && All(ws, AdditiveFloat) {
      FloatsAdd(c, LastWriteWins, d.value, ws);
    }
    if All(ws, MaxInt) {
      LargestStays(c, LastWriteWins, d.value, ws);
    }
  }

  // ---------- Switching to a scalar ----------

  predicate Bare(a: Acc) {
    a.r.Some? ==> a.r.value.adds == map[] && a.r.value.ordered == []
  }

  /** A value that was last a scalar holds no collection. */
  predicate Switched(a: Acc) {
    a.r.Some? && a.r.value.collection == Scalar ==> Bare(a)
  }

  lemma StepSwitches(c: Reading, a: Acc, e: Event)
    requires Switched(a)
    ensures Switched(Step(c, a, e)) && (SetsScalar(e) ==> Bare(Step(c, a, e)))
    ensures Bare(a) && !(e.act.Write? && e.act.d.collection != Scalar) ==> Bare(Step(c, a, e))
  {
    hide OnKeyed, OnOrdered, Wrap64, Larger, IntBase, FloatBase;
    if e.act.Write? && a.r.Some? && e.act.d.collection != Scalar {
      CollectionStays(c, a.r.value.(collection := e.act.d.collection), e, e.act.d);
    }
  }

  lemma CollectionStays(c: Reading, r: Reduced, e: Event, d: Payload)
    ensures OnKeyed(c, r, e, d).collection == r.collection && OnOrdered(r, e, d).collection == r.collection
  {
    hide Combined, Placed, Find;
  }

  /** A scalar write, and whatever follows it short of a collection write, leaves no collection. */
  lemma {:induction false} ScalarReplacesCollection(c: Reading, a: Acc, es: seq<Event>, i: nat)
    requires Switched(a) && i < |es| && SetsScalar(es[i])
    requires forall j :: i < j < |es| ==> !(es[j].act.Write? && es[j].act.d.collection != Scalar)
    ensures Switched(Fold(c, a, es)) && Bare(Fold(c, a, es))
    decreases |es|
  {
    hide Step, Switched, Bare;
    var init, e := es[..|es| - 1], es[|es| - 1];
    StaysSwitched(c, a, init);
    StepSwitches(c, Fold(c, a, init), e);
    if i < |init| {
      ScalarReplacesCollection(c, a, init, i);
    }
  }

  lemma {:induction false} StaysSwitched(c: Reading, a: Acc, es: seq<Event>)
    requires Switched(a)
    ensures Switched(Fold(c, a, es))
    decreases |es|
  {
    hide Step, Switched;
    if es != [] {
      StaysSwitched(c, a, es[..|es| - 1]);
      StepSwitches(c, Fold(c, a, es[..|es| - 1]), es[|es| - 1]);
    }
  }

  // ---------- Net removals ----------

  function RemovedOf(a: Acc): set<string> {
    if a.r.Some? then a.r.value.removes else {}
  }

  /** Keyed writes with a known operation, and effects that write nothing. */
  predicate OnlyKeyed(e: Event) {
    e.act.Write? ==> e.act.d.collection == Keyed && e.act.d.op != Unknown
  }

  predicate Toggled(a: Acc, id: string) {
    !(Holds(a.r, id) && id in RemovedOf(a))
  }

  lemma KeyedStep(c: Reading, a: Acc, e: Event, id: string)
    requires Toggled(a, id) && OnlyKeyed(e)
    ensures Toggled(Step(c, a, e), id)
    ensures !OnElement(e, id) ==> (id in RemovedOf(Step(c, a, e)) <==> id in RemovedOf(a))
    ensures OnElement(e, id) ==> (id in RemovedOf(Step(c, a, e)) <==> e.act.d.op == Remove && !Holds(a.r, id))
  {
    hide Combined;
  }

  lemma {:induction false} StaysToggled(c: Reading, a: Acc, es: seq<Event>, id: string)
    requires Toggled(a, id) && forall j :: 0 <= j < |es| ==> OnlyKeyed(es[j])
    ensures Toggled(Fold(c, a, es), id)
    decreases |es|
  {
    hide Step, Toggled, OnlyKeyed;
    if es != [] {
      StaysToggled(c, a, es[..|es| - 1], id);
      KeyedStep(c, Fold(c, a, es[..|es| - 1]), es[|es| - 1], id);
    }
  }

  /** An element counts as removed exactly if the last write to it removed it while it was not
      there; removing what the chain itself inserted leaves no trace. */
  lemma {:induction false} NetRemovalIff(c: Reading, a: Acc, es: seq<Event>, id: string, i: nat)
    requires Toggled(a, id) && (forall j :: 0 <= j < |es| ==> OnlyKeyed(es[j])) && i < |es| && OnElement(es[i], id)
    requires forall j :: i < j < |es| ==> !OnElement(es[j], id)
    ensures id in RemovedOf(Fold(c, a, es)) <==> es[i].act.d.op == Remove && !Holds(Fold(c, a, es[..i]).r, id)
    decreases |es|
  {
    hide Step, Toggled, OnlyKeyed;
    var init, e := es[..|es| - 1], es[|es| - 1];
    StaysToggled(c, a, init, id);
    KeyedStep(c, Fold(c, a, init), e, id);
    if i < |init| {
      NetRemovalIff(c, a, init, id, i);
      assert init[..i] == es[..i];
    } else {
      assert es[..i] == init;
    }
  }

  /** Removing from a list what it does not hold is recorded; nothing else is. */
  lemma ListRemovalIsRecorded(r: Reduced, e: Event, d: Payload)
    ensures OnOrdered(r, e, d).removes == r.removes + if d.op == Remove && !Mentions(r.ordered, d.id) then {d.id} else {}
  {
    hide Placed, Find;
    FindIsFirst(r.ordered, d.id);
  }

  // ---------- Mergeability ----------

  /** The scalar has been replaced: it goes back to a last-write-wins write. */
  ghost predicate Replaced(ws: seq<Payload>) {
    exists b: nat :: IsBase(ws, b) && ws[b].rule == LastWriteWins
  }

  /** The write settles the scalar, which then no longer merges: it replaces one, or counts up one
      that was replaced. */
  ghost predicate Settles(ws: seq<Payload>, e: Event) {
    SetsScalar(e) && ws != [] && (e.act.d.rule == LastWriteWins || ((e.act.d.rule == AdditiveInt || e.act.d.rule == AdditiveFloat) && Replaced(ws)))
  }

  lemma BaseIsUnique(ws: seq<Payload>, a: nat, b: nat)
    requires IsBase(ws, a) && IsBase(ws, b)
    ensures ws[a].rule == LastWriteWins <==> ws[b].rule == LastWriteWins
  {
  }

  lemma MergeStep(c: Reading, a: Acc, e: Event)
    requires a.r.Some? && !IsDelete(e)
    ensures Step(c, a, e).r.Some?
    ensures Step(c, a, e).r.value.commutative <==>
      && a.r.value.commutative
      && !(SetsScalar(e) && a.r.value.scalar.Some?
           && (e.act.d.rule == LastWriteWins || ((e.act.d.rule == AdditiveInt || e.act.d.rule == AdditiveFloat) && a.r.value.rule == LastWriteWins)))
  {
    hide Combined, Placed, Find, Wrap64, Larger, IntBase, FloatBase;
  }

  /** A value stays mergeable exactly as long as no write settles it. */
  lemma {:induction false} MergeableIff(c: Reading, a: Acc, es: seq<Event>)
    requires Tidy(a) && a.r.Some? && forall i :: 0 <= i < |es| ==> !IsDelete(es[i])
    ensures Fold(c, a, es).r.Some?
    ensures Fold(c, a, es).r.value.commutative <==> a.r.value.commutative && forall i :: 0 <= i < |es| ==> !Settles(ScalarWrites(a, es[..i]), es[i])
    decreases |es|
  {
    hide Step, ScalarWrites, IsDelete, SetsScalar;
    if es != [] {
      var init, e := es[..|es| - 1], es[|es| - 1];
      assert es[..|init|] == init;
      MergeableIff(c, a, init);
      forall i | 0 <= i < |init| ensures init[..i] == es[..i] && init[i] == es[i] {
      }
      SettlesIff(c, a, init, e);
      MergeStep(c, Fold(c, a, init), e);
    }
  }

  lemma SettlesIff(c: Reading, a: Acc, init: seq<Event>, e: Event)
    requires Tidy(a) && Fold(c, a, init).r.Some?
    ensures var r := Fold(c, a, init).r.value;
      Settles(ScalarWrites(a, init), e) <==>
        SetsScalar(e) && r.scalar.Some?
        && (e.act.d.rule == LastWriteWins || ((e.act.d.rule == AdditiveInt || e.act.d.rule == AdditiveFloat) && r.rule == LastWriteWins))
  {
    hide Fold, ScalarWrites, Grown;
    var ws := ScalarWrites(a, init);
    var b := ScalarGrowsFromBase(c, a, init);
    if ws != [] && Replaced(ws) {
      var b2: nat :| IsBase(ws, b2) && ws[b2].rule == LastWriteWins;
      BaseIsUnique(ws, b, b2);
    }
  }

  /** How mergeable a value starts: a write by its rule, a lead effect yes, a note no. */
  lemma FirstMerges(c: Reading, deleted: bool, e: Event)
    requires !IsDelete(e) && !e.act.Skipped?
    ensures var r := Step(c, Acc(None, deleted), e).r;
      && r.Some?
      && (r.value.commutative <==> e.act.Lead? || (e.act.Write? && (e.act.d.rule == AdditiveInt || e.act.d.rule == AdditiveFloat
                                                                   || e.act.d.rule == MaxInt || e.act.d.rule == MaxBytes)))
      && (e.act.Write? ==> r.value.op == e.act.d.op)
  {
  }

  // ---------- A whole call ----------

  /** The last effect that counts is a delete; a delete marker as the starting value is one. */
  predicate Erased(seed: Option<Reduced>, es: seq<Event>, i: int) {
    && -1 <= i < |es| && (if i >= 0 then IsDelete(es[i]) else seed.Some? && seed.value.op == Remove)
    && forall j :: i < j < |es| ==> es[j].act.Skipped?
  }

  lemma {:induction false} SkippedLeave(c: Reading, a: Acc, es: seq<Event>, i: nat)
    requires i <= |es| && forall j :: i <= j < |es| ==> es[j].act.Skipped?
    ensures Fold(c, a, es) == Fold(c, a, es[..i])
    decreases |es|
  {
    if i == |es| {
      assert es[..i] == es;
    } else {
      var init := es[..|es| - 1];
      SkippedLeave(c, a, init, i);
      assert init[..i] == es[..i];
    }
  }

  /** A chain that ends in a delete leaves an empty marker with the time of the last effect. */
  lemma ErasedLeavesMarker(c: Reading, seed: Option<Reduced>, es: seq<Event>, i: int)
    requires es != [] && Erased(seed, es, i)
    ensures var r := Flat(c, seed, es);
      && r.Some? && r.value.op == Remove && Visible(r) == NO_VALUE && r.value.removes == {}
      && r.value.stamp == es[|es| - 1].stamp.(hash := 0)
  {
    hide Step;
    SkippedLeave(c, Begin(seed, es), es, i + 1);
    if i >= 0 {
      assert es[..i + 1][..i] == es[..i];
      DeleteStep(c, Fold(c, Begin(seed, es), es[..i]), es[i]);
    }
  }

  /** Otherwise the call shows what the chain comes to, stamped with the time of the last effect and
      the fork-choice hash of the first. */
  lemma CallShowsChain(c: Reading, seed: Option<Reduced>, es: seq<Event>)
    ensures Visible(Flat(c, seed, es)) == Visible(Fold(c, Begin(seed, es), es).r)
    ensures es == [] ==> Flat(c, seed, es) == seed
    ensures es != [] && Fold(c, Begin(seed, es), es).r.Some? ==>
      Flat(c, seed, es).Some? && Flat(c, seed, es).value.stamp == es[|es| - 1].stamp.(hash := es[0].stamp.hash)
    ensures seed.None? || seed.value.op != Remove ==> Begin(seed, es).r == seed
    ensures seed.Some? && seed.value.op == Remove && es != [] ==> Begin(seed, es).r == None
  {
    hide Step;
  }
}
