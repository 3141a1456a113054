/** Reduction of a key with virtual partitions (effects/reduce.go reducePartitioned). */
module ReduceParts {
  import opened Effects
  import opened Reduce
  import opened ReduceLaws

  /** The root value and the values of the non-root partitions. */
  datatype Whole = Whole(root: Option<Reduced>, parts: map<string, Reduced>)

  const NO_WHOLE := Whole(None, map[])

  /** A delete of the whole key: it wipes every partition. */
  predicate IsRootDelete(e: Event) {
    e.part == "" && IsDelete(e) && e.act.d.id == ""
  }

  /** Everything from the last whole-key delete on. */
  function LiveTail(es: seq<Event>): seq<Event> {
    if es == [] then [] else if IsRootDelete(es[|es| - 1]) then [es[|es| - 1]] else LiveTail(es[..|es| - 1]) + [es[|es| - 1]]
  }

  predicate HasDelete(es: seq<Event>) {
    exists i :: 0 <= i < |es| && IsRootDelete(es[i])
  }

  function PartOf(es: seq<Event>, v: string): seq<Event> {
    if es == [] then []
    else PartOf(es[..|es| - 1], v) + if es[|es| - 1].part == v then [es[|es| - 1]] else []
  }

  function SeedOf(s: Whole, v: string): Option<Reduced> {
    if v == "" then s.root else if v in s.parts then Some(s.parts[v]) else None
  }

  /** Partition v of a chain. */
  function Part(c: Reading, seed: Whole, es: seq<Event>, v: string): Option<Reduced> {
    Flat(c, SeedOf(if HasDelete(es) then NO_WHOLE else seed, v), PartOf(LiveTail(es), v))
  }

  // ---------- The walk over a chain ----------

  lemma {:induction false} LiveTailPrefix(es: seq<Event>, i: nat)
    requires i < |es| && IsRootDelete(es[i]) && forall k :: i < k < |es| ==> !IsRootDelete(es[k])
    ensures LiveTail(es) == es[i..]
    decreases |es|
  {
    hide IsRootDelete;
    var n := |es| - 1;
    if i < n {
      var init := es[..n];
      assert init[i] == es[i] && forall k :: i < k < n ==> init[k] == es[k];
      LiveTailPrefix(init, i);
      assert es[i..] == init[i..] + [es[n]];
    } else {
      assert es[i..] == [es[n]];
    }
  }

  lemma {:induction false} LiveTailWhole(es: seq<Event>)
    requires !HasDelete(es)
    ensures LiveTail(es) == es
    decreases |es|
  {
    if es != [] {
      var init := es[..|es| - 1];
      assert !IsRootDelete(es[|es| - 1]);
      assert forall i :: 0 <= i < |init| ==> init[i] == es[i];
      LiveTailWhole(init);
    }
  }

  lemma {:induction false} PartOfNext(es: seq<Event>, i: nat, v: string)
    requires i < |es|
    ensures PartOf(es[..i + 1], v) == PartOf(es[..i], v) + if es[i].part == v then [es[i]] else []
  {
    assert es[..i + 1][..i] == es[..i];
  }

  /** The chains gathered so far, one for each partition met. */
  ghost predicate Gathered(es: seq<Event>, root: seq<Event>, chains: map<string, seq<Event>>) {
    && root == PartOf(es, "") && "" !in chains && (forall v :: v in chains ==> chains[v] == PartOf(es, v) && chains[v] != [])
    && forall v :: v != "" && v !in chains ==> PartOf(es, v) == []
  }

  lemma GatherNext(es: seq<Event>, i: nat, root: seq<Event>, chains: map<string, seq<Event>>)
    requires i < |es| && Gathered(es[..i], root, chains)
    ensures var e := es[i];
      if e.part == "" then Gathered(es[..i + 1], root + [e], chains)
      else Gathered(es[..i + 1], root, chains[e.part := (if e.part in chains then chains[e.part] else []) + [e]])
  {
    hide PartOf;
    forall v ensures PartOf(es[..i + 1], v) == PartOf(es[..i], v) + if es[i].part == v then [es[i]] else [] {
      PartOfNext(es, i, v);
    }
  }

  lemma NothingGathered()
    ensures Gathered([], [], map[])
  {
  }

  /** Reduce each partition on its own. */
  method ReducePartitioned(c: Reading, seed: Whole, es: seq<Event>) returns (out: Whole)
    requires "" !in seed.parts
    ensures forall v :: v != "" ==> SeedOf(out, v) == Part(c, seed, es, v)
    ensures "" !in out.parts && Visible(out.root) == Visible(Part(c, seed, es, ""))
    ensures (out.parts == map[] ==> out.root == Part(c, seed, es, ""))
  {
    hide PartOf, LiveTail, Gathered, Flat;
    var base, live := seed, es;
    var i := |es|;
    while i > 0
      invariant 0 <= i <= |es| && base == seed && live == es && forall k :: i <= k < |es| ==> !IsRootDelete(es[k])
    {
      i := i - 1;
      if IsRootDelete(es[i]) {
        base, live := NO_WHOLE, es[i..];
        LiveTailPrefix(es, i);
        break;
      }
    }
    if !HasDelete(es) {
      LiveTailWhole(es);
    }
    assert live == LiveTail(es) && base == if HasDelete(es) then NO_WHOLE else seed;
    var rootChain: seq<Event>, chains: map<string, seq<Event>> := [], map[];
    NothingGathered();
    assert live[..0] == [];
    for j := 0 to |live|
      invariant Gathered(live[..j], rootChain, chains)
    {
      GatherNext(live, j, rootChain, chains);
      var e := live[j];
      if e.part == "" {
        rootChain := rootChain + [e];
      } else {
        chains := chains[e.part := (if e.part in chains then chains[e.part] else []) + [e]];
      }
    }
    assert live[..|live|] == live;
    var root := ReduceFlatOwned(c, base.root, rootChain);
    var parts := ReduceChains(c, base.parts, chains);
    GatheredParts(c, base, live, rootChain, chains, parts);
    if parts == map[] {
      return Whole(root, parts);
    }
    return Whole(Some(if root.None? then BLANK else root.value), parts);
  }

  ghost predicate PartReduced(c: Reading, seeds: map<string, Reduced>, chains: map<string, seq<Event>>,
                              parts: map<string, Reduced>, v: string) {
    if v in chains then
      var r := Flat(c, if v in seeds then Some(seeds[v]) else None, chains[v]);
      (v in parts <==> r.Some?) && (v in parts ==> parts[v] == r.value)
    else (v in parts <==> v in seeds) && (v in parts ==> parts[v] == seeds[v])
  }

  /** Touched partitions reduce on top of their carried value; the others are carried over. */
  method ReduceChains(c: Reading, seeds: map<string, Reduced>, chains: map<string, seq<Event>>) returns (parts: map<string, Reduced>)
    ensures forall v :: PartReduced(c, seeds, chains, parts, v)
  {
    hide Flat;
    parts := map v | v in seeds && v !in chains :: seeds[v];
    var todo := chains.Keys;
    while todo != {}
      invariant todo <= chains.Keys
      invariant forall v :: v !in todo ==> PartReduced(c, seeds, chains, parts, v)
      invariant forall v :: v in todo ==> v !in parts
    {
      var v :| v in todo;
      todo := todo - {v};
      var r := ReduceFlatOwned(c, if v in seeds then Some(seeds[v]) else None, chains[v]);
      if r.Some? {
        parts := parts[v := r.value];
      }
    }
  }

  lemma GatheredParts(c: Reading, base: Whole, live: seq<Event>, rootChain: seq<Event>, chains: map<string,
                      seq<Event>>, parts: map<string, Reduced>)
    requires Gathered(live, rootChain, chains) && (forall v :: PartReduced(c, base.parts, chains, parts, v)) && "" !in base.parts
    ensures "" !in parts && rootChain == PartOf(live, "")
    ensures forall v :: v != "" ==> (if v in parts then Some(parts[v]) else None) == Flat(c, SeedOf(base, v), PartOf(live, v))
  {
    hide PartOf;
    assert PartReduced(c, base.parts, chains, parts, "");
    forall v | v != "" ensures (if v in parts then Some(parts[v]) else None) == Flat(c, SeedOf(base, v), PartOf(live, v)) {
      assert PartReduced(c, base.parts, chains, parts, v);
      if v !in chains {
        EmptyChain(c, SeedOf(base, v));
      }
    }
  }

  lemma EmptyChain(c: Reading, seed: Option<Reduced>)
    ensures Flat(c, seed, []) == seed
  {
  }

  // ---------- Keys without partitions ----------

  predicate AllRoot(es: seq<Event>) {
    forall i :: 0 <= i < |es| ==> es[i].part == ""
  }

  lemma {:induction false} RootOnly(es: seq<Event>)
    requires AllRoot(es)
    ensures PartOf(es, "") == es
    decreases |es|
  {
    if es != [] {
      var init, e := es[..|es| - 1], es[|es| - 1];
      RootOnly(init);
      assert es == init + [e];
    }
  }

  lemma {:induction false} NothingElse(es: seq<Event>, v: string)
    requires v != "" && AllRoot(es)
    ensures PartOf(es, v) == []
    decreases |es|
  {
    if es != [] {
      NothingElse(es[..|es| - 1], v);
    }
  }

  /** Whatever came before a delete does not matter to what follows. */
  lemma {:induction false} DeleteForgets(c: Reading, a: Acc, es: seq<Event>, i: nat)
    requires i < |es| && IsDelete(es[i])
    ensures Fold(c, a, es) == Fold(c, Acc(None, false), es[i..])
    decreases |es|
  {
    hide Accumulate, OnNote;
    var n := |es| - 1;
    if i < n {
      DeleteForgets(c, a, es[..n], i);
      assert es[..n][i..] == es[i..][..n - i] && es[i..][n - i] == es[n];
    } else {
      assert es[i..] == [es[i]] && [es[i]][..0] == [];
    }
  }

  lemma {:induction false} LastDelete(es: seq<Event>) returns (i: nat)
    requires HasDelete(es)
    ensures i < |es| && IsRootDelete(es[i]) && forall k :: i < k < |es| ==> !IsRootDelete(es[k])
    decreases |es|
  {
    var n := |es| - 1;
    if IsRootDelete(es[n]) {
      i := n;
    } else {
      var k :| 0 <= k < |es| && IsRootDelete(es[k]);
      assert es[..n][k] == es[k];
      i := LastDelete(es[..n]);
    }
  }

  lemma {:induction false} TailIsRoot(es: seq<Event>)
    requires AllRoot(es)
    ensures AllRoot(LiveTail(es))
    decreases |es|
  {
    hide IsRootDelete;
    if es != [] {
      TailIsRoot(es[..|es| - 1]);
    }
  }

  /** On a key without partitions the partitioned path shows what the flat path shows. */
  lemma FlatAgrees(c: Reading, seed: Whole, es: seq<Event>)
    requires seed.parts == map[] && AllRoot(es)
    ensures Visible(Part(c, seed, es, "")) == Visible(Flat(c, seed.root, es)) && forall v :: v != "" ==> Part(c, seed, es, v) == None
  {
    hide Step, LiveTail, PartOf, AllRoot;
    TailIsRoot(es);
    RootOnly(LiveTail(es));
    if HasDelete(es) {
      var i := LastDelete(es);
      LiveTailPrefix(es, i);
      DeleteForgets(c, Begin(seed.root, es), es, i);
      DeleteForgets(c, Begin(None, es[i..]), es[i..], 0);
      assert es[i..][0..] == es[i..];
    } else {
      LiveTailWhole(es);
    }
    forall v | v != "" ensures Part(c, seed, es, v) == None {
      NothingElse(LiveTail(es), v);
      EmptyChain(c, None);
    }
  }

  // ---------- Partitions apart ----------

  lemma TailOn(es: seq<Event>, e: Event)
    requires !IsRootDelete(e)
    ensures LiveTail(es + [e]) == LiveTail(es) + [e] && HasDelete(es + [e]) == HasDelete(es)
  {
    var all := es + [e];
    assert all[..|es|] == es && all[|es|] == e;
    if HasDelete(es) {
      var i :| 0 <= i < |es| && IsRootDelete(es[i]);
      assert IsRootDelete(all[i]);
    }
    if HasDelete(all) {
      var i :| 0 <= i < |all| && IsRootDelete(all[i]);
      assert IsRootDelete(es[i]);
    }
  }

  /** Nothing written to one partition shows in another one, except a delete of the whole key: in
      the root, of a scalar, without an element id. */
  lemma PartsIsolated(c: Reading, seed: Whole, es: seq<Event>, e: Event, w: string)
    requires e.part != w
    requires !(e.part == "" && e.act.Write? && e.act.d.op == Remove && e.act.d.collection == Scalar && e.act.d.id == "")
    ensures Part(c, seed, es + [e], w) == Part(c, seed, es, w)
  {
    hide Flat, LiveTail, HasDelete;
    TailOn(es, e);
    var tail, more := LiveTail(es), LiveTail(es) + [e];
    assert more[..|tail|] == tail && more[|more| - 1] == e;
    assert PartOf(more, w) == PartOf(tail, w) + [] == PartOf(tail, w);
  }

  /** Deleting the whole key empties every partition. */
  lemma RootDeleteWipes(c: Reading, seed: Whole, es: seq<Event>, e: Event, w: string)
    requires e.part == "" && e.act.Write? && e.act.d.op == Remove && e.act.d.collection == Scalar && e.act.d.id == "" && w != ""
    ensures Part(c, seed, es + [e], w) == None
  {
    var all := es + [e];
    assert all[|es|] == e && IsRootDelete(all[|es|]);
    assert LiveTail(all) == [e];
    assert [e][..0] == [];
    assert PartOf([e], w) == PartOf([e][..0], w) == [];
  }
}
