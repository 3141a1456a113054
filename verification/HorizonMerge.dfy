/** Adding a transaction to the horizon: the groups it overlaps become one. */
module HorizonMerge {
  import opened Effects
  import opened Sequences
  import opened Horizon

  /** Halfway through the scan: groups before position i are untouched and apart from the bind,
      merged away, or the target. */
  ghost predicate Scanned(h: State, bind: Bind, i: nat, target: Option<nat>) {
    && i <= |h.order|
    && (forall j :: 0 <= j < i && Active(h, h.order[j]) ==> target == Some(h.order[j]) || !Overlaps(h.group[h.order[j]].bases, bind))
    && (forall j :: i <= j < |h.order| ==> Active(h, h.order[j]))
    && (target.Some? ==> target.value in h.order && target.value !in h.order[i..] && Active(h, target.value))
    && (target.None? ==> forall j :: 0 <= j < i ==> Active(h, h.order[j]))
  }

  /** Each group is connected; the target is once the bind is added. */
  ghost predicate Hubbed(h: State, bind: Bind, target: Option<nat>) {
    forall g :: g in h.order && g in h.group && Active(h, g) ==>
      Connected(if target == Some(g) then BaseSet(h.group[g].bases) + {bind} else BaseSet(h.group[g].bases))
  }

  ghost predicate Merging(h: State, bind: Bind, i: nat, target: Option<nat>) {
    Ordered(h) && Partitioned(h) && Separate(h) && TimersSound(h) && ChannelsSound(h) && Scanned(h, bind, i, target) && Hubbed(h, bind, target)
  }

  lemma StartMerging(h: State, bind: Bind)
    requires Valid(h)
    ensures Merging(h, bind, 0, None)
  {
    hide SharesBase, Connected;
    assert h.order[0..] == h.order;
  }

  lemma SkipKeeps(h: State, bind: Bind, i: nat, target: Option<nat>)
    requires Merging(h, bind, i, target) && i < |h.order| && !Overlaps(h.group[h.order[i]].bases, bind)
    ensures Merging(h, bind, i + 1, target)
  {
    hide SharesBase, Connected, Overlaps;
    assert forall g :: g in h.order[i + 1..] ==> g in h.order[i..];
  }

  lemma TargetFound(h: State, bind: Bind, i: nat)
    requires Merging(h, bind, i, None) && i < |h.order| && Overlaps(h.group[h.order[i]].bases, bind)
    ensures Merging(h, bind, i + 1, Some(h.order[i]))
  {
    hide SharesBase, Connected;
    var g := h.order[i];
    var b :| 0 <= b < |h.group[g].bases| && SharesBase(h.group[g].bases[b], bind);
    assert BaseSet(h.group[g].bases) + {bind} == {} + BaseSet(h.group[g].bases) + {bind};
    assert {} + {bind} == {bind};
    Singleton(bind);
    Join({}, BaseSet(h.group[g].bases), bind, h.group[g].bases[b]);
    assert g !in h.order[i + 1..];
  }

  // ---------- One merge ----------

  lemma BaseSetAppend(a: seq<Bind>, b: seq<Bind>)
    ensures BaseSet(a + b) == BaseSet(a) + BaseSet(b)
  {
  }

  lemma MergeConnects(h: State, bind: Bind, t: nat, g: nat)
    requires t in h.group && g in h.group && t != g && t in h.order && g in h.order && Active(h, t) && Active(h, g)
    requires Hubbed(h, bind, Some(t)) && Overlaps(h.group[g].bases, bind)
    ensures Hubbed(Merge(h, t, g), bind, Some(t))
  {
    hide SharesBase, Connected;
    var b :| 0 <= b < |h.group[g].bases| && SharesBase(h.group[g].bases[b], bind);
    Join(BaseSet(h.group[t].bases), BaseSet(h.group[g].bases), bind, h.group[g].bases[b]);
    BaseSetAppend(h.group[t].bases, h.group[g].bases);
  }

  lemma MergeSeparates(h: State, t: nat, g: nat)
    requires t in h.group && g in h.group && t != g && t in h.order && g in h.order && Active(h, t) && Active(h, g) && Separate(h)
    ensures Separate(Merge(h, t, g))
  {
    hide SharesBase;
    var h2 := Merge(h, t, g);
    forall k, m | k in h2.order && m in h2.order && k != m && Active(h2, k) && Active(h2, m) ensures Apart(h2, k, m) {
      assert Active(h, k) && Active(h, m);
      assert k != g && m != g;
      if k == t {
        assert Apart(h, t, m) && Apart(h, g, m);
      } else if m == t {
        assert Apart(h, k, t) && Apart(h, k, g);
      } else {
        assert Apart(h, k, m);
      }
    }
  }

  lemma DistinctAppend(a: seq<Txn>, b: seq<Txn>)
    requires Distinct(a) && Distinct(b) && forall x :: x in a ==> x !in b
    ensures Distinct(a + b)
  {
    forall i, j | 0 <= i < j < |a + b| ensures (a + b)[i] != (a + b)[j] {
      if i < |a| <= j {
        assert a[i] in a && b[j - |a|] in b;
      }
    }
  }

  lemma MergePlaced(h: State, t: nat, g: nat, x: Txn)
    requires t in h.group && g in h.group && t != g && t in h.order && x in h.entries && Placed(h, x, h.entries[x])
    requires forall y :: y in h.group[g].members && y in h.entries ==> h.entries[y].group == g
    ensures Placed(Merge(h, t, g), x, Merge(h, t, g).entries[x])
  {
  }

  lemma MergeMembers(h: State, t: nat, g: nat)
    requires t in h.group && g in h.group && t != g && t in h.order && g in h.order && Partitioned(h)
    ensures var h2 := Merge(h, t, g); forall k, x :: k in h2.order && k in h2.group && x in h2.group[k].members ==>
      x in h2.entries && h2.entries[x].group == k
    ensures Distinct(h.group[t].members + h.group[g].members)
  {
    hide Placed;
    forall x | x in h.group[t].members ensures x !in h.group[g].members {
      assert h.entries[x].group == t;
    }
    DistinctAppend(h.group[t].members, h.group[g].members);
  }

  lemma MergePartitions(h: State, t: nat, g: nat)
    requires t in h.group && g in h.group && t != g && t in h.order && g in h.order && Partitioned(h)
    ensures Partitioned(Merge(h, t, g))
  {
    hide Placed;
    var h2 := Merge(h, t, g);
    MergeMembers(h, t, g);
    forall x | x in h2.entries ensures Placed(h2, x, h2.entries[x]) {
      MergePlaced(h, t, g, x);
    }
  }

  lemma MergeTimers(h: State, t: nat, g: nat)
    requires t in h.group && g in h.group && t != g && TimersSound(h)
    ensures TimersSound(Merge(h, t, g))
  {
    hide SharesBase;
  }

  lemma MergeScans(h: State, bind: Bind, i: nat, t: nat)
    requires Merging(h, bind, i, Some(t)) && i < |h.order| && Overlaps(h.group[h.order[i]].bases, bind)
    ensures t != h.order[i] && t in h.group && Scanned(Merge(h, t, h.order[i]), bind, i + 1, Some(t))
  {
    hide SharesBase, Connected, Overlaps;
    assert h.order[i] in h.order[i..];
    assert forall g :: g in h.order[i + 1..] ==> g in h.order[i..];
  }

  lemma MergeKeeps(h: State, bind: Bind, i: nat, t: nat)
    requires Merging(h, bind, i, Some(t)) && i < |h.order| && Overlaps(h.group[h.order[i]].bases, bind)
    ensures t in h.group && Merging(Merge(h, t, h.order[i]), bind, i + 1, Some(t))
  {
    hide SharesBase, Connected, Overlaps, Hubbed, Separate, Partitioned, TimersSound;
    MergeScans(h, bind, i, t);
    var g := h.order[i];
    MergeConnects(h, bind, t, g);
    MergeSeparates(h, t, g);
    MergePartitions(h, t, g);
    MergeTimers(h, t, g);
    MergeRest(h, t, g);
  }

  lemma MergeRest(h: State, t: nat, g: nat)
    requires t in h.group && g in h.group && Ordered(h) && ChannelsSound(h)
    ensures Ordered(Merge(h, t, g)) && ChannelsSound(Merge(h, t, g))
  {
  }

  lemma {:induction false} GatherKeeps(h: State, bind: Bind, i: nat, target: Option<nat>)
    requires Merging(h, bind, i, target) && (target.Some? ==> target.value in h.group)
    ensures var (h2, t2) := Gather(h, bind, i, target); Merging(h2, bind, |h2.order|, t2) && (t2.Some? ==> t2.value in h2.group)
    decreases |h.order| - i
  {
    hide SharesBase, Connected, Overlaps, Hubbed, Separate, Partitioned, TimersSound, ChannelsSound;
    if i < |h.order| {
      if !Overlaps(h.group[h.order[i]].bases, bind) {
        SkipKeeps(h, bind, i, target);
        GatherKeeps(h, bind, i + 1, target);
      } else if target.None? {
        TargetFound(h, bind, i);
        GatherKeeps(h, bind, i + 1, Some(h.order[i]));
      } else {
        MergeKeeps(h, bind, i, target.value);
        GatherKeeps(Merge(h, target.value, h.order[i]), bind, i + 1, target);
      }
    }
  }

  // ---------- Pruning ----------

  lemma {:induction false} ActiveOnlyHolds(h: State, order: seq<nat>)
    requires Distinct(order)
    ensures Distinct(ActiveOnly(h, order)) && forall g :: g in ActiveOnly(h, order) <==> g in order && Active(h, g)
  {
    if order != [] {
      assert forall i, j :: 0 <= i < j < |order[1..]| ==> order[1..][i] == order[i + 1] && order[1..][j] == order[j + 1];
      ActiveOnlyHolds(h, order[1..]);
      var rest := ActiveOnly(h, order[1..]);
      assert forall g :: g in rest ==> g in order[1..] && g != order[0];
    }
  }

  lemma PrunePartitions(h: State)
    requires Ordered(h) && Partitioned(h)
    ensures Ordered(Prune(h)) && Partitioned(Prune(h))
  {
    hide ActiveOnly;
    ActiveOnlyHolds(h, h.order);
    var h2 := Prune(h);
    forall x | x in h2.entries ensures Placed(h2, x, h2.entries[x]) {
      assert Placed(h, x, h.entries[x]);
    }
  }

  /** Pruning drops nothing but empty groups. */
  lemma PruneKeeps(h: State)
    requires Ordered(h) && Partitioned(h) && Separate(h) && TimersSound(h) && ChannelsSound(h)
    ensures var h2 := Prune(h);
      && Ordered(h2) && Partitioned(h2) && Separate(h2) && TimersSound(h2) && ChannelsSound(h2)
      && (forall g :: g in h2.order <==> g in h.order && Active(h, g)) && (forall g :: g in h2.order ==> h2.group[g] == h.group[g])
  {
    hide SharesBase, ActiveOnly, Partitioned;
    PrunePartitions(h);
    ActiveOnlyHolds(h, h.order);
    var h2 := Prune(h);
    forall g, k | g in h2.order && k in h2.order && g != k && Active(h2, g) && Active(h2, k) ensures Apart(h2, g, k) {
      assert Apart(h, g, k);
    }
  }

  // ---------- Entering ----------

  lemma EnterPartitions(h: State, x: Txn, bind: Bind, t: nat)
    requires Partitioned(h) && t in h.group && t in h.order && x !in h.entries
    ensures Partitioned(Enter(h, x, bind, t))
  {
    var h2 := Enter(h, x, bind, t);
    assert x !in h.group[t].members;
    DistinctAppend(h.group[t].members, [x]);
    forall y | y in h2.entries ensures Placed(h2, y, h2.entries[y]) {
      if y != x {
        assert Placed(h, y, h.entries[y]);
      }
    }
  }

  lemma EnterSeparates(h: State, x: Txn, bind: Bind, t: nat)
    requires Separate(h) && t in h.group && t in h.order && (forall g :: g in h.order ==> g in h.group)
    requires forall g :: g in h.order && g != t ==> Active(h, g) && !Overlaps(h.group[g].bases, bind)
    requires Active(h, t) || h.group[t].bases == []
    ensures Separate(Enter(h, x, bind, t))
  {
    hide SharesBase;
    var h2 := Enter(h, x, bind, t);
    forall g, k | g in h2.order && k in h2.order && g != k ensures Apart(h2, g, k) {
      if g == t {
        ApartFromBind(h.group[k].bases, bind);
        assert h.group[t].bases != [] ==> Apart(h, t, k);
      } else if k == t {
        ApartFromBind(h.group[g].bases, bind);
        assert h.group[t].bases != [] ==> Apart(h, g, t);
      } else {
        assert Apart(h, g, k);
      }
    }
  }

  lemma ApartFromBind(bases: seq<Bind>, bind: Bind)
    requires !Overlaps(bases, bind)
    ensures forall a :: a in bases ==> !SharesBase(a, bind) && !SharesBase(bind, a)
  {
    forall a | a in bases ensures !SharesBase(a, bind) && !SharesBase(bind, a) {
      SharesBaseSymmetric(a, bind);
    }
  }

  lemma EnterRest(h: State, x: Txn, bind: Bind, t: nat)
    requires Ordered(h) && TimersSound(h) && ChannelsSound(h) && t in h.group && x !in h.entries
    ensures Ordered(Enter(h, x, bind, t)) && TimersSound(Enter(h, x, bind, t)) && ChannelsSound(Enter(h, x, bind, t))
  {
  }

  /** The horizon with one more bind. A transaction already held is not entered again. */
  ghost function Added(h: State, x: Txn, bind: Bind): State
    requires Valid(h)
  {
    StartMerging(h, bind);
    GatherKeeps(h, bind, 0, None);
    var (h1, t) := Gather(h, bind, 0, None);
    if x in h.entries then h
    else if t.None? then Enter(NewGroup(h1), x, bind, h1.nextGroup)
    else Enter(Prune(h1), x, bind, t.value)
  }

  lemma JoinedValid(h: State, x: Txn, bind: Bind, t: nat)
    requires Merging(h, bind, |h.order|, Some(t)) && t in h.group && x !in h.entries
    ensures Valid(Enter(Prune(h), x, bind, t))
  {
    hide SharesBase, Connected, Overlaps, Partitioned, Separate, TimersSound, ChannelsSound;
    PruneKeeps(h);
    var h1 := Prune(h);
    assert t in h1.group && t in h1.order;
    forall g | g in h1.order && g != t ensures Active(h1, g) && !Overlaps(h1.group[g].bases, bind) {
      var j :| 0 <= j < |h.order| && h.order[j] == g;
      assert Active(h, h.order[j]);
    }
    EnterPartitions(h1, x, bind, t);
    EnterSeparates(h1, x, bind, t);
    EnterRest(h1, x, bind, t);
    EnterConnects(h, h1, x, bind, t);
  }

  lemma EnterConnects(h: State, h1: State, x: Txn, bind: Bind, t: nat)
    requires Hubbed(h, bind, Some(t)) && t in h1.group
    requires (forall g :: g in h1.order ==> g in h.order && g in h.group && Active(h, g) && g in h1.group && h1.group[g] == h.group[g])
    ensures var h2 := Enter(h1, x, bind, t); forall g :: g in h2.order ==> Active(h2, g) && Connected(BaseSet(h2.group[g].bases))
  {
    hide Connected;
    BaseSetAppend(h1.group[t].bases, [bind]);
    assert BaseSet([bind]) == {bind};
  }

  lemma NewGroupOrdered(h: State)
    requires Ordered(h)
    ensures Ordered(NewGroup(h)) && h.nextGroup !in h.order && h.nextGroup !in h.group
  {
    var h1 := NewGroup(h);
    forall i, j | 0 <= i < j < |h1.order| ensures h1.order[i] != h1.order[j] {
      assert h.order[i] in h.order;
    }
  }

  /** An empty group changes nothing. */
  lemma NewGroupKeeps(h: State)
    requires Partitioned(h) && Separate(h) && TimersSound(h) && ChannelsSound(h) && h.nextGroup !in h.order && h.nextGroup !in h.group
    ensures var h1 := NewGroup(h); Partitioned(h1) && Separate(h1) && TimersSound(h1) && ChannelsSound(h1)
  {
    hide SharesBase;
    var h1 := NewGroup(h);
    forall y | y in h1.entries ensures Placed(h1, y, h1.entries[y]) {
      assert Placed(h, y, h.entries[y]);
    }
    forall g, k | g in h1.order && k in h1.order && g != k && Active(h1, g) && Active(h1, k) ensures Apart(h1, g, k) {
      assert Apart(h, g, k);
    }
  }

  lemma FoundedValid(h: State, x: Txn, bind: Bind)
    requires Merging(h, bind, |h.order|, None) && x !in h.entries
    ensures Valid(Enter(NewGroup(h), x, bind, h.nextGroup))
  {
    hide SharesBase, Connected, Overlaps, Partitioned, Separate, TimersSound, ChannelsSound, Hubbed;
    var h1, t := NewGroup(h), h.nextGroup;
    NewGroupOrdered(h);
    NewGroupKeeps(h);
    forall g | g in h1.order && g != t ensures Active(h1, g) && !Overlaps(h1.group[g].bases, bind) {
      var j :| 0 <= j < |h.order| && h.order[j] == g;
      assert Active(h, h.order[j]);
    }
    EnterPartitions(h1, x, bind, t);
    EnterSeparates(h1, x, bind, t);
    EnterRest(h1, x, bind, t);
    FoundedConnects(h, x, bind);
  }

  lemma FoundedConnects(h: State, x: Txn, bind: Bind)
    requires Hubbed(h, bind, None) && h.nextGroup !in h.group && forall g :: g in h.order ==> g in h.group && Active(h, g)
    ensures var h2 := Enter(NewGroup(h), x, bind, h.nextGroup); forall g :: g in h2.order ==> Active(h2, g) && Connected(BaseSet(h2.group[g].bases))
  {
    hide Connected;
    Singleton(bind);
    assert BaseSet([] + [bind]) == {bind};
  }

  /** Groups stay the connected components of the retained binds. */
  lemma AddedValid(h: State, x: Txn, bind: Bind)
    requires Valid(h)
    ensures Valid(Added(h, x, bind))
  {
    hide Merging, Partitioned, Separate, TimersSound, ChannelsSound, Connected;
    StartMerging(h, bind);
    GatherKeeps(h, bind, 0, None);
    GatherEntries(h, bind, 0, None);
    var (h1, t) := Gather(h, bind, 0, None);
    if x !in h.entries {
      if t.None? {
        FoundedValid(h1, x, bind);
      } else {
        JoinedValid(h1, x, bind, t.value);
      }
    }
  }

  /** Merging groups enters and removes nobody. */
  lemma {:induction false} GatherEntries(h: State, bind: Bind, i: nat, target: Option<nat>)
    requires (forall g :: g in h.order ==> g in h.group) && (target.Some? ==> target.value in h.group)
    ensures var (h2, _) := Gather(h, bind, i, target); h2.entries.Keys == h.entries.Keys && h2.closed == h.closed && h2.pending == h.pending
    decreases |h.order| - i
  {
    hide Overlaps;
    if i < |h.order| {
      if !Overlaps(h.group[h.order[i]].bases, bind) {
        GatherEntries(h, bind, i + 1, target);
      } else if target.None? {
        GatherEntries(h, bind, i + 1, Some(h.order[i]));
      } else {
        GatherEntries(Merge(h, target.value, h.order[i]), bind, i + 1, target);
      }
    }
  }
}
