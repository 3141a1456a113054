/** The horizon as the engine holds it: fields changed in place under one lock. */
module HorizonObject {
  import opened Effects
  import opened Sequences
  import opened Horizon
  import opened HorizonMerge
  import opened HorizonResolve

  lemma {:induction false} ActiveOnlyAppend(h: State, a: seq<nat>, b: seq<nat>)
    ensures ActiveOnly(h, a + b) == ActiveOnly(h, a) + ActiveOnly(h, b)
  {
    if a == [] {
      assert a + b == b;
    } else {
      ActiveOnlyAppend(h, a[1..], b);
      assert (a + b)[1..] == a[1..] + b;
    }
  }

  lemma ActiveOnlyNext(h: State, order: seq<nat>, i: nat)
    requires i < |order|
    ensures ActiveOnly(h, order[..i + 1]) == ActiveOnly(h, order[..i]) + if Active(h, order[i]) then [order[i]] else []
  {
    assert order[..i + 1] == order[..i] + [order[i]];
    ActiveOnlyAppend(h, order[..i], [order[i]]);
    assert ActiveOnly(h, [order[i]]) == if Active(h, order[i]) then [order[i]] else [];
  }

  lemma AddedKeys(h: State, x: Txn, bind: Bind)
    requires Valid(h)
    ensures var h2 := Added(h, x, bind); h2.closed == h.closed && h2.pending == h.pending && h2.entries.Keys == h.entries.Keys + {x}
  {
    hide Valid, Gather;
    HasGroups(h);
    GatherEntries(h, bind, 0, None);
  }

  lemma HasGroups(h: State)
    requires Valid(h)
    ensures Ordered(h) && forall g :: g in h.order ==> g in h.group
  {
    hide Connected;
  }

  ghost predicate MergeReady(h: State, t: nat, g: nat) {
    && t in h.group && g in h.group && t != g && (forall x :: x in h.group[g].members ==> x in h.entries)
    && (h.group[g].timer.Some? ==> h.group[g].timer.value in h.timerGroup) && t in Merge(h, t, g).group
  }

  lemma PrunedHas(h: State, t: nat)
    requires t in h.group
    ensures t in Prune(h).group
  {
  }

  /** What one group of the scan does. */
  lemma ScanStep(h: State, bind: Bind, i: nat, target: Option<nat>)
    requires Merging(h, bind, i, target) && i < |h.order| && (target.Some? ==> target.value in h.group)
    ensures h.order[i] in h.group
    ensures !Overlaps(h.group[h.order[i]].bases, bind) ==>
      Merging(h, bind, i + 1, target) && Gather(h, bind, i, target) == Gather(h, bind, i + 1, target)
    ensures Overlaps(h.group[h.order[i]].bases, bind) && target.None? ==>
      Merging(h, bind, i + 1, Some(h.order[i])) && Gather(h, bind, i, target) == Gather(h, bind, i + 1, Some(h.order[i]))
    ensures Overlaps(h.group[h.order[i]].bases, bind) && target.Some? ==>
      && MergeReady(h, target.value, h.order[i])
      && Merging(Merge(h, target.value, h.order[i]), bind, i + 1, target)
      && Gather(h, bind, i, target) == Gather(Merge(h, target.value, h.order[i]), bind, i + 1, target)
  {
    hide Overlaps, Hubbed, Separate, ChannelsSound;
    var g := h.order[i];
    if !Overlaps(h.group[g].bases, bind) {
      SkipKeeps(h, bind, i, target);
    } else if target.None? {
      TargetFound(h, bind, i);
    } else {
      MergeScans(h, bind, i, target.value);
      MergeKeeps(h, bind, i, target.value);
    }
  }

  lemma GatherDone(h: State, bind: Bind, target: Option<nat>)
    requires Ordered(h) && (target.Some? ==> target.value in h.group)
    ensures Gather(h, bind, |h.order|, target) == (h, target)
  {
  }

  lemma HoldKeeps(h: State, t: Tip)
    requires Valid(h)
    ensures Valid(h.(pending := h.pending + {t}))
  {
    hide Connected, SharesBase, Distinct;
    var h2 := h.(pending := h.pending + {t});
    forall x | x in h2.entries ensures Placed(h2, x, h2.entries[x]) {
      assert Placed(h, x, h.entries[x]);
    }
    forall g, k | g in h2.order && k in h2.order && g != k && Active(h2, g) && Active(h2, k) ensures Apart(h2, g, k) {
      assert Active(h, g) && Active(h, k) && Apart(h, g, k);
    }
    forall g | g in h2.order ensures Active(h2, g) {
      assert Active(h, g);
    }
  }

  class HorizonSet {
    var order: seq<nat>
    var group: map<nat, Group>
    var entries: map<Txn, Entry>
    var timerGroup: map<nat, nat>
    var nextGroup: nat
    var nextTimer: nat
    var nextChannel: nat
    var closed: seq<nat>
    var pending: set<Tip>

    function Value(): State
      reads this
    {
      State(order, group, entries, timerGroup, nextGroup, nextTimer, nextChannel, closed, pending)
    }

    constructor ()
      ensures Valid(Value()) && entries == map[] && closed == []
    {
      order, group, entries, timerGroup := [], map[], map[], map[];
      nextGroup, nextTimer, nextChannel, closed, pending := 0, 0, 0, [], {};
    }

    /** A transaction's tip arrives or is written; it is held back until its bind is resolved. */
    method Hold(t: Tip)
      requires Valid(Value())
      modifies `pending
      ensures Valid(Value()) && pending == old(pending) + {t}
    {
      hide Partitioned, Separate, ChannelsSound, TimersSound, Connected;
      HoldKeeps(Value(), t);
      pending := pending + {t};
    }

    method OverlapsAny(bases: seq<Bind>, bind: Bind) returns (r: bool)
      ensures r <==> Overlaps(bases, bind)
    {
      for i := 0 to |bases|
        invariant forall j :: 0 <= j < i ==> !SharesBase(bases[j], bind)
      {
        r := BindsShareBase(bases[i], bind);
        if r {
          return;
        }
      }
      return false;
    }

    method PruneGroups()
      requires Ordered(Value())
      modifies `order, `group
      ensures Value() == Prune(old(Value()))
    {
      hide ActiveOnly;
      ghost var h := Value();
      var rest := [];
      NoneActive(h);
      for i := 0 to |order|
        invariant order == h.order && rest == ActiveOnly(h, h.order[..i]) && group.Keys == h.group.Keys
        invariant forall g :: g in group ==> group[g] == if g in h.order[..i] && !Active(h, g) then Group([], [], None) else h.group[g]
      {
        var g := order[i];
        ActiveOnlyNext(h, h.order, i);
        assert h.order[..i + 1] == h.order[..i] + [g];
        if group[g].members == [] {
          group := group[g := Group([], [], None)];
        } else {
          rest := rest + [g];
        }
      }
      assert h.order[..|h.order|] == h.order;
      order := rest;
      assert group == Prune(h).group;
    }

    lemma NoneActive(h: State)
      ensures ActiveOnly(h, h.order[..0]) == []
    {
    }

    /** Hand the entries, bases and, if needed, the timer of one group to another. */
    method MergeGroups(t: nat, g: nat)
      requires t in group && g in group && t != g && forall x :: x in group[g].members ==> x in entries
      requires group[g].timer.Some? ==> group[g].timer.value in timerGroup
      modifies `entries, `group, `timerGroup
      ensures Value() == Merge(old(Value()), t, g)
    {
      ghost var h := Value();
      var into, from := group[t], group[g];
      for i := 0 to |from.members|
        invariant group == h.group && timerGroup == h.timerGroup && entries.Keys == h.entries.Keys
        invariant forall x :: x in entries ==> entries[x] == if x in from.members[..i] then h.entries[x].(group := t) else h.entries[x]
      {
        var x := from.members[i];
        assert from.members[..i + 1] == from.members[..i] + [x];
        entries := entries[x := entries[x].(group := t)];
      }
      assert from.members[..|from.members|] == from.members;
      assert entries == Merge(h, t, g).entries;
      group := group[t := Group(into.members + from.members, into.bases + from.bases, into.timer)][g := Group([], from.bases, from.timer)];
      if into.timer.None? && from.timer.Some? {
        group := group[t := group[t].(timer := from.timer)][g := group[g].(timer := None)];
        timerGroup := timerGroup[from.timer.value := t];
      }
      assert group == Merge(h, t, g).group;
    }

    /** Hold a bind invisible. Binds that share a base end up in one group. */
    method Add(x: Txn, bind: Bind)
      requires Valid(Value())
      modifies this
      ensures Valid(Value()) && Value() == Added(old(Value()), x, bind)
      ensures KeepsFallbacks(old(Value()), Value()) && DeadStays(old(Value()), Value())
      ensures closed == old(closed) && pending == old(pending) && entries.Keys == old(entries.Keys) + {x}
    {
      hide Valid, Overlaps, Gather, Prune, KeepsFallbacks, DeadStays, Merge, Scanned, Hubbed, Partitioned, Separate,
           TimersSound, ChannelsSound;
      ghost var h := Value();
      AddedValid(h, x, bind);
      AddedTimers(h, x, bind);
      AddedKeys(h, x, bind);
      if x in entries {
        return;
      }
      var target: Option<nat> := None;
      StartMerging(h, bind);
      for i := 0 to |order|
        invariant |order| == |h.order| && Merging(Value(), bind, i, target) && (target.Some? ==> target.value in group)
        invariant Gather(Value(), bind, i, target) == Gather(h, bind, 0, None)
      {
        ScanStep(Value(), bind, i, target);
        var overlaps := OverlapsAny(group[order[i]].bases, bind);
        if !overlaps {
        } else if target.None? {
          target := Some(order[i]);
        } else {
          MergeGroups(target.value, order[i]);
        }
      }
      GatherDone(Value(), bind, target);
      if target.None? {
        target := Some(nextGroup);
        order := order + [nextGroup];
        group := group[nextGroup := Group([], [], None)];
        nextGroup := nextGroup + 1;
      } else {
        PrunedHas(Value(), target.value);
        PruneGroups();
      }
      var g := group[target.value];
      entries := entries[x := Entry(target.value, bind, nextChannel)];
      nextChannel := nextChannel + 1;
      group := group[target.value := Group(g.members + [x], g.bases + [bind], g.timer)];
    }

    /** Release one transaction. Its channel is open until now. */
    method ResolveEntry(x: Txn)
      requires x in entries
      modifies `pending, `entries, `closed
      ensures Value() == Resolve(old(Value()), x)
    {
      var e := entries[x];
      ghost var tips := pending;
      for i := 0 to |e.bind|
        invariant pending == tips - NewTipsOf(e.bind[..i]) && entries == old(entries) && closed == old(closed)
      {
        assert e.bind[..i + 1] == e.bind[..i] + [e.bind[i]];
        pending := pending - {e.bind[i].newTip};
      }
      assert e.bind[..|e.bind|] == e.bind;
      entries := entries - {x};
      closed := closed + [e.channel];
    }

    /** Release every member of a group, in order. */
    method MakeGroupVisible(g: nat)
      requires Valid(Value()) && g in order
      modifies this
      ensures g in old(group) && Splits(old(Value()), g, [], old(group[g].members))
      ensures forall x :: x in old(group[g].members) ==> x in old(entries) && old(entries)[x].group == g
      ensures Valid(Value()) && Value() == Prune(Withdraw(old(Value()), g, [], old(group[g].members)))
      ensures KeepsFallbacks(old(Value()), Value()) && DeadStays(old(Value()), Value())
    {
      hide Valid, Prune, Withdraw, KeepsFallbacks, DeadStays, LiveTimer;
      ghost var h := Value();
      WholeGroup(h, g);
      var members := group[g].members;
      for i := 0 to |members|
        invariant Rest(Value(), members, i) && ResolveAll(Value(), members[i..]) == ResolveAll(h, members) && order == h.order && group == h.group
      {
        ResolveNext(Value(), members, i);
        ResolveEntry(members[i]);
      }
      ResolveEnd(Value(), members);
      group := group[g := group[g].(members := [])];
      WithdrawnValid(h, g, [], members);
      WithdrawnTimers(h, g, [], members);
      WithdrawKeepsOrder(h, g, [], members);
      assert Value() == Withdraw(h, g, [], members);
      PruneGroups();
    }

    /** Promote the whole group of a transaction; nothing happens if it is not held. */
    method MakeVisible(x: Txn)
      requires Valid(Value())
      modifies this
      ensures Valid(Value()) && KeepsFallbacks(old(Value()), Value()) && DeadStays(old(Value()), Value())
      ensures x !in old(entries) ==> Value() == old(Value())
      ensures x in old(entries) ==> GroupReleased(old(Value()), old(entries)[x].group, Value())
    {
      hide Prune, Withdraw, KeepsFallbacks, DeadStays, LiveTimer, GroupReleased;
      SameTimers(Value());
      if x in entries {
        ghost var h := Value();
        var g := entries[x].group;
        EntryPlaced(h, x);
        ReleaseIsWhole(h, g);
        MakeGroupVisible(g);
      }
    }

    /** Schedule the fallback of a transaction's group, superseding an earlier one. */
    method ScheduleMakeVisible(x: Txn) returns (timer: Option<nat>)
      requires Valid(Value())
      modifies this
      ensures Valid(Value()) && KeepsFallbacks(old(Value()), Value()) && DeadStays(old(Value()), Value())
      ensures timer.Some? <==> x in old(entries)
      ensures timer.None? ==> Value() == old(Value())
      ensures timer.Some? ==> timer.value == old(nextTimer) && Supersedes(old(Value()), x, Value()) && HasFallback(Value(), x)
      ensures entries == old(entries) && closed == old(closed) && pending == old(pending)
    {
      hide KeepsFallbacks, DeadStays, Valid, LiveTimer, HasFallback, Supersedes;
      SameTimers(Value());
      if x !in entries {
        return None;
      }
      ScheduledSound(Value(), x);
      timer := Some(nextTimer);
      var g := entries[x].group;
      group := group[g := group[g].(timer := timer)];
      timerGroup := timerGroup[nextTimer := g];
      nextTimer := nextTimer + 1;
    }

    /** A timer callback. It acts only while its group still owns the timer. */
    method Fire(timer: nat)
      requires Valid(Value()) && timer in timerGroup
      modifies this
      ensures Valid(Value()) && KeepsFallbacks(old(Value()), Value()) && DeadStays(old(Value()), Value())
      ensures !LiveTimer(old(Value()), timer) ==> Value() == old(Value())
      ensures LiveTimer(old(Value()), timer) ==> GroupReleased(old(Value()), old(timerGroup)[timer], Value())
    {
      hide Prune, Withdraw, KeepsFallbacks, DeadStays, GroupReleased;
      SameTimers(Value());
      TimerGroupKnown(Value(), timer);
      var g := timerGroup[timer];
      if group[g].timer == Some(timer) {
        LiveGroupListed(Value(), g);
        ReleaseIsWhole(Value(), g);
        MakeGroupVisible(g);
      }
    }

    /** Release one transaction without its group. */
    method Abort(x: Txn)
      requires Valid(Value())
      modifies this
      ensures Valid(Value()) && KeepsFallbacks(old(Value()), Value()) && DeadStays(old(Value()), Value())
      ensures x !in old(entries) ==> Value() == old(Value())
      ensures x in old(entries) ==>
        && closed == old(closed) + [old(entries)[x].channel] && entries == old(entries) - {x}
        && pending == old(pending) - NewTipsOf(old(entries)[x].bind)
    {
      hide Prune, Withdraw, KeepsFallbacks, DeadStays, LiveTimer, ResolveAll;
      SameTimers(Value());
      if x in entries {
        ghost var h := Value();
        EntryPlaced(h, x);
        var g := entries[x].group;
        var i := IndexOf(group[g].members, x);
        var keep := group[g].members[..i] + group[g].members[i + 1..];
        OneGone(h, g, x, i);
        group := group[g := group[g].(members := keep)];
        ResolveEntry(x);
        WithdrawnValid(h, g, keep, [x]);
        WithdrawnTimers(h, g, keep, [x]);
        WithdrawKeepsOrder(h, g, keep, [x]);
        assert Value() == Withdraw(h, g, keep, [x]);
        PruneGroups();
        PruneOnlyGroups(Withdraw(h, g, keep, [x]));
      }
    }
  }

  method IndexOf(s: seq<Txn>, x: Txn) returns (i: nat)
    requires x in s
    ensures i < |s| && s[i] == x
  {
    i := 0;
    while s[i] != x
      invariant i < |s| && x in s[i..]
      decreases |s| - i
    {
      assert s[i..] == [s[i]] + s[i + 1..];
      i := i + 1;
    }
  }

  /** Every member of g, and nobody else, has left: entry, pending tips and channel together. */
  ghost predicate GroupReleased(h: State, g: nat, h2: State) {
    && g in h.group && (forall x :: x in h.group[g].members ==> x in h.entries && h.entries[x].group == g)
    && (forall x :: x in h2.entries <==> x in h.entries && h.entries[x].group != g)
    && h2.closed == h.closed + ChannelsOf(h, h.group[g].members) && h2.pending == h.pending - TipsOf(h, h.group[g].members)
  }

  lemma PruneOnlyGroups(h: State)
    ensures var h2 := Prune(h); h2.entries == h.entries && h2.closed == h.closed && h2.pending == h.pending
  {
  }

  lemma SameTimers(h: State)
    ensures KeepsFallbacks(h, h) && DeadStays(h, h)
  {
  }

  lemma EntryPlaced(h: State, x: Txn)
    requires Valid(h) && x in h.entries
    ensures h.entries[x].group in h.order && h.entries[x].group in h.group && x in h.group[h.entries[x].group].members
  {
    hide Connected, Separate, TimersSound, ChannelsSound;
    assert Placed(h, x, h.entries[x]);
  }

  lemma TimerGroupKnown(h: State, t: nat)
    requires Valid(h) && t in h.timerGroup
    ensures h.timerGroup[t] in h.group
  {
    hide Connected, Separate, Partitioned, ChannelsSound;
  }

  /** Only listed groups own timers. */
  lemma LiveGroupListed(h: State, g: nat)
    requires Valid(h) && g in h.group && h.group[g].timer.Some?
    ensures g in h.order
  {
    hide Connected, Separate, TimersSound, ChannelsSound;
  }

  lemma ReleaseIsWhole(h: State, g: nat)
    requires Valid(h) && g in h.order
    ensures g in h.group && Splits(h, g, [], h.group[g].members) && (forall x :: x in h.group[g].members ==> x in h.entries)
    ensures GroupReleased(h, g, Prune(Withdraw(h, g, [], h.group[g].members)))
  {
    hide Connected, Separate, TimersSound, ChannelsSound, ChannelsOf, TipsOf, Prune;
    WholeGroup(h, g);
    ResolveAllIs(h, h.group[g].members);
    PruneOnlyGroups(Withdraw(h, g, [], h.group[g].members));
    forall x | x in h.entries ensures x in h.group[g].members <==> h.entries[x].group == g {
      assert Placed(h, x, h.entries[x]);
    }
  }

  lemma ScheduledSound(h: State, x: Txn)
    requires Valid(h) && x in h.entries
    ensures h.entries[x].group in h.group && h.nextTimer !in h.timerGroup
    ensures var h2 := Scheduled(h, x); Valid(h2) && DeadStays(h, h2) && KeepsFallbacks(h, h2) && Supersedes(h, x, h2) && HasFallback(h2, x)
  {
    hide Connected, Separate, Partitioned, ChannelsSound;
    ScheduledValid(h, x);
    ScheduledTimers(h, x);
  }

  lemma RemoveAt(s: seq<Txn>, i: nat)
    requires Distinct(s) && i < |s|
    ensures var keep := s[..i] + s[i + 1..]; Distinct(keep) && (forall y :: y in s <==> y in keep || y == s[i]) && s[i] !in keep
  {
    var keep := s[..i] + s[i + 1..];
    assert s == s[..i] + [s[i]] + s[i + 1..];
    forall a, b | 0 <= a < b < |keep| ensures keep[a] != keep[b] {
      var a', b' := if a < i then a else a + 1, if b < i then b else b + 1;
      assert keep[a] == s[a'] && keep[b] == s[b'];
    }
    forall a | 0 <= a < |keep| ensures keep[a] != s[i] {
      var a' := if a < i then a else a + 1;
      assert keep[a] == s[a'];
    }
  }

  lemma ResolveOne(h: State, x: Txn)
    requires x in h.entries
    ensures Distinct([x]) && ResolveAll(h, [x]) == Resolve(h, x)
  {
    assert [x][1..] == [];
    assert ResolveAll(Resolve(h, x), []) == Resolve(h, x);
  }

  lemma OneGone(h: State, g: nat, x: Txn, i: nat)
    requires Valid(h) && x in h.entries && h.entries[x].group == g && g in h.order && g in h.group
    requires i < |h.group[g].members| && h.group[g].members[i] == x
    ensures Ordered(h) && Distinct([x]) && Splits(h, g, h.group[g].members[..i] + h.group[g].members[i + 1..], [x])
    ensures ResolveAll(h, [x]) == Resolve(h, x)
  {
    hide Connected, Separate, TimersSound, ChannelsSound, ResolveAll;
    RemoveAt(h.group[g].members, i);
    ResolveOne(h, x);
  }

  ghost predicate Rest(h: State, members: seq<Txn>, i: nat) {
    i <= |members| && Distinct(members[i..]) && forall x :: x in members[i..] ==> x in h.entries
  }

  lemma WholeGroup(h: State, g: nat)
    requires Valid(h) && g in h.order
    ensures Ordered(h) && g in h.group && Splits(h, g, [], h.group[g].members) && Rest(h, h.group[g].members, 0)
    ensures h.group[g].members[0..] == h.group[g].members
    ensures forall x :: x in h.group[g].members ==> x in h.entries && h.entries[x].group == g
  {
    hide Connected, Separate, TimersSound, ChannelsSound;
    assert h.group[g].members[0..] == h.group[g].members;
  }

  lemma ResolveNext(h: State, members: seq<Txn>, i: nat)
    requires Rest(h, members, i) && i < |members|
    ensures members[i] in h.entries && Rest(Resolve(h, members[i]), members, i + 1)
    ensures ResolveAll(h, members[i..]) == ResolveAll(Resolve(h, members[i]), members[i + 1..])
  {
    var rest := members[i..];
    assert rest[0] == members[i] && rest[1..] == members[i + 1..];
    assert members[i] in rest;
    RestDiffers(rest);
  }

  lemma ResolveEnd(h: State, members: seq<Txn>)
    requires Rest(h, members, |members|)
    ensures ResolveAll(h, members[|members|..]) == h
  {
  }

  lemma WithdrawKeepsOrder(h: State, g: nat, keep: seq<Txn>, gone: seq<Txn>)
    requires Ordered(h) && Distinct(gone) && (forall x :: x in gone ==> x in h.entries) && g in h.group
    ensures Ordered(Withdraw(h, g, keep, gone))
    ensures Withdraw(h, g, keep, gone) == ResolveAll(h, gone).(group := h.group[g := h.group[g].(members := keep)])
  {
    hide ChannelsOf, TipsOf;
    ResolveAllIs(h, gone);
  }
}
