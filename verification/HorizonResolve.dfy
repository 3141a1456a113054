/** Resolving transactions of the horizon, and the fallback timers of their groups. */
module HorizonResolve {
  import opened Effects
  import opened Sequences
  import opened Horizon
  import opened HorizonMerge

  // ---------- Resolving some members of a group ----------

  function ResolveAll(h: State, gone: seq<Txn>): State
    requires Distinct(gone) && forall x :: x in gone ==> x in h.entries
    decreases |gone|
  {
    if gone == [] then h
    else
      assert forall x :: x in gone[1..] ==> x != gone[0] by {
        RestDiffers(gone);
      }
      ResolveAll(Resolve(h, gone[0]), gone[1..])
  }

  lemma RestDiffers(s: seq<Txn>)
    requires Distinct(s) && s != []
    ensures Distinct(s[1..]) && forall x :: x in s[1..] ==> x != s[0]
  {
    forall i, j | 0 <= i < j < |s[1..]| ensures s[1..][i] != s[1..][j] {
      assert s[i + 1] != s[j + 1];
    }
  }

  function ChannelsOf(h: State, gone: seq<Txn>): seq<nat>
    requires forall x :: x in gone ==> x in h.entries
  {
    seq(|gone|, i requires 0 <= i < |gone| => h.entries[gone[i]].channel)
  }

  function TipsOf(h: State, gone: seq<Txn>): set<Tip>
    requires forall x :: x in gone ==> x in h.entries
  {
    set x, t | x in gone && t in NewTipsOf(h.entries[x].bind) :: t
  }

  lemma EntriesStep(entries: map<Txn, Entry>, gone: seq<Txn>)
    requires gone != []
    ensures entries - {gone[0]} - (set x | x in gone[1..]) == entries - (set x | x in gone)
  {
    assert gone == [gone[0]] + gone[1..];
  }

  lemma TipsStep(h: State, gone: seq<Txn>)
    requires gone != [] && Distinct(gone) && forall x :: x in gone ==> x in h.entries
    ensures forall x :: x in gone[1..] ==> x in Resolve(h, gone[0]).entries
    ensures TipsOf(h, gone) == NewTipsOf(h.entries[gone[0]].bind) + TipsOf(Resolve(h, gone[0]), gone[1..])
  {
    RestDiffers(gone);
    assert gone == [gone[0]] + gone[1..];
  }

  lemma ChannelsStep(h: State, gone: seq<Txn>)
    requires gone != [] && Distinct(gone) && forall x :: x in gone ==> x in h.entries
    ensures forall x :: x in gone[1..] ==> x in Resolve(h, gone[0]).entries
    ensures ChannelsOf(h, gone) == [h.entries[gone[0]].channel] + ChannelsOf(Resolve(h, gone[0]), gone[1..])
  {
    RestDiffers(gone);
  }

  /** Exactly the given transactions are released, each with its tips and its channel. */
  lemma {:induction false} ResolveAllIs(h: State, gone: seq<Txn>)
    requires Distinct(gone) && forall x :: x in gone ==> x in h.entries
    ensures var h2 := ResolveAll(h, gone);
      h2 == h.(entries := h.entries - (set x | x in gone), closed := h.closed + ChannelsOf(h, gone), pending := h.pending - TipsOf(h, gone))
    decreases |gone|
  {
    hide TipsOf, ChannelsOf;
    if gone == [] {
      NothingGone(h, gone);
    } else {
      RestDiffers(gone);
      EntriesStep(h.entries, gone);
      TipsStep(h, gone);
      ChannelsStep(h, gone);
      ResolveAllIs(Resolve(h, gone[0]), gone[1..]);
    }
  }

  lemma NothingGone(h: State, gone: seq<Txn>)
    requires gone == []
    ensures h.entries - (set x | x in gone) == h.entries && ChannelsOf(h, gone) == [] && TipsOf(h, gone) == {}
  {
  }

  /** Resolve `gone` and leave `keep` in group g. */
  function Withdraw(h: State, g: nat, keep: seq<Txn>, gone: seq<Txn>): State
    requires Distinct(gone) && (forall x :: x in gone ==> x in h.entries) && g in h.group
  {
    var h1 := ResolveAll(h, gone);
    ResolveAllIs(h, gone);
    h1.(group := h1.group[g := h1.group[g].(members := keep)])
  }

  /** keep and gone are the members of g, in two parts. */
  ghost predicate Splits(h: State, g: nat, keep: seq<Txn>, gone: seq<Txn>) {
    && g in h.group && g in h.order && Distinct(keep) && Distinct(gone)
    && (forall x :: x in h.group[g].members <==> x in keep || x in gone) && forall x :: x in keep ==> x !in gone
  }

  lemma GoneAreHeld(h: State, g: nat, keep: seq<Txn>, gone: seq<Txn>)
    requires Valid(h) && Splits(h, g, keep, gone)
    ensures forall x :: x in gone ==> x in h.entries && h.entries[x].group == g
  {
    hide Connected;
  }

  lemma WithdrawIs(h: State, g: nat, keep: seq<Txn>, gone: seq<Txn>)
    requires Distinct(gone) && (forall x :: x in gone ==> x in h.entries) && g in h.group
    ensures var h2 := Withdraw(h, g, keep, gone);
      && h2.order == h.order && h2.group == h.group[g := h.group[g].(members := keep)] && h2.timerGroup == h.timerGroup
      && h2.nextGroup == h.nextGroup && h2.nextTimer == h.nextTimer
      && (forall x :: x in h2.entries <==> x in h.entries && x !in gone) && forall x :: x in h2.entries ==> h2.entries[x] == h.entries[x]
  {
    hide ChannelsOf, TipsOf;
    ResolveAllIs(h, gone);
  }

  lemma WithdrawPartitions(h: State, g: nat, keep: seq<Txn>, gone: seq<Txn>)
    requires Ordered(h) && Partitioned(h) && Splits(h, g, keep, gone) && forall x :: x in gone ==> x in h.entries && h.entries[x].group == g
    ensures Partitioned(Withdraw(h, g, keep, gone)) && Ordered(Withdraw(h, g, keep, gone))
  {
    hide Withdraw;
    WithdrawIs(h, g, keep, gone);
    var h2 := Withdraw(h, g, keep, gone);
    forall x | x in h2.entries ensures Placed(h2, x, h2.entries[x]) {
      assert Placed(h, x, h.entries[x]);
    }
  }

  lemma WithdrawSeparates(h: State, g: nat, keep: seq<Txn>, gone: seq<Txn>)
    requires Separate(h) && TimersSound(h) && Splits(h, g, keep, gone) && (forall x :: x in gone ==> x in h.entries) && Active(h, g)
    ensures Separate(Withdraw(h, g, keep, gone)) && TimersSound(Withdraw(h, g, keep, gone))
  {
    hide Withdraw, SharesBase;
    WithdrawIs(h, g, keep, gone);
    var h2 := Withdraw(h, g, keep, gone);
    forall k, m | k in h2.order && m in h2.order && k != m && Active(h2, k) && Active(h2, m) ensures Apart(h2, k, m) {
      assert Apart(h, k, m);
    }
  }

  lemma WithdrawChannels(h: State, g: nat, keep: seq<Txn>, gone: seq<Txn>)
    requires ChannelsSound(h) && g in h.group && Distinct(gone) && forall x :: x in gone ==> x in h.entries
    ensures ChannelsSound(Withdraw(h, g, keep, gone))
  {
    ResolveAllIs(h, gone);
    var h2, cs := Withdraw(h, g, keep, gone), ChannelsOf(h, gone);
    forall i, j | 0 <= i < j < |h2.closed| ensures h2.closed[i] != h2.closed[j] {
      if i < |h.closed| <= j {
        assert h.closed[i] in h.closed && cs[j - |h.closed|] == h.entries[gone[j - |h.closed|]].channel;
      }
    }
    forall x | x in h2.entries ensures h2.entries[x].channel !in h2.closed {
      assert x !in gone;
    }
  }

  /** Resolving members keeps the groups as they are; an emptied group disappears. */
  lemma WithdrawnValid(h: State, g: nat, keep: seq<Txn>, gone: seq<Txn>)
    requires Valid(h) && Splits(h, g, keep, gone) && forall x :: x in gone ==> x in h.entries && h.entries[x].group == g
    ensures Valid(Prune(Withdraw(h, g, keep, gone)))
  {
    hide Connected, Partitioned, Separate, TimersSound, ChannelsSound, Withdraw, Prune;
    WithdrawPartitions(h, g, keep, gone);
    WithdrawSeparates(h, g, keep, gone);
    WithdrawChannels(h, g, keep, gone);
    WithdrawIs(h, g, keep, gone);
    PruneKeeps(Withdraw(h, g, keep, gone));
  }

  // ---------- Timers ----------

  /** A transaction whose group has a fallback still has one. */
  ghost predicate KeepsFallbacks(h: State, h2: State) {
    forall x :: x in h.entries && x in h2.entries && HasFallback(h, x) ==> HasFallback(h2, x)
  }

  predicate HasFallback(h: State, x: Txn) {
    x in h.entries && h.entries[x].group in h.group && h.group[h.entries[x].group].timer.Some?
  }

  /** A timer that no group owns never becomes owned again. */
  ghost predicate DeadStays(h: State, h2: State) {
    forall t :: t in h.timerGroup && !LiveTimer(h, t) ==> !LiveTimer(h2, t)
  }

  lemma MergeFallbacks(h: State, t: nat, g: nat)
    requires t in h.group && g in h.group && t != g && TimersSound(h) && Partitioned(h) && g in h.order && t in h.order
    ensures KeepsFallbacks(h, Merge(h, t, g)) && DeadStays(h, Merge(h, t, g)) && h.timerGroup.Keys == Merge(h, t, g).timerGroup.Keys
  {
    var h2 := Merge(h, t, g);
    forall x | x in h.entries && x in h2.entries && HasFallback(h, x) ensures HasFallback(h2, x) {
      assert Placed(h, x, h.entries[x]);
    }
  }

  lemma {:induction false} GatherFallbacks(h: State, bind: Bind, i: nat, target: Option<nat>)
    requires Merging(h, bind, i, target) && (target.Some? ==> target.value in h.group)
    ensures var (h2, _) := Gather(h, bind, i, target); KeepsFallbacks(h, h2) && DeadStays(h, h2)
    decreases |h.order| - i
  {
    hide SharesBase, Connected, Overlaps, Hubbed, Separate, Partitioned, TimersSound, ChannelsSound, LiveTimer, HasFallback;
    if i < |h.order| {
      if !Overlaps(h.group[h.order[i]].bases, bind) {
        SkipKeeps(h, bind, i, target);
        GatherFallbacks(h, bind, i + 1, target);
      } else if target.None? {
        TargetFound(h, bind, i);
        GatherFallbacks(h, bind, i + 1, Some(h.order[i]));
      } else {
        MergeKeeps(h, bind, i, target.value);
        MergeScans(h, bind, i, target.value);
        MergeFallbacks(h, target.value, h.order[i]);
        GatherFallbacks(Merge(h, target.value, h.order[i]), bind, i + 1, target);
      }
    }
  }

  lemma PruneTimers(h: State)
    requires Ordered(h) && Partitioned(h)
    ensures KeepsFallbacks(h, Prune(h)) && DeadStays(h, Prune(h)) && Prune(h).entries == h.entries && Prune(h).timerGroup == h.timerGroup
  {
    hide ActiveOnly;
    var h2 := Prune(h);
    forall x | x in h.entries && HasFallback(h, x) ensures HasFallback(h2, x) {
      assert Placed(h, x, h.entries[x]);
    }
  }

  lemma EnterTimers(h: State, x: Txn, bind: Bind, t: nat)
    requires t in h.group && x !in h.entries
    ensures KeepsFallbacks(h, Enter(h, x, bind, t)) && DeadStays(h, Enter(h, x, bind, t))
  {
  }

  lemma NewGroupTimers(h: State)
    requires h.nextGroup !in h.group && TimersSound(h)
    ensures KeepsFallbacks(h, NewGroup(h)) && DeadStays(h, NewGroup(h))
  {
  }

  /** Adding a bind leaves every waiting group its fallback and wakes no stopped timer. */
  lemma AddedTimers(h: State, x: Txn, bind: Bind)
    requires Valid(h)
    ensures KeepsFallbacks(h, Added(h, x, bind)) && DeadStays(h, Added(h, x, bind))
  {
    hide Hubbed, Separate, Partitioned, ChannelsSound, LiveTimer, HasFallback, Connected, Overlaps, Scanned, Prune, Enter, NewGroup, Gather;
    StartMerging(h, bind);
    GatherKeeps(h, bind, 0, None);
    GatherEntries(h, bind, 0, None);
    GatherFallbacks(h, bind, 0, None);
    GatherTimerKeys(h, bind, 0, None);
    var (h1, t) := Gather(h, bind, 0, None);
    if x !in h.entries {
      if t.None? {
        FoundedTimers(h1, x, bind);
      } else {
        JoinedTimers(h1, x, bind, t.value);
      }
    }
  }

  lemma FoundedTimers(h: State, x: Txn, bind: Bind)
    requires Ordered(h) && TimersSound(h) && x !in h.entries
    ensures var h2 := Enter(NewGroup(h), x, bind, h.nextGroup); KeepsFallbacks(h, h2) && DeadStays(h, h2) && h.entries.Keys <= h2.entries.Keys
  {
    hide LiveTimer, HasFallback;
    NewGroupOrdered(h);
    NewGroupTimers(h);
    EnterTimers(NewGroup(h), x, bind, h.nextGroup);
  }

  lemma JoinedTimers(h: State, x: Txn, bind: Bind, t: nat)
    requires Ordered(h) && Partitioned(h) && x !in h.entries && t in h.group
    ensures t in Prune(h).group
    ensures var h2 := Enter(Prune(h), x, bind, t); KeepsFallbacks(h, h2) && DeadStays(h, h2) && h.entries.Keys <= h2.entries.Keys
  {
    hide LiveTimer, HasFallback, ActiveOnly;
    PruneTimers(h);
    EnterTimers(Prune(h), x, bind, t);
  }

  lemma {:induction false} GatherTimerKeys(h: State, bind: Bind, i: nat, target: Option<nat>)
    requires Merging(h, bind, i, target) && (target.Some? ==> target.value in h.group)
    ensures var (h2, _) := Gather(h, bind, i, target); h2.timerGroup.Keys == h.timerGroup.Keys
    decreases |h.order| - i
  {
    hide SharesBase, Connected, Overlaps, Hubbed, Separate, Partitioned, ChannelsSound;
    if i < |h.order| {
      if !Overlaps(h.group[h.order[i]].bases, bind) {
        SkipKeeps(h, bind, i, target);
        GatherTimerKeys(h, bind, i + 1, target);
      } else if target.None? {
        TargetFound(h, bind, i);
        GatherTimerKeys(h, bind, i + 1, Some(h.order[i]));
      } else {
        MergeKeeps(h, bind, i, target.value);
        GatherTimerKeys(Merge(h, target.value, h.order[i]), bind, i + 1, target);
      }
    }
  }

  lemma WithdrawnTimers(h: State, g: nat, keep: seq<Txn>, gone: seq<Txn>)
    requires Valid(h) && Splits(h, g, keep, gone) && forall x :: x in gone ==> x in h.entries && h.entries[x].group == g
    ensures var h2 := Prune(Withdraw(h, g, keep, gone)); KeepsFallbacks(h, h2) && DeadStays(h, h2)
  {
    hide Withdraw, Prune, Connected, Separate, ChannelsSound;
    WithdrawPartitions(h, g, keep, gone);
    WithdrawIs(h, g, keep, gone);
    PruneTimers(Withdraw(h, g, keep, gone));
  }

  // ---------- Scheduling ----------

  /** Give the group of x a new timer; the old one, if any, loses its group. */
  function Scheduled(h: State, x: Txn): State
    requires x in h.entries && h.entries[x].group in h.group
  {
    var g := h.entries[x].group;
    h.(group := h.group[g := h.group[g].(timer := Some(h.nextTimer))], timerGroup := h.timerGroup[h.nextTimer := g], nextTimer := h.nextTimer + 1)
  }

  lemma ScheduledPlaces(h: State, x: Txn)
    requires Partitioned(h) && Separate(h) && Ordered(h) && x in h.entries
    ensures h.entries[x].group in h.group && Partitioned(Scheduled(h, x)) && Separate(Scheduled(h, x)) && Ordered(Scheduled(h, x))
  {
    hide SharesBase;
    assert Placed(h, x, h.entries[x]);
    var h2 := Scheduled(h, x);
    forall y | y in h2.entries ensures Placed(h2, y, h2.entries[y]) {
      assert Placed(h, y, h.entries[y]);
    }
    forall g, k | g in h2.order && k in h2.order && g != k && Active(h2, g) && Active(h2, k) ensures Apart(h2, g, k) {
      assert Apart(h, g, k);
    }
  }

  /** The new timer is live and the group's earlier one is not; other groups keep theirs. */
  ghost predicate Supersedes(h: State, x: Txn, h2: State)
    requires x in h.entries
  {
    forall t :: LiveTimer(h2, t) <==> t == h.nextTimer || (LiveTimer(h, t) && h.timerGroup[t] != h.entries[x].group)
  }

  lemma ScheduledTimers(h: State, x: Txn)
    requires TimersSound(h) && x in h.entries && h.entries[x].group in h.group
    ensures var h2 := Scheduled(h, x); TimersSound(h2) && DeadStays(h, h2) && KeepsFallbacks(h, h2) && Supersedes(h, x, h2) && HasFallback(h2, x)
  {
  }

  lemma ScheduledValid(h: State, x: Txn)
    requires Valid(h) && x in h.entries
    ensures h.entries[x].group in h.group && Valid(Scheduled(h, x))
  {
    hide Connected, Partitioned, Separate, TimersSound;
    ScheduledPlaces(h, x);
    ScheduledTimers(h, x);
    ScheduledRest(h, x);
  }

  lemma ScheduledRest(h: State, x: Txn)
    requires ChannelsSound(h) && x in h.entries && h.entries[x].group in h.group
    requires forall g :: g in h.order ==> Active(h, g) && Connected(BaseSet(h.group[g].bases))
    ensures var h2 := Scheduled(h, x); ChannelsSound(h2) && forall g :: g in h2.order ==> Active(h2, g) && Connected(BaseSet(h2.group[g].bases))
  {
    hide Connected;
  }
}
