/** The horizon: transactions held invisible until they are decided, in groups that compete for
    the same causal base (effects/horizon.go), as an operation on values. */
module Horizon {
  import opened Effects
  import opened Sequences

  type Bind = seq<KeyBind>

  type Txn = string

  // ---------- Competing binds ----------

  /** A common key and a common consumed tip on it. */
  ghost predicate SharesBase(a: Bind, b: Bind) {
    exists i, j :: 0 <= i < |a| && 0 <= j < |b| && a[i].key == b[j].key && CommonTip(a[i].consumed, b[j].consumed)
  }

  ghost predicate CommonTip(a: seq<Tip>, b: seq<Tip>) {
    exists t :: t in a && t in b
  }

  lemma SharesBaseSymmetric(a: Bind, b: Bind)
    ensures SharesBase(a, b) <==> SharesBase(b, a)
  {
    if SharesBase(a, b) {
      var i, j :| 0 <= i < |a| && 0 <= j < |b| && a[i].key == b[j].key && CommonTip(a[i].consumed, b[j].consumed);
      assert CommonTip(b[j].consumed, a[i].consumed);
    }
    if SharesBase(b, a) {
      var i, j :| 0 <= i < |b| && 0 <= j < |a| && b[i].key == a[j].key && CommonTip(b[i].consumed, a[j].consumed);
      assert CommonTip(a[j].consumed, b[i].consumed);
    }
  }

  method BindsShareBase(a: Bind, b: Bind) returns (r: bool)
    ensures r <==> SharesBase(a, b)
  {
    for i := 0 to |a|
      invariant forall k, j :: 0 <= k < i && 0 <= j < |b| && a[k].key == b[j].key ==> !CommonTip(a[k].consumed, b[j].consumed)
    {
      for j := 0 to |b|
        invariant forall m :: 0 <= m < j && a[i].key == b[m].key ==> !CommonTip(a[i].consumed, b[m].consumed)
      {
        if a[i].key != b[j].key {
          continue;
        }
        for k := 0 to |a[i].consumed|
          invariant forall n :: 0 <= n < k ==> a[i].consumed[n] !in b[j].consumed
        {
          if a[i].consumed[k] in b[j].consumed {
            assert CommonTip(a[i].consumed, b[j].consumed);
            return true;
          }
        }
      }
    }
    return false;
  }

  ghost predicate Overlaps(bases: seq<Bind>, bind: Bind) {
    exists i :: 0 <= i < |bases| && SharesBase(bases[i], bind)
  }

  // ---------- Connected sets ----------

  /** Every way of cutting the set in two cuts a pair that shares a base. */
  ghost predicate Connected(s: set<Bind>) {
    forall part: set<Bind> :: {} < part < s ==> exists a, b :: a in part && b in s - part && SharesBase(a, b)
  }

  lemma Singleton(b: Bind)
    ensures Connected({b})
  {
    forall part: set<Bind> ensures !({} < part < {b}) {
      assert part <= {b} ==> part == {} || {b} <= part;
    }
  }

  /** A connected set that touches a bind joins whatever is connected through that bind. */
  lemma Join(acc: set<Bind>, more: set<Bind>, hub: Bind, touch: Bind)
    requires Connected(acc + {hub}) && Connected(more) && touch in more && SharesBase(touch, hub)
    ensures Connected(acc + more + {hub})
  {
    var all := acc + more + {hub};
    forall part: set<Bind> | {} < part < all ensures exists a, b :: a in part && b in all - part && SharesBase(a, b) {
      CutCrosses(acc, more, hub, touch, part);
    }
  }

  lemma CutCrosses(acc: set<Bind>, more: set<Bind>, hub: Bind, touch: Bind, part: set<Bind>)
    requires Connected(acc + {hub}) && Connected(more) && touch in more && SharesBase(touch, hub) && {} < part < acc + more + {hub}
    ensures exists a, b :: a in part && b in acc + more + {hub} - part && SharesBase(a, b)
  {
    hide SharesBase, Connected;
    var all := acc + more + {hub};
    if part * more != {} && part * more != more {
      CutInside(more, part, all);
    } else if part * (acc + {hub}) != {} && part * (acc + {hub}) != acc + {hub} {
      CutInside(acc + {hub}, part, all);
    } else if hub in part {
      assert acc + {hub} <= part by {
        assert hub in part * (acc + {hub});
      }
      assert part * more == more ==> all <= part;
      assert touch !in part * more;
      SharesBaseSymmetric(touch, hub);
    } else {
      assert part * (acc + {hub}) == {} by {
        assert hub !in part * (acc + {hub});
      }
      forall x | x in part ensures x in more {
        assert x !in part * (acc + {hub});
      }
      assert part * more == part;
      assert touch in part * more;
    }
  }

  lemma CutInside(s: set<Bind>, part: set<Bind>, all: set<Bind>)
    requires Connected(s) && part * s != {} && part * s != s && s <= all
    ensures exists a, b :: a in part && b in all - part && SharesBase(a, b)
  {
    var cut := part * s;
    assert {} < cut < s;
    var a, b :| a in cut && b in s - cut && SharesBase(a, b);
    assert a in part && b in all - part;
  }

  // ---------- State ----------

  /** `channel` is the one a waiting reader blocks on. */
  datatype Entry = Entry(group: nat, bind: Bind, channel: nat)

  /** The bases outlive aborted members, until the whole group is resolved. */
  datatype Group = Group(members: seq<Txn>, bases: seq<Bind>, timer: Option<nat>)

  /** `closed` lists the channels closed so far; `pending` the tips still held back. */
  datatype State = State(
    order: seq<nat>, group: map<nat, Group>, entries: map<Txn, Entry>, timerGroup: map<nat, nat>,
    nextGroup: nat, nextTimer: nat, nextChannel: nat, closed: seq<nat>, pending: set<Tip>)

  function BaseSet(bases: seq<Bind>): set<Bind> {
    set b | b in bases
  }

  // ---------- Operations ----------

  /** Move everything of group g into group t, with g's timer if t has none. */
  function Merge(h: State, t: nat, g: nat): State
    requires t in h.group && g in h.group
  {
    var into, from := h.group[t], h.group[g];
    var adopt := into.timer.None? && from.timer.Some?;
    h.(entries := map x | x in h.entries :: if x in from.members then h.entries[x].(group := t) else h.entries[x],
       group := h.group[t := Group(into.members + from.members, into.bases + from.bases, if adopt then from.timer else into.timer)]
                       [g := Group([], from.bases, if adopt then None else from.timer)],
       timerGroup := if adopt then h.timerGroup[from.timer.value := t] else h.timerGroup)
  }

  predicate Active(h: State, g: nat) {
    g in h.group && h.group[g].members != []
  }

  function ActiveOnly(h: State, order: seq<nat>): seq<nat> {
    if order == [] then []
    else (if Active(h, order[0]) then [order[0]] else []) + ActiveOnly(h, order[1..])
  }

  /** Drop the groups without members; their timers are stopped. */
  function Prune(h: State): State {
    h.(order := ActiveOnly(h, h.order),
       group := map g | g in h.group :: if g in h.order && !Active(h, g) then Group([], [], None) else h.group[g])
  }

  function NewTipsOf(bind: Bind): set<Tip> {
    set kb | kb in bind :: kb.newTip
  }

  /** Release one transaction: its pending tips, its entry and its waiting readers. */
  function Resolve(h: State, x: Txn): State
    requires x in h.entries
  {
    h.(pending := h.pending - NewTipsOf(h.entries[x].bind), entries := h.entries - {x}, closed := h.closed + [h.entries[x].channel])
  }

  /** All groups from position i on that overlap the bind, merged into the first such group. */
  ghost function Gather(h: State, bind: Bind, i: nat, target: Option<nat>): (State, Option<nat>)
    requires (forall g :: g in h.order ==> g in h.group) && (target.Some? ==> target.value in h.group)
    decreases |h.order| - i
  {
    if i >= |h.order| then (h, target)
    else if !Overlaps(h.group[h.order[i]].bases, bind) then Gather(h, bind, i + 1, target)
    else if target.None? then Gather(h, bind, i + 1, Some(h.order[i]))
    else Gather(Merge(h, target.value, h.order[i]), bind, i + 1, target)
  }

  /** Enter the transaction into group t. */
  function Enter(h: State, x: Txn, bind: Bind, t: nat): State
    requires t in h.group
  {
    var g := h.group[t];
    h.(group := h.group[t := Group(g.members + [x], g.bases + [bind], g.timer)],
       entries := h.entries[x := Entry(t, bind, h.nextChannel)], nextChannel := h.nextChannel + 1)
  }

  function NewGroup(h: State): State {
    h.(order := h.order + [h.nextGroup], group := h.group[h.nextGroup := Group([], [], None)], nextGroup := h.nextGroup + 1)
  }

  // ---------- Invariant ----------

  ghost predicate Ordered(h: State) {
    Distinct(h.order) && (forall g :: g in h.order ==> g in h.group) && (forall g :: g in h.group ==> g < h.nextGroup)
  }

  ghost predicate Placed(h: State, x: Txn, e: Entry) {
    e.group in h.order && e.group in h.group && x in h.group[e.group].members && e.bind in h.group[e.group].bases
  }

  /** Each transaction is in one group, and its entry says which. */
  ghost predicate Partitioned(h: State) {
    && (forall x :: x in h.entries ==> Placed(h, x, h.entries[x]))
    && (forall g, x :: g in h.order && g in h.group && x in h.group[g].members ==> x in h.entries && h.entries[x].group == g)
    && (forall g :: g in h.group ==> Distinct(h.group[g].members))
    && (forall g :: g in h.group && g !in h.order ==> h.group[g].members == [] && h.group[g].timer == None)
  }

  /** Binds of different groups never share a base. */
  ghost predicate Apart(h: State, g: nat, k: nat)
    requires g in h.group && k in h.group
  {
    forall a, b :: a in h.group[g].bases && b in h.group[k].bases ==> !SharesBase(a, b)
  }

  ghost predicate Separate(h: State) {
    forall g, k :: g in h.order && k in h.order && g != k && Active(h, g) && Active(h, k) ==> Apart(h, g, k)
  }

  ghost predicate TimersSound(h: State) {
    && (forall g :: g in h.group && h.group[g].timer.Some? ==>
         h.group[g].timer.value in h.timerGroup && h.timerGroup[h.group[g].timer.value] == g)
    && forall t :: t in h.timerGroup ==> t < h.nextTimer && h.timerGroup[t] in h.group
  }

  ghost predicate ChannelsSound(h: State) {
    && Distinct(h.closed) && (forall c :: c in h.closed ==> c < h.nextChannel)
    && (forall x :: x in h.entries ==> h.entries[x].channel < h.nextChannel && h.entries[x].channel !in h.closed)
    && forall x, y :: x in h.entries && y in h.entries && x != y ==> h.entries[x].channel != h.entries[y].channel
  }

  ghost predicate Valid(h: State) {
    && Ordered(h) && Partitioned(h) && Separate(h) && TimersSound(h) && ChannelsSound(h)
    && forall g :: g in h.order ==> Active(h, g) && Connected(BaseSet(h.group[g].bases))
  }

  /** A timer is live while its group still owns it. */
  predicate LiveTimer(h: State, t: nat) {
    t in h.timerGroup && h.timerGroup[t] in h.group && h.group[h.timerGroup[t]].timer == Some(t)
  }
}
