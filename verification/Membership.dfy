/** Which effects a transaction's temporal snapshot includes
    (effects/transaction_snapshot.go member). */
module Membership {
  import opened Effects
  import opened ChainClocks

  /** What the decision is made from: the effects at hand, for each frozen key the effects in its
      frozen past, and for each effect the bounds of its time relative to the boundary. */
  datatype Setting<S> = Setting(h: History<S>, views: map<Key, set<Tip>>, interval: Tip -> Option<(int, int)>)

  function KeyNames(keys: seq<KeyBind>): seq<Key> {
    seq(|keys|, i requires 0 <= i < |keys| => keys[i].key)
  }

  function KeysOf<S>(e: Effect<S>): seq<Key> {
    if e.kind.Bind? then KeyNames(e.kind.keys) else [e.key]
  }

  function Parents<S>(e: Effect<S>): seq<Tip> {
    e.deps + if e.kind.Bind? then NewTips(e.kind.keys) else []
  }

  /** A bind concerns each of its keys and also stands on its own writes. */
  lemma BindStandsOnWrites<S>(e: Effect<S>, k: Key, d: Tip)
    requires e.kind.Bind?
    ensures k in KeysOf(e) <==> exists i :: 0 <= i < |e.kind.keys| && e.kind.keys[i].key == k
    ensures d in Parents(e) <==> d in e.deps || exists i :: 0 <= i < |e.kind.keys| && e.kind.keys[i].newTip == d
  {
    var keys := e.kind.keys;
    assert forall i :: 0 <= i < |keys| ==> KeyNames(keys)[i] == keys[i].key && NewTips(keys)[i] == keys[i].newTip;
  }

  ghost function ParentGraph<S>(h: History<S>): Deps {
    map t | t in h :: Parents(h[t])
  }

  /** What frozen keys say: outside one of them, inside all of them, or nothing. */
  function Frozen(views: map<Key, set<Tip>>, keys: seq<Key>, t: Tip): Option<bool> {
    if keys == [] then None
    else if keys[0] !in views then Frozen(views, keys[1..], t)
    else if t !in views[keys[0]] then Some(false)
    else match Frozen(views, keys[1..], t)
      case Some(false) => Some(false)
      case _ => Some(true)
  }

  /** Some frozen key leaves the effect outside. */
  ghost predicate Outside(views: map<Key, set<Tip>>, keys: seq<Key>, t: Tip) {
    exists i :: 0 <= i < |keys| && keys[i] in views && t !in views[keys[i]]
  }

  /** Some key of the effect is frozen. */
  ghost predicate Touched(views: map<Key, set<Tip>>, keys: seq<Key>) {
    exists i :: 0 <= i < |keys| && keys[i] in views
  }

  lemma {:induction false} FrozenMeans(views: map<Key, set<Tip>>, keys: seq<Key>, t: Tip)
    ensures Frozen(views, keys, t) == Some(false) <==> Outside(views, keys, t)
    ensures Frozen(views, keys, t) == None <==> !Touched(views, keys)
    decreases |keys|
  {
    if keys != [] {
      var rest := keys[1..];
      FrozenMeans(views, rest, t);
      assert forall i :: 0 <= i < |rest| ==> rest[i] == keys[i + 1];
      if i :| 0 <= i < |keys| && keys[i] in views && t !in views[keys[i]] {
        assert i > 0 ==> rest[i - 1] == keys[i];
      }
      if i :| 0 <= i < |keys| && keys[i] in views {
        assert i > 0 ==> rest[i - 1] == keys[i];
      }
    }
  }

  /** A state snapshot known to lie before the boundary stands for its past, until a key is frozen. */
  predicate Summarised<S>(s: Setting<S>, t: Tip) {
    t in s.h && IsStateSnapshot(s.h[t]) && s.interval(t).Some? && s.interval(t).value.1 <= 0 && s.views == map[]
  }

  ghost predicate AllIncluded(parents: seq<Tip>, decided: map<Tip, bool>) {
    forall d :: d in parents ==> d in decided && decided[d]
  }

  ghost predicate SomeExcluded(parents: seq<Tip>, decided: map<Tip, bool>) {
    exists d :: d in parents && d in decided && !decided[d]
  }

  /** The decision about t follows from the setting and the decisions about its parents. */
  ghost predicate Justified<S>(s: Setting<S>, decided: map<Tip, bool>, t: Tip, taken: bool) {
    && t in s.h
    && match Frozen(s.views, KeysOf(s.h[t]), t)
      case Some(b) => taken == b
      case None =>
        && s.interval(t).Some?
        && if s.interval(t).value.0 > 0 then !taken
          else if Summarised(s, t) then taken
          else if taken then AllIncluded(Parents(s.h[t]), decided)
          else SomeExcluded(Parents(s.h[t]), decided)
  }

  ghost predicate Consistent<S>(s: Setting<S>, decided: map<Tip, bool>) {
    forall t :: t in decided ==> Justified(s, decided, t, decided[t])
  }

  ghost predicate Keeps(a: map<Tip, bool>, b: map<Tip, bool>) {
    forall t :: t in a ==> t in b && b[t] == a[t]
  }

  lemma JustifiedStays<S>(s: Setting<S>, a: map<Tip, bool>, b: map<Tip, bool>, t: Tip, taken: bool)
    requires Keeps(a, b) && Justified(s, a, t, taken)
    ensures Justified(s, b, t, taken)
  {
    hide Frozen;
    if !taken && Frozen(s.views, KeysOf(s.h[t]), t).None? && s.interval(t).value.0 <= 0 && !Summarised(s, t) {
      var d :| d in Parents(s.h[t]) && d in a && !a[d];
      assert d in b && !b[d];
    }
  }

  /** Recording a justified decision. */
  lemma Decide<S>(s: Setting<S>, decided: map<Tip, bool>, t: Tip, taken: bool)
    requires Consistent(s, decided) && t !in decided && Justified(s, decided, t, taken)
    ensures Consistent(s, decided[t := taken]) && Keeps(decided, decided[t := taken])
  {
    hide Justified;
    var after := decided[t := taken];
    forall u | u in after ensures Justified(s, after, u, after[u]) {
      JustifiedStays(s, decided, after, u, after[u]);
    }
  }

  // ---------- Errors ----------

  /** Something on the way down prevents a decision: a missing effect, an unusable clock or a
      cycle. */
  ghost predicate Blocked<S>(s: Setting<S>, t: Tip, visiting: set<Tip>) {
    HasCycle(ParentGraph(s.h)) || exists u :: Reaches(ParentGraph(s.h), t, u) && (u !in s.h || s.interval(u).None? || u in visiting)
  }

  lemma BlockedHere<S>(s: Setting<S>, t: Tip, visiting: set<Tip>)
    requires t !in s.h || s.interval(t).None? || t in visiting
    ensures Blocked(s, t, visiting)
  {
    ReachesItself(ParentGraph(s.h), t);
  }

  lemma BlockedAbove<S>(s: Setting<S>, t: Tip, d: Tip, visiting: set<Tip>)
    requires t in s.h && d in Parents(s.h[t]) && Blocked(s, d, visiting + {t})
    ensures Blocked(s, t, visiting)
  {
    hide Reaches, HasCycle;
    var g := ParentGraph(s.h);
    if !HasCycle(g) {
      var u :| Reaches(g, d, u) && (u !in s.h || s.interval(u).None? || u in visiting + {t});
      if u == t && u in s.h && s.interval(u).Some? && u !in visiting {
        ClosesCycle(g, t, d);
      } else {
        ReachesFirst(g, t, d, u);
      }
    }
  }

  lemma ClosesCycle(g: Deps, t: Tip, d: Tip)
    requires d in DepsOf(g, t) && Reaches(g, d, t)
    ensures HasCycle(g)
  {
    var p :| Leads(g, p) && p[0] == d && p[|p| - 1] == t;
    var q := [t] + p;
    forall i | 0 <= i < |q| - 1 ensures q[i + 1] in DepsOf(g, q[i]) {
      assert i > 0 ==> p[i - 1 + 1] in DepsOf(g, p[i - 1]);
    }
    assert Leads(g, q);
  }

  // ---------- Decisions that outlive their setting ----------

  /** What a decision was based on. */
  datatype Reason = ByFrozenKey | ByClock | BySnapshot | ByParents

  /** The part of a decision's ground that no later evidence takes away. */
  ghost predicate Based<S>(h: History<S>, views: map<Key, set<Tip>>, decided: map<Tip, bool>, t: Tip, taken: bool, why: Reason) {
    && t in h
    && match why
      case ByFrozenKey => if taken then exists k :: k in KeysOf(h[t]) && k in views && t in views[k] else Outside(views, KeysOf(h[t]), t)
      case ByClock => !taken
      case BySnapshot => taken && IsStateSnapshot(h[t])
      case ByParents => if taken then AllIncluded(Parents(h[t]), decided) else SomeExcluded(Parents(h[t]), decided)
  }

  ghost predicate AllBased<S>(h: History<S>, views: map<Key, set<Tip>>, decided: map<Tip, bool>, why: map<Tip, Reason>) {
    decided.Keys == why.Keys && forall t :: t in decided ==> Based(h, views, decided, t, decided[t], why[t])
  }

  /** New effects and newly frozen keys; nothing known is lost, and clocks may say anything. */
  ghost predicate Grows<S>(a: Setting<S>, b: Setting<S>) {
    && (forall t :: t in a.h ==> t in b.h && b.h[t] == a.h[t])
    && (forall k :: k in a.views ==> k in b.views && b.views[k] == a.views[k])
  }

  lemma GroundStays<S>(a: Setting<S>, b: Setting<S>, before: map<Tip, bool>, after: map<Tip, bool>, t: Tip, taken: bool, why: Reason)
    requires Based(a.h, a.views, before, t, taken, why) && Grows(a, b) && Keeps(before, after)
    ensures Based(b.h, b.views, after, t, taken, why)
  {
    match why {
      case ByFrozenKey =>
        if taken {
          var k :| k in KeysOf(a.h[t]) && k in a.views && t in a.views[k];
          assert k in b.views;
        } else {
          var keys := KeysOf(a.h[t]);
          var i :| 0 <= i < |keys| && keys[i] in a.views && t !in a.views[keys[i]];
          assert keys[i] in b.views;
        }
      case ByClock =>
      case BySnapshot =>
      case ByParents =>
        if !taken {
          var d :| d in Parents(a.h[t]) && d in before && !before[d];
          assert d in after && !after[d];
        }
    }
  }

  lemma GroundsStay<S>(a: Setting<S>, b: Setting<S>, decided: map<Tip, bool>, why: map<Tip, Reason>)
    requires AllBased(a.h, a.views, decided, why) && Grows(a, b)
    ensures AllBased(b.h, b.views, decided, why)
  {
    hide Based;
    forall t | t in decided ensures Based(b.h, b.views, decided, t, decided[t], why[t]) {
      GroundStays(a, b, decided, decided, t, decided[t], why[t]);
    }
  }

  lemma GroundsGrow<S>(s: Setting<S>, decided: map<Tip, bool>, why: map<Tip, Reason>, t: Tip, taken: bool, ground: Reason)
    requires AllBased(s.h, s.views, decided, why) && t !in decided && Based(s.h, s.views, decided, t, taken, ground)
    ensures AllBased(s.h, s.views, decided[t := taken], why[t := ground])
  {
    hide Based;
    var after := decided[t := taken];
    forall u | u in after ensures Based(s.h, s.views, after, u, after[u], why[t := ground][u]) {
      GroundStays(s, s, decided, after, u, after[u], why[t := ground][u]);
    }
  }

  ghost predicate KeepsGrounds(a: map<Tip, Reason>, b: map<Tip, Reason>) {
    forall t :: t in a ==> t in b && b[t] == a[t]
  }

  /** Answers and their grounds stay; what followed from the present evidence still does. */
  ghost predicate Extends<S>(s: Setting<S>, d0: map<Tip, bool>, w0: map<Tip, Reason>, d1: map<Tip, bool>, w1: map<Tip, Reason>) {
    Keeps(d0, d1) && KeepsGrounds(w0, w1) && (Consistent(s, d0) ==> Consistent(s, d1))
  }

  lemma ExtendsItself<S>(s: Setting<S>, d: map<Tip, bool>, w: map<Tip, Reason>)
    ensures Extends(s, d, w, d, w)
  {
  }

  lemma ExtendsOn<S>(s: Setting<S>, d0: map<Tip, bool>, w0: map<Tip, Reason>, d1: map<Tip, bool>, w1: map<Tip,
                     Reason>, d2: map<Tip, bool>, w2: map<Tip, Reason>)
    requires Extends(s, d0, w0, d1, w1) && Extends(s, d1, w1, d2, w2)
    ensures Extends(s, d0, w0, d2, w2) && Keeps(d1, d2)
  {
    hide Consistent;
  }

  lemma IncludedStays(parents: seq<Tip>, a: map<Tip, bool>, b: map<Tip, bool>)
    requires AllIncluded(parents, a) && Keeps(a, b)
    ensures AllIncluded(parents, b)
  {
  }

  lemma OpenIsHeld<S>(s: Setting<S>, t: Tip)
    requires Open(s, t)
    ensures t in s.h
  {
  }

  lemma NewGround(decided: map<Tip, bool>, why: map<Tip, Reason>, t: Tip)
    requires decided.Keys == why.Keys && t !in decided
    ensures t !in why
  {
    assert t in why ==> t in why.Keys;
  }

  class TransactionSnapshot<S> {
    /** The evidence at hand; it grows whenever further keys are prepared for reading. */
    var setting: Setting<S>
    var decided: map<Tip, bool>
    var ambiguous: nat
    ghost var why: map<Tip, Reason>

    /** Every decision has a ground, whenever it was made. */
    ghost predicate Valid()
      reads this
    {
      AllBased(setting.h, setting.views, decided, why)
    }

    constructor (s: Setting<S>)
      ensures setting == s && Valid() && decided == map[] && Consistent(setting, decided)
    {
      setting, decided, ambiguous, why := s, map[], 0, map[];
    }

    /** Further keys are prepared: clocks are read again and newly frozen keys are added. Decisions
        already made win over the new evidence. */
    method Refresh(next: Setting<S>)
      requires Valid() && Grows(setting, next)
      modifies `setting
      ensures Valid() && setting == next
    {
      GroundsStay(setting, next, decided, why);
      setting := next;
    }

    method Choose(t: Tip, taken: bool, ghost ground: Reason)
      requires Valid() && t !in decided && Justified(setting, decided, t, taken)
      requires Based(setting.h, setting.views, decided, t, taken, ground)
      modifies `decided, `why
      ensures Valid() && decided == old(decided)[t := taken] && why == old(why)[t := ground]
      ensures Extends(setting, old(decided), old(why), decided, why)
    {
      hide Justified, Based;
      NewGround(decided, why, t);
      if Consistent(setting, decided) {
        Decide(setting, decided, t, taken);
      }
      GroundsGrow(setting, decided, why, t, taken, ground);
      decided := decided[t := taken];
      why := why[t := ground];
    }

    /** What the frozen keys say about an effect; the first one that leaves it outside decides. */
    method AskFrozen(keys: seq<Key>, t: Tip) returns (r: Option<bool>)
      ensures r == Some(false) <==> Outside(setting.views, keys, t)
      ensures r == Some(true) <==> Touched(setting.views, keys) && !Outside(setting.views, keys, t)
    {
      var knownPast := false;
      for i := 0 to |keys|
        invariant knownPast <==> exists j :: 0 <= j < i && keys[j] in setting.views
        invariant forall j :: 0 <= j < i && keys[j] in setting.views ==> t in setting.views[keys[j]]
      {
        if keys[i] in setting.views {
          if t !in setting.views[keys[i]] {
            return Some(false);
          }
          knownPast := true;
        }
      }
      return if knownPast then Some(true) else None;
    }

    /** Decide an effect and, as far as needed, its past. An answer once given is never changed. */
    method Member(t: Tip, visiting: set<Tip>) returns (r: Option<bool>)
      requires Valid() && t in setting.h
      modifies `decided, `why, `ambiguous
      ensures Valid() && Extends(setting, old(decided), old(why), decided, why) && (r.Some? ==> t in decided && decided[t] == r.value)
      ensures r.None? ==> Blocked(setting, t, visiting)
      ensures Untouched(visiting, old(decided), decided)
      decreases |setting.h.Keys - visiting|, 2
    {
      hide Blocked, Frozen, Justified, Consistent, Based, Outside, Touched;
      if t in decided {
        return Some(decided[t]);
      }
      if t in visiting {
        BlockedHere(setting, t, visiting);
        return None;
      }
      var e := setting.h[t];
      var frozen := AskFrozen(KeysOf(e), t);
      FrozenMeans(setting.views, KeysOf(e), t);
      var interval := setting.interval(t);
      JustifyAlone(setting, decided, t);
      GroundAlone(setting, decided, t);
      if frozen.Some? {
        Choose(t, frozen.value, ByFrozenKey);
        return frozen;
      }
      if interval.None? {
        BlockedHere(setting, t, visiting);
        return None;
      }
      if interval.value.0 > 0 {
        Choose(t, false, ByClock);
        return Some(false);
      }
      if IsStateSnapshot(e) && interval.value.1 <= 0 && setting.views == map[] {
        Choose(t, true, BySnapshot);
        return Some(true);
      }
      r := Inherit(t, visiting);
      if r == Some(true) && interval.value.1 > 0 {
        ambiguous := ambiguous + 1;
      }
    }

    /** Decide one parent of an effect that is being visited. */
    method AskParent(t: Tip, d: Tip, visiting: set<Tip>) returns (r: Option<bool>)
      requires Valid() && t in setting.h && t !in visiting && t !in decided && d in Parents(setting.h[t])
      modifies `decided, `why, `ambiguous
      ensures Valid() && Extends(setting, old(decided), old(why), decided, why) && (r.Some? ==> d in decided && decided[d] == r.value)
      ensures r.None? ==> Blocked(setting, t, visiting)
      ensures Untouched(visiting + {t}, old(decided), decided)
      decreases |setting.h.Keys - visiting|, 0
    {
      hide Blocked, Consistent, AllBased, Extends;
      assert setting.h.Keys - (visiting + {t}) == (setting.h.Keys - visiting) - {t};
      if d !in setting.h {
        BlockedHere(setting, d, visiting + {t});
        BlockedAbove(setting, t, d, visiting);
        ExtendsItself(setting, decided, why);
        return None;
      }
      r := Member(d, visiting + {t});
      if r.None? {
        BlockedAbove(setting, t, d, visiting);
      }
    }

    /** An effect is included unless one of its parents is not. */
    method Inherit(t: Tip, visiting: set<Tip>) returns (r: Option<bool>)
      requires Valid() && Open(setting, t) && t !in visiting && t !in decided
      modifies `decided, `why, `ambiguous
      ensures Valid() && Extends(setting, old(decided), old(why), decided, why)
      ensures r.Some? ==> t in decided && decided[t] == r.value && t in why && why[t] == ByParents
      ensures r.None? ==> Blocked(setting, t, visiting)
      ensures Untouched(visiting, old(decided), decided)
      decreases |setting.h.Keys - visiting|, 1
    {
      hide Blocked, Frozen, Justified, Consistent, Based, Extends, AllBased, Open;
      OpenIsHeld(setting, t);
      ExtendsItself(setting, decided, why);
      var parents := Parents(setting.h[t]);
      for i := 0 to |parents|
        invariant Valid() && Extends(setting, old(decided), old(why), decided, why)
        invariant AllIncluded(parents[..i], decided) && Untouched(visiting + {t}, old(decided), decided)
      {
        ghost var d0, w0 := decided, why;
        var m := AskParent(t, parents[i], visiting);
        ExtendsOn(setting, old(decided), old(why), d0, w0, decided, why);
        if m.None? {
          return None;
        }
        if !m.value {
          assert SomeExcluded(parents, decided);
          Settle(t, false, old(decided), old(why));
          return Some(false);
        }
        assert parents[..i + 1] == parents[..i] + [parents[i]];
        IncludedStays(parents[..i], d0, decided);
      }
      assert parents[..|parents|] == parents;
      Settle(t, true, old(decided), old(why));
      return Some(true);
    }

    /** Record what the parents say. */
    method Settle(t: Tip, taken: bool, ghost d0: map<Tip, bool>, ghost w0: map<Tip, Reason>)
      requires Valid() && Open(setting, t) && t !in decided && Extends(setting, d0, w0, decided, why)
      requires if taken then AllIncluded(Parents(setting.h[t]), decided) else SomeExcluded(Parents(setting.h[t]), decided)
      modifies `decided, `why
      ensures Valid() && Extends(setting, d0, w0, decided, why) && decided == old(decided)[t := taken] && t in why && why[t] == ByParents
    {
      hide Justified, Consistent, Based, AllBased, Open;
      JustifyByParents(setting, decided, t, taken);
      Choose(t, taken, ByParents);
    }

    /** Any sequence of questions and further preparations: every answer stays, and so does what it
        was based on. */
    method Session(ops: seq<Operation<S>>)
      requires Valid() && Orderly(setting, ops)
      modifies this
      ensures Valid() && Keeps(old(decided), decided) && KeepsGrounds(old(why), why) && setting == Finally(old(setting), ops)
    {
      hide AllBased, Grows, Consistent;
      assert ops[0..] == ops;
      for i := 0 to |ops|
        invariant Valid() && Orderly(setting, ops[i..]) && Keeps(old(decided), decided) && KeepsGrounds(old(why), why)
        invariant Finally(setting, ops[i..]) == Finally(old(setting), ops)
      {
        assert ops[i..][0] == ops[i] && ops[i..][1..] == ops[i + 1..];
        match ops[i] {
          case Ask(t) =>
            var r := Member(t, {});
          case Prepare(next) =>
            Refresh(next);
        }
      }
    }
  }

  datatype Operation<S> = Ask(tip: Tip) | Prepare(next: Setting<S>)

  /** Questions are about effects at hand, and evidence only grows. */
  ghost predicate Orderly<S>(s: Setting<S>, ops: seq<Operation<S>>)
    decreases |ops|
  {
    if ops == [] then true
    else match ops[0]
      case Ask(t) => t in s.h && Orderly(s, ops[1..])
      case Prepare(next) => Grows(s, next) && Orderly(next, ops[1..])
  }

  function Finally<S>(s: Setting<S>, ops: seq<Operation<S>>): Setting<S>
    decreases |ops|
  {
    if ops == [] then s else Finally(if ops[0].Ask? then s else ops[0].next, ops[1..])
  }

  lemma GroundAlone<S>(s: Setting<S>, decided: map<Tip, bool>, t: Tip)
    requires t in s.h
    ensures var f := Frozen(s.views, KeysOf(s.h[t]), t);
      && (f.Some? ==> Based(s.h, s.views, decided, t, f.value, ByFrozenKey))
      && Based(s.h, s.views, decided, t, false, ByClock)
      && (IsStateSnapshot(s.h[t]) ==> Based(s.h, s.views, decided, t, true, BySnapshot))
  {
    var keys := KeysOf(s.h[t]);
    FrozenMeans(s.views, keys, t);
    if Frozen(s.views, keys, t) == Some(true) {
      var i :| 0 <= i < |keys| && keys[i] in s.views;
      assert t in s.views[keys[i]];
    }
  }

  ghost predicate Untouched(visiting: set<Tip>, a: map<Tip, bool>, b: map<Tip, bool>) {
    forall u :: u in visiting && u !in a ==> u !in b
  }

  /** The parents decide about t. */
  predicate Open<S>(s: Setting<S>, t: Tip) {
    t in s.h && Frozen(s.views, KeysOf(s.h[t]), t).None? && s.interval(t).Some? && s.interval(t).value.0 <= 0 && !Summarised(s, t)
  }

  lemma JustifyAlone<S>(s: Setting<S>, decided: map<Tip, bool>, t: Tip)
    requires t in s.h
    ensures var f := Frozen(s.views, KeysOf(s.h[t]), t);
      && (f.Some? ==> Justified(s, decided, t, f.value))
      && (f.None? && s.interval(t).Some? && s.interval(t).value.0 > 0 ==> Justified(s, decided, t, false))
      && (f.None? && s.interval(t).Some? && s.interval(t).value.0 <= 0 && Summarised(s, t) ==> Justified(s, decided, t, true))
  {
    hide Frozen;
  }

  lemma JustifyByParents<S>(s: Setting<S>, decided: map<Tip, bool>, t: Tip, taken: bool)
    requires Open(s, t) && if taken then AllIncluded(Parents(s.h[t]), decided) else SomeExcluded(Parents(s.h[t]), decided)
    ensures Justified(s, decided, t, taken) && Based(s.h, s.views, decided, t, taken, ByParents)
  {
    hide Frozen;
  }

  // ---------- What the decisions mean ----------

  /** Whatever evidence came in since, an effect that was included for its parents has only
      included parents, and one that was excluded for them has an excluded one. */
  lemma ParentsAgree<S>(h: History<S>, views: map<Key, set<Tip>>, decided: map<Tip, bool>, why: map<Tip, Reason>, t: Tip)
    requires AllBased(h, views, decided, why) && t in decided && t in h && why[t] == ByParents
    ensures decided[t] <==> forall d :: d in Parents(h[t]) ==> d in decided && decided[d]
  {
    assert Based(h, views, decided, t, decided[t], why[t]);
    if !decided[t] {
      var d :| d in Parents(h[t]) && d in decided && !decided[d];
    }
  }

  /** Under unchanged evidence, outside the two shortcuts an included effect has only included
      parents. */
  lemma NoExcludedParent<S>(s: Setting<S>, decided: map<Tip, bool>, t: Tip, d: Tip)
    requires Consistent(s, decided) && t in decided && decided[t] && d in Parents(s.h[t])
    requires Frozen(s.views, KeysOf(s.h[t]), t).None? && !Summarised(s, t)
    ensures d in decided && decided[d]
  {
    hide Frozen;
    assert Justified(s, decided, t, decided[t]);
  }

  /** The order in which effects are asked about does not matter: two sets of decisions made
      from the same setting agree wherever both decide. */
  lemma {:induction false} AnswersAgree<S>(s: Setting<S>, a: map<Tip, bool>, b: map<Tip, bool>, rank: Tip -> nat, t: Tip)
    requires Consistent(s, a) && Consistent(s, b) && t in a && t in b
    requires forall u, d :: u in s.h && d in Parents(s.h[u]) ==> rank(d) < rank(u)
    ensures a[t] == b[t]
    decreases rank(t)
  {
    hide Frozen, Summarised;
    assert Justified(s, a, t, a[t]) && Justified(s, b, t, b[t]);
    if Frozen(s.views, KeysOf(s.h[t]), t).None? && s.interval(t).value.0 <= 0 && !Summarised(s, t) {
      if a[t] && !b[t] {
        var d :| d in Parents(s.h[t]) && d in b && !b[d];
        AnswersAgree(s, a, b, rank, d);
      } else if b[t] && !a[t] {
        var d :| d in Parents(s.h[t]) && d in a && !a[d];
        AnswersAgree(s, a, b, rank, d);
      }
    }
  }
}
