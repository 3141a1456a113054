/** The cloud outbox (cluster/cloud_outbox.go, cluster/cloud_sync.go): uploads that wait for the
    cloud, the references and pins they hold, and the order they are sent in. */
module Outbox {
  import opened Effects
  import opened Sequences

  /** `expand` marks uploads whose own history goes along. */
  datatype Upload = Upload(effect: Effect<()>, expand: bool)

  /** The un-acked writes of a key, and whether the key is pinned for them. */
  datatype KeyEntry = KeyEntry(tips: set<Tip>, pinned: bool)

  const GENERATION := 65536

  /** Some dependency still waits for the cloud. */
  predicate Blocked(pending: map<Tip, Upload>, deps: seq<Tip>) {
    exists i :: 0 <= i < |deps| && deps[i] in pending
  }

  /** A queue without the given tips. */
  function Without(q: seq<Tip>, gone: set<Tip>): (r: seq<Tip>)
    ensures forall t :: t in r <==> t in q && t !in gone
  {
    if q == [] then [] else (if q[0] in gone then [] else [q[0]]) + Without(q[1..], gone)
  }

  /** A write listed under its key; the first one decides whether the key is pinned. */
  function Listed(keys: map<Key, KeyEntry>, k: Key, t: Tip, pinned: bool): map<Key, KeyEntry> {
    keys[k := if k in keys then keys[k].(tips := keys[k].tips + {t}) else KeyEntry({t}, pinned)]
  }

  function PinnedKeys(keys: map<Key, KeyEntry>): set<Key> {
    set k | k in keys && keys[k].pinned
  }

  /** One reference for each pending upload, and no other. */
  ghost predicate Counted(refs: multiset<Tip>, pending: map<Tip, Upload>, resident: map<Tip, Effect<()>>) {
    && refs == multiset(pending.Keys)
    && forall t :: t in pending ==> t in resident && resident[t] == pending[t].effect
  }

  /** A key is listed while one of its own writes waits. */
  ghost predicate KeysSound(keys: map<Key, KeyEntry>, pending: map<Tip, Upload>) {
    && (forall k :: k in keys ==> keys[k].tips != {})
    && (forall k, t :: k in keys && t in keys[k].tips ==> t in pending && pending[t].effect.key == k)
  }

  /** One pin for each listed key that could be pinned, and no other. */
  ghost predicate PinsSound(keys: map<Key, KeyEntry>, pins: multiset<Key>) {
    pins == multiset(PinnedKeys(keys))
  }

  /** A pinned key keeps its leaf. */
  ghost predicate LeavesHeld(keys: map<Key, KeyEntry>, leaves: set<Key>) {
    PinnedKeys(keys) <= leaves
  }

  /** No upload is forgotten: it is queued, with the stream, or about to be retried. */
  ghost predicate Tracked(pending: map<Tip, Upload>, sendQ: seq<Tip>, sent: set<Tip>, retrying: set<Tip>) {
    forall t :: t in pending ==> t in sendQ || t in sent || t in retrying
  }

  lemma CountedAdd(refs: multiset<Tip>, pending: map<Tip, Upload>, resident: map<Tip, Effect<()>>, t: Tip, expand: bool)
    requires Counted(refs, pending, resident) && t in resident && t !in pending
    ensures Counted(refs + multiset{t}, pending[t := Upload(resident[t], expand)], resident)
  {
    assert pending[t := Upload(resident[t], expand)].Keys == pending.Keys + {t};
  }

  lemma CountedRemove(refs: multiset<Tip>, pending: map<Tip, Upload>, resident: map<Tip, Effect<()>>, t: Tip)
    requires Counted(refs, pending, resident) && t in pending
    ensures Counted(refs - multiset{t}, pending - {t}, resident)
  {
    assert (pending - {t}).Keys == pending.Keys - {t};
  }

  /** A key's first write pins it if it can; further ones change nothing. */
  lemma PinsAdd(keys: map<Key, KeyEntry>, pins: multiset<Key>, k: Key, tips: set<Tip>, pinned: bool)
    requires PinsSound(keys, pins)
    ensures k !in keys ==> PinsSound(keys[k := KeyEntry(tips, pinned)], if pinned then pins + multiset{k} else pins)
    ensures k in keys ==> PinsSound(keys[k := keys[k].(tips := tips)], pins)
  {
    if k in keys {
      assert PinnedKeys(keys[k := keys[k].(tips := tips)]) == PinnedKeys(keys);
    } else {
      assert k !in PinnedKeys(keys);
      assert PinnedKeys(keys[k := KeyEntry(tips, pinned)]) == PinnedKeys(keys) + if pinned then {k} else {};
    }
  }

  lemma PinsRemove(keys: map<Key, KeyEntry>, pins: multiset<Key>, k: Key)
    requires PinsSound(keys, pins) && k in keys
    ensures PinsSound(keys - {k}, if keys[k].pinned then pins - multiset{k} else pins)
  {
    assert k in PinnedKeys(keys) <==> keys[k].pinned;
    assert PinnedKeys(keys - {k}) == PinnedKeys(keys) - {k};
  }

  lemma KeysAdd(keys: map<Key, KeyEntry>, pending: map<Tip, Upload>, t: Tip, u: Upload, pinned: bool)
    requires KeysSound(keys, pending) && t !in pending
    ensures KeysSound(keys, pending[t := u])
    ensures var k := u.effect.key; k !in keys ==> KeysSound(keys[k := KeyEntry({t}, pinned)], pending[t := u])
    ensures var k := u.effect.key; k in keys ==> KeysSound(keys[k := keys[k].(tips := keys[k].tips + {t})], pending[t := u])
  {
  }

  /** Retiring a write; the last one of a key ends its entry. */
  lemma KeysRemove(keys: map<Key, KeyEntry>, pending: map<Tip, Upload>, t: Tip)
    requires KeysSound(keys, pending) && t in pending
    ensures var k := pending[t].effect.key;
      && (k !in keys ==> KeysSound(keys, pending - {t}))
      && (k in keys && keys[k].tips - {t} != {} ==> KeysSound(keys[k := keys[k].(tips := keys[k].tips - {t})], pending - {t}))
      && (k in keys && keys[k].tips - {t} == {} ==> KeysSound(keys - {k}, pending - {t}))
  {
  }

  lemma ListedHeld(keys: map<Key, KeyEntry>, leaves: set<Key>, k: Key, t: Tip)
    requires LeavesHeld(keys, leaves)
    ensures LeavesHeld(Listed(keys, k, t, k in leaves), leaves)
  {
    var after := Listed(keys, k, t, k in leaves);
    forall j | j in PinnedKeys(after) ensures j in leaves {
      assert j in keys ==> (j in PinnedKeys(keys) <==> keys[j].pinned);
    }
  }

  lemma UnpinnedHeld(keys: map<Key, KeyEntry>, leaves: set<Key>, pins: multiset<Key>, k: Key, t: Tip, keys2: map<Key,
                     KeyEntry>, pins2: multiset<Key>)
    requires LeavesHeld(keys, leaves) && Unpins(keys, pins, k, t, keys2, pins2)
    ensures LeavesHeld(keys2, leaves)
  {
    forall j | j in PinnedKeys(keys2) ensures j in leaves {
      assert j in keys && keys[j].pinned;
      assert j in PinnedKeys(keys);
    }
  }

  lemma TrackedAdd(pending: map<Tip, Upload>, sendQ: seq<Tip>, sent: set<Tip>, retrying: set<Tip>, t: Tip, u: Upload)
    requires Tracked(pending, sendQ, sent, retrying)
    ensures Tracked(pending[t := u], sendQ + [t], sent, retrying)
  {
  }

  class CloudOutbox {
    const node: nat
    const uploadable: Effect<()> -> bool
    /** The vertex pool: what is resident, and the references this outbox holds. */
    var resident: map<Tip, Effect<()>>
    var refs: multiset<Tip>
    /** Pins this outbox holds on keys; a key without a live leaf cannot be pinned. */
    var pins: multiset<Key>
    var leaves: set<Key>
    var pending: map<Tip, Upload>
    var pendingKeys: map<Key, KeyEntry>
    var sendQ: seq<Tip>
    /** Two generations of tips the cloud is known to hold. */
    var cur: set<Tip>
    var prev: set<Tip>
    /** Tips handed to the stream, and tips waiting for a retry timer. */
    ghost var sent: set<Tip>
    ghost var retrying: set<Tip>
    /** The tip the sender has taken off the queue and not yet dealt with. */
    ghost var inHand: set<Tip>
    /** Everything the cloud ever acknowledged. */
    ghost var acked: set<Tip>

    ghost predicate Valid()
      reads this
    {
      && Counted(refs, pending, resident) && KeysSound(pendingKeys, pending)
      && PinsSound(pendingKeys, pins) && Tracked(pending, sendQ, sent, retrying + inHand)
      && LeavesHeld(pendingKeys, leaves) && cur + prev <= acked && |cur| <= GENERATION && |prev| <= GENERATION
    }

    constructor (id: nat, mayUpload: Effect<()> -> bool)
      ensures Valid() && pending == map[] && inHand == {} && node == id && uploadable == mayUpload
    {
      node, uploadable := id, mayUpload;
      resident, refs, pins, leaves := map[], multiset{}, multiset{}, {};
      pending, pendingKeys, sendQ, cur, prev := map[], map[], [], {}, {};
      sent, retrying, inHand, acked := {}, {}, {}, {};
    }

    /** Only unreferenced vertices leave the pool. */
    method Evict(t: Tip)
      requires Valid() && refs[t] == 0
      modifies `resident
      ensures Valid() && resident == old(resident) - {t}
    {
      assert t !in pending by {
        assert t in pending.Keys <==> refs[t] == 1;
      }
      resident := resident - {t};
    }

    /** The engine stores a vertex: an own effect or one received from elsewhere. */
    method Install(t: Tip, e: Effect<()>)
      requires Valid() && t !in resident
      modifies `resident
      ensures Valid() && resident == old(resident)[t := e]
    {
      hide KeysSound, PinsSound, Tracked;
      resident := resident[t := e];
    }

    /** A key gets a leaf in the index. */
    method AddLeaf(k: Key)
      requires Valid()
      modifies `leaves
      ensures Valid() && leaves == old(leaves) + {k}
    {
      hide Counted, KeysSound, PinsSound, Tracked;
      leaves := leaves + {k};
    }

    /** Only keys that are not pinned lose their leaf. */
    method DropLeaf(k: Key)
      requires Valid() && pins[k] == 0
      modifies `leaves
      ensures Valid() && leaves == old(leaves) - {k}
    {
      hide Counted, KeysSound, Tracked;
      assert k !in PinnedKeys(pendingKeys) by {
        assert k in PinnedKeys(pendingKeys) <==> pins[k] == 1;
      }
      leaves := leaves - {k};
    }

    // ---------- Enqueueing ----------

    predicate CloudHolds(t: Tip)
      reads this`cur, this`prev
    {
      t in cur || t in prev
    }

    /** Enter an own write under its key; the key's first one pins it. */
    method ListKey(t: Tip, u: Upload)
      requires KeysSound(pendingKeys, pending) && PinsSound(pendingKeys, pins) && t !in pending
      modifies `pendingKeys, `pins
      ensures KeysSound(pendingKeys, pending[t := u]) && PinsSound(pendingKeys, pins)
      ensures pendingKeys == Listed(old(pendingKeys), u.effect.key, t, u.effect.key in leaves)
    {
      hide KeysSound, PinsSound;
      var k := u.effect.key;
      var pinned := k in leaves;
      KeysAdd(pendingKeys, pending, t, u, pinned);
      if k !in pendingKeys {
        PinsAdd(pendingKeys, pins, k, {t}, pinned);
        if pinned {
          pins := pins + multiset{k};
        }
        pendingKeys := pendingKeys[k := KeyEntry({t}, pinned)];
      } else {
        PinsAdd(pendingKeys, pins, k, pendingKeys[k].tips + {t}, pinned);
        pendingKeys := pendingKeys[k := pendingKeys[k].(tips := pendingKeys[k].tips + {t})];
      }
    }

    /** Enter an upload that is not pending yet and already referenced. */
    method Admit(t: Tip, u: Upload, frontier: bool, ghost before: multiset<Tip>)
      requires t in resident && u.effect == resident[t] && t !in pending && refs == before + multiset{t}
      requires Counted(before, pending, resident) && KeysSound(pendingKeys, pending) && PinsSound(pendingKeys, pins)
      requires Tracked(pending, sendQ, sent, retrying + inHand) && LeavesHeld(pendingKeys, leaves) && cur + prev <= acked
      requires |cur| <= GENERATION && |prev| <= GENERATION
      modifies `pins, `pending, `pendingKeys, `sendQ
      ensures Valid() && pending == old(pending)[t := u] && sendQ == old(sendQ) + [t]
      ensures !frontier ==> pendingKeys == old(pendingKeys) && pins == old(pins)
      ensures frontier ==> pendingKeys == Listed(old(pendingKeys), u.effect.key, t, u.effect.key in leaves)
    {
      hide Counted, KeysSound, PinsSound, Tracked;
      CountedAdd(before, pending, resident, t, u.expand);
      KeysAdd(pendingKeys, pending, t, u, false);
      TrackedAdd(pending, sendQ, sent, retrying + inHand, t, u);
      if frontier {
        ListedHeld(pendingKeys, leaves, u.effect.key, t);
        ListKey(t, u);
      }
      pending := pending[t := u];
      sendQ := sendQ + [t];
    }

    /** Add one upload: a reference, the key's entry and pin for an own write, a place in the queue. */
    method EnqueueUpload(t: Tip, frontier: bool, expand: bool) returns (ok: bool)
      requires Valid()
      modifies `refs, `pins, `pending, `pendingKeys, `sendQ
      ensures Valid()
      ensures ok <==> t in resident && t !in old(pending)
      ensures ok ==> pending == old(pending)[t := Upload(resident[t], expand)] && sendQ == old(sendQ) + [t]
      ensures !ok ==> pending == old(pending) && sendQ == old(sendQ)
      ensures !ok || !frontier ==> pendingKeys == old(pendingKeys) && pins == old(pins)
      ensures ok && frontier ==> pendingKeys == Listed(old(pendingKeys), resident[t].key, t, resident[t].key in leaves)
    {
      hide Counted, KeysSound, PinsSound, Tracked;
      if t !in resident {
        return false;
      }
      refs := refs + multiset{t};
      if t in pending {
        refs := refs - multiset{t};
        assert refs == old(refs);
        return false;
      }
      Admit(t, Upload(resident[t], expand), frontier, old(refs));
      return true;
    }

    /** Own history that the cloud still misses and this node still has. */
    predicate Missing(d: Tip)
      reads this`cur, this`prev, this`resident
    {
      d.node == node && !CloudHolds(d) && d in resident && uploadable(resident[d])
    }

    /** Queue one level of own history that the cloud has not seen. */
    method ExpandAncestry(deps: seq<Tip>) returns (queued: seq<Tip>)
      requires Valid()
      modifies `refs, `pins, `pending, `pendingKeys, `sendQ
      ensures Valid() && pendingKeys == old(pendingKeys) && pins == old(pins) && sendQ == old(sendQ) + queued
      ensures pending.Keys == old(pending.Keys) + Elems(queued) && Keeps(old(pending), pending)
      ensures forall t :: t in queued <==> t in deps && Missing(t) && t !in old(pending)
    {
      hide Counted, KeysSound, PinsSound, Tracked;
      queued := [];
      ghost var q0, p0 := sendQ, pending;
      assert q0 + queued == sendQ;
      for i := 0 to |deps|
        invariant Valid() && pendingKeys == old(pendingKeys) && pins == old(pins) && sendQ == q0 + queued
        invariant pending.Keys == p0.Keys + Elems(queued) && forall t :: t in p0 ==> pending[t] == p0[t]
        invariant forall t :: t in queued <==> t in deps[..i] && Missing(t) && t !in p0
      {
        var d := deps[i];
        assert deps[..i + 1] == deps[..i] + [d];
        if d.node != node || CloudHolds(d) || d !in resident || !uploadable(resident[d]) {
          continue;
        }
        var ok := EnqueueUpload(d, false, true);
        if ok {
          queued := queued + [d];
        }
      }
      assert deps[..|deps|] == deps;
    }

    /** A new own effect: its unsent history first, then the effect itself. */
    method HandleLocalEffect(t: Tip)
      requires Valid() && t in resident && t !in pending && t !in resident[t].deps
      modifies `refs, `pins, `pending, `pendingKeys, `sendQ
      ensures Valid() && Keeps(old(pending), pending)
      ensures !uploadable(resident[t]) ==> pending == old(pending) && sendQ == old(sendQ) && pendingKeys == old(pendingKeys)
      ensures uploadable(resident[t]) ==> forall d :: d in pending <==> d in old(pending) || d == t || (d in resident[t].deps && Missing(d))
      ensures uploadable(resident[t]) ==>
        old(sendQ) < sendQ && sendQ[|sendQ| - 1] == t && pendingKeys == Listed(old(pendingKeys), resident[t].key, t, resident[t].key in leaves)
    {
      hide Counted, KeysSound, PinsSound, Tracked;
      if !uploadable(resident[t]) {
        return;
      }
      var queued := ExpandAncestry(resident[t].deps);
      var ok := EnqueueUpload(t, true, true);
    }

    /** The cloud asks for one effect; only that one is sent. */
    method HandleFetch(t: Tip)
      requires Valid()
      modifies `refs, `pins, `pending, `pendingKeys, `sendQ
      ensures Valid() && pending.Keys == old(pending.Keys) + (if t in resident then {t} else {}) && Keeps(old(pending), pending)
      ensures pendingKeys == old(pendingKeys) && (t in pending && t !in old(pending) ==> !pending[t].expand)
    {
      hide Counted, KeysSound, PinsSound, Tracked;
      if t !in resident {
        return;
      }
      var ok := EnqueueUpload(t, false, false);
    }

    // ---------- Retiring ----------

    /** Drop a pending upload: its reference, its entry and, with the last of its key, the pin. */
    method Release(t: Tip)
      requires Valid() && t in pending
      modifies `refs, `pins, `pending, `pendingKeys
      ensures Valid() && pending == old(pending) - {t} && refs == old(refs) - multiset{t}
      ensures Unpins(old(pendingKeys), old(pins), old(pending)[t].effect.key, t, pendingKeys, pins)
    {
      hide Counted, KeysSound, PinsSound, Tracked, Unpins;
      CountedRemove(refs, pending, resident, t);
      RetireTracks(pending, sendQ, sent, retrying + inHand, t);
      ghost var keys := pendingKeys;
      UnlistKey(t);
      UnpinnedHeld(keys, leaves, old(pins), pending[t].effect.key, t, pendingKeys, pins);
      pending := pending - {t};
      refs := refs - multiset{t};
    }

    /** An acknowledgement; only the first one for a tip finds it pending. */
    method Retire(t: Tip) returns (held: bool)
      requires Valid()
      modifies `refs, `pins, `pending, `pendingKeys, `sendQ
      ensures Valid() && held == (t in old(pending)) && pending == old(pending) - {t} && sendQ == if pending == map[] then [] else old(sendQ)
      ensures held ==> refs == old(refs) - multiset{t} && Unpins(old(pendingKeys), old(pins), old(pending)[t].effect.key, t, pendingKeys, pins)
      ensures !held ==> refs == old(refs) && pins == old(pins) && pendingKeys == old(pendingKeys)
    {
      hide Counted, KeysSound, PinsSound, Tracked, Unpins;
      held := t in pending;
      if held {
        Release(t);
      } else {
        NothingGone(pending, t);
      }
      ReleaseIfEmpty();
    }

    /** An outbox that has drained gives its storage back. */
    method ReleaseIfEmpty()
      requires Valid()
      modifies `pendingKeys, `sendQ
      ensures Valid() && pendingKeys == old(pendingKeys) && sendQ == if pending == map[] then [] else old(sendQ)
    {
      hide Counted, KeysSound, PinsSound, Tracked;
      if |pending| == 0 {
        EmptyOutbox(pendingKeys, pending);
        pendingKeys, sendQ := map[], [];
        NothingTracked(pending, sent, retrying + inHand);
      }
    }

    method UnlistKey(t: Tip)
      requires t in pending && KeysSound(pendingKeys, pending) && PinsSound(pendingKeys, pins)
      modifies `pendingKeys, `pins
      ensures KeysSound(pendingKeys, pending - {t}) && PinsSound(pendingKeys, pins)
      ensures Unpins(old(pendingKeys), old(pins), pending[t].effect.key, t, pendingKeys, pins)
    {
      hide KeysSound, PinsSound;
      var k := pending[t].effect.key;
      KeysRemove(pendingKeys, pending, t);
      if k in pendingKeys {
        var e := pendingKeys[k].(tips := pendingKeys[k].tips - {t});
        if e.tips == {} {
          PinsRemove(pendingKeys, pins, k);
          if e.pinned {
            pins := pins - multiset{k};
          }
          pendingKeys := pendingKeys - {k};
        } else {
          PinsAdd(pendingKeys, pins, k, e.tips, e.pinned);
          pendingKeys := pendingKeys[k := e];
        }
      }
    }

    // ---------- Sending ----------

    /** Put a tip behind dependencies that were just queued, ahead of everything else. */
    method DeferUploadBehind(t: Tip, deps: seq<Tip>)
      modifies `sendQ
      ensures sendQ == deps + [t] + Without(old(sendQ), Elems(deps) + {t})
    {
      hide Without;
      var rest, q := [], sendQ;
      ghost var gone := Elems(deps) + {t};
      assert q[0..] == q;
      for i := 0 to |q|
        invariant sendQ == q && rest + Without(q[i..], gone) == Without(q, gone)
      {
        WithoutNext(q, i, gone);
        if q[i] != t && q[i] !in deps {
          rest := rest + [q[i]];
        }
      }
      WithoutNone(q, gone);
      sendQ := deps + [t] + rest;
    }

    method Pop() returns (t: Tip)
      requires Valid() && inHand == {} && sendQ != []
      modifies `sendQ, `inHand
      ensures Valid() && inHand == {t} && old(sendQ) == [t] + sendQ
    {
      hide Counted, KeysSound, PinsSound, Tracked;
      t := sendQ[0];
      PopTracks(pending, sendQ, sent, retrying + inHand);
      assert {} + {t} == {t};
      sendQ, inHand := sendQ[1..], {t};
      assert retrying + {} + {t} == retrying + inHand;
    }

    ghost method PutDown(t: Tip)
      requires Valid() && inHand == {t} && t !in pending
      modifies `inHand
      ensures Valid() && inHand == {}
    {
      hide Counted, KeysSound, PinsSound, Tracked;
      HandIsIdle(pending, sendQ, sent, retrying, t);
      inHand := {};
    }

    /** Deal with the first queued tip: drop it if it was acknowledged meanwhile, put it behind own
        history found missing, put it back if a dependency is pending, or hand it to the stream. */
    method TakeNext(sealable: Tip -> bool) returns (o: Outcome)
      requires Valid() && inHand == {} && sendQ != []
      modifies `refs, `pins, `pending, `pendingKeys, `sendQ, `sent, `retrying, `inHand
      ensures Valid() && inHand == {} && pendingKeys == old(pendingKeys) && pins == old(pins) && Keeps(old(pending), pending)
      ensures Dealt(o, old(sendQ), old(pending), sealable, sendQ, pending, resident.Keys)
      ensures o == Handed ==> old(sendQ[0]) in sent
      ensures o == Dropped && old(sendQ[0]) in pending ==> old(sendQ[0]) in retrying
    {
      hide Valid, Blocked, Keeps;
      ghost var q0, p0 := sendQ, pending;
      KeepsSelf(p0);
      var t := Pop();
      assert t == q0[0] && sendQ == q0[1..];
      if t !in pending {
        PutDown(t);
        return Dropped;
      }
      var u := pending[t];
      o := Expand(t, u);
      if o.Dropped? {
        o := Dispatch(t, u, sealable);
      }
    }

    /** The same with answers of the cloud arriving while the outbox is unlocked: after the tip was
        taken, and after its history was expanded. The tip itself may be retired meanwhile. */
    method TakeInterrupted(sealable: Tip -> bool, taken: seq<(Tip, bool)>, expanded: seq<(Tip, bool)>)
      returns (o: Outcome, ghost u: Option<Upload>)
      requires Valid() && inHand == {} && sendQ != []
      modifies this
      ensures Valid() && inHand == {}
      ensures u == if old(sendQ[0]) in old(pending) then Some(old(pending)[old(sendQ[0])]) else None
      ensures o == Requeued ==> u.Some? && Blocked(pending, u.value.effect.deps) && old(sendQ[0]) in sendQ
      ensures o == Handed ==> u.Some? && !Blocked(pending, u.value.effect.deps) && old(sendQ[0]) in sent && sealable(old(sendQ[0]))
      ensures o == Dropped && u.Some? ==> !sealable(old(sendQ[0])) && old(sendQ[0]) in retrying
    {
      hide Valid, Blocked, Keeps;
      var t := Pop();
      if t !in pending {
        u := None;
        PutDown(t);
        return Dropped, u;
      }
      var upload := pending[t];
      u := Some(upload);
      HandleAcks(taken);
      o := Expand(t, upload);
      if o.Dropped? {
        HandleAcks(expanded);
        o := Dispatch(t, upload, sealable);
      }
    }

    method HandleAcks(acks: seq<(Tip, bool)>)
      requires Valid()
      modifies this
      ensures Valid() && inHand == old(inHand) && resident == old(resident)
    {
      hide Valid;
      for i := 0 to |acks|
        invariant Valid() && inHand == old(inHand) && resident == old(resident)
      {
        HandleAck(acks[i].0, acks[i].1);
      }
    }

    /** Queue own history below the tip that the cloud still misses, ahead of the tip. */
    method Expand(t: Tip, u: Upload) returns (o: Outcome)
      requires Valid() && inHand == {t}
      modifies `refs, `pins, `pending, `pendingKeys, `sendQ, `inHand
      ensures Valid() && pendingKeys == old(pendingKeys) && pins == old(pins) && Keeps(old(pending), pending) && (o.Grown? || o.Dropped?)
      ensures o.Grown? <==> u.expand && exists d :: d in u.effect.deps && Missing(d) && d !in old(pending)
      ensures o.Grown? ==> inHand == {} && o.more > 0 && Left(resident.Keys, pending) < Left(resident.Keys, old(pending))
      ensures o.Grown? ==> t in sendQ && forall d :: d in u.effect.deps && Missing(d) ==> d in pending
      ensures o.Dropped? ==> inHand == {t} && pending == old(pending) && sendQ == old(sendQ)
    {
      hide Valid, Blocked, Keeps, Left, Elems;
      KeepsSelf(pending);
      if !u.expand {
        return Dropped;
      }
      ghost var p0 := pending;
      var queued := ExpandAncestry(u.effect.deps);
      if queued == [] {
        NothingQueued(pending, p0, queued);
        return Dropped;
      }
      assert queued[0] in queued;
      QueuedArePending(pending, p0, queued);
      Grew(resident, p0, pending, queued);
      DeferUploadAgain(t, queued);
      return Grown(|queued|);
    }

    method DeferUploadAgain(t: Tip, deps: seq<Tip>)
      requires Valid() && inHand == {t}
      modifies `sendQ, `inHand
      ensures Valid() && inHand == {} && t in sendQ && forall d :: d in deps ==> d in sendQ
    {
      hide Counted, KeysSound, PinsSound, Tracked, Without;
      DeferTracks(pending, sendQ, sent, retrying, t, deps);
      DeferUploadBehind(t, deps);
      inHand := {};
    }

    /** Hand the tip over unless one of its dependencies is pending. */
    method Dispatch(t: Tip, u: Upload, sealable: Tip -> bool) returns (o: Outcome)
      requires Valid() && inHand == {t}
      modifies `sendQ, `sent, `retrying, `inHand
      ensures Valid() && inHand == {} && !o.Grown?
      ensures o == if Blocked(pending, u.effect.deps) then Requeued else if sealable(t) then Handed else Dropped
      ensures sendQ == old(sendQ) + if o == Requeued then [t] else []
      ensures sent == old(sent) + if o == Handed then {t} else {}
      ensures retrying == old(retrying) + if o == Dropped then {t} else {}
    {
      hide Counted, KeysSound, PinsSound, Tracked;
      RequeueTracks(pending, sendQ, sent, retrying, t);
      SentTracks(pending, sendQ, sent, retrying, t);
      inHand := {};
      var blocked := AnyPending(u.effect.deps);
      if blocked {
        sendQ := sendQ + [t];
        return Requeued;
      }
      if !sealable(t) {
        retrying := retrying + {t};
        return Dropped;
      }
      sent := sent + {t};
      return Handed;
    }

    /** Take the next upload that no pending dependency holds back. One pass ends although it may
        queue further history. */
    method NextEnvelope(sealable: Tip -> bool) returns (r: Option<Tip>)
      requires Valid() && inHand == {}
      modifies `refs, `pins, `pending, `pendingKeys, `sendQ, `sent, `retrying, `inHand
      ensures Valid() && inHand == {} && pendingKeys == old(pendingKeys) && pins == old(pins)
      ensures Keeps(old(pending), pending)
      ensures r.Some? ==> r.value in pending && r.value in sent && sealable(r.value) && !Blocked(pending, pending[r.value].effect.deps)
      ensures r.None? && pending == old(pending) ==> forall t :: t in sendQ ==> t in pending && Blocked(pending, pending[t].effect.deps)
      ensures r.None? && pending == old(pending) ==>
        forall t :: t in old(sendQ) && t in pending ==> Blocked(pending, pending[t].effect.deps) || !sealable(t)
    {
      hide Valid, Blocked, Passing, Keeps, Dealt, Left;
      var remaining: int := |sendQ|;
      ghost var q0, p0 := sendQ, pending;
      PassStarts(pending, sendQ, sealable, resident.Keys);
      while sendQ != [] && remaining > 0
        invariant Valid() && inHand == {} && pendingKeys == old(pendingKeys) && pins == old(pins)
        invariant Keeps(p0, pending) && Passing(q0, p0, sealable, pending, sendQ, remaining, resident.Keys)
        decreases Left(resident.Keys, pending), remaining
      {
        ghost var q, p := sendQ, pending;
        var t := sendQ[0];
        var o := TakeNext(sealable);
        KeepsTrans(p0, p, pending);
        PassGoesOn(o, q0, p0, sealable, q, p, sendQ, pending, resident.Keys, remaining);
        if o.Handed? {
          return Some(t);
        }
        remaining := remaining - 1 + if o.Grown? then o.more else 0;
      }
      PassEnds(q0, p0, sealable, pending, sendQ, remaining, resident.Keys);
      return None;
    }

    // ---------- Answers of the cloud ----------

    /** Remember that the cloud holds a tip; the older of two full generations is forgotten. */
    method MarkCloudHolds(t: Tip)
      requires Valid()
      modifies `cur, `prev, `acked
      ensures Valid() && CloudHolds(t) && acked == old(acked) + {t} && (forall u :: CloudHolds(u) ==> old(CloudHolds(u)) || u == t)
      ensures forall u :: u in old(cur) ==> CloudHolds(u)
      ensures |old(cur)| < GENERATION ==> forall u :: old(CloudHolds(u)) ==> CloudHolds(u)
    {
      hide Counted, KeysSound, PinsSound, Tracked;
      if |cur| >= GENERATION {
        prev, cur := cur, {};
      }
      cur := cur + {t};
      acked := acked + {t};
    }

    /** A stored effect is retired; a failed one is tried again if it is still owed. */
    method HandleAck(t: Tip, ok: bool)
      requires Valid()
      modifies this
      ensures Valid() && inHand == old(inHand) && resident == old(resident)
      ensures ok ==> pending == old(pending) - {t} && CloudHolds(t) && acked == old(acked) + {t} && retrying == old(retrying)
      ensures ok ==> sendQ == if pending == map[] then [] else old(sendQ)
      ensures !ok ==> pending == old(pending) && sendQ == old(sendQ) && cur == old(cur) && prev == old(prev)
      ensures !ok ==> retrying == old(retrying) + if t in pending then {t} else {}
    {
      hide Valid, Unpins;
      if ok {
        MarkCloudHolds(t);
        var held := Retire(t);
      } else if t in pending {
        RetryUpload(t);
      }
    }

    /** Start the retry timer of a tip. */
    ghost method RetryUpload(t: Tip)
      requires Valid()
      modifies `retrying
      ensures Valid() && retrying == old(retrying) + {t}
    {
      retrying := retrying + {t};
    }

    /** The retry timer of a tip. An acknowledgement may have come first. */
    method RetryFires(t: Tip)
      requires Valid() && t in retrying
      modifies `sendQ, `retrying
      ensures Valid() && retrying == old(retrying) - {t} && sendQ == if t in pending then old(sendQ) + [t] else old(sendQ)
    {
      hide Counted, KeysSound, PinsSound;
      if t in pending {
        sendQ := sendQ + [t];
      }
      retrying := retrying - {t};
    }

    /** A new stream: whatever is still owed is queued once, and nothing counts as sent. */
    method Restart()
      requires Valid()
      modifies `sendQ, `sent
      ensures Valid() && sent == {} && multiset(sendQ) == multiset(pending.Keys)
    {
      hide Counted, KeysSound, PinsSound;
      var q: seq<Tip>, todo := [], pending.Keys;
      ghost var all := multiset(pending.Keys);
      while todo != {}
        invariant todo <= pending.Keys && multiset(q) + multiset(todo) == multiset(pending.Keys)
      {
        var t :| t in todo;
        assert multiset(todo) == multiset(todo - {t}) + multiset{t};
        todo := todo - {t};
        q := q + [t];
      }
      assert multiset(q) == all;
      sendQ, sent := q, {};
      forall t | t in pending ensures t in sendQ {
        assert t in multiset(pending.Keys);
      }
    }

    method AnyPending(deps: seq<Tip>) returns (r: bool)
      ensures r <==> Blocked(pending, deps)
    {
      for i := 0 to |deps|
        invariant forall j :: 0 <= j < i ==> deps[j] !in pending
      {
        if deps[i] in pending {
          return true;
        }
      }
      return false;
    }
  }

  ghost predicate Keeps(a: map<Tip, Upload>, b: map<Tip, Upload>) {
    forall t :: t in a ==> t in b && b[t] == a[t]
  }

  lemma KeepsTrans(a: map<Tip, Upload>, b: map<Tip, Upload>, c: map<Tip, Upload>)
    requires Keeps(a, b) && Keeps(b, c)
    ensures Keeps(a, c)
  {
  }

  lemma KeepsSelf(a: map<Tip, Upload>)
    ensures Keeps(a, a)
  {
  }

  /** How much history could still be queued. */
  ghost function Left(all: set<Tip>, pending: map<Tip, Upload>): nat {
    |all - pending.Keys|
  }

  /** Reasons not to send a tip: it is not owed, a dependency is pending, or it cannot be sealed. */
  ghost predicate HeldBack(p: map<Tip, Upload>, sealable: Tip -> bool, t: Tip) {
    t !in p || Blocked(p, p[t].effect.deps) || !sealable(t)
  }

  /** While a pass over q0 has queued nothing, the queue behind it holds only blocked tips, and what
      it has passed is held back. */
  ghost predicate Passing(q0: seq<Tip>, p0: map<Tip, Upload>, sealable: Tip -> bool, p: map<Tip, Upload>, q: seq<Tip>, n: int, all: set<Tip>) {
    if p == p0 then 0 <= n <= |q| && AllBlocked(p, q[n..]) && forall t :: t in q0 ==> t in q[..n] || HeldBack(p, sealable, t)
    else 0 <= n && Left(all, p) < Left(all, p0)
  }

  /** What dealing with the head of a queue may have done. */
  ghost predicate Dealt(o: Outcome, q0: seq<Tip>, p0: map<Tip, Upload>, sealable: Tip -> bool, q: seq<Tip>, p: map<Tip, Upload>, all: set<Tip>)
    requires q0 != []
  {
    match o
    case Dropped => p == p0 && q == q0[1..] && (q0[0] !in p || (!sealable(q0[0]) && !Blocked(p, p[q0[0]].effect.deps)))
    case Grown(more) => more > 0 && Left(all, p) < Left(all, p0) && q0[0] in p0 && p0[q0[0]].expand
    case Requeued => p == p0 && q == q0[1..] + [q0[0]] && q0[0] in p && Blocked(p, p[q0[0]].effect.deps)
    case Handed => p == p0 && q == q0[1..] && q0[0] in p && sealable(q0[0]) && !Blocked(p, p[q0[0]].effect.deps)
  }

  /** What became of a tip at the head of the queue. */
  datatype Outcome = Dropped | Grown(more: nat) | Requeued | Handed

  ghost predicate AllBlocked(pending: map<Tip, Upload>, q: seq<Tip>) {
    forall i :: 0 <= i < |q| ==> q[i] in pending && Blocked(pending, pending[q[i]].effect.deps)
  }

  /** The pin of a key goes exactly with the last of its own writes. */
  ghost predicate Unpins(keys: map<Key, KeyEntry>, pins: multiset<Key>, k: Key, t: Tip, keys2: map<Key, KeyEntry>, pins2: multiset<Key>) {
    if k !in keys then keys2 == keys && pins2 == pins
    else if keys[k].tips - {t} == {} then keys2 == keys - {k} && pins2 == if keys[k].pinned then pins - multiset{k} else pins
    else keys2 == keys[k := keys[k].(tips := keys[k].tips - {t})] && pins2 == pins
  }

  lemma RetireTracks(pending: map<Tip, Upload>, sendQ: seq<Tip>, sent: set<Tip>, retrying: set<Tip>, t: Tip)
    requires Tracked(pending, sendQ, sent, retrying)
    ensures Tracked(pending - {t}, sendQ, sent, retrying)
  {
  }

  lemma NothingGone(pending: map<Tip, Upload>, t: Tip)
    ensures t !in pending ==> pending - {t} == pending
  {
  }

  lemma ListedHasPending(keys: map<Key, KeyEntry>, pending: map<Tip, Upload>, k: Key)
    requires KeysSound(keys, pending) && k in keys
    ensures exists t :: t in pending
  {
    var t :| t in keys[k].tips;
    assert t in pending;
  }

  /** An empty outbox lists no key. */
  lemma EmptyOutbox(keys: map<Key, KeyEntry>, pending: map<Tip, Upload>)
    requires KeysSound(keys, pending) && |pending| == 0
    ensures keys == map[]
  {
    forall k ensures k !in keys {
      if k in keys {
        ListedHasPending(keys, pending, k);
      }
    }
  }

  lemma NothingTracked(pending: map<Tip, Upload>, sent: set<Tip>, retrying: set<Tip>)
    requires |pending| == 0
    ensures Tracked(pending, [], sent, retrying)
  {
  }

  // ---------- Small facts about the sender ----------

  lemma PopTracks(pending: map<Tip, Upload>, q: seq<Tip>, sent: set<Tip>, other: set<Tip>)
    requires q != [] && Tracked(pending, q, sent, other)
    ensures Tracked(pending, q[1..], sent, other + {q[0]})
  {
  }

  lemma HandIsIdle(pending: map<Tip, Upload>, q: seq<Tip>, sent: set<Tip>, retrying: set<Tip>, t: Tip)
    requires Tracked(pending, q, sent, retrying + {t}) && t !in pending
    ensures Tracked(pending, q, sent, retrying + {})
  {
  }

  lemma DeferTracks(pending: map<Tip, Upload>, q: seq<Tip>, sent: set<Tip>, retrying: set<Tip>, t: Tip, deps: seq<Tip>)
    requires Tracked(pending, q, sent, retrying + {t})
    ensures Tracked(pending, deps + [t] + Without(q, Elems(deps) + {t}), sent, retrying + {})
  {
  }

  lemma RequeueTracks(pending: map<Tip, Upload>, q: seq<Tip>, sent: set<Tip>, retrying: set<Tip>, t: Tip)
    requires Tracked(pending, q, sent, retrying + {t})
    ensures Tracked(pending, q + [t], sent, retrying + {})
  {
  }

  lemma SentTracks(pending: map<Tip, Upload>, q: seq<Tip>, sent: set<Tip>, retrying: set<Tip>, t: Tip)
    requires Tracked(pending, q, sent, retrying + {t})
    ensures Tracked(pending, q, sent + {t}, retrying + {}) && Tracked(pending, q, sent, retrying + {t} + {})
  {
  }

  lemma PassStarts(p: map<Tip, Upload>, q: seq<Tip>, sealable: Tip -> bool, all: set<Tip>)
    ensures Passing(q, p, sealable, p, q, |q|, all) && Keeps(p, p)
  {
    assert q[..|q|] == q;
  }

  lemma PassGoesOn(o: Outcome, start: seq<Tip>, was: map<Tip, Upload>, sealable: Tip -> bool, q0: seq<Tip>, p0: map<Tip, Upload>,
                   q: seq<Tip>, p: map<Tip, Upload>, all: set<Tip>, n: int)
    requires q0 != [] && Dealt(o, q0, p0, sealable, q, p, all) && n > 0 && Passing(start, was, sealable, p0, q0, n, all)
    ensures o.Handed? ==> q0[0] in p && sealable(q0[0]) && !Blocked(p, p[q0[0]].effect.deps)
    ensures !o.Handed? ==> Passing(start, was, sealable, p, q, n - 1 + if o.Grown? then o.more else 0, all)
    ensures if o.Grown? then Left(all, p) < Left(all, p0) else p == p0
  {
    hide Blocked, Left;
    if (o.Dropped? || o.Requeued?) && p0 == was {
      assert q0[1..][n - 1..] == q0[n..];
      assert (q0[1..] + [q0[0]])[n - 1..] == q0[n..] + [q0[0]];
      assert q0[..n] == [q0[0]] + q[..n - 1];
      forall t | t in start ensures t in q[..n - 1] || HeldBack(p, sealable, t) {
        assert t in q0[..n] || HeldBack(p, sealable, t);
      }
    }
  }

  lemma PassEnds(q0: seq<Tip>, p0: map<Tip, Upload>, sealable: Tip -> bool, p: map<Tip, Upload>, q: seq<Tip>, n: int, all: set<Tip>)
    requires Passing(q0, p0, sealable, p, q, n, all) && (q == [] || n <= 0)
    ensures p == p0 ==> forall t :: t in q ==> t in p && Blocked(p, p[t].effect.deps)
    ensures p == p0 ==> forall t :: t in q0 && t in p ==> Blocked(p, p[t].effect.deps) || !sealable(t)
  {
    hide Blocked;
    if n == 0 {
      assert q[0..] == q;
    }
  }

  /** New ancestors come out of the resident history, of which there is only so much. */
  lemma Grew(resident: map<Tip, Effect<()>>, p0: map<Tip, Upload>, pending: map<Tip, Upload>, queued: seq<Tip>)
    requires queued != [] && pending.Keys == p0.Keys + Elems(queued) && forall t :: t in queued ==> t in resident && t !in p0
    ensures Left(resident.Keys, pending) < Left(resident.Keys, p0)
  {
    var t := queued[0];
    assert t in queued;
    var a, b := resident.Keys - pending.Keys, resident.Keys - p0.Keys - {t};
    assert a <= b;
    assert b == a + (b - a);
  }

  lemma WithoutNext(q: seq<Tip>, i: nat, gone: set<Tip>)
    requires i < |q|
    ensures Without(q[i..], gone) == (if q[i] in gone then [] else [q[i]]) + Without(q[i + 1..], gone)
  {
    assert q[i..][1..] == q[i + 1..];
  }

  lemma WithoutNone(q: seq<Tip>, gone: set<Tip>)
    ensures Without(q[|q|..], gone) == []
  {
  }

  lemma NothingQueued(pending: map<Tip, Upload>, p0: map<Tip, Upload>, queued: seq<Tip>)
    requires queued == [] && pending.Keys == p0.Keys + Elems(queued) && Keeps(p0, pending)
    ensures pending == p0
  {
  }

  lemma QueuedArePending(pending: map<Tip, Upload>, p0: map<Tip, Upload>, queued: seq<Tip>)
    requires pending.Keys == p0.Keys + Elems(queued)
    ensures forall d :: d in queued || d in p0 ==> d in pending
  {
  }
}
