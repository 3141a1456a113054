/** Effects: the immutable vertices of the causal log. */
module Effects {

  datatype Option<+T> = None | Some(value: T)

  /** (originating node, offset); the zero value stands for "no effect". */
  datatype Tip = Tip(node: nat, offset: nat)

  const ZERO_TIP := Tip(0, 0)

  type Key = string

  /** One key's part of a transactional bind. */
  datatype KeyBind = KeyBind(key: Key, consumed: seq<Tip>, newTip: Tip)

  /** A snapshot without state is a verdict marker; one with state stands for everything below it. */
  datatype Kind<+S> =
    | Data(payload: string)
    | Meta
    | Noop
    | Serialization
    | Subscription
    | Snapshot(state: Option<S>)
    | Bind(keys: seq<KeyBind>)

  /** `hash` is the fork-choice hash read as a big-endian number; `txn` is "" outside transactions. */
  datatype Effect<+S> = Effect(key: Key, kind: Kind<S>, deps: seq<Tip>, txn: string, hash: nat)

  type History<+S> = map<Tip, Effect<S>>

  /** The dependencies of an effect as seen from one key: a bind leads only to its new tip there. */
  function KeyDeps<S>(key: Key, e: Effect<S>): seq<Tip> {
    if e.kind.Bind? then BoundTip(key, e.kind.keys) else e.deps
  }

  function BoundTip(key: Key, keys: seq<KeyBind>): seq<Tip> {
    if keys == [] then []
    else if keys[0].key == key then [keys[0].newTip]
    else BoundTip(key, keys[1..])
  }

  /** The tips a bind consumed on a key. */
  function ConsumedTips(key: Key, keys: seq<KeyBind>): seq<Tip> {
    if keys == [] then [] else if keys[0].key == key then keys[0].consumed else ConsumedTips(key, keys[1..])
  }

  /** The bind's entry for the key, the first if there are several. */
  predicate EntryFor(key: Key, keys: seq<KeyBind>, i: nat) {
    i < |keys| && keys[i].key == key && forall j :: 0 <= j < i ==> keys[j].key != key
  }

  /** The tips a bind wrote, key by key. */
  function NewTips(keys: seq<KeyBind>): seq<Tip> {
    seq(|keys|, i requires 0 <= i < |keys| => keys[i].newTip)
  }

  predicate IsStateSnapshot<S>(e: Effect<S>) {
    e.kind.Snapshot? && e.kind.state.Some?
  }

  /** A subscription announcement that depends on nothing. */
  predicate IsStandalone<S>(e: Effect<S>) {
    e.kind.Subscription? && e.deps == []
  }

  lemma {:induction false} BoundAt(key: Key, keys: seq<KeyBind>, i: nat)
    requires EntryFor(key, keys, i)
    ensures BoundTip(key, keys) == [keys[i].newTip] && ConsumedTips(key, keys) == keys[i].consumed
    decreases i
  {
    if i > 0 {
      BoundAt(key, keys[1..], i - 1);
    }
  }

  lemma {:induction false} NothingBound(key: Key, keys: seq<KeyBind>)
    requires forall j :: 0 <= j < |keys| ==> keys[j].key != key
    ensures BoundTip(key, keys) == [] && ConsumedTips(key, keys) == []
    decreases |keys|
  {
    if keys != [] {
      NothingBound(key, keys[1..]);
    }
  }
}
