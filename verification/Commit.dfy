/** The commit protocol of transactions: bind emission at the originator, replies of the
    subscribers, and the decision (effects/context.go flushTx, effects/effect.go HandleRemote,
    effects/txn.go checkNackConflict), as a state machine over node steps. */
module Commit {
  import opened Effects
  import opened Sequences
  import opened ChainClocks

  type Node = nat

  type Log = History<()>

  // ---------- Order between binds ----------

  /** Every dependency edge. A bind depends on its new tip on each key. */
  ghost function AllGraph(log: Log): Deps {
    map t | t in log :: log[t].deps
  }

  /** The dependency edges as followed on one key. */
  ghost function KeyGraph(log: Log, k: Key): Deps {
    map t | t in log :: KeyDeps(k, log[t])
  }

  predicate IsBind(log: Log, b: Tip) {
    b in log && log[b].kind.Bind?
  }

  predicate Touches(log: Log, b: Tip, k: Key) {
    IsBind(log, b) && BoundTip(k, log[b].kind.keys) != []
  }

  function NewTip(log: Log, b: Tip, k: Key): Tip
    requires Touches(log, b, k)
  {
    BoundTip(k, log[b].kind.keys)[0]
  }

  /** b's write on k is in the past of c. */
  ghost predicate Before(log: Log, k: Key, b: Tip, c: Tip)
    requires Touches(log, b, k)
  {
    Reaches(AllGraph(log), c, NewTip(log, b, k))
  }

  ghost predicate Ordered(log: Log, k: Key, b: Tip, c: Tip)
    requires Touches(log, b, k) && Touches(log, c, k)
  {
    Before(log, k, b, c) || Before(log, k, c, b)
  }

  // ---------- What a reply shows ----------

  /** Neither data nor a bind: markers the conflict check looks through. */
  predicate IsWrapper(e: Effect<()>) {
    !e.kind.Data? && !e.kind.Bind?
  }

  ghost predicate ShownBy(log: Log, k: Key, p: seq<Tip>) {
    && p != [] && (forall i :: 0 <= i < |p| - 1 ==> p[i] in log && IsWrapper(log[p[i]]) && p[i + 1] in log[p[i]].deps)
  }

  /** The conflict check finds c when it starts from these tips. */
  ghost predicate Exposed(log: Log, k: Key, tips: set<Tip>, c: Tip) {
    exists p :: ShownBy(log, k, p) && p[0] in tips && p[|p| - 1] == c
  }

  /** Some tip leads to c on this key. */
  ghost predicate Led(log: Log, k: Key, tips: set<Tip>, c: Tip) {
    exists t :: t in tips && Reaches(KeyGraph(log, k), t, c)
  }

  // ---------- State ----------

  datatype Local = Local(index: map<Key, set<Tip>>, known: set<Tip>)

  /** `tips` holds, for each key on which the bind diverged, the replier's frontier. */
  datatype Reply = Reply(bind: Tip, from: Node, tips: map<Key, set<Tip>>)

  datatype Verdict = Pending | Committed | Aborted | Ambiguous

  datatype State = State(log: Log, nodes: map<Node, Local>, origin: map<Tip, Node>, verdict: map<Tip, Verdict>, replies: set<Reply>)

  function TipsOf(l: Local, k: Key): set<Tip> {
    if k in l.index then l.index[k] else {}
  }

  function KeysOf(keys: seq<KeyBind>): set<Key> {
    set kb | kb in keys :: kb.key
  }

  /** One index transition: on each key of `gone`, drop those tips and add t. */
  function Reindex(l: Local, gone: map<Key, set<Tip>>, t: Tip): Local {
    Local(map k | k in l.index.Keys + gone.Keys :: if k in gone then TipsOf(l, k) - gone[k] + {t} else l.index[k], l.known + {t})
  }

  /** What a received effect removes from the index: an ordinary effect its dependencies on its
      key; a bind its new tip on its canonical key and nothing on the others. */
  function Superseded(log: Log, t: Tip): map<Key, set<Tip>>
    requires t in log
  {
    if log[t].kind.Bind? then
      map k | k in KeysOf(log[t].kind.keys) :: if k == log[t].key then Elems(BoundTip(k, log[t].kind.keys)) else {}
    else map[log[t].key := Elems(log[t].deps)]
  }

  function Ingest(log: Log, l: Local, t: Tip): Local
    requires t in log
  {
    Reindex(l, Superseded(log, t), t)
  }

  // ---------- Steps ----------

  datatype Step =
    | Write(n: Node, t: Tip, e: Effect<()>, read: set<Tip>)
    | Flush(n: Node, b: Tip, e: Effect<()>, initial: map<Key, set<Tip>>)
    | Learn(n: Node, t: Tip)
    | Receive(n: Node, b: Tip)
    | Decide(b: Tip, heard: map<Node, Reply>, v: Verdict)

  /** Replacing `initial` by `base` as dependencies loses no bind. */
  ghost predicate Retains(log: Log, k: Key, initial: set<Tip>, base: seq<Tip>) {
    forall c :: Touches(log, c, k) && Led(log, k, initial, c) ==> Led(log, k, Elems(base), c)
  }

  /** The log with the transaction's writes and its bind. */
  function Emitted(log: Log, b: Tip, e: Effect<()>): Log
    requires e.kind.Bind?
  {
    Written(log, e.kind.keys, e.txn)[b := e]
  }

  /** One effect per key, depending on what the key's bind consumes. */
  function Written(log: Log, keys: seq<KeyBind>, txn: string): Log {
    if keys == [] then log
    else Written(log, keys[..|keys| - 1], txn)[keys[|keys| - 1].newTip := Effect(keys[|keys| - 1].key, Data(""), keys[|keys| - 1].consumed, txn, 0)]
  }

  /** Tips of key k once the transaction's own write has replaced the tips it read. */
  function Staged(l: Local, initial: map<Key, set<Tip>>, kb: KeyBind): set<Tip> {
    TipsOf(l, kb.key) - (if kb.key in initial then initial[kb.key] else {}) + {kb.newTip}
  }

  /** No bind that the tips lead to is outside the past of the consumed tips. */
  ghost predicate NoCompetitor(log: Log, k: Key, tips: set<Tip>, consumed: seq<Tip>) {
    forall c :: Touches(log, c, k) && Led(log, k, tips, c) ==> exists t :: t in consumed && Reaches(AllGraph(log), t, NewTip(log, c, k))
  }

  predicate FreshBind(s: State, b: Tip, e: Effect<()>) {
    && e.kind.Bind? && e.kind.keys != [] && e.key == e.kind.keys[0].key && e.deps == NewTips(e.kind.keys)
    && b !in s.log && b !in e.deps && (forall t :: t in e.deps ==> t !in s.log)
    && (forall i, j :: 0 <= i < j < |e.kind.keys| ==> e.kind.keys[i].key != e.kind.keys[j].key && e.kind.keys[i].newTip != e.kind.keys[j].newTip)
    && (forall kb, t :: kb in e.kind.keys && t in kb.consumed ==> t in s.log)
  }

  /** Every tip read is still a tip; tips that appeared since are only subscriptions. */
  predicate Preflight(log: Log, tips: set<Tip>, initial: set<Tip>) {
    initial <= tips && (initial != {} ==> forall t :: t in tips - initial ==> t in log && log[t].kind.Subscription?)
  }

  ghost predicate CanFlush(s: State, n: Node, b: Tip, e: Effect<()>, initial: map<Key, set<Tip>>)
    requires n in s.nodes && e.kind.Bind?
  {
    forall kb :: kb in e.kind.keys ==>
      && kb.key in initial
      && Preflight(s.log, TipsOf(s.nodes[n], kb.key), initial[kb.key])
      && Retains(s.log, kb.key, initial[kb.key], kb.consumed)
      && NoCompetitor(Emitted(s.log, b, e), kb.key, Staged(s.nodes[n], initial, kb), kb.consumed)
  }

  function Flushed(l: Local, b: Tip, keys: seq<KeyBind>, initial: map<Key, set<Tip>>): Local {
    var r := Reindex(l, map k | k in KeysOf(keys) :: (if k in initial then initial[k] else {}) + Elems(BoundTip(k, keys)), b);
    Local(r.index, r.known + Elems(NewTips(keys)))
  }

  /** Some tip is unknown to the bind. */
  predicate Diverged(tips: set<Tip>, b: Tip, keys: seq<KeyBind>, k: Key) {
    exists t :: t in tips && t != b && t !in BoundTip(k, keys) && t !in ConsumedTips(k, keys)
  }

  function Answer(log: Log, l: Local, b: Tip, n: Node): Reply
    requires IsBind(log, b)
  {
    var keys := log[b].kind.keys;
    Reply(b, n, map k | k in KeysOf(keys) && Diverged(TipsOf(l, k), b, keys, k) :: TipsOf(l, k))
  }

  /** Nothing the reply shows beats b: an unordered bind with a lower hash would. */
  ghost predicate Unbeaten(log: Log, b: Tip, r: Reply)
    requires IsBind(log, b)
  {
    forall k, c :: k in r.tips && Touches(log, b, k) && Touches(log, c, k) && Exposed(log, k, r.tips[k], c) && log[c].hash < log[b].hash ==>
      Ordered(log, k, b, c)
  }

  ghost predicate CanDecide(s: State, b: Tip, heard: map<Node, Reply>, v: Verdict)
    requires IsBind(s.log, b) && b in s.origin
  {
    && v != Pending
    && (forall m :: m in heard ==> heard[m] in s.replies && heard[m].bind == b && heard[m].from == m)
    && (v == Committed ==> heard.Keys == s.nodes.Keys - {s.origin[b]})
    && (v != Aborted ==> forall m :: m in heard ==> Unbeaten(s.log, b, heard[m]))
  }

  ghost predicate Enabled(s: State, step: Step) {
    match step
    case Write(n, t, e, read) =>
      && n in s.nodes && t !in s.log && !e.kind.Bind? && (forall d :: d in e.deps ==> d in s.log)
      && read <= TipsOf(s.nodes[n], e.key) && Retains(s.log, e.key, read, e.deps)
    case Flush(n, b, e, initial) => n in s.nodes && FreshBind(s, b, e) && CanFlush(s, n, b, e, initial)
    case Learn(n, t) => n in s.nodes && t in s.log
    case Receive(n, b) => n in s.nodes && IsBind(s.log, b)
    case Decide(b, heard, v) => IsBind(s.log, b) && b in s.origin && b in s.verdict && s.verdict[b] == Pending && CanDecide(s, b, heard, v)
  }

  ghost function Apply(s: State, step: Step): State
    requires Enabled(s, step)
  {
    match step
    case Write(n, t, e, read) =>
      s.(log := s.log[t := e], nodes := s.nodes[n := Reindex(s.nodes[n], map[e.key := read], t)])
    case Flush(n, b, e, initial) =>
      s.(log := Emitted(s.log, b, e), nodes := s.nodes[n := Flushed(s.nodes[n], b, e.kind.keys, initial)],
         origin := s.origin[b := n], verdict := s.verdict[b := Pending])
    case Learn(n, t) => s.(nodes := s.nodes[n := Ingest(s.log, s.nodes[n], t)])
    case Receive(n, b) =>
      var l := Ingest(s.log, s.nodes[n], b);
      s.(nodes := s.nodes[n := l], replies := s.replies + {Answer(s.log, l, b, n)})
    case Decide(b, heard, v) => s.(verdict := s.verdict[b := v])
  }
}
