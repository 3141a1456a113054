/** The cluster key filters (effects/keyfilter.go): when a miss can be answered without asking. */
module KeyFilter {
  import opened Effects

  type Peer = nat

  /** An approximate set: it answers for every key added to it, and maybe for others. */
  datatype Chain = Chain(keys: set<string>, noise: string -> bool)

  predicate Maybe(c: Chain, key: string) {
    key in c.keys || c.noise(key)
  }

  /** A peer as seen from here. `counted` peers are announced as connected. */
  datatype PeerFilter = PeerFilter(id: Peer, bulk: Chain, version: nat, hasBulk: bool, realtime: Chain, counted: bool)

  predicate Unfiltered(p: PeerFilter) {
    p.counted && !p.hasBulk
  }

  function CountUnfiltered(ps: seq<PeerFilter>): nat {
    if ps == [] then 0 else CountUnfiltered(ps[..|ps| - 1]) + if Unfiltered(ps[|ps| - 1]) then 1 else 0
  }

  ghost predicate Sorted(ps: seq<PeerFilter>) {
    forall i, j :: 0 <= i < j < |ps| ==> ps[i].id < ps[j].id
  }

  lemma {:induction false} CountConcat(a: seq<PeerFilter>, b: seq<PeerFilter>)
    ensures CountUnfiltered(a + b) == CountUnfiltered(a) + CountUnfiltered(b)
    decreases |b|
  {
    if b == [] {
      assert a + b == a;
    } else {
      assert (a + b)[..|a + b| - 1] == a + b[..|b| - 1];
      CountConcat(a, b[..|b| - 1]);
    }
  }

  lemma CountOne(p: PeerFilter)
    ensures CountUnfiltered([p]) == if Unfiltered(p) then 1 else 0
  {
    assert [p][..0] == [];
  }

  lemma CountAt(a: seq<PeerFilter>, p: PeerFilter, b: seq<PeerFilter>)
    ensures CountUnfiltered(a + [p] + b) == CountUnfiltered(a) + (if Unfiltered(p) then 1 else 0) + CountUnfiltered(b)
  {
    CountConcat(a + [p], b);
    CountConcat(a, [p]);
    CountOne(p);
  }

  lemma CountUpdate(ps: seq<PeerFilter>, i: nat, p: PeerFilter)
    requires i < |ps|
    ensures CountUnfiltered(ps[i := p]) == CountUnfiltered(ps) - (if Unfiltered(ps[i]) then 1 else 0) + if Unfiltered(p) then 1 else 0
  {
    assert ps == ps[..i] + [ps[i]] + ps[i + 1..] && ps[i := p] == ps[..i] + [p] + ps[i + 1..];
    CountAt(ps[..i], ps[i], ps[i + 1..]);
    CountAt(ps[..i], p, ps[i + 1..]);
  }

  lemma CountInsert(ps: seq<PeerFilter>, i: nat, p: PeerFilter)
    requires i <= |ps|
    ensures CountUnfiltered(ps[..i] + [p] + ps[i..]) == CountUnfiltered(ps) + if Unfiltered(p) then 1 else 0
  {
    assert ps == ps[..i] + ps[i..];
    CountConcat(ps[..i], ps[i..]);
    CountAt(ps[..i], p, ps[i..]);
  }

  lemma CountDelete(ps: seq<PeerFilter>, i: nat)
    requires i < |ps|
    ensures CountUnfiltered(ps[..i] + ps[i + 1..]) == CountUnfiltered(ps) - if Unfiltered(ps[i]) then 1 else 0
  {
    assert ps == ps[..i] + [ps[i]] + ps[i + 1..];
    CountAt(ps[..i], ps[i], ps[i + 1..]);
    CountConcat(ps[..i], ps[i + 1..]);
  }

  /** Nobody is unfiltered when the count is zero. */
  lemma {:induction false} CountZero(ps: seq<PeerFilter>, i: nat)
    requires CountUnfiltered(ps) == 0 && i < |ps|
    ensures !Unfiltered(ps[i])
    decreases |ps|
  {
    if i < |ps| - 1 {
      CountZero(ps[..|ps| - 1], i);
    }
  }

  /** What a peer has told this node since it was last tracked. */
  datatype Told = Told(connected: bool, bulk: Option<set<string>>, version: nat, announced: set<string>)

  const NOTHING := Told(false, None, 0, {})

  /** A filter entry records exactly what the peer has told. */
  ghost predicate Records(p: PeerFilter, t: Told) {
    && p.counted == t.connected && p.hasBulk == t.bulk.Some? && p.version == t.version
    && (t.bulk.Some? ==> p.bulk.keys == t.bulk.value) && p.realtime.keys == t.announced
  }

  ghost predicate Recorded(ps: seq<PeerFilter>, told: map<Peer, Told>) {
    forall i :: 0 <= i < |ps| ==> ps[i].id in told && Records(ps[i], told[ps[i].id])
  }

  ghost predicate Known(ps: seq<PeerFilter>, told: map<Peer, Told>) {
    forall n :: n in told ==> exists i :: 0 <= i < |ps| && ps[i].id == n
  }

  lemma UpdateKeeps(ps: seq<PeerFilter>, told: map<Peer, Told>, i: nat, p: PeerFilter, t: Told)
    requires Sorted(ps) && Recorded(ps, told) && Known(ps, told) && i < |ps| && ps[i].id == p.id && Records(p, t)
    ensures Sorted(ps[i := p]) && Recorded(ps[i := p], told[p.id := t]) && Known(ps[i := p], told[p.id := t])
  {
    hide Records;
    var ps2, told2 := ps[i := p], told[p.id := t];
    assert told2.Keys == told.Keys;
    forall n | n in told2 ensures exists j :: 0 <= j < |ps2| && ps2[j].id == n {
      assert n in told;
      var j :| 0 <= j < |ps| && ps[j].id == n;
      assert ps2[j].id == n;
    }
  }

  lemma EntryRecords(ps: seq<PeerFilter>, told: map<Peer, Told>, i: nat)
    requires Recorded(ps, told) && i < |ps|
    ensures ps[i].id in told && Records(ps[i], told[ps[i].id])
  {
  }

  class PeerFilters {
    const self: Peer
    const noise: string -> bool
    var peers: seq<PeerFilter>
    var unfilteredPeers: nat
    /** Everything told by the tracked peers. */
    ghost var told: map<Peer, Told>

    ghost predicate Valid()
      reads this
    {
      Sorted(peers) && unfilteredPeers == CountUnfiltered(peers) && Recorded(peers, told) && Known(peers, told)
    }

    constructor (id: Peer, falsePositives: string -> bool)
      ensures Valid() && self == id && told == map[]
    {
      self, noise, peers, unfilteredPeers, told := id, falsePositives, [], 0, map[];
    }

    /** Binary search: the position of the peer, or where it belongs. */
    method PeerFilterIndex(peer: Peer) returns (i: nat, found: bool)
      requires Valid()
      ensures i <= |peers| && (found ==> i < |peers| && peers[i].id == peer)
      ensures !found ==> (forall j :: 0 <= j < i ==> peers[j].id < peer) && forall j :: i <= j < |peers| ==> peer < peers[j].id
    {
      var lo, hi := 0, |peers|;
      while lo < hi
        invariant 0 <= lo <= hi <= |peers| && (forall j :: 0 <= j < lo ==> peers[j].id < peer)
        invariant forall j :: hi <= j < |peers| ==> peer <= peers[j].id
      {
        var mid := (lo + hi) / 2;
        if peers[mid].id < peer {
          lo := mid + 1;
        } else {
          hi := mid;
        }
      }
      return lo, lo < |peers| && peers[lo].id == peer;
    }

    /** The entry of a peer, created on first use. */
    method GetOrCreate(peer: Peer) returns (i: nat)
      requires Valid()
      modifies this
      ensures Valid() && i < |peers| && peers[i].id == peer
      ensures told == if peer in old(told) then old(told) else old(told)[peer := NOTHING]
    {
      hide Sorted, Recorded, Known, CountUnfiltered;
      var found;
      i, found := PeerFilterIndex(peer);
      if found {
        EntryRecords(peers, told, i);
      }
      if !found {
        var p := PeerFilter(peer, Chain({}, noise), 0, false, Chain({}, noise), false);
        var after := peers[..i] + [p] + peers[i..];
        Absent(peers, told, peer, i);
        CountInsert(peers, i, p);
        InsertedRecorded(peers, after, i, p, told);
        InsertedKnown(peers, after, i, p, told);
        peers := after;
        told := told[peer := NOTHING];
      }
    }

    /** Replace an entry whose effect on the count has been accounted for. */
    method Replace(i: nat, p: PeerFilter, ghost t: Told)
      requires i < |peers| && peers[i].id == p.id && Records(p, t) && Sorted(peers) && Recorded(peers, told) && Known(peers, told)
      requires unfilteredPeers + (if Unfiltered(peers[i]) then 1 else 0) == CountUnfiltered(peers) + if Unfiltered(p) then 1 else 0
      modifies `peers, `told
      ensures Valid() && peers == old(peers)[i := p] && told == old(told)[p.id := t]
    {
      hide Sorted, Recorded, Known, Records, CountUnfiltered;
      CountUpdate(peers, i, p);
      UpdateKeeps(peers, told, i, p, t);
      peers := peers[i := p];
      told := told[p.id := t];
    }

    /** The cluster layer announces a connection. */
    method NotePeerConnected(peer: Peer)
      requires Valid()
      modifies this
      ensures Valid()
      ensures peer == self ==> told == old(told)
      ensures peer != self ==> told == old(told)[peer := (if peer in old(told) then old(told)[peer] else NOTHING).(connected := true)]
    {
      hide Sorted, Recorded, Known, CountUnfiltered;
      if peer == self {
        return;
      }
      var i := GetOrCreate(peer);
      EntryRecords(peers, told, i);
      var p := peers[i];
      if !p.counted {
        if !p.hasBulk {
          unfilteredPeers := unfilteredPeers + 1;
        }
        Replace(i, p.(counted := true), told[peer].(connected := true));
      } else {
        assert told[peer].(connected := true) == told[peer];
      }
    }

    /** A bulk filter arrives; it is applied if it is the first or newer. */
    method CachePeerFilter(peer: Peer, decoded: Option<Chain>, version: nat) returns (applied: bool)
      requires Valid()
      modifies this
      ensures Valid()
      ensures applied <==> peer != self && decoded.Some? && (peer in old(told) && old(told)[peer].bulk.Some? ==> old(told)[peer].version < version)
      ensures applied ==>
        told == old(told)[peer := (if peer in old(told) then old(told)[peer] else NOTHING).(bulk := Some(decoded.value.keys), version := version)]
      ensures !applied ==> told == old(told)
    {
      hide Sorted, Recorded, Known, CountUnfiltered;
      if peer == self || decoded.None? {
        return false;
      }
      var i := GetOrCreate(peer);
      EntryRecords(peers, told, i);
      var p := peers[i];
      if p.hasBulk && version <= p.version {
        return false;
      }
      if p.counted && !p.hasBulk {
        CountUpdate(peers, i, p.(counted := false));
        unfilteredPeers := unfilteredPeers - 1;
      }
      Replace(i, p.(bulk := decoded.value, version := version, hasBulk := true), told[peer].(bulk := Some(decoded.value.keys), version := version));
      return true;
    }

    /** A peer announces interest in a key. */
    method PeerFilterAdd(peer: Peer, key: string)
      requires Valid()
      modifies this
      ensures Valid()
      ensures peer == self ==> told == old(told)
      ensures peer != self ==>
        var t := if peer in old(told) then old(told)[peer] else NOTHING; told == old(told)[peer := t.(announced := t.announced + {key})]
    {
      hide Sorted, Recorded, Known, CountUnfiltered;
      if peer == self {
        return;
      }
      var i := GetOrCreate(peer);
      EntryRecords(peers, told, i);
      var p := peers[i];
      Replace(i, p.(realtime := p.realtime.(keys := p.realtime.keys + {key})), told[peer].(announced := told[peer].announced + {key}));
    }

    /** A departed peer is forgotten altogether. */
    method RemovePeerKeyFilter(peer: Peer)
      requires Valid()
      modifies this
      ensures Valid() && told == old(told) - {peer}
    {
      hide Sorted, Recorded, Known, CountUnfiltered;
      var i, found := PeerFilterIndex(peer);
      if found {
        CountDelete(peers, i);
        DeletedRecorded(peers, peers[..i] + peers[i + 1..], i, told);
        DeletedKnown(peers, peers[..i] + peers[i + 1..], i, told);
        if Unfiltered(peers[i]) {
          unfilteredPeers := unfilteredPeers - 1;
        }
        peers := peers[..i] + peers[i + 1..];
        told := told - {peer};
      } else {
        Absent(peers, told, peer, i);
      }
    }

    /** False only if every connected peer has delivered its bulk filter and nothing any tracked
        peer has told since holds the key. */
    method ClusterMaybeHasKey(key: string) returns (r: bool)
      requires Valid()
      ensures !r ==>
        forall n :: n in told ==>
          && (told[n].connected ==> told[n].bulk.Some?)
          && (told[n].bulk.Some? ==> key !in told[n].bulk.value) && key !in told[n].announced
      ensures r ==>
        || (exists n :: n in told && told[n].connected && told[n].bulk.None?)
        || exists i :: 0 <= i < |peers| && (Maybe(peers[i].bulk, key) || Maybe(peers[i].realtime, key))
    {
      if unfilteredPeers > 0 {
        SomeUnfiltered(peers);
        return true;
      }
      for i := 0 to |peers|
        invariant forall j :: 0 <= j < i ==> !Maybe(peers[j].bulk, key) && !Maybe(peers[j].realtime, key)
      {
        if Maybe(peers[i].bulk, key) || Maybe(peers[i].realtime, key) {
          return true;
        }
      }
      forall i | 0 <= i < |peers| ensures !Unfiltered(peers[i]) {
        CountZero(peers, i);
      }
      return false;
    }
  }

  lemma {:induction false} SomeUnfiltered(ps: seq<PeerFilter>)
    requires CountUnfiltered(ps) > 0
    ensures exists i :: 0 <= i < |ps| && Unfiltered(ps[i])
    decreases |ps|
  {
    if !Unfiltered(ps[|ps| - 1]) {
      SomeUnfiltered(ps[..|ps| - 1]);
      var i :| 0 <= i < |ps| - 1 && Unfiltered(ps[..|ps| - 1][i]);
      assert ps[i] == ps[..|ps| - 1][i];
    }
  }

  lemma InsertedAt(before: seq<PeerFilter>, i: nat, p: PeerFilter, j: nat)
    requires i <= |before| && j <= |before|
    ensures (before[..i] + [p] + before[i..])[j] == if j < i then before[j] else if j == i then p else before[j - 1]
  {
  }

  lemma InsertedRecorded(before: seq<PeerFilter>, after: seq<PeerFilter>, i: nat, p: PeerFilter, told: map<Peer, Told>)
    requires i <= |before| && after == before[..i] + [p] + before[i..] && Sorted(before) && Recorded(before, told)
    requires p.id !in told && Records(p, NOTHING)
    requires (forall j :: 0 <= j < i ==> before[j].id < p.id) && forall j :: i <= j < |before| ==> p.id < before[j].id
    ensures Sorted(after) && Recorded(after, told[p.id := NOTHING])
  {
    hide Records;
    forall j | 0 <= j < |after| ensures after[j] == if j < i then before[j] else if j == i then p else before[j - 1] {
      InsertedAt(before, i, p, j);
    }
  }

  lemma InsertedKnown(before: seq<PeerFilter>, after: seq<PeerFilter>, i: nat, p: PeerFilter, told: map<Peer, Told>)
    requires i <= |before| && after == before[..i] + [p] + before[i..] && Known(before, told)
    ensures Known(after, told[p.id := NOTHING]) && after[i] == p
  {
    InsertedAt(before, i, p, i);
    var told2 := told[p.id := NOTHING];
    forall n | n in told2 ensures exists j :: 0 <= j < |after| && after[j].id == n {
      if n == p.id {
        assert after[i].id == n;
      } else {
        var j :| 0 <= j < |before| && before[j].id == n;
        var k := if j < i then j else j + 1;
        InsertedAt(before, i, p, k);
        assert after[k].id == n;
      }
    }
  }

  lemma DeletedAt(before: seq<PeerFilter>, i: nat, j: nat)
    requires i < |before| && j < |before| - 1
    ensures (before[..i] + before[i + 1..])[j] == before[if j < i then j else j + 1]
  {
  }

  lemma DeletedRecorded(before: seq<PeerFilter>, after: seq<PeerFilter>, i: nat, told: map<Peer, Told>)
    requires i < |before| && after == before[..i] + before[i + 1..] && Sorted(before) && Recorded(before, told)
    ensures Sorted(after) && Recorded(after, told - {before[i].id})
  {
    hide Records;
    forall j | 0 <= j < |after| ensures after[j] == before[if j < i then j else j + 1] {
      DeletedAt(before, i, j);
    }
  }

  lemma DeletedKnown(before: seq<PeerFilter>, after: seq<PeerFilter>, i: nat, told: map<Peer, Told>)
    requires i < |before| && after == before[..i] + before[i + 1..] && Known(before, told)
    ensures Known(after, told - {before[i].id})
  {
    var told2 := told - {before[i].id};
    forall n | n in told2 ensures exists j :: 0 <= j < |after| && after[j].id == n {
      var j :| 0 <= j < |before| && before[j].id == n;
      var k := if j < i then j else j - 1;
      DeletedAt(before, i, k);
      assert after[k].id == n;
    }
  }

  lemma Absent(ps: seq<PeerFilter>, told: map<Peer, Told>, peer: Peer, i: nat)
    requires Known(ps, told) && i <= |ps| && (forall j :: 0 <= j < i ==> ps[j].id < peer) && forall j :: i <= j < |ps| ==> peer < ps[j].id
    ensures peer !in told && told - {peer} == told
  {
  }
}
