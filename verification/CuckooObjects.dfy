/** The filter as an object: a bucket array changed in place, and a chain of filters. */
module CuckooObjects {
  import opened Cuckoo

  lemma {:induction false} AllZero(slots: seq<nat>)
    requires forall j :: 0 <= j < |slots| ==> slots[j] == 0
    ensures NonZero(slots) == 0
    decreases |slots|
  {
    if slots != [] {
      AllZero(slots[..|slots| - 1]);
    }
  }

  lemma BucketFits(k: nat, i: nat)
    requires i < Pow2(k)
    ensures BUCKET_SIZE * (i + 1) <= Pow2(k) * BUCKET_SIZE
  {
  }

  /** Everything held before, and the new key's place, is held or in hand. */
  ghost predicate Carried(k: nat, h: Hash, before: seq<nat>, fp0: nat, i0: nat, slots: seq<nat>, fp: nat, i: nat) {
    forall f, b :: 1 <= f && 0 <= b < Pow2(k) ==> (Within(k, h, slots, fp, i, f, b) <==> Within(k, h, before, fp0, i0, f, b))
  }

  /** Everything held before, and the new key's place, is held. */
  ghost predicate Extended(k: nat, h: Hash, before: seq<nat>, fp0: nat, i0: nat, slots: seq<nat>) {
    forall f, b :: 1 <= f && 0 <= b < Pow2(k) ==> (Holds(k, h, slots, f, b) <==> Within(k, h, before, fp0, i0, f, b))
  }

  lemma PlaceExtends(k: nat, h: Hash, before: seq<nat>, fp0: nat, i0: nat, slots: seq<nat>, fp: nat, i: nat, j: nat)
    requires Carried(k, h, before, fp0, i0, slots, fp, i) && i < Pow2(k)
    requires BUCKET_SIZE * i <= j < BUCKET_SIZE * (i + 1) && j < |slots| && slots[j] == 0
    ensures Extended(k, h, before, fp0, i0, slots[j := fp])
  {
    hide Holds, Within;
    forall f, b | 1 <= f && 0 <= b < Pow2(k) ensures Holds(k, h, slots[j := fp], f, b) <==> Within(k, h, before, fp0, i0, f, b) {
      PlaceKeeps(k, h, slots, i, j, fp, f, b);
    }
  }

  lemma SwapCarries(k: nat, h: Hash, before: seq<nat>, fp0: nat, i0: nat, slots: seq<nat>, fp: nat, i: nat, j: nat)
    requires Carried(k, h, before, fp0, i0, slots, fp, i) && i < Pow2(k) && BUCKET_SIZE * i <= j < BUCKET_SIZE * (i + 1) && j < |slots|
    ensures Carried(k, h, before, fp0, i0, slots[j := fp], slots[j], AltIndex(k, h, i, slots[j]))
  {
    hide Holds, Within;
    var s, r := slots[j := fp], slots[j];
    forall f, b | 1 <= f && 0 <= b < Pow2(k) ensures Within(k, h, s, r, AltIndex(k, h, i, r), f, b) <==> Within(k, h, before, fp0, i0, f, b) {
      SwapKeeps(k, h, slots, i, j, fp, f, b);
      CarryKeeps(k, h, s, i, r, f, b);
    }
  }

  lemma CarryToPartner(k: nat, h: Hash, before: seq<nat>, fp: nat, i: nat)
    requires i < Pow2(k)
    ensures Carried(k, h, before, fp, i, before, fp, i) && Carried(k, h, before, fp, i, before, fp, AltIndex(k, h, i, fp))
  {
    hide Holds, Within;
    forall f, b | 1 <= f && 0 <= b < Pow2(k) ensures Within(k, h, before, fp, AltIndex(k, h, i, fp), f, b) <==> Within(k, h, before, fp, i, f, b) {
      CarryKeeps(k, h, before, i, fp, f, b);
    }
  }

  /** A place that is already held adds nothing. */
  lemma AlreadyHeld(k: nat, h: Hash, slots: seq<nat>, key: string)
    requires Contains(k, h, slots, key)
    ensures Extended(k, h, slots, Fingerprint(h, key), Home(k, h, key), slots)
  {
    var fp, i := Fingerprint(h, key), Home(k, h, key);
    forall f, b | 1 <= f && 0 <= b < Pow2(k) ensures Holds(k, h, slots, f, b) <==> Within(k, h, slots, fp, i, f, b) {
      AltTwice(k, h, i, fp);
    }
  }

  class CuckooFilter {
    var buckets: array<nat>
    var bits: nat
    var count: nat
    var kickSeed: nat

    ghost predicate Valid()
      reads this, buckets
    {
      Sized(bits, buckets[..]) && count == NonZero(buckets[..])
    }

    /** Room for the capacity: the smallest power of two above a quarter of it. */
    constructor (capacity: nat)
      ensures Valid() && fresh(buckets) && count == 0 && forall j :: 0 <= j < buckets.Length ==> buckets[j] == 0
      ensures capacity / BUCKET_SIZE < Pow2(bits) && (bits > 0 ==> Pow2(bits - 1) <= capacity / BUCKET_SIZE)
    {
      var want := capacity / BUCKET_SIZE + 1;
      var k, nb := 0, 1;
      while nb < want
        invariant nb == Pow2(k) && (k > 0 ==> Pow2(k - 1) < want)
        decreases want - nb
      {
        k, nb := k + 1, nb * 2;
      }
      bits, count, kickSeed := k, 0, 0;
      buckets := new nat[nb * BUCKET_SIZE](_ => 0);
      new;
      AllZero(buckets[..]);
    }

    method BucketContains(i: nat, fp: nat) returns (r: bool)
      requires Valid() && i < Pow2(bits)
      ensures r <==> InBucket(buckets[..], i, fp)
    {
      BucketFits(bits, i);
      for n := BUCKET_SIZE * i to BUCKET_SIZE * (i + 1)
        invariant forall j :: BUCKET_SIZE * i <= j < n ==> buckets[j] != fp
      {
        if buckets[n] == fp {
          assert buckets[..][n] == fp;
          return true;
        }
      }
      return false;
    }

    /** Use the first empty slot of the bucket, if there is one. */
    method InsertIntoBucket(i: nat, fp: nat) returns (ok: bool, ghost slot: nat)
      requires Valid() && i < Pow2(bits) && 1 <= fp < 0x1_0000
      modifies buckets
      ensures ok ==>
        && BUCKET_SIZE * i <= slot < BUCKET_SIZE * (i + 1) && slot < buckets.Length
        && old(buckets[slot]) == 0 && buckets[..] == old(buckets[..])[slot := fp]
      ensures !ok ==> buckets[..] == old(buckets[..]) && !InBucket(buckets[..], i, 0)
    {
      slot := 0;
      BucketFits(bits, i);
      for n := BUCKET_SIZE * i to BUCKET_SIZE * (i + 1)
        invariant buckets[..] == old(buckets[..]) && forall j :: BUCKET_SIZE * i <= j < n ==> buckets[j] != 0
      {
        if buckets[n] == 0 {
          slot := n;
          buckets[n] := fp;
          return true, n;
        }
      }
      return false, 0;
    }

    /** Store the key's fingerprint, moving residents to their partner buckets if need be. On
        failure at most one fingerprint has been dropped. */
    method Add(h: Hash, key: string) returns (ok: bool, ghost lost: nat, ghost place: nat)
      requires Valid()
      modifies this, buckets
      ensures Valid() && buckets == old(buckets) && bits == old(bits)
      ensures ok ==> Extended(bits, h, old(buckets[..]), Fingerprint(h, key), Home(bits, h, key), buckets[..])
      ensures !ok ==> Carried(bits, h, old(buckets[..]), Fingerprint(h, key), Home(bits, h, key), buckets[..], lost, place)
      ensures count == old(count) + if ok && buckets[..] != old(buckets[..]) then 1 else 0
      ensures InBucket(old(buckets[..]), Home(bits, h, key), 0) ==> ok
      ensures old(Contains(bits, h, buckets[..], key)) ==> ok && buckets[..] == old(buckets[..])
    {
      hide Holds, Within, Extended, Carried, Sized, InBucket, Contains;
      lost, place := 0, 0;
      ghost var s0 := buckets[..];
      var fp: nat, i1 := Fingerprint(h, key), Home(bits, h, key);
      var i2 := AltIndex(bits, h, i1, fp);
      var held := MaybeContains(h, key);
      if held {
        AlreadyHeld(bits, h, s0, key);
        return true, 0, 0;
      }
      CarryToPartner(bits, h, s0, fp, i1);
      ghost var slot: nat;
      ok, slot := InsertIntoBucket(i1, fp);
      if ok {
        PlaceExtends(bits, h, s0, fp, i1, s0, fp, i1, slot);
        Counted(bits, s0, slot, fp);
        count := count + 1;
        return true, 0, 0;
      }
      ok, slot := InsertIntoBucket(i2, fp);
      if ok {
        PlaceExtends(bits, h, s0, fp, i1, s0, fp, i2, slot);
        Counted(bits, s0, slot, fp);
        count := count + 1;
        return true, 0, 0;
      }
      var i: nat := if kickSeed % 2 == 1 then i2 else i1;
      ok, lost, place := Relocate(h, fp, i, s0, fp, i1);
    }

    /** Swap residents out of full buckets until one finds an empty slot. */
    method Relocate(h: Hash, first: nat, start: nat, ghost s0: seq<nat>, ghost fp0: nat, ghost i0: nat)
      returns (ok: bool, ghost lost: nat, ghost place: nat)
      requires Valid() && 1 <= first < 0x1_0000 && start < Pow2(bits)
      requires Carried(bits, h, s0, fp0, i0, buckets[..], first, start) && !InBucket(buckets[..], start, 0) && s0 == buckets[..]
      modifies this`count, this`kickSeed, buckets
      ensures Valid()
      ensures ok ==> Extended(bits, h, s0, fp0, i0, buckets[..]) && count == old(count) + 1 && buckets[..] != s0
      ensures !ok ==> Carried(bits, h, s0, fp0, i0, buckets[..], lost, place) && count == old(count)
    {
      hide Holds, Within, Extended, Carried, Sized, InBucket;
      var fp: nat, i: nat := first, start;
      ghost var slot: nat;
      for n := 0 to MAX_KICKS
        invariant Valid() && count == old(count) && i < Pow2(bits) && 1 <= fp < 0x1_0000
        invariant Carried(bits, h, s0, fp0, i0, buckets[..], fp, i) && !InBucket(buckets[..], i, 0)
      {
        kickSeed := kickSeed + 1;
        var j := BUCKET_SIZE * i + kickSeed % BUCKET_SIZE;
        BucketFits(bits, i);
        ghost var s := buckets[..];
        Resident(bits, s, i, j);
        SwapCarries(bits, h, s0, fp0, i0, s, fp, i, j);
        Swapped(bits, s, j, fp);
        var r := buckets[j];
        buckets[j] := fp;
        assert buckets[..] == s[j := fp];
        fp, i := r, AltIndex(bits, h, i, r);
        ghost var s1 := buckets[..];
        ok, slot := InsertIntoBucket(i, fp);
        if ok {
          PlaceExtends(bits, h, s0, fp0, i0, s1, fp, i, slot);
          Counted(bits, s1, slot, fp);
          count := count + 1;
          return true, 0, 0;
        }
      }
      return false, fp, i;
    }

    method MaybeContains(h: Hash, key: string) returns (r: bool)
      requires Valid()
      ensures r <==> Contains(bits, h, buckets[..], key)
    {
      var fp, i1 := Fingerprint(h, key), Home(bits, h, key);
      r := BucketContains(i1, fp);
      if !r {
        r := BucketContains(AltIndex(bits, h, i1, fp), fp);
      }
    }
  }

  const CHAIN_CHUNK := 4096

  /** A fingerprint and its bucket in a filter of a given size. */
  datatype Place = Place(bits: nat, fp: nat, bucket: nat)

  predicate IsAt(h: Hash, p: Place, key: string) {
    SamePlace(p.bits, h, p.fp, p.bucket, Fingerprint(h, key), Home(p.bits, h, key))
  }

  /** Filters written one after the other; only the last is ever written to. */
  class CuckooChain {
    var sealed: seq<CuckooFilter>
    var active: CuckooFilter?
    /** The keys added so far, and the places that overflowing segments have dropped. */
    ghost var added: set<string>
    ghost var dropped: set<Place>

    ghost predicate Valid()
      reads `sealed, `active, sealed, active, set f | f in sealed :: f.buckets, if active == null then {} else {active.buckets}
    {
      && (forall f :: f in sealed ==> f.Valid())
      && (active != null ==> active.Valid() && active !in sealed && forall f :: f in sealed ==> f.buckets != active.buckets)
    }

    /** Some segment answers for the key. */
    ghost predicate Has(h: Hash, key: string)
      reads `sealed, `active, sealed, active, set f | f in sealed :: f.buckets, if active == null then {} else {active.buckets}
    {
      || (exists i :: 0 <= i < |sealed| && Contains(sealed[i].bits, h, sealed[i].buckets[..], key))
      || (active != null && Contains(active.bits, h, active.buckets[..], key))
    }

    /** What the writable segment consists of. */
    ghost function Parts(): set<object?>
      reads `active, active
    {
      if active == null then {} else {active, active.buckets}
    }

    /** Every key added is answered for, unless its place was dropped. */
    ghost predicate Remembers(h: Hash)
      reads `sealed, `active, `added, `dropped, sealed, active, set f | f in sealed :: f.buckets, if active == null then {} else {active.buckets}
    {
      forall q :: q in added ==> Has(h, q) || exists p :: p in dropped && IsAt(h, p, q)
    }

    constructor ()
      ensures Valid() && sealed == [] && active == null && added == {} && dropped == {}
    {
      sealed, active, added, dropped := [], null, {}, {};
    }

    /** Seal the writable segment; a new empty one takes its place. */
    method Rotate(ghost h: Hash)
      requires Valid()
      modifies `sealed, `active
      ensures Valid() && active != null && fresh(active) && fresh(active.buckets) && active.count == 0
      ensures forall j :: 0 <= j < active.buckets.Length ==> active.buckets[j] == 0
      ensures sealed == if old(active) == null then old(sealed) else old(sealed) + [old(active)]
      ensures forall q: string :: old(Has(h, q)) ==> Has(h, q)
    {
      hide Contains;
      if active != null {
        Seal(h);
      }
      active := new CuckooFilter(CHAIN_CHUNK);
    }

    /** The active segment takes the key without moving residents. */
    ghost predicate Roomy(h: Hash, key: string)
      requires Valid()
      reads `sealed, `active, sealed, active, set f | f in sealed :: f.buckets, if active == null then {} else {active.buckets}
    {
      active == null || active.count >= CHAIN_CHUNK || InBucket(active.buckets[..], Home(active.bits, h, key), 0)
    }

    /** The key at hand is answered for afterwards. A key added earlier still is, except that an
        overflowing segment loses one place. */
    method Add(h: Hash, key: string) returns (stored: bool)
      requires Valid()
      modifies this, Parts()
      ensures Valid() && Has(h, key) && added == old(added) + {key}
      ensures old(dropped) <= dropped && |dropped - old(dropped)| <= 1 && (old(Roomy(h, key)) ==> dropped == old(dropped))
      ensures forall q: string :: old(Has(h, q)) ==> Has(h, q) || exists p :: p in dropped && IsAt(h, p, q)
      ensures old(Remembers(h)) ==> Remembers(h)
      ensures !stored ==> old(Has(h, key))
      ensures fresh(Parts() - old(Parts()))
    {
      hide Contains, Extended, Carried, InBucket, SamePlace;
      ghost var was := dropped;
      ghost var bits, lost, place;
      var ok;
      ok, stored, bits, lost, place := AddKey(h, key);
      added := added + {key};
      if !ok {
        dropped := dropped + {Place(bits, lost, place)};
        assert dropped - was <= {Place(bits, lost, place)};
        SmallSet(dropped - was, Place(bits, lost, place));
      } else {
        assert dropped - was == {};
      }
      forall q: string | old(Has(h, q)) ensures Has(h, q) || exists p :: p in dropped && IsAt(h, p, q) {
        if !Has(h, q) {
          assert IsAt(h, Place(bits, lost, place), q);
        }
      }
      if old(Remembers(h)) {
        forall q | q in added ensures Has(h, q) || exists p :: p in dropped && IsAt(h, p, q) {
          if q != key && !old(Has(h, q)) {
            ghost var p :| p in old(dropped) && IsAt(h, p, q);
            assert p in dropped;
          }
        }
      }
    }

    /** Rotate if need be, add to the active segment, and start a new one if it overflows. */
    method AddKey(h: Hash, key: string) returns (clean: bool, stored: bool, ghost bits: nat, ghost lost: nat, ghost place: nat)
      requires Valid()
      modifies this, Parts()
      ensures Valid() && Has(h, key) && (old(Roomy(h, key)) ==> clean) && added == old(added) && dropped == old(dropped)
      ensures forall q: string :: old(Has(h, q)) ==> Has(h, q) || (!clean && SamePlace(bits, h, lost, place, Fingerprint(h, q), Home(bits, h, q)))
      ensures !stored ==> old(Has(h, key))
      ensures fresh(Parts() - old(Parts()))
    {
      hide Contains, Extended, Carried, InBucket;
      if active == null || active.count >= CHAIN_CHUNK {
        Rotate(h);
        EmptyHasRoom(active.bits, active.buckets[..], Home(active.bits, h, key));
        EmptyAnswersNone(active.bits, h, active.buckets[..], key);
      }
      var ok;
      ok, stored, lost, place := AddActive(h, key);
      bits := active.bits;
      if !ok {
        Seal(h);
        AddFresh(h, key);
        stored := true;
      }
      clean := ok;
    }

    /** After any sequence of additions to a chain every key is answered for, unless its place
        was dropped; each addition drops at most one. */
    method AddAll(h: Hash, keys: seq<string>)
      requires Valid() && Remembers(h)
      modifies this, Parts()
      ensures Valid() && Remembers(h) && added == old(added) + Keys(keys)
      ensures old(dropped) <= dropped && |dropped - old(dropped)| <= |keys|
      ensures dropped == {} ==> forall q :: q in old(added) || q in keys ==> Has(h, q)
    {
      hide Contains, IsAt;
      for i := 0 to |keys|
        invariant Valid() && Remembers(h) && added == old(added) + Keys(keys[..i])
        invariant old(dropped) <= dropped && |dropped - old(dropped)| <= i
        invariant fresh(Parts() - old(Parts()))
      {
        ghost var before := dropped;
        var stored := Add(h, keys[i]);
        assert keys[..i + 1] == keys[..i] + [keys[i]];
        GrewByOne(old(dropped), before, dropped);
      }
      assert keys[..|keys|] == keys;
    }

    method AddActive(h: Hash, key: string) returns (ok: bool, stored: bool, ghost lost: nat, ghost place: nat)
      requires Valid() && active != null
      modifies active, active.buckets
      ensures Valid() && active.bits == old(active.bits) && active.buckets == old(active.buckets)
      ensures (InBucket(old(active.buckets[..]), Home(active.bits, h, key), 0) ==> ok)
      ensures ok ==> Has(h, key) && (stored <==> !old(Contains(active.bits, h, active.buckets[..], key)))
      ensures forall q: string :: old(Has(h, q)) ==>
        Has(h, q) || (!ok && SamePlace(active.bits, h, lost, place, Fingerprint(h, q), Home(active.bits, h, q)))
    {
      hide Contains, Extended, Carried, InBucket;
      ghost var s := active.buckets[..];
      var before := active.count;
      ok, lost, place := active.Add(h, key);
      stored := active.count != before;
      if ok {
        ExtendedAnswers(active.bits, h, s, key, active.buckets[..], key);
        forall q: string | old(Has(h, q)) ensures Has(h, q) {
          ExtendedAnswers(active.bits, h, s, key, active.buckets[..], q);
        }
      } else {
        CarriedAnswers(active.bits, h, s, key, active.buckets[..], lost, place);
      }
    }

    /** Close the writable segment; no answer changes. */
    method Seal(ghost h: Hash)
      requires Valid() && active != null
      modifies `sealed, `active
      ensures Valid() && active == null && sealed == old(sealed) + [old(active)]
      ensures forall q: string :: old(Has(h, q)) ==> Has(h, q)
    {
      hide Contains;
      ghost var was, segment := sealed, active;
      sealed, active := sealed + [active], null;
      forall q: string | old(Has(h, q)) ensures Has(h, q) {
        if exists i :: 0 <= i < |was| && Contains(was[i].bits, h, was[i].buckets[..], q) {
          var i :| 0 <= i < |was| && Contains(was[i].bits, h, was[i].buckets[..], q);
          assert sealed[i] == was[i];
        } else {
          assert sealed[|was|] == segment;
        }
      }
    }

    /** A fresh segment, holding this key alone. */
    method AddFresh(h: Hash, key: string)
      requires Valid()
      modifies this`active
      ensures Valid() && sealed == old(sealed) && active != null && fresh(active) && fresh(active.buckets)
      ensures Contains(active.bits, h, active.buckets[..], key)
    {
      hide Contains, Extended, Carried;
      var f := new CuckooFilter(CHAIN_CHUNK);
      EmptyHasRoom(f.bits, f.buckets[..], Home(f.bits, h, key));
      ghost var s := f.buckets[..];
      var ok, lost, place := f.Add(h, key);
      ExtendedAnswers(f.bits, h, s, key, f.buckets[..], key);
      active := f;
    }

    method MaybeContains(h: Hash, key: string) returns (r: bool)
      requires Valid()
      ensures r <==> Has(h, key)
    {
      if active != null {
        r := active.MaybeContains(h, key);
        if r {
          return true;
        }
      }
      for i := 0 to |sealed|
        invariant forall j :: 0 <= j < i ==> !Contains(sealed[j].bits, h, sealed[j].buckets[..], key)
      {
        r := sealed[i].MaybeContains(h, key);
        if r {
          return true;
        }
      }
      return false;
    }
  }

  ghost function Keys(keys: seq<string>): set<string> {
    set q | q in keys
  }

  lemma SmallSet(s: set<Place>, p: Place)
    requires s <= {p}
    ensures |s| <= 1
  {
    assert s == {} || s == {p};
  }

  lemma GrewByOne(a: set<Place>, b: set<Place>, c: set<Place>)
    requires a <= b <= c && |c - b| <= 1
    ensures |c - a| <= |b - a| + 1
  {
    assert c - a == (b - a) + (c - b);
  }

  /** Adding keeps every answer, and answers for the key itself. */
  lemma ExtendedAnswers(k: nat, h: Hash, before: seq<nat>, key: string, slots: seq<nat>, q: string)
    requires Extended(k, h, before, Fingerprint(h, key), Home(k, h, key), slots)
    ensures Contains(k, h, slots, q) <==>
      Contains(k, h, before, q) || SamePlace(k, h, Fingerprint(h, key), Home(k, h, key), Fingerprint(h, q), Home(k, h, q))
  {
    hide Holds;
    var f, b := Fingerprint(h, q), Home(k, h, q);
    assert Holds(k, h, slots, f, b) <==> Within(k, h, before, Fingerprint(h, key), Home(k, h, key), f, b);
  }

  /** An overflow hides at most the keys at the place that was dropped. */
  lemma CarriedAnswers(k: nat, h: Hash, before: seq<nat>, key: string, slots: seq<nat>, fp: nat, i: nat)
    requires Carried(k, h, before, Fingerprint(h, key), Home(k, h, key), slots, fp, i)
    ensures forall q: string :: Contains(k, h, before, q) ==> Contains(k, h, slots, q) || SamePlace(k, h, fp, i, Fingerprint(h, q), Home(k, h, q))
  {
    hide Holds, SamePlace;
    forall q: string | Contains(k, h, before, q) ensures Contains(k, h, slots, q) || SamePlace(k, h, fp, i, Fingerprint(h, q), Home(k, h, q)) {
      var f, b := Fingerprint(h, q), Home(k, h, q);
      assert Within(k, h, before, Fingerprint(h, key), Home(k, h, key), f, b);
      assert Within(k, h, slots, fp, i, f, b);
    }
  }

  lemma EmptyAnswersNone(k: nat, h: Hash, slots: seq<nat>, key: string)
    requires forall j :: 0 <= j < |slots| ==> slots[j] == 0
    ensures !Contains(k, h, slots, key)
  {
  }

  lemma EmptyHasRoom(k: nat, slots: seq<nat>, i: nat)
    requires Sized(k, slots) && i < Pow2(k) && forall j :: 0 <= j < |slots| ==> slots[j] == 0
    ensures InBucket(slots, i, 0)
  {
    BucketFits(k, i);
    assert slots[BUCKET_SIZE * i] == 0;
  }

  lemma Counted(k: nat, slots: seq<nat>, j: nat, fp: nat)
    requires Sized(k, slots) && j < |slots| && slots[j] == 0 && 1 <= fp < 0x1_0000
    ensures Sized(k, slots[j := fp]) && NonZero(slots[j := fp]) == NonZero(slots) + 1 && slots[j := fp] != slots
  {
    NonZeroUpdate(slots, j, fp);
    assert slots[j := fp][j] != slots[j];
  }

  lemma Swapped(k: nat, slots: seq<nat>, j: nat, fp: nat)
    requires Sized(k, slots) && j < |slots| && slots[j] != 0 && 1 <= fp < 0x1_0000
    ensures Sized(k, slots[j := fp]) && NonZero(slots[j := fp]) == NonZero(slots)
  {
    NonZeroUpdate(slots, j, fp);
  }

  lemma Resident(k: nat, slots: seq<nat>, i: nat, j: nat)
    requires Sized(k, slots) && i < Pow2(k) && BUCKET_SIZE * i <= j < BUCKET_SIZE * (i + 1) && !InBucket(slots, i, 0)
    ensures j < |slots| && 1 <= slots[j] < 0x1_0000
  {
    BucketFits(k, i);
  }
}
