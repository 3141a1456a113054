/** The cuckoo filter (effects/cuckoo.go): fingerprints in pairs of buckets. */
module Cuckoo {

  const BUCKET_SIZE := 4
  const MAX_KICKS := 500

  function Pow2(k: nat): (r: nat)
    ensures r >= 1
  {
    if k == 0 then 1 else 2 * Pow2(k - 1)
  }

  /** The low k bits of the exclusive or. */
  function Xor(k: nat, a: nat, b: nat): (r: nat)
    ensures r < Pow2(k)
  {
    if k == 0 then 0 else (a + b) % 2 + 2 * Xor(k - 1, a / 2, b / 2)
  }

  lemma Halves(d: nat, r: nat)
    requires d < 2
    ensures (d + 2 * r) / 2 == r && (d + 2 * r) % 2 == d
  {
  }

  lemma BitTwice(a: nat, b: nat, x: nat)
    requires x % 2 == (a + b) % 2
    ensures (x + b) % 2 == a % 2
  {
    var i, j := a / 2, b / 2;
    assert a == 2 * i + a % 2 && b == 2 * j + b % 2 && x == 2 * (x / 2) + x % 2;
  }

  /** Applying the same mask twice gives the low bits back. */
  lemma {:induction false} XorTwice(k: nat, a: nat, b: nat)
    requires a < Pow2(k)
    ensures Xor(k, Xor(k, a, b), b) == a
  {
    if k > 0 {
      var x, r := Xor(k, a, b), Xor(k - 1, a / 2, b / 2);
      Halves((a + b) % 2, r);
      BitTwice(a, b, x);
      XorTwice(k - 1, a / 2, b / 2);
      calc {
        Xor(k, x, b);
        (x + b) % 2 + 2 * Xor(k - 1, x / 2, b / 2);
        a % 2 + 2 * Xor(k - 1, r, b / 2);
        a % 2 + 2 * (a / 2);
        a;
      }
    }
  }

  /** Bit i of a number. */
  function Bit(n: nat, i: nat): nat {
    if i == 0 then n % 2 else Bit(n / 2, i - 1)
  }

  /** Each of the low k bits differs from a's exactly where the mask has a one; the others are zero. */
  lemma {:induction false} XorBits(k: nat, a: nat, b: nat, i: nat)
    ensures Bit(Xor(k, a, b), i) == if i >= k then 0 else if Bit(b, i) == 1 then 1 - Bit(a, i) else Bit(a, i)
    decreases i
  {
    if k == 0 {
      ZeroBit(i);
    } else {
      Halves((a + b) % 2, Xor(k - 1, a / 2, b / 2));
      if i > 0 {
        XorBits(k - 1, a / 2, b / 2, i - 1);
      }
    }
  }

  lemma {:induction false} ZeroBit(i: nat)
    ensures Bit(0, i) == 0
  {
    if i > 0 {
      ZeroBit(i - 1);
    }
  }

  /** The two hash functions: of a key, and of a fingerprint. */
  datatype Hash = Hash(key: string -> nat, mark: nat -> nat)

  function Fingerprint(h: Hash, key: string): (fp: nat)
    ensures 1 <= fp < 0x1_0000
  {
    var low := h.key(key) % 0x1_0000;
    if low == 0 then 1 else low
  }

  function Home(k: nat, h: Hash, key: string): (i: nat)
    ensures i < Pow2(k)
  {
    h.key(key) / 0x1_0000_0000 % Pow2(k)
  }

  function AltIndex(k: nat, h: Hash, i: nat, fp: nat): (j: nat)
    ensures j < Pow2(k)
  {
    Xor(k, i, h.mark(fp))
  }

  /** The partner of the partner is the bucket itself. */
  lemma AltTwice(k: nat, h: Hash, i: nat, fp: nat)
    requires i < Pow2(k)
    ensures AltIndex(k, h, AltIndex(k, h, i, fp), fp) == i
  {
    XorTwice(k, i, h.mark(fp));
  }

  lemma {:induction false} XorMoves(k: nat, a: nat, b: nat, i: nat)
    requires i < k && Bit(b, i) == 1
    ensures Xor(k, a, b) != a
  {
    XorBits(k, a, b, i);
    BitIsBit(a, i);
  }

  lemma {:induction false} BitIsBit(n: nat, i: nat)
    ensures Bit(n, i) == 0 || Bit(n, i) == 1
    decreases i
  {
    if i > 0 {
      BitIsBit(n / 2, i - 1);
    }
  }

  /** The partner is another bucket, unless the fingerprint's hash is zero in the low bits. */
  lemma PartnerDiffers(k: nat, h: Hash, i: nat, fp: nat, bit: nat)
    requires bit < k && Bit(h.mark(fp), bit) == 1
    ensures AltIndex(k, h, i, fp) != i
  {
    XorMoves(k, i, h.mark(fp), bit);
  }

  // ---------- What the slots say ----------

  ghost predicate Sized(k: nat, slots: seq<nat>) {
    |slots| == Pow2(k) * BUCKET_SIZE && forall j :: 0 <= j < |slots| ==> slots[j] < 0x1_0000
  }

  ghost predicate InBucket(slots: seq<nat>, i: nat, fp: nat) {
    exists j :: BUCKET_SIZE * i <= j < BUCKET_SIZE * (i + 1) && j < |slots| && slots[j] == fp
  }

  /** The fingerprint sits in bucket i or in its partner. */
  ghost predicate Holds(k: nat, h: Hash, slots: seq<nat>, fp: nat, i: nat) {
    InBucket(slots, i, fp) || InBucket(slots, AltIndex(k, h, i, fp), fp)
  }

  /** Two positions of a fingerprint that no query can tell apart. */
  predicate SamePlace(k: nat, h: Hash, fp: nat, i: nat, f: nat, b: nat) {
    f == fp && (b == i || b == AltIndex(k, h, i, fp))
  }

  /** Answer for a key. */
  ghost predicate Contains(k: nat, h: Hash, slots: seq<nat>, key: string) {
    Holds(k, h, slots, Fingerprint(h, key), Home(k, h, key))
  }

  function NonZero(slots: seq<nat>): nat {
    if slots == [] then 0 else NonZero(slots[..|slots| - 1]) + if slots[|slots| - 1] == 0 then 0 else 1
  }

  lemma {:induction false} NonZeroUpdate(slots: seq<nat>, j: nat, v: nat)
    requires j < |slots|
    ensures NonZero(slots[j := v]) == NonZero(slots) - (if slots[j] == 0 then 0 else 1) + if v == 0 then 0 else 1
    decreases |slots|
  {
    var n := |slots| - 1;
    if j == n {
      assert slots[j := v][..n] == slots[..n];
    } else {
      assert slots[j := v][..n] == slots[..n][j := v];
      NonZeroUpdate(slots[..n], j, v);
    }
  }

  // ---------- One slot changes ----------

  lemma OneBucket(i: nat, b: nat, j: nat)
    requires BUCKET_SIZE * i <= j < BUCKET_SIZE * (i + 1)
    ensures BUCKET_SIZE * b <= j < BUCKET_SIZE * (b + 1) <==> b == i
  {
  }

  lemma InBucketUpdate(slots: seq<nat>, i: nat, j: nat, v: nat, b: nat, f: nat)
    requires BUCKET_SIZE * i <= j < BUCKET_SIZE * (i + 1) && j < |slots| && f != slots[j]
    ensures InBucket(slots[j := v], b, f) <==> InBucket(slots, b, f) || (b == i && f == v)
  {
    OneBucket(i, b, j);
    var s := slots[j := v];
    if InBucket(slots, b, f) {
      var n :| BUCKET_SIZE * b <= n < BUCKET_SIZE * (b + 1) && n < |slots| && slots[n] == f;
      assert s[n] == f;
    }
    if b == i && f == v {
      assert s[j] == f;
    }
    if InBucket(s, b, f) {
      var n :| BUCKET_SIZE * b <= n < BUCKET_SIZE * (b + 1) && n < |s| && s[n] == f;
      assert n == j || slots[n] == f;
    }
  }

  /** A replaced fingerprint may go; nothing else does. */
  lemma InBucketReplaced(slots: seq<nat>, i: nat, j: nat, v: nat, b: nat)
    requires BUCKET_SIZE * i <= j < BUCKET_SIZE * (i + 1) && j < |slots|
    ensures InBucket(slots, i, slots[j])
    ensures InBucket(slots[j := v], b, slots[j]) ==> InBucket(slots, b, slots[j])
    ensures InBucket(slots, b, slots[j]) && b != i ==> InBucket(slots[j := v], b, slots[j])
  {
    OneBucket(i, b, j);
    var s := slots[j := v];
    if InBucket(s, b, slots[j]) {
      var n :| BUCKET_SIZE * b <= n < BUCKET_SIZE * (b + 1) && n < |s| && s[n] == slots[j];
      assert n == j || slots[n] == slots[j];
    }
    if InBucket(slots, b, slots[j]) && b != i {
      var n :| BUCKET_SIZE * b <= n < BUCKET_SIZE * (b + 1) && n < |slots| && slots[n] == slots[j];
      assert n != j && s[n] == slots[j];
    }
  }

  /** The held fingerprints together with the one in hand. */
  ghost predicate Within(k: nat, h: Hash, slots: seq<nat>, fp: nat, i: nat, f: nat, b: nat) {
    Holds(k, h, slots, f, b) || SamePlace(k, h, fp, i, f, b)
  }

  /** Putting the fingerprint in hand into an empty slot. */
  lemma PlaceKeeps(k: nat, h: Hash, slots: seq<nat>, i: nat, j: nat, fp: nat, f: nat, b: nat)
    requires i < Pow2(k) && b < Pow2(k) && BUCKET_SIZE * i <= j < BUCKET_SIZE * (i + 1) && j < |slots| && slots[j] == 0 && f != 0
    ensures Holds(k, h, slots[j := fp], f, b) <==> Within(k, h, slots, fp, i, f, b)
  {
    InBucketUpdate(slots, i, j, fp, b, f);
    InBucketUpdate(slots, i, j, fp, AltIndex(k, h, b, f), f);
    AltTwice(k, h, b, f);
    AltTwice(k, h, i, f);
  }

  /** Swapping the fingerprint in hand with a resident of its bucket. */
  lemma SwapKeeps(k: nat, h: Hash, slots: seq<nat>, i: nat, j: nat, fp: nat, f: nat, b: nat)
    requires i < Pow2(k) && b < Pow2(k) && BUCKET_SIZE * i <= j < BUCKET_SIZE * (i + 1) && j < |slots|
    ensures Within(k, h, slots[j := fp], slots[j], i, f, b) <==> Within(k, h, slots, fp, i, f, b)
  {
    AltTwice(k, h, b, f);
    AltTwice(k, h, i, f);
    if f == slots[j] {
      InBucketReplaced(slots, i, j, fp, b);
      InBucketReplaced(slots, i, j, fp, AltIndex(k, h, b, f));
    } else {
      InBucketUpdate(slots, i, j, fp, b, f);
      InBucketUpdate(slots, i, j, fp, AltIndex(k, h, b, f), f);
    }
  }

  /** A fingerprint in hand may be carried to the partner bucket. */
  lemma CarryKeeps(k: nat, h: Hash, slots: seq<nat>, i: nat, fp: nat, f: nat, b: nat)
    requires i < Pow2(k)
    ensures Within(k, h, slots, fp, AltIndex(k, h, i, fp), f, b) <==> Within(k, h, slots, fp, i, f, b)
  {
    AltTwice(k, h, i, fp);
  }
}
