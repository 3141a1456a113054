/** The wire form of cuckoo filters and chains (effects/cuckoo.go MarshalBinary and
    UnmarshalBinary). */
module CuckooCodec {
  import opened Effects
  import opened Cuckoo

  /** Sizes are computed in 64-bit words and wrap around. */
  const WORD := 0x1_0000_0000_0000_0000

  /** The longest slice that can be made. */
  const MAX_LENGTH := 0x7FFF_FFFF_FFFF_FFFF

  /** Decoding returns an error, panics over an impossible allocation, or succeeds. */
  datatype Outcome<+T> = Refused | Panics | Accepted(value: T)

  type Byte = n: nat | n < 256

  /** Big-endian numbers of a fixed width. */
  function Put(width: nat, v: nat): (r: seq<Byte>)
    ensures |r| == width
  {
    if width == 0 then [] else Put(width - 1, v / 256) + [v % 256]
  }

  function Get(b: seq<Byte>): nat {
    if b == [] then 0 else Get(b[..|b| - 1]) * 256 + b[|b| - 1]
  }

  function Range(width: nat): nat {
    if width == 0 then 1 else 256 * Range(width - 1)
  }

  lemma {:induction false} GetPut(width: nat, v: nat)
    requires v < Range(width)
    ensures Get(Put(width, v)) == v
  {
    if width > 0 {
      GetPut(width - 1, v / 256);
      assert Put(width, v)[..width - 1] == Put(width - 1, v / 256);
    }
  }

  /** The most significant byte comes first. */
  lemma {:induction false} FirstIsHighest(x: Byte, b: seq<Byte>)
    ensures Get([x] + b) == x * Range(|b|) + Get(b)
    decreases |b|
  {
    var all := [x] + b;
    if b == [] {
      assert all[..0] == [] && Get(all[..0]) == 0;
    } else {
      var init, last := b[..|b| - 1], b[|b| - 1];
      FirstIsHighest(x, init);
      assert all[..|all| - 1] == [x] + init && all[|all| - 1] == last;
      Scaled(x, Range(|init|), Get(init), last);
    }
  }

  lemma Scaled(x: nat, r: nat, g: nat, last: nat)
    ensures (x * r + g) * 256 + last == x * (256 * r) + (g * 256 + last)
  {
  }

  lemma Ranges()
    ensures Range(2) == 0x1_0000 && Range(4) == 0x1_0000_0000 && Range(8) == 0x1_0000_0000_0000_0000
  {
    assert Range(4) == 256 * Range(3) && Range(3) == 256 * Range(2);
    assert Range(8) == 256 * Range(7) && Range(7) == 256 * Range(6) && Range(6) == 256 * Range(5) && Range(5) == 256 * Range(4);
  }

  // ---------- One filter ----------

  /** A filter on the wire: the exponent of its size and its slots. */
  datatype Image = Image(bits: nat, slots: seq<nat>)

  function Slots(slots: seq<nat>): (r: seq<Byte>)
    ensures |r| == 2 * |slots|
  {
    if slots == [] then [] else Slots(slots[..|slots| - 1]) + Put(2, slots[|slots| - 1])
  }

  function Encode(f: Image): seq<Byte> {
    Put(8, Pow2(f.bits)) + Slots(f.slots)
  }

  /** The exponent of a power of two. */
  function Exponent(n: nat): (r: Option<nat>)
    ensures r.Some? ==> Pow2(r.value) == n
  {
    if n == 1 then Some(0)
    else if n == 0 || n % 2 == 1 then None
    else match Exponent(n / 2)
      case None => None
      case Some(k) => Some(k + 1)
  }

  lemma {:induction false} ExponentOf(k: nat)
    ensures Exponent(Pow2(k)) == Some(k)
  {
    if k > 0 {
      ExponentOf(k - 1);
      assert Pow2(k) / 2 == Pow2(k - 1);
    }
  }

  function Unslots(b: seq<Byte>, n: nat): (r: seq<nat>)
    requires |b| == 2 * n
    ensures |r| == n && forall j :: 0 <= j < n ==> r[j] < 0x1_0000
  {
    if n == 0 then [] else
      var v := Get(b[2 * n - 2..]);
      assert v < 0x1_0000 by {
        GetTwo(b[2 * n - 2..]);
      }
      Unslots(b[..2 * n - 2], n - 1) + [v]
  }

  lemma GetTwo(b: seq<Byte>)
    requires |b| == 2
    ensures Get(b) == (b[0] as int) * 256 + b[1]
  {
    assert b[..1][..0] == [];
    assert Get(b[..1]) == b[0];
  }

  /** Half of a wrapped product of 64-bit words is the wrapped half, if that is small enough. */
  lemma HalfWraps(n: nat)
    ensures n % WORD <= MAX_LENGTH ==> 2 * n % WORD == 2 * (n % WORD)
  {
    var q, r := n / WORD, n % WORD;
    assert n == q * WORD + r;
    assert 2 * n == 2 * q * WORD + 2 * r;
    if r <= MAX_LENGTH {
      WrapIs(2 * q, 2 * r);
    }
  }

  lemma WrapIs(q: nat, r: nat)
    requires r < WORD
    ensures (q * WORD + r) % WORD == r
  {
  }

  /** The body length a header asks for and the number of slots it stands for, as computed. */
  function BodyLength(nb: nat): nat {
    2 * (nb * BUCKET_SIZE) % WORD
  }

  function SlotCount(nb: nat): (n: nat) {
    nb * BUCKET_SIZE % WORD
  }

  function Decode(data: seq<Byte>): Outcome<Image> {
    if |data| < 8 then Refused
    else
      var nb := Get(data[..8]);
      match Exponent(nb)
      case None => Refused
      case Some(k) =>
        if |data| - 8 != BodyLength(nb) then Refused
        else if SlotCount(nb) > MAX_LENGTH then Panics
        else
          HalfWraps(nb * BUCKET_SIZE);
          Accepted(Image(k, Unslots(data[8..], SlotCount(nb))))
  }

  lemma {:induction false} UnslotsSlots(slots: seq<nat>)
    requires forall j :: 0 <= j < |slots| ==> slots[j] < 0x1_0000
    ensures Unslots(Slots(slots), |slots|) == slots
  {
    if slots != [] {
      var n := |slots|;
      var init, last := slots[..n - 1], slots[n - 1];
      var b := Slots(slots);
      assert b[..2 * n - 2] == Slots(init) && b[2 * n - 2..] == Put(2, last);
      Ranges();
      GetPut(2, last);
      UnslotsSlots(init);
    }
  }

  lemma SmallHeader(nb: nat)
    requires nb < 0x2000_0000_0000_0000
    ensures BodyLength(nb) == nb * BUCKET_SIZE * 2 && SlotCount(nb) == nb * BUCKET_SIZE <= MAX_LENGTH
  {
  }

  /** A filter sent and received is the same filter. */
  lemma RoundTrip(f: Image)
    requires Sized(f.bits, f.slots) && Pow2(f.bits) < 0x2000_0000_0000_0000
    ensures Decode(Encode(f)) == Accepted(f)
  {
    var data := Encode(f);
    Ranges();
    GetPut(8, Pow2(f.bits));
    ExponentOf(f.bits);
    assert data[..8] == Put(8, Pow2(f.bits)) && data[8..] == Slots(f.slots);
    SmallHeader(Pow2(f.bits));
    UnslotsSlots(f.slots);
  }

  lemma {:induction false} GetBound(b: seq<Byte>)
    ensures Get(b) < Range(|b|)
    decreases |b|
  {
    if b != [] {
      GetBound(b[..|b| - 1]);
    }
  }

  lemma SmallPowers()
    ensures Pow2(4) == 16 && Pow2(8) == 256 && Pow2(16) == 0x1_0000
  {
    hide Pow2;
    assert Pow2(4) == 16 by { FourthPower(); }
    PowerSum(4, 4);
    PowerSum(8, 8);
  }

  lemma FourthPower()
    ensures Pow2(4) == 16
  {
    assert Pow2(2) == 4;
  }

  lemma BigPowers()
    ensures Pow2(60) == 0x1000_0000_0000_0000 && Pow2(61) == 0x2000_0000_0000_0000
    ensures Pow2(62) == 0x4000_0000_0000_0000 && Pow2(63) == 0x8000_0000_0000_0000 && Pow2(64) == WORD
  {
    hide Pow2;
    SmallPowers();
    PowerSum(16, 16);
    PowerSum(32, 16);
    PowerSum(48, 8);
    PowerSum(56, 4);
    Doubles(60);
    Doubles(61);
    Doubles(62);
    Doubles(63);
  }

  lemma Doubles(k: nat)
    ensures Pow2(k + 1) == 2 * Pow2(k)
  {
  }

  lemma {:induction false} PowerSum(a: nat, b: nat)
    ensures Pow2(a + b) == Pow2(a) * Pow2(b)
    decreases b
  {
    if b > 0 {
      PowerSum(a, b - 1);
    }
  }

  lemma {:induction false} PowerGrows(a: nat, b: nat)
    requires a <= b
    ensures Pow2(a) <= Pow2(b)
    decreases b
  {
    if a < b {
      PowerGrows(a, b - 1);
    }
  }

  /** A power of two that fits a word and is not below 2^61 is one of three. */
  lemma LargeHeader(k: nat)
    requires 0x2000_0000_0000_0000 <= Pow2(k) < WORD
    ensures 61 <= k <= 63 && BodyLength(Pow2(k)) == 0 && SlotCount(Pow2(k)) == (if k == 61 then 0x8000_0000_0000_0000 else 0)
  {
    hide Pow2;
    BigPowers();
    if k < 61 {
      PowerGrows(k, 60);
    } else if k > 63 {
      PowerGrows(64, k);
    }
  }

  /** What is accepted is a well-formed filter exactly if its header is below 2^61; a header of
      2^61 without a body is not answered at all. */
  lemma SizedIffSmall(data: seq<Byte>)
    requires |data| >= 8
    ensures Decode(data).Accepted? ==> (Sized(Decode(data).value.bits, Decode(data).value.slots) <==> Get(data[..8]) < 0x2000_0000_0000_0000)
    ensures Decode(data) == Panics <==> Get(data[..8]) == 0x2000_0000_0000_0000 && |data| == 8
  {
    hide Unslots, Get, Exponent;
    var nb := Get(data[..8]);
    GetBound(data[..8]);
    Ranges();
    BigPowers();
    ExponentOf(61);
    if nb < 0x2000_0000_0000_0000 {
      SmallHeader(nb);
    } else if Exponent(nb).Some? {
      LargeHeader(Exponent(nb).value);
      assert SlotCount(nb) > MAX_LENGTH ==> nb == 0x2000_0000_0000_0000;
    }
  }

  /** Eight bytes that are accepted as a filter with 2^62 buckets and no slot. */
  lemma WrappedHeader()
    ensures Decode(Put(8, 0x4000_0000_0000_0000)) == Accepted(Image(62, [])) && !Sized(62, [])
  {
    hide Get;
    var data := Put(8, 0x4000_0000_0000_0000);
    Ranges();
    GetPut(8, 0x4000_0000_0000_0000);
    assert data[..8] == data;
    BigPowers();
    ExponentOf(62);
    LargeHeader(62);
  }

  method Marshal(f: Image) returns (out: seq<Byte>)
    ensures out == Encode(f)
  {
    out := Put(8, Pow2(f.bits));
    ghost var head := out;
    for i := 0 to |f.slots|
      invariant out == head + Slots(f.slots[..i])
    {
      assert f.slots[..i + 1][..i] == f.slots[..i];
      out := out + Put(2, f.slots[i]);
    }
    assert f.slots[..|f.slots|] == f.slots;
  }

  lemma NothingYet(body: seq<Byte>)
    ensures Unslots(body[..0], 0) == [] && NonZero([]) == 0
  {
  }

  lemma UnslotsNext(body: seq<Byte>, i: nat)
    requires 2 * i + 2 <= |body|
    ensures Unslots(body[..2 * (i + 1)], i + 1) == Unslots(body[..2 * i], i) + [Get(body[2 * i..2 * i + 2])]
  {
    hide Get;
    var b := body[..2 * (i + 1)];
    assert b[..2 * i] == body[..2 * i] && b[2 * i..] == body[2 * i..2 * i + 2];
  }

  lemma NonZeroNext(slots: seq<nat>, v: nat)
    ensures NonZero(slots + [v]) == NonZero(slots) + if v == 0 then 0 else 1
  {
    assert (slots + [v])[..|slots|] == slots;
  }

  /** Decode a filter, counting its fingerprints. */
  method Unmarshal(data: seq<Byte>) returns (f: Outcome<Image>, count: nat)
    ensures f == Decode(data) && (f.Accepted? ==> count == NonZero(f.value.slots))
  {
    hide Unslots, Get, NonZero, Exponent;
    count := 0;
    if |data| < 8 {
      return Refused, 0;
    }
    var nb := Get(data[..8]);
    var k := Exponent(nb);
    if k.None? || |data| - 8 != 2 * (nb * BUCKET_SIZE) % WORD {
      return Refused, 0;
    }
    var n := nb * BUCKET_SIZE % WORD;
    if n > MAX_LENGTH {
      return Panics, 0;
    }
    HalfWraps(nb * BUCKET_SIZE);
    var body, slots := data[8..], [];
    NothingYet(body);
    for i := 0 to n
      invariant slots == Unslots(body[..2 * i], i) && count == NonZero(slots)
    {
      var v := Get(body[2 * i..2 * i + 2]);
      UnslotsNext(body, i);
      NonZeroNext(slots, v);
      slots := slots + [v];
      if v != 0 {
        count := count + 1;
      }
    }
    assert body[..|body|] == body;
    return Accepted(Image(k.value, slots)), count;
  }

  // ---------- A chain of filters ----------

  function Segment(f: Image): seq<Byte> {
    Put(4, |Encode(f)|) + Encode(f)
  }

  function Segments(fs: seq<Image>): seq<Byte> {
    if fs == [] then [] else Segment(fs[0]) + Segments(fs[1..])
  }

  function EncodeChain(fs: seq<Image>): seq<Byte> {
    Put(4, |fs|) + Segments(fs)
  }

  function DecodeSegments(data: seq<Byte>, n: nat): Outcome<seq<Image>>
    decreases n
  {
    if n == 0 then Accepted([])
    else if |data| < 4 then Refused
    else
      var l := Get(data[..4]);
      if 4 + l > |data| then Refused
      else match Decode(data[4..4 + l])
        case Refused => Refused
        case Panics => Panics
        case Accepted(f) => match DecodeSegments(data[4 + l..], n - 1)
          case Refused => Refused
          case Panics => Panics
          case Accepted(fs) => Accepted([f] + fs)
  }

  function DecodeChain(data: seq<Byte>): Outcome<seq<Image>> {
    if |data| < 4 then Refused
    else
      var n := Get(data[..4]);
      if n > (|data| - 4) / 4 then Refused else DecodeSegments(data[4..], n)
  }

  /** A segment whose length fits its header; four thousand keys need far less. */
  predicate Sendable(f: Image) {
    |Encode(f)| < 0x1_0000_0000 && Pow2(f.bits) < 0x2000_0000_0000_0000
  }

  /** The segments a chain allocates can be sent. */
  lemma ChunkIsSendable(f: Image)
    requires Sized(f.bits, f.slots) && (f.bits > 0 ==> Pow2(f.bits - 1) <= 1024)
    ensures Sendable(f)
  {
    assert |Encode(f)| == 8 + 2 * |f.slots|;
  }

  lemma {:induction false} SegmentsBack(fs: seq<Image>)
    requires forall i :: 0 <= i < |fs| ==> Sized(fs[i].bits, fs[i].slots) && Sendable(fs[i])
    ensures DecodeSegments(Segments(fs), |fs|) == Accepted(fs) && |Segments(fs)| >= 4 * |fs|
    decreases |fs|
  {
    hide Encode, Decode;
    if fs != [] {
      var f, rest := fs[0], fs[1..];
      var body, tail := Encode(f), Segments(rest);
      SegmentsBack(rest);
      Ranges();
      GetPut(4, |body|);
      RoundTrip(f);
      var data := Segments(fs);
      assert data == Put(4, |body|) + body + tail;
      assert data[..4] == Put(4, |body|) && data[4..4 + |body|] == body && data[4 + |body|..] == tail;
      assert [f] + rest == fs;
    }
  }

  /** A chain sent and received has the same segments. */
  lemma ChainRoundTrip(fs: seq<Image>)
    requires |fs| < 0x1_0000_0000 && forall i :: 0 <= i < |fs| ==> Sized(fs[i].bits, fs[i].slots) && Sendable(fs[i])
    ensures DecodeChain(EncodeChain(fs)) == Accepted(fs)
  {
    hide DecodeSegments, Segments;
    Ranges();
    GetPut(4, |fs|);
    SegmentsBack(fs);
    var data := EncodeChain(fs);
    assert data[..4] == Put(4, |fs|) && data[4..] == Segments(fs);
  }

  /** Answers of a decoded chain: some segment holds the key. */
  ghost predicate ChainContains(h: Hash, fs: seq<Image>, key: string) {
    exists i :: 0 <= i < |fs| && Contains(fs[i].bits, h, fs[i].slots, key)
  }

  /** A key answered before sending is answered after receiving. */
  lemma AnswersSurviveTheWire(h: Hash, fs: seq<Image>, key: string)
    requires |fs| < 0x1_0000_0000 && forall i :: 0 <= i < |fs| ==> Sized(fs[i].bits, fs[i].slots) && Sendable(fs[i])
    ensures DecodeChain(EncodeChain(fs)).Accepted?
    ensures (ChainContains(h, DecodeChain(EncodeChain(fs)).value, key) <==> ChainContains(h, fs, key))
  {
    hide DecodeChain, EncodeChain;
    ChainRoundTrip(fs);
  }
}
