/** Reading a bucket file back: the scan of the table of contents and the checksum pass. */
module MirrorOpen {
  import opened Effects
  import opened Mirror

  /** The index rebuilt from the table of contents. */
  datatype Index = Index(entries: map<nat, SlotId>, free: set<SlotId>, cursor: nat)

  /** The slots of the first n pages, and of page n those below index k. */
  ghost predicate Scanned(m: Image, n: nat, k: nat, s: SlotId) {
    s in m.slots && ((exists j :: 0 <= j < n && j < |m.pages| && m.pages[j] == s.page) || (n < |m.pages| && s.page == m.pages[n] && s.index < k))
  }

  /** Slots lie on listed pages, and the pages are distinct. */
  ghost predicate Laid(c: Params, m: Image) {
    && (forall s :: s in m.slots <==> s.page in m.pages && 1 <= s.index <= c.perPage)
    && forall i, j :: 0 <= i < j < |m.pages| ==> m.pages[i] < m.pages[j]
  }

  predicate Live(m: Image, s: SlotId) {
    s in m.slots && m.slots[s].mark == Published
  }

  /** The index so far agrees with the scanned slots. */
  ghost predicate Agrees(m: Image, n: nat, k: nat, entries: map<nat, SlotId>, free: set<SlotId>) {
    && (forall o :: o in entries ==> Scanned(m, n, k, entries[o]) && Live(m, entries[o]) && m.slots[entries[o]].offset == o)
    && (forall s :: Scanned(m, n, k, s) && Live(m, s) ==>
         && m.slots[s].offset in entries && entries[m.slots[s].offset] == s
         && m.slots[s].pos + m.slots[s].alloc <= m.size)
    && (forall s :: s in free <==> Scanned(m, n, k, s) && !Live(m, s))
  }

  lemma NextSlot(c: Params, m: Image, n: nat, k: nat, s: SlotId)
    requires Laid(c, m) && n < |m.pages| && 1 <= k <= c.perPage && s in m.slots
    ensures Scanned(m, n, k + 1, s) <==> Scanned(m, n, k, s) || s == SlotId(m.pages[n], k)
    ensures !Scanned(m, n, k, SlotId(m.pages[n], k))
  {
  }

  lemma NextPage(c: Params, m: Image, n: nat, s: SlotId)
    requires Laid(c, m) && n < |m.pages|
    ensures Scanned(m, n, c.perPage + 1, s) <==> Scanned(m, n + 1, 1, s)
  {
    if Scanned(m, n + 1, 1, s) {
      assert s.page in m.pages;
    }
  }

  lemma AllScanned(c: Params, m: Image, s: SlotId)
    requires Laid(c, m)
    ensures Scanned(m, |m.pages|, 1, s) <==> s in m.slots
  {
  }

  /** Scanning one more slot adds it to the entries or to the free slots, or shows a duplicate. */
  lemma SlotScanned(c: Params, m: Image, n: nat, k: nat, entries: map<nat, SlotId>, free: set<SlotId>)
    requires Laid(c, m) && n < |m.pages| && 1 <= k <= c.perPage && Agrees(m, n, k, entries, free)
    ensures var s := SlotId(m.pages[n], k);
      && s in m.slots
      && (!Live(m, s) ==> Agrees(m, n, k + 1, entries, free + {s}))
      && (Live(m, s) && m.slots[s].offset !in entries && m.slots[s].pos + m.slots[s].alloc <= m.size ==>
           Agrees(m, n, k + 1, entries[m.slots[s].offset := s], free))
      && (Live(m, s) && m.slots[s].offset in entries ==> !NoDuplicates(m))
  {
    hide Scanned;
    var s, k2 := SlotId(m.pages[n], k), k + 1;
    assert s.page in m.pages;
    forall t | t in m.slots ensures Scanned(m, n, k2, t) <==> Scanned(m, n, k, t) || t == s {
      NextSlot(c, m, n, k, t);
    }
    NextSlot(c, m, n, k, s);
    forall t | t !in m.slots ensures !Scanned(m, n, k, t) && !Scanned(m, n, k2, t) {
      NotScanned(m, n, k, t);
      NotScanned(m, n, k2, t);
    }
  }

  lemma NotScanned(m: Image, n: nat, k: nat, t: SlotId)
    requires t !in m.slots
    ensures !Scanned(m, n, k, t)
  {
  }

  lemma PageScanned(c: Params, m: Image, n: nat, entries: map<nat, SlotId>, free: set<SlotId>)
    requires Laid(c, m) && n < |m.pages| && Agrees(m, n, c.perPage + 1, entries, free)
    ensures Agrees(m, n + 1, 1, entries, free)
  {
    hide Scanned;
    var n2, k := n + 1, c.perPage + 1;
    forall s ensures Scanned(m, n, k, s) <==> Scanned(m, n2, 1, s) {
      NextPage(c, m, n, s);
    }
  }

  function Max(a: nat, b: nat): nat {
    if a < b then b else a
  }

  lemma NothingScanned(c: Params, m: Image)
    requires Laid(c, m)
    ensures Agrees(m, 0, 1, map[], {})
  {
  }

  /** An index that agrees with the whole file proves the file sound. */
  lemma AllAgrees(c: Params, m: Image, entries: map<nat, SlotId>, free: set<SlotId>)
    requires Laid(c, m) && Agrees(m, |m.pages|, 1, entries, free) && forall j :: 0 <= j < |m.pages| ==> m.pages[j] + 1 <= m.size
    ensures Fits(m) && NoDuplicates(m)
    ensures (forall x :: x in entries ==> Holds(m, entries[x], x))
    ensures (forall s :: s in m.slots && m.slots[s].mark == Published ==> m.slots[s].offset in entries)
    ensures forall s :: s in free <==> s in m.slots && m.slots[s].mark != Published
  {
    hide Scanned;
    forall s ensures Scanned(m, |m.pages|, 1, s) <==> s in m.slots {
      AllScanned(c, m, s);
    }
  }

  /** Rebuild the index, or refuse the file. The next allocation goes behind the end of the file. */
  method Open(c: Params, m: Image) returns (r: Option<Index>)
    requires Laid(c, m) && m.size >= 2
    ensures r.Some? <==> Fits(m) && NoDuplicates(m)
    ensures r.Some? ==>
      && (forall x :: x in r.value.entries ==> Holds(m, r.value.entries[x], x))
      && (forall s :: s in m.slots && m.slots[s].mark == Published ==> m.slots[s].offset in r.value.entries)
    ensures r.Some? ==> (forall s :: s in r.value.free <==> s in m.slots && m.slots[s].mark != Published) && r.value.cursor == m.size
  {
    hide Agrees, NoDuplicates, Laid;
    var entries: map<nat, SlotId>, free: set<SlotId>, cursor: nat := map[], {}, 2;
    NothingScanned(c, m);
    for n := 0 to |m.pages|
      invariant Agrees(m, n, 1, entries, free) && (forall j :: 0 <= j < n ==> m.pages[j] + 1 <= m.size) && cursor <= m.size
    {
      var page := m.pages[n];
      assert page in m.pages;
      if page + 1 > m.size {
        return None;
      }
      cursor := Max(cursor, page + 1);
      for k := 1 to c.perPage + 1
        invariant Agrees(m, n, k, entries, free) && cursor <= m.size
      {
        var s := SlotId(page, k);
        SlotScanned(c, m, n, k, entries, free);
        var v := m.slots[s];
        if v.mark != Published {
          free := free + {s};
        } else if v.pos + v.alloc > m.size || v.offset in entries {
          return None;
        } else {
          entries, cursor := entries[v.offset := s], Max(cursor, v.pos + v.alloc);
        }
      }
      PageScanned(c, m, n, entries, free);
    }
    AllAgrees(c, m, entries, free);
    return Some(Index(entries, free, Max(cursor, m.size)));
  }

  // ---------- Checksums ----------

  /** The records recovered from the first n pages and, on page n, the slots below index k. */
  ghost predicate Recovered(m: Image, n: nat, k: nat, out: map<nat, Bytes>) {
    && (forall s :: Scanned(m, n, k, s) && Live(m, s) ==> m.slots[s].offset in out && out[m.slots[s].offset] == Content(m, m.slots[s]))
    && forall x :: x in out ==> exists s :: Scanned(m, n, k, s) && Live(m, s) && m.slots[s].offset == x
  }

  lemma SlotRecovered(c: Params, m: Image, n: nat, k: nat, out: map<nat, Bytes>)
    requires Laid(c, m) && NoDuplicates(m) && n < |m.pages| && 1 <= k <= c.perPage && Recovered(m, n, k, out)
    ensures var s := SlotId(m.pages[n], k);
      s in m.slots && Recovered(m, n, k + 1, if Live(m, s) then out[m.slots[s].offset := Content(m, m.slots[s])] else out)
  {
    hide Scanned, Content;
    var s, k2 := SlotId(m.pages[n], k), k + 1;
    assert s.page in m.pages;
    forall t ensures Scanned(m, n, k2, t) <==> Scanned(m, n, k, t) || t == s {
      if t in m.slots {
        NextSlot(c, m, n, k, t);
      } else {
        NotScanned(m, n, k, t);
        NotScanned(m, n, k2, t);
      }
    }
    forall t | Scanned(m, n, k2, t) ensures t in m.slots {
      if t !in m.slots {
        NotScanned(m, n, k2, t);
      }
    }
    var out2 := if Live(m, s) then out[m.slots[s].offset := Content(m, m.slots[s])] else out;
    forall x | x in out2 ensures exists t :: Scanned(m, n, k2, t) && Live(m, t) && m.slots[t].offset == x {
      if x in out {
        var t :| Scanned(m, n, k, t) && Live(m, t) && m.slots[t].offset == x;
        assert Scanned(m, n, k2, t);
      } else {
        assert Scanned(m, n, k2, s);
      }
    }
  }

  lemma PageRecovered(c: Params, m: Image, n: nat, out: map<nat, Bytes>)
    requires Laid(c, m) && n < |m.pages| && Recovered(m, n, c.perPage + 1, out)
    ensures Recovered(m, n + 1, 1, out)
  {
    hide Scanned, Content;
    var n2, k := n + 1, c.perPage + 1;
    forall s ensures Scanned(m, n, k, s) <==> Scanned(m, n2, 1, s) {
      NextPage(c, m, n, s);
    }
  }

  /** Every slot checked so far is intact. */
  ghost predicate Checked(c: Params, m: Image, n: nat, k: nat) {
    forall s :: Scanned(m, n, k, s) && Live(m, s) ==> Intact(c, m, m.slots[s])
  }

  lemma SlotChecked(c: Params, m: Image, n: nat, k: nat)
    requires Laid(c, m) && n < |m.pages| && 1 <= k <= c.perPage && Checked(c, m, n, k)
    ensures var s := SlotId(m.pages[n], k); s in m.slots && (!Live(m, s) || Intact(c, m, m.slots[s]) ==> Checked(c, m, n, k + 1))
  {
    hide Scanned, Intact;
    var s, k2 := SlotId(m.pages[n], k), k + 1;
    assert s.page in m.pages;
    forall t | Live(m, t) ensures Scanned(m, n, k2, t) <==> Scanned(m, n, k, t) || t == s {
      NextSlot(c, m, n, k, t);
    }
  }

  /** Hand every published record to the caller, or stop at one that fails its checksum. */
  method Recover(c: Params, m: Image) returns (r: Option<map<nat, Bytes>>)
    requires Laid(c, m) && NoDuplicates(m)
    ensures r.Some? <==> ChecksumsMatch(c, m)
    ensures r.Some? ==> forall s :: Live(m, s) ==> m.slots[s].offset in r.value && r.value[m.slots[s].offset] == Content(m, m.slots[s])
    ensures r.Some? ==> forall x :: x in r.value ==> exists s :: Holds(m, s, x)
  {
    hide Scanned, Laid, Recovered, Checked, NoDuplicates;
    var out: map<nat, Bytes> := map[];
    NoneRecovered(c, m);
    for n := 0 to |m.pages|
      invariant Recovered(m, n, 1, out) && Checked(c, m, n, 1)
    {
      for k := 1 to c.perPage + 1
        invariant Recovered(m, n, k, out) && Checked(c, m, n, k)
      {
        var s := SlotId(m.pages[n], k);
        SlotRecovered(c, m, n, k, out);
        SlotChecked(c, m, n, k);
        var v := m.slots[s];
        if v.mark == Published {
          if v.sum != c.crc(v.offset, v.pos, v.size, v.alloc, Content(m, v)) {
            return None;
          }
          out := out[v.offset := Content(m, v)];
        }
      }
      PageRecovered(c, m, n, out);
      PageChecked(c, m, n);
    }
    AllRecovered(c, m, out);
    return Some(out);
  }

  lemma NoneRecovered(c: Params, m: Image)
    requires Laid(c, m)
    ensures Recovered(m, 0, 1, map[]) && Checked(c, m, 0, 1)
  {
  }

  lemma PageChecked(c: Params, m: Image, n: nat)
    requires Laid(c, m) && n < |m.pages| && Checked(c, m, n, c.perPage + 1)
    ensures Checked(c, m, n + 1, 1)
  {
    hide Scanned, Intact;
    var n2, k := n + 1, c.perPage + 1;
    forall s ensures Scanned(m, n, k, s) <==> Scanned(m, n2, 1, s) {
      NextPage(c, m, n, s);
    }
  }

  lemma AllRecovered(c: Params, m: Image, out: map<nat, Bytes>)
    requires Laid(c, m) && Recovered(m, |m.pages|, 1, out) && Checked(c, m, |m.pages|, 1)
    ensures ChecksumsMatch(c, m)
    ensures (forall s :: Live(m, s) ==> m.slots[s].offset in out && out[m.slots[s].offset] == Content(m, m.slots[s]))
    ensures forall x :: x in out ==> exists s :: Holds(m, s, x)
  {
    hide Scanned, Intact, Content;
    forall s ensures Scanned(m, |m.pages|, 1, s) <==> s in m.slots {
      AllScanned(c, m, s);
    }
    forall x | x in out ensures exists s :: Holds(m, s, x) {
      var s :| Scanned(m, |m.pages|, 1, s) && Live(m, s) && m.slots[s].offset == x;
      assert Holds(m, s, x);
    }
  }
}
