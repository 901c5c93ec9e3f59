/** The engine's memento keys, the mod's tracked set, and who owns which buffer. */
module MementoKeys {
  import opened BattleState
  import opened Extremes

  type Address = nat     // 0 is null

  // ------------------------------------------------------------------ keys

  datatype Key = Key(
    mementoable: Address,
    metadata: Address,
    numMementos: int,
    mementos: Address,
    sizeAllocated: int,
    nextMementoIndex: int)
  {
    predicate Owns() { mementos != 0 }
  }

  const ZERO_KEY := Key(0, 0, 0, 0, 0, 0)

  type Record = (Address, Key)

  /** Key objects in engine memory, allocated buffers, and the mod's set of
      tracked key objects. */
  datatype Heap = Heap(live: map<Address, Key>, bufs: map<Address, Bytes>, tracked: set<Address>)

  function KeyAt(live: map<Address, Key>, k: Address): Key {
    if k in live then live[k] else ZERO_KEY
  }

  // ------------------------------------------- what the engine does to keys

  function Release(bufs: map<Address, Bytes>, key: Key): map<Address, Bytes> {
    if key.Owns() then bufs - {key.mementos} else bufs
  }

  /** Releasing a key is legal only while its buffer is allocated. */
  predicate Releasable(bufs: map<Address, Bytes>, key: Key) {
    key.Owns() ==> key.mementos in bufs
  }

  /** The engine's own ClearKey: the buffer is released, the key is zero. */
  function EngineClear(h: Heap, k: Address): Heap {
    h.(live := h.live[k := ZERO_KEY], bufs := Release(h.bufs, KeyAt(h.live, k)))
  }

  datatype KeyOp =
    | Init(k: Address, key: Key, data: Bytes)      // (re)initialise with a fresh buffer
    | Drop(k: Address)                             // the game clears one of its keys
    | Wipe(k: Address)                             // cleared past the mod's detour: still tracked
    | Write(k: Address, next: int, data: Bytes)    // record into the key's own buffer

  predicate CanDo(h: Heap, op: KeyOp) {
    match op
    case Init(k, key, data) => key.Owns() && key.mementos !in EngineClear(h, k).bufs
    case Drop(k) => k in h.live
    case Wipe(k) => k in h.live
    case Write(k, next, data) => KeyAt(h.live, k).Owns()
  }

  function Do(h: Heap, op: KeyOp): Heap {
    match op
    case Init(k, key, data) =>
      var c := EngineClear(h, k);
      Heap(c.live[k := key], c.bufs[key.mementos := data], c.tracked + {k})
    case Drop(k) =>
      var c := EngineClear(h, k);
      c.(tracked := c.tracked - {k})
    case Wipe(k) => EngineClear(h, k)
    case Write(k, next, data) =>
      var key := KeyAt(h.live, k);
      h.(live := h.live[k := key.(nextMementoIndex := next)], bufs := h.bufs[key.mementos := data])
  }

  predicate CanDoAll(h: Heap, ops: seq<KeyOp>)
    decreases |ops|
  {
    ops == [] || (CanDo(h, ops[0]) && CanDoAll(Do(h, ops[0]), ops[1..]))
  }

  function DoAll(h: Heap, ops: seq<KeyOp>): Heap
    decreases |ops|
  {
    if ops == [] then h else DoAll(Do(h, ops[0]), ops[1..])
  }

  /** What the engine sees through its keys: structure and buffer contents. */
  function Installed(h: Heap): map<Address, (Key, Bytes)> {
    map k | k in h.live && h.live[k].Owns() && h.live[k].mementos in h.bufs
      :: (h.live[k], h.bufs[h.live[k].mementos])
  }

  // --------------------------------------------------------------- records

  /** One record per key of `ks`, in ascending address order. */
  function Records(live: map<Address, Key>, ks: set<Address>): seq<Record> {
    if ks == {} then []
    else
      var k := Max(ks);
      Records(live, ks - {k}) + [(k, KeyAt(live, k))]
  }

  function ZeroAll(live: map<Address, Key>, ks: set<Address>): map<Address, Key> {
    map k | k in live :: if k in ks then ZERO_KEY else live[k]
  }

  function Install(live: map<Address, Key>, rs: seq<Record>): map<Address, Key> {
    if rs == [] then live
    else Install(live, rs[..|rs| - 1])[rs[|rs| - 1].0 := rs[|rs| - 1].1]
  }

  function ZeroAt(live: map<Address, Key>, rs: seq<Record>): map<Address, Key> {
    if rs == [] then live
    else ZeroAt(live, rs[..|rs| - 1])[rs[|rs| - 1].0 := ZERO_KEY]
  }

  predicate Distinct(rs: seq<Record>) {
    rs == [] || (Distinct(rs[..|rs| - 1]) && forall i :: 0 <= i < |rs| - 1 ==> rs[i].0 != rs[|rs| - 1].0)
  }

  /** Buffers owned by a list of records. */
  function Owned(rs: seq<Record>): multiset<Address> {
    if rs == [] then multiset{}
    else Owned(rs[..|rs| - 1]) + One(rs[|rs| - 1].1)
  }

  /** Buffers owned by the live keys at `ks`. */
  function OwnedLive(live: map<Address, Key>, ks: set<Address>): multiset<Address> {
    Owned(Records(live, ks))
  }

  function One(key: Key): multiset<Address> {
    if key.Owns() then multiset{key.mementos} else multiset{}
  }

  /** Structure and contents held by a list of records. */
  function Image(rs: seq<Record>, bufs: map<Address, Bytes>): map<Address, (Key, Bytes)> {
    if rs == [] then map[]
    else
      var m := Image(rs[..|rs| - 1], bufs);
      var r := rs[|rs| - 1];
      if r.1.Owns() && r.1.mementos in bufs then m[r.0 := (r.1, bufs[r.1.mementos])] else m
  }

  function Without(bufs: map<Address, Bytes>, gone: multiset<Address>): map<Address, Bytes> {
    map b | b in bufs && b !in gone :: bufs[b]
  }

  predicate HeapOk(h: Heap) {
    && (forall k :: k in h.tracked ==> k in h.live)
    && (forall k :: k in h.live && k !in h.tracked ==> h.live[k] == ZERO_KEY)
  }

  // ---------------------------------------------------------------- lemmas

  lemma {:induction false} OwnedMember(rs: seq<Record>, i: nat)
    requires i < |rs| && rs[i].1.Owns()
    ensures rs[i].1.mementos in Owned(rs)
  {
    if i < |rs| - 1 { OwnedMember(rs[..|rs| - 1], i); }
  }

  lemma AddToBoth(a: multiset<Address>, x: multiset<Address>, b: multiset<Address>, y: multiset<Address>,
                  z: multiset<Address>)
    requires a + x == b + y
    ensures a + z + x == b + z + y
  {
    assert a + z + x == a + x + z;
    assert b + z + y == b + y + z;
  }

  lemma RecordsTop(live: map<Address, Key>, ks: set<Address>, m: Address)
    requires m in ks && forall x :: x in ks ==> x <= m
    ensures Records(live, ks) == Records(live, ks - {m}) + [(m, KeyAt(live, m))]
    ensures Records(live, ks)[..|Records(live, ks)| - 1] == Records(live, ks - {m})
    ensures OwnedLive(live, ks) == OwnedLive(live, ks - {m}) + One(KeyAt(live, m))
  {
    var top := Max(ks);
    assert top in ks && top <= m <= top;
    var rs := Records(live, ks - {m});
    assert (rs + [(m, KeyAt(live, m))])[..|rs|] == rs;
  }

  /** Any one key can be taken out of the count. */
  lemma {:induction false} OwnedPull(live: map<Address, Key>, ks: set<Address>, k: Address)
    requires k in ks
    ensures OwnedLive(live, ks) == OwnedLive(live, ks - {k}) + One(KeyAt(live, k))
  {
    var m := Max(ks);
    RecordsTop(live, ks, m);
    if k != m {
      OwnedPull(live, ks - {m}, k);
      RecordsTop(live, ks - {k}, m);
      assert ks - {k} - {m} == ks - {m} - {k};
      var a, x, y := OwnedLive(live, ks - {m} - {k}), One(KeyAt(live, k)), One(KeyAt(live, m));
      assert a + x + y == a + y + x;
    }
  }

  lemma {:induction false} RecordsElsewhere(live: map<Address, Key>, ks: set<Address>, k: Address, key: Key)
    requires k !in ks
    ensures Records(live[k := key], ks) == Records(live, ks)
  {
    if ks != {} { RecordsElsewhere(live, ks - {Max(ks)}, k, key); }
  }

  lemma OwnedUpdate(live: map<Address, Key>, ks: set<Address>, k: Address, key: Key)
    ensures k !in ks ==> OwnedLive(live[k := key], ks) == OwnedLive(live, ks)
    ensures k in ks ==> OwnedLive(live[k := key], ks) + One(KeyAt(live, k)) == OwnedLive(live, ks) + One(key)
  {
    RecordsElsewhere(live, ks - {k}, k, key);
    if k in ks {
      OwnedPull(live, ks, k);
      OwnedPull(live[k := key], ks, k);
      var a := OwnedLive(live, ks - {k});
      assert a + One(key) + One(KeyAt(live, k)) == a + One(KeyAt(live, k)) + One(key);
    } else {
      assert ks - {k} == ks;
    }
  }

  lemma LiveMember(live: map<Address, Key>, ks: set<Address>, k: Address)
    requires k in ks && KeyAt(live, k).Owns()
    ensures KeyAt(live, k).mementos in OwnedLive(live, ks)
  {
    OwnedPull(live, ks, k);
  }

  /** One live key changes from `before` to `after`: the ledger follows. */
  lemma LedgerSwap(live: multiset<Address>, live': multiset<Address>, saved: multiset<Address>,
                   bufs: set<Address>, bufs': set<Address>, before: Key, after: Key)
    requires live + saved == multiset(bufs)
    requires live' + One(before) == live + One(after)
    requires before.Owns() ==> before.mementos in live
    requires after.Owns() ==> after.mementos !in bufs || (before.Owns() && after.mementos == before.mementos)
    requires forall b :: b in bufs' <==>
      (b in bufs && !(before.Owns() && b == before.mementos)) || (after.Owns() && b == after.mementos)
    ensures live' + saved == multiset(bufs')
    ensures forall b :: b in saved ==>
      b in bufs && b in bufs' && !(before.Owns() && b == before.mementos) && !(after.Owns() && b == after.mementos)
  {
    forall b ensures (live' + saved)[b] == multiset(bufs')[b] {
      assert (live' + One(before))[b] == (live + One(after))[b];
      assert (live + saved)[b] == multiset(bufs)[b];
    }
    forall b | b in saved
      ensures b in bufs && b in bufs' && !(before.Owns() && b == before.mementos)
      ensures !(after.Owns() && b == after.mementos)
    {
      assert (live + saved)[b] == multiset(bufs)[b];
    }
  }

  lemma DoKeepsHeap(h: Heap, op: KeyOp)
    requires HeapOk(h) && CanDo(h, op)
    ensures HeapOk(Do(h, op))
    ensures var t := Do(h, op).tracked; t == h.tracked || t == h.tracked + {op.k} || t == h.tracked - {op.k}
    ensures op.k !in Do(h, op).tracked ==> KeyAt(Do(h, op).live, op.k) == ZERO_KEY
    ensures Do(h, op).live == h.live[op.k := KeyAt(Do(h, op).live, op.k)]
  {
  }

  lemma DoMoves(h: Heap, op: KeyOp)
    requires HeapOk(h) && CanDo(h, op)
    ensures OwnedLive(Do(h, op).live, Do(h, op).tracked) + One(KeyAt(h.live, op.k)) ==
            OwnedLive(h.live, h.tracked) + One(KeyAt(Do(h, op).live, op.k))
  {
    var h' := Do(h, op);
    DoKeepsHeap(h, op);
    assert op.k !in h.tracked ==> KeyAt(h.live, op.k) == ZERO_KEY;
    hide Do, CanDo, HeapOk, OwnedLive, Release;
    OwnedUpdate(h.live, h.tracked, op.k, KeyAt(h'.live, op.k));
    if h'.tracked != h.tracked {
      if op.k !in h.tracked {
        assert h'.tracked - {op.k} == h.tracked;
        OwnedPull(h'.live, h'.tracked, op.k);
      } else {
        OwnedPull(h'.live, h.tracked, op.k);
      }
    }
  }

  lemma DoBuffers(h: Heap, op: KeyOp)
    requires CanDo(h, op)
    ensures var before, after := KeyAt(h.live, op.k), KeyAt(Do(h, op).live, op.k);
      && (after.Owns() ==> after.mementos !in h.bufs || (before.Owns() && after.mementos == before.mementos))
      && (forall b :: b in Do(h, op).bufs.Keys <==>
           (b in h.bufs.Keys && !(before.Owns() && b == before.mementos)) || (after.Owns() && b == after.mementos))
      && (forall b :: b in h.bufs && !(before.Owns() && b == before.mementos) && !(after.Owns() && b == after.mementos)
            ==> Do(h, op).bufs[b] == h.bufs[b])
  {
  }

  lemma {:induction false} OwnedOfZeroed(live: map<Address, Key>, ks: set<Address>, zeroed: set<Address>)
    requires ks <= zeroed
    ensures OwnedLive(ZeroAll(live, zeroed), ks) == multiset{}
  {
    if ks != {} {
      var m := Max(ks);
      RecordsTop(ZeroAll(live, zeroed), ks, m);
      OwnedOfZeroed(live, ks - {m}, zeroed);
    }
  }

  /** What a slot holds depends only on the buffers it owns. */
  lemma {:induction false} ImageFrame(rs: seq<Record>, bufs: map<Address, Bytes>, bufs': map<Address, Bytes>)
    requires forall b :: b in Owned(rs) ==> b in bufs && b in bufs' && bufs'[b] == bufs[b]
    ensures Image(rs, bufs') == Image(rs, bufs)
  {
    if rs != [] {
      ImageFrame(rs[..|rs| - 1], bufs, bufs');
    }
  }

  /** Right after the record pass, the records taken from the tracked keys hold
      exactly what the engine has installed. */
  lemma InstalledIsImage(h: Heap)
    requires HeapOk(h)
    ensures Image(Records(h.live, h.tracked), h.bufs) == Installed(h)
  {
    ImageOfRecords(h.live, h.bufs, h.tracked);
  }

  function HeldAt(live: map<Address, Key>, bufs: map<Address, Bytes>, ks: set<Address>): map<Address, (Key, Bytes)> {
    map k | k in ks && KeyAt(live, k).Owns() && KeyAt(live, k).mementos in bufs
      :: (KeyAt(live, k), bufs[KeyAt(live, k).mementos])
  }

  lemma HeldStep(live: map<Address, Key>, bufs: map<Address, Bytes>, ks: set<Address>, m: Address)
    requires m in ks
    ensures HeldAt(live, bufs, ks) ==
      if KeyAt(live, m).Owns() && KeyAt(live, m).mementos in bufs
      then HeldAt(live, bufs, ks - {m})[m := (KeyAt(live, m), bufs[KeyAt(live, m).mementos])]
      else HeldAt(live, bufs, ks - {m})
  {
  }

  lemma ImageSnoc(rs: seq<Record>, r: Record, bufs: map<Address, Bytes>)
    ensures Image(rs + [r], bufs) ==
      if r.1.Owns() && r.1.mementos in bufs then Image(rs, bufs)[r.0 := (r.1, bufs[r.1.mementos])] else Image(rs, bufs)
  {
    assert (rs + [r])[..|rs|] == rs;
  }

  lemma {:induction false} ImageOfRecords(live: map<Address, Key>, bufs: map<Address, Bytes>, ks: set<Address>)
    ensures Image(Records(live, ks), bufs) == HeldAt(live, bufs, ks)
  {
    if ks != {} {
      var m := Max(ks);
      ImageOfRecords(live, bufs, ks - {m});
      ImageSnoc(Records(live, ks - {m}), (m, KeyAt(live, m)), bufs);
      HeldStep(live, bufs, ks, m);
    }
  }

  lemma {:induction false} RecordsShape(live: map<Address, Key>, ks: set<Address>)
    ensures Distinct(Records(live, ks))
    ensures forall i :: 0 <= i < |Records(live, ks)| ==> Records(live, ks)[i].0 in ks
  {
    if ks != {} {
      var m := Max(ks);
      RecordsTop(live, ks, m);
      RecordsShape(live, ks - {m});
    }
  }

  lemma {:induction false} ImageKeys(rs: seq<Record>, bufs: map<Address, Bytes>, k: Address)
    requires k in Image(rs, bufs)
    ensures exists i :: 0 <= i < |rs| && rs[i].0 == k
  {
    if rs[|rs| - 1].0 != k { ImageKeys(rs[..|rs| - 1], bufs, k); }
  }

  lemma InstalledUpdate(live: map<Address, Key>, bufs: map<Address, Bytes>, tracked: set<Address>, k: Address, key: Key)
    requires k !in Installed(Heap(live, bufs, tracked))
    ensures Installed(Heap(live[k := key], bufs, tracked)) ==
      if key.Owns() && key.mementos in bufs
      then Installed(Heap(live, bufs, tracked))[k := (key, bufs[key.mementos])]
      else Installed(Heap(live, bufs, tracked))
  {
  }

  /** Placing records on a heap whose keys own nothing installs exactly what
      the records hold. */
  lemma {:induction false} InstallGivesImage(live: map<Address, Key>, bufs: map<Address, Bytes>,
                                             tracked: set<Address>, rs: seq<Record>)
    requires Distinct(rs)
    requires forall k :: k in live ==> !live[k].Owns()
    ensures Installed(Heap(Install(live, rs), bufs, tracked)) == Image(rs, bufs)
  {
    if rs != [] {
      var p, r := rs[..|rs| - 1], rs[|rs| - 1];
      InstallGivesImage(live, bufs, tracked, p);
      if r.0 in Image(p, bufs) {
        ImageKeys(p, bufs, r.0);
      }
      InstalledUpdate(Install(live, p), bufs, tracked, r.0, r.1);
    }
  }

  /** Once the tracked keys are zeroed no key owns anything. */
  lemma ZeroedOwnNothing(h: Heap)
    requires HeapOk(h)
    ensures forall k :: k in ZeroAll(h.live, h.tracked) ==> ZeroAll(h.live, h.tracked)[k] == ZERO_KEY
  {}

  lemma {:induction false} InstallElsewhere(live: map<Address, Key>, rs: seq<Record>, k: Address)
    requires forall i :: 0 <= i < |rs| ==> rs[i].0 != k
    ensures k in Install(live, rs) <==> k in live
    ensures k in live ==> Install(live, rs)[k] == live[k]
  {
    if rs != [] { InstallElsewhere(live, rs[..|rs| - 1], k); }
  }

  lemma {:induction false} ZeroAtEach(live: map<Address, Key>, rs: seq<Record>)
    requires forall i :: 0 <= i < |rs| ==> rs[i].0 in live
    ensures ZeroAt(live, rs).Keys == live.Keys
    ensures forall k :: k in live ==>
      ZeroAt(live, rs)[k] == if exists i :: 0 <= i < |rs| && rs[i].0 == k then ZERO_KEY else live[k]
  {
    if rs != [] {
      var p := rs[..|rs| - 1];
      ZeroAtEach(live, p);
      forall k | k in live
        ensures ZeroAt(live, rs)[k] == if exists i :: 0 <= i < |rs| && rs[i].0 == k then ZERO_KEY else live[k]
      {
        if exists i :: 0 <= i < |rs| && rs[i].0 == k {
          var i :| 0 <= i < |rs| && rs[i].0 == k;
          if i < |rs| - 1 { assert p[i].0 == k; }
        } else {
          assert rs[|rs| - 1].0 != k;
          assert forall i :: 0 <= i < |p| ==> p[i] == rs[i];
        }
      }
    }
  }

  lemma InstallLast(live: map<Address, Key>, rs: seq<Record>, r: Record)
    ensures Install(live, rs + [r]) == Install(live, rs)[r.0 := r.1]
  {
    assert (rs + [r])[..|rs|] == rs;
  }

  function Overlay(z: map<Address, Key>, live: map<Address, Key>, ks: set<Address>): map<Address, Key> {
    map k | k in z :: if k in ks then KeyAt(live, k) else z[k]
  }

  lemma {:induction false} InstallRecords(z: map<Address, Key>, live: map<Address, Key>, ks: set<Address>)
    requires ks <= z.Keys
    ensures Install(z, Records(live, ks)) == Overlay(z, live, ks)
  {
    if ks != {} {
      var m := Max(ks);
      RecordsTop(live, ks, m);
      InstallLast(z, Records(live, ks - {m}), (m, KeyAt(live, m)));
      hide Install, Records;
      InstallRecords(z, live, ks - {m});
      assert Overlay(z, live, ks) == Overlay(z, live, ks - {m})[m := KeyAt(live, m)];
    }
  }

  lemma {:induction false} InstallDomain(live: map<Address, Key>, rs: seq<Record>)
    requires forall i :: 0 <= i < |rs| ==> rs[i].0 in live
    ensures Install(live, rs).Keys == live.Keys
  {
    if rs != [] { InstallDomain(live, rs[..|rs| - 1]); }
  }

  lemma AllZeroAfter(live: map<Address, Key>, rs: seq<Record>)
    requires forall i :: 0 <= i < |rs| ==> rs[i].0 in live
    requires forall k :: k in live ==> live[k] == ZERO_KEY
    ensures ZeroAt(Install(live, rs), rs) == live
  {
    InstallDomain(live, rs);
    ZeroAtEach(Install(live, rs), rs);
    forall k | k in live ensures ZeroAt(Install(live, rs), rs)[k] == ZERO_KEY {
      if !(exists i :: 0 <= i < |rs| && rs[i].0 == k) { InstallElsewhere(live, rs, k); }
    }
  }

  /** Take away, install, zero, put back: every key object is as it was. */
  lemma PutBack(h: Heap, rs: seq<Record>)
    requires HeapOk(h)
    requires forall i :: 0 <= i < |rs| ==> rs[i].0 in h.live
    ensures Install(ZeroAt(Install(ZeroAll(h.live, h.tracked), rs), rs), Records(h.live, h.tracked)) == h.live
  {
    var zeroed := ZeroAll(h.live, h.tracked);
    AllZeroAfter(zeroed, rs);
    InstallRecords(zeroed, h.live, h.tracked);
  }

  lemma {:induction false} OwnedPrefix(rs: seq<Record>, n: nat)
    requires n <= |rs|
    ensures Owned(rs[..n]) <= Owned(rs)
  {
    if n == |rs| {
      assert rs[..n] == rs;
    } else {
      OwnedPrefix(rs[..|rs| - 1], n);
      assert rs[..|rs| - 1][..n] == rs[..n];
    }
  }

  lemma WithoutOneMore(bufs: map<Address, Bytes>, gone: multiset<Address>, key: Key)
    ensures Without(bufs, gone + One(key)) == Release(Without(bufs, gone), key)
  {
  }
}
