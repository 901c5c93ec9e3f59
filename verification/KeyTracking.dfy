/** Which keys the mod tracks and saves, and what the engine sees through them. */
module KeyTracking {
  import opened BattleState
  import opened Extremes
  import opened MementoKeys
  import opened SaveStates
  import RollbackRuns

  // ------------------------------------------------------ who is tracked

  predicate Inits(op: KeyOp, k: Address) { op.Init? && op.k == k }

  predicate Drops(op: KeyOp, k: Address) { op.Drop? && op.k == k }

  /** The game has the key: its last word on it was an initialisation, or it said
      nothing and had it before. */
  ghost predicate Kept(had: bool, ops: seq<KeyOp>, k: Address) {
    || (exists i :: 0 <= i < |ops| && Inits(ops[i], k) && forall j :: i < j < |ops| ==> !Drops(ops[j], k))
    || (had && forall j :: 0 <= j < |ops| ==> !Drops(ops[j], k))
  }

  lemma KeptSnoc(had: bool, ops: seq<KeyOp>, op: KeyOp, k: Address)
    ensures Kept(had, ops + [op], k) <==> Inits(op, k) || (Kept(had, ops, k) && !Drops(op, k))
  {
    var all := ops + [op];
    assert all[|ops|] == op && forall i :: 0 <= i < |ops| ==> all[i] == ops[i];
  }

  lemma {:induction false} KeptConcat(had: bool, a: seq<KeyOp>, b: seq<KeyOp>, k: Address)
    ensures Kept(had, a + b, k) <==> Kept(Kept(had, a, k), b, k)
  {
    if b == [] {
      assert a + b == a;
    } else {
      var n := |b| - 1;
      KeptConcat(had, a, b[..n], k);
      assert a + b == (a + b[..n]) + [b[n]] && b == b[..n] + [b[n]];
      KeptSnoc(had, a + b[..n], b[n], k);
      KeptSnoc(Kept(had, a, k), b[..n], b[n], k);
      hide Kept;
    }
  }

  /** After any list of key operations exactly the keys the game has are tracked. */
  lemma {:induction false} TrackedIff(h: Heap, ops: seq<KeyOp>, k: Address)
    ensures k in DoAll(h, ops).tracked <==> Kept(k in h.tracked, ops, k)
    decreases |ops|
  {
    if ops != [] {
      TrackedIff(Do(h, ops[0]), ops[1..], k);
      assert ops == [ops[0]] + ops[1..];
      KeptConcat(k in h.tracked, [ops[0]], ops[1..], k);
      assert [] + [ops[0]] == [ops[0]];
      KeptSnoc(k in h.tracked, [], ops[0], k);
      assert Kept(k in h.tracked, [], k) <==> k in h.tracked;
      hide Kept;
    }
  }

  lemma {:induction false} RecordsCover(live: map<Address, Key>, ks: set<Address>, k: Address)
    ensures (exists i :: 0 <= i < |Records(live, ks)| && Records(live, ks)[i].0 == k) <==> k in ks
  {
    if ks != {} {
      var m, rs := Max(ks), Records(live, ks);
      RecordsCover(live, ks - {m}, k);
      var n := |rs| - 1;
      assert rs[..n] == Records(live, ks - {m}) && rs[n].0 == m;
      assert (exists i :: 0 <= i < n && rs[i].0 == k) <==> (exists i :: 0 <= i < n && rs[..n][i].0 == k);
    }
  }

  /** The key operations of one event of a rollback session. */
  function OpsOf(st: State, ev: RollbackRuns.Event): seq<KeyOp> {
    match ev
    case Advance(input, ops, next, queued) => ops
    case Save(record) => if FirstUnused(st.slots) < |st.slots| then record else []
    case _ => []
  }

  function AllOps(e: Engine, st: State, evs: seq<RollbackRuns.Event>): seq<KeyOp> {
    if evs == [] then []
    else
      var n := |evs| - 1;
      AllOps(e, st, evs[..n]) + OpsOf(RollbackRuns.Run(e, st, evs[..n]), evs[n])
  }

  lemma EventTracks(e: Engine, st: State, ev: RollbackRuns.Event, k: Address)
    ensures k in RollbackRuns.Apply(e, st, ev).heap.tracked <==> Kept(k in st.heap.tracked, OpsOf(st, ev), k)
  {
    TrackedIff(st.heap, OpsOf(st, ev), k);
  }

  /** Along every run, whatever is saved, loaded and freed in it. */
  lemma {:induction false} RunTracksIff(e: Engine, st: State, evs: seq<RollbackRuns.Event>, k: Address)
    ensures k in RollbackRuns.Run(e, st, evs).heap.tracked <==> Kept(k in st.heap.tracked, AllOps(e, st, evs), k)
  {
    if evs != [] {
      hide RollbackRuns.Apply, OpsOf, Kept;
      var n := |evs| - 1;
      var mid := RollbackRuns.Run(e, st, evs[..n]);
      RunTracksIff(e, st, evs[..n], k);
      EventTracks(e, mid, evs[n], k);
      KeptConcat(k in st.heap.tracked, AllOps(e, st, evs[..n]), OpsOf(mid, evs[n]), k);
    } else {
      assert Kept(k in st.heap.tracked, [], k) <==> k in st.heap.tracked;
    }
  }

  ghost predicate Recorded(slot: Slot, k: Address) {
    exists i :: 0 <= i < |slot.keys| && slot.keys[i].0 == k
  }

  lemma SaveRecordsTracked(e: Engine, st: State, record: seq<KeyOp>, k: Address)
    requires FirstUnused(st.slots) < |st.slots|
    ensures var after := RollbackRuns.Apply(e, st, RollbackRuns.Save(record));
      && |after.slots| == |st.slots|
      && (Recorded(after.slots[FirstUnused(st.slots)], k) <==> k in after.heap.tracked)
  {
    var worked := DoAll(st.heap, record);
    RecordsCover(worked.live, worked.tracked, k);
    hide DoAll, Records, FirstUnused, ZeroAll;
    var d, after := FirstUnused(st.slots), RollbackRuns.Apply(e, st, RollbackRuns.Save(record));
    assert after.slots[d].keys == Records(worked.live, worked.tracked);
  }

  /** A save that ends any run records exactly the keys the game has; one dropped and
      not initialised since is in no record. */
  lemma SaveRecordsIff(e: Engine, st: State, evs: seq<RollbackRuns.Event>, record: seq<KeyOp>, k: Address)
    requires var before := RollbackRuns.Run(e, st, evs); FirstUnused(before.slots) < |before.slots|
    ensures var before := RollbackRuns.Run(e, st, evs);
      var after := RollbackRuns.Run(e, st, evs + [RollbackRuns.Save(record)]);
      && |after.slots| == |before.slots|
      && (Recorded(after.slots[FirstUnused(before.slots)], k)
          <==> Kept(k in st.heap.tracked, AllOps(e, st, evs) + record, k))
  {
    hide Kept, FirstUnused, Recorded, RollbackRuns.Apply;
    var all := evs + [RollbackRuns.Save(record)];
    var before := RollbackRuns.Run(e, st, evs);
    assert all[..|evs|] == evs;
    RunTracksIff(e, st, all, k);
    assert AllOps(e, st, all) == AllOps(e, st, evs) + record;
    SaveRecordsTracked(e, before, record, k);
  }

  // ------------------------------------------------- what the engine sees

  /** Key and contents by themselves, as if no two keys could share a buffer. */
  function Shown(m: map<Address, (Key, Bytes)>, op: KeyOp): map<Address, (Key, Bytes)> {
    match op
    case Init(k, key, data) => m[k := (key, data)]
    case Drop(k) => m - {k}
    case Wipe(k) => m - {k}
    case Write(k, next, data) => if k in m then m[k := (m[k].0.(nextMementoIndex := next), data)] else m
  }

  function ShownAll(m: map<Address, (Key, Bytes)>, ops: seq<KeyOp>): map<Address, (Key, Bytes)>
    decreases |ops|
  {
    if ops == [] then m else ShownAll(Shown(m, ops[0]), ops[1..])
  }

  lemma LiveHeld(st: State, k: Address)
    requires Ok(st) && k in st.heap.live && st.heap.live[k].Owns()
    ensures st.heap.live[k].mementos in st.heap.bufs
  {
    var live, tracked := st.heap.live, st.heap.tracked;
    LiveMember(live, tracked, k);
    var b := live[k].mementos;
    assert (OwnedLive(live, tracked) + OwnedBySlots(st.slots))[b] == multiset(st.heap.bufs.Keys)[b];
  }

  /** Two live keys never share a buffer. */
  lemma LiveApart(st: State, j: Address, k: Address)
    requires Ok(st) && j in st.heap.live && k in st.heap.live && j != k
    requires st.heap.live[j].Owns() && st.heap.live[k].Owns()
    ensures st.heap.live[j].mementos != st.heap.live[k].mementos
  {
    var live, tracked := st.heap.live, st.heap.tracked;
    OwnedPull(live, tracked, j);
    LiveMember(live, tracked - {j}, k);
    var b := live[j].mementos;
    assert (OwnedLive(live, tracked) + OwnedBySlots(st.slots))[b] == multiset(st.heap.bufs.Keys)[b];
  }

  ghost predicate NoneShared(h: Heap) {
    forall j, k :: j in h.live && k in h.live && j != k && h.live[j].Owns() && h.live[k].Owns() ==>
      h.live[j].mementos != h.live[k].mementos
  }

  ghost predicate AllHeld(h: Heap) {
    forall k :: k in h.live && h.live[k].Owns() ==> h.live[k].mementos in h.bufs
  }

  lemma ClearShows(h: Heap, k: Address)
    requires NoneShared(h)
    ensures Installed(EngineClear(h, k)) == Installed(h) - {k}
  {}

  lemma FillShows(h: Heap, k: Address, key: Key, data: Bytes)
    requires key.Owns()
    requires forall j :: j in h.live && j != k && h.live[j].Owns() && h.live[j].mementos in h.bufs ==>
      h.live[j].mementos != key.mementos
    requires forall j :: j in h.live && j != k && h.live[j].Owns() ==> h.live[j].mementos in h.bufs
    ensures Installed(h.(live := h.live[k := key], bufs := h.bufs[key.mementos := data]))
      == Installed(h)[k := (key, data)]
  {}

  lemma FreshShows(h: Heap, k: Address, key: Key, data: Bytes)
    requires AllHeld(h) && key.Owns() && key.mementos !in h.bufs
    ensures Installed(h.(live := h.live[k := key], bufs := h.bufs[key.mementos := data]))
      == Installed(h)[k := (key, data)]
  {
    FillShows(h, k, key, data);
    hide Installed;
  }

  lemma ClearHeld(h: Heap, k: Address)
    requires NoneShared(h) && AllHeld(h)
    ensures AllHeld(EngineClear(h, k))
  {}

  lemma InstalledIgnoresTracking(h: Heap, tracked: set<Address>)
    ensures Installed(h.(tracked := tracked)) == Installed(h)
  {}

  /** An operation on one key shows there and nowhere else. */
  lemma DoShows(st: State, op: KeyOp)
    requires Ok(st) && CanDo(st.heap, op)
    ensures Installed(Do(st.heap, op)) == Shown(Installed(st.heap), op)
  {
    var h := st.heap;
    forall j, k | j in h.live && k in h.live && j != k && h.live[j].Owns() && h.live[k].Owns()
      ensures h.live[j].mementos != h.live[k].mementos
    {
      LiveApart(st, j, k);
    }
    forall k | k in h.live && h.live[k].Owns() ensures h.live[k].mementos in h.bufs { LiveHeld(st, k); }
    OpShows(h, op);
  }

  lemma OpShows(h: Heap, op: KeyOp)
    requires NoneShared(h) && AllHeld(h) && CanDo(h, op)
    ensures Installed(Do(h, op)) == Shown(Installed(h), op)
  {
    ClearShows(h, op.k);
    match op {
      case Init(k, key, data) => InitShows(h, k, key, data);
      case Drop(k) => InstalledIgnoresTracking(EngineClear(h, k), h.tracked - {k});
      case Wipe(k) =>
      case Write(k, next, data) => WriteShows(h, k, next, data);
    }
    hide Installed, EngineClear, NoneShared, AllHeld;
  }

  lemma InitShows(h: Heap, k: Address, key: Key, data: Bytes)
    requires NoneShared(h) && AllHeld(h) && CanDo(h, Init(k, key, data))
    ensures Installed(Do(h, Init(k, key, data))) == Installed(h)[k := (key, data)]
  {
    hide Installed, EngineClear, NoneShared, AllHeld;
    ClearShows(h, k);
    ClearHeld(h, k);
    RefillShows(EngineClear(h, k), Installed(h), k, key, data);
  }

  lemma RefillShows(c: Heap, m: map<Address, (Key, Bytes)>, k: Address, key: Key, data: Bytes)
    requires AllHeld(c) && Installed(c) == m - {k} && key.Owns() && key.mementos !in c.bufs
    ensures Installed(Heap(c.live[k := key], c.bufs[key.mementos := data], c.tracked + {k})) == m[k := (key, data)]
  {
    hide Installed, AllHeld;
    FreshShows(c, k, key, data);
    InstalledIgnoresTracking(c.(live := c.live[k := key], bufs := c.bufs[key.mementos := data]), c.tracked + {k});
    assert (m - {k})[k := (key, data)] == m[k := (key, data)];
  }

  lemma WriteShows(h: Heap, k: Address, next: int, data: Bytes)
    requires NoneShared(h) && AllHeld(h) && CanDo(h, Write(k, next, data))
    ensures Installed(Do(h, Write(k, next, data))) == Shown(Installed(h), Write(k, next, data))
  {
    FillShows(h, k, KeyAt(h.live, k).(nextMementoIndex := next), data);
    assert Installed(h)[k] == (h.live[k], h.bufs[h.live[k].mementos]);
  }

  /** Whatever the game and the engine do to their keys, the engine sees through each
      what was last put there: buffers are never mixed up, slots or no slots. */
  lemma {:induction false} DoAllShows(st: State, ops: seq<KeyOp>)
    requires Ok(st) && CanDoAll(st.heap, ops)
    ensures Installed(DoAll(st.heap, ops)) == ShownAll(Installed(st.heap), ops)
    decreases |ops|
  {
    if ops != [] {
      hide Ok, CanDo, Do, Shown, Installed;
      DoShows(st, ops[0]);
      DoKeepsOk(st, ops[0]);
      DoAllShows(st.(heap := Do(st.heap, ops[0])), ops[1..]);
    }
  }
}
