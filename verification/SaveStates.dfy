/** Save slots and the engine's memento keys.

    A memento key is an engine object that owns at most one buffer. Saving
    never copies a buffer: it moves the key structure into the slot and zeroes
    the live key. Every claim here is about that movement of ownership.

    The engine is opaque. Whatever it does to its keys is a list of primitive
    key operations, given as a parameter; how it rebuilds its state from the
    installed keys is the function `Engine.restore`. */
module SaveStates {
  import opened BattleState
  import opened Extremes
  import opened MementoKeys

  type World(!new, ==)   // engine state that lives behind mementos
  type Input(!new, ==)   // one frame of both players' inputs
  type Sound(!new, ==)   // metadata of one sound adapter, or the object pool of one stub manager

  // ----------------------------------------------------------------- slots

  datatype Slot = Slot(
    used: bool,
    ownsKeys: bool,
    keys: seq<Record>,
    sounds: map<Address, Sound>,
    globals: Globals)

  /** Engine state as seen by the mod. `sounds` maps each stub adapter and each stub
      manager, which saves and loads treat alike. */
  datatype Game = Game(world: World, globals: Globals, sounds: map<Address, Sound>)

  datatype State = State(heap: Heap, game: Game, queued: map<Address, seq<Sound>>, slots: seq<Slot>)

  datatype Engine = Engine(
    pureSounds: bool,
    restore: (World, map<Address, (Key, Bytes)>) -> World,
    step: (Game, Input) -> Game)

  /** The engine's record contract: restoring from exactly these installed keys
      rebuilds `w`, whatever the engine was doing before. */
  ghost predicate Captures(e: Engine, installed: map<Address, (Key, Bytes)>, w: World) {
    forall w': World :: e.restore(w', installed) == w
  }

  function OwnedBySlots(slots: seq<Slot>): multiset<Address> {
    if slots == [] then multiset{}
    else OwnedBySlots(slots[..|slots| - 1]) + Owned(slots[|slots| - 1].keys)
  }

  function Merge(saved: map<Address, Sound>, now: map<Address, Sound>): map<Address, Sound> {
    map a | a in now :: if a in saved then saved[a] else now[a]
  }

  function Cleared(slot: Slot): Slot {
    var z := Globals(0, 0, 0, 0, ZERO_POINT, ZERO_POINT, ZERO_POINT, ZERO_POINT, 0, 0, slot.globals.gameManager);
    Slot(false, true, [], map[], z)
  }

  // ------------------------------------------------ the four slot operations

  /** Everything the tracked keys own moves into slot `i`. */
  function SaveSpec(st: State, i: nat): State
    requires i < |st.slots|
  {
    var h := st.heap;
    var slot := Slot(true, st.slots[i].ownsKeys, Records(h.live, h.tracked),
                     st.slots[i].sounds + st.game.sounds, st.game.globals);
    st.(heap := h.(live := ZeroAll(h.live, h.tracked)), slots := st.slots[i := slot])
  }

  /** The game goes back; no key, no buffer and no slot changes. */
  function LoadSpec(e: Engine, st: State, i: nat): State
    requires i < |st.slots|
  {
    var slot := st.slots[i];
    st.(game := Game(e.restore(st.game.world, Image(slot.keys, st.heap.bufs)),
                     slot.globals, Merge(slot.sounds, st.game.sounds)),
        queued := if e.pureSounds then map m | m in st.queued :: [] else st.queued)
  }

  /** Clearing each record's live key, past the detour. */
  function Wipes(rs: seq<Record>): seq<KeyOp> {
    seq(|rs|, i requires 0 <= i < |rs| => Wipe(rs[i].0))
  }

  /** A slot that still claims its keys has the live ones at those places cleared. */
  function ClearSpec(st: State, i: nat): State
    requires i < |st.slots|
  {
    st.(heap := if st.slots[i].ownsKeys then DoAll(st.heap, Wipes(st.slots[i].keys)) else st.heap,
        slots := st.slots[i := Cleared(st.slots[i])])
  }

  /** Exactly the victim's buffers go. */
  function FreeSpec(st: State, i: nat): State
    requires i < |st.slots|
  {
    var gone := Owned(st.slots[i].keys);
    st.(heap := st.heap.(bufs := Without(st.heap.bufs, gone)),
        slots := st.slots[i := Cleared(st.slots[i])])
  }

  function ReclaimSpec(st: State, i: nat): State
    requires i < |st.slots|
  {
    if !st.slots[i].used && st.slots[i].keys == [] then st
    else st.(slots := st.slots[i := Cleared(st.slots[i])])
  }

  function FirstUnused(slots: seq<Slot>): (i: nat)
    ensures i <= |slots|
    ensures forall j :: 0 <= j < i ==> slots[j].used
    ensures i < |slots| ==> !slots[i].used
  {
    if slots == [] then 0 else if !slots[0].used then 0 else 1 + FirstUnused(slots[1..])
  }

  // ------------------------------------------------------------- invariants

  predicate SlotOk(h: Heap, slot: Slot) {
    && slot.ownsKeys
    && (!slot.used ==> slot.keys == [] && slot.sounds == map[])
    && Distinct(slot.keys)
    && (forall i :: 0 <= i < |slot.keys| ==> slot.keys[i].0 in h.live)
  }

  /** The ownership ledger: the buffers owned by live keys and by slots, counted
      with multiplicity, are exactly the allocated ones, each once. So nothing
      is owned twice, nothing has leaked and nothing owned is already free. */
  predicate Balanced(st: State) {
    OwnedLive(st.heap.live, st.heap.tracked) + OwnedBySlots(st.slots) == multiset(st.heap.bufs.Keys)
  }

  predicate Ok(st: State) {
    && HeapOk(st.heap)
    && (forall i :: 0 <= i < |st.slots| ==> SlotOk(st.heap, st.slots[i]))
    && Balanced(st)
  }

  // -------------------------------------------------- lemmas about ownership

  lemma {:induction false} SlotsUpdate(slots: seq<Slot>, i: nat, slot: Slot)
    requires i < |slots|
    ensures OwnedBySlots(slots[i := slot]) + Owned(slots[i].keys) == OwnedBySlots(slots) + Owned(slot.keys)
  {
    var n := |slots| - 1;
    var u := slots[i := slot];
    if i == n {
      assert u[..n] == slots[..n];
    } else {
      SlotsUpdate(slots[..n], i, slot);
      assert u[..n] == slots[..n][i := slot];
      assert u[n] == slots[n] && slots[..n][i] == slots[i];
      AddToBoth(OwnedBySlots(u[..n]), Owned(slots[i].keys), OwnedBySlots(slots[..n]), Owned(slot.keys),
                Owned(slots[n].keys));
    }
  }

  lemma {:induction false} SlotWithin(slots: seq<Slot>, i: nat)
    requires i < |slots|
    ensures Owned(slots[i].keys) <= OwnedBySlots(slots)
  {
    var n := |slots| - 1;
    if i < n {
      SlotWithin(slots[..n], i);
      assert slots[..n][i] == slots[i];
    }
  }

  /** Two different slots own different buffers, jointly at most everything. */
  lemma {:induction false} SlotsDisjoint(slots: seq<Slot>, i: nat, j: nat)
    requires i < |slots| && j < |slots| && i != j
    ensures Owned(slots[i].keys) + Owned(slots[j].keys) <= OwnedBySlots(slots)
  {
    var n := |slots| - 1;
    if i == n {
      SlotWithin(slots[..n], j);
      assert slots[..n][j] == slots[j];
    } else if j == n {
      SlotWithin(slots[..n], i);
      assert slots[..n][i] == slots[i];
    } else {
      SlotsDisjoint(slots[..n], i, j);
      assert slots[..n][i] == slots[i] && slots[..n][j] == slots[j];
    }
  }

  // ----------------------------------------------- engine activity is ledgered

  /** Slot `i` and the contents of the buffers it owns are as they were. */
  predicate Intact(st: State, st': State, i: nat)
    requires i < |st.slots| && i < |st'.slots|
  {
    && st'.slots[i] == st.slots[i]
    && forall b :: b in Owned(st.slots[i].keys) ==>
         b in st.heap.bufs && b in st'.heap.bufs && st'.heap.bufs[b] == st.heap.bufs[b]
  }

  /** One engine operation releases only an allocated buffer, keeps the ledger
      balanced and touches nothing a slot owns. */
  lemma DoKeepsOk(st: State, op: KeyOp)
    requires Ok(st) && CanDo(st.heap, op)
    ensures Ok(st.(heap := Do(st.heap, op)))
    ensures Releasable(st.heap.bufs, KeyAt(st.heap.live, op.k))
    ensures forall i :: 0 <= i < |st.slots| ==> Intact(st, st.(heap := Do(st.heap, op)), i)
  {
    var h, h' := st.heap, Do(st.heap, op);
    var before, after := KeyAt(h.live, op.k), KeyAt(h'.live, op.k);
    var live, saved := OwnedLive(h.live, h.tracked), OwnedBySlots(st.slots);
    DoKeepsHeap(h, op);
    DoMoves(h, op);
    DoBuffers(h, op);
    if before.Owns() {
      assert op.k in h.tracked;
      LiveMember(h.live, h.tracked, op.k);
      assert before.mementos in live + saved;
    }
    LedgerSwap(live, OwnedLive(h'.live, h'.tracked), saved, h.bufs.Keys, h'.bufs.Keys, before, after);
    forall i | 0 <= i < |st.slots| ensures Intact(st, st.(heap := h'), i) {
      SlotWithin(st.slots, i);
    }
  }

  lemma AllIntact(st: State)
    requires Ok(st)
    ensures forall i :: 0 <= i < |st.slots| ==> Intact(st, st, i)
  {
    forall i, b | 0 <= i < |st.slots| && b in Owned(st.slots[i].keys) ensures b in st.heap.bufs {
      OwnedIsAllocated(st, i, b);
    }
  }

  lemma {:induction false} DoAllKeepsOk(st: State, ops: seq<KeyOp>)
    requires Ok(st) && CanDoAll(st.heap, ops)
    ensures Ok(st.(heap := DoAll(st.heap, ops)))
    ensures forall i :: 0 <= i < |st.slots| ==> Intact(st, st.(heap := DoAll(st.heap, ops)), i)
    decreases |ops|
  {
    if ops == [] {
      AllIntact(st);
    } else {
      DoKeepsOk(st, ops[0]);
      var mid := st.(heap := Do(st.heap, ops[0]));
      DoAllKeepsOk(mid, ops[1..]);
      forall i | 0 <= i < |st.slots| ensures Intact(st, st.(heap := DoAll(st.heap, ops)), i) {
        assert Intact(st, mid, i) && Intact(mid, mid.(heap := DoAll(mid.heap, ops[1..])), i);
      }
    }
  }

  // ------------------------------------------------- the operations keep Ok

  /** Saving moves what the live keys own; nothing is allocated or released. */
  lemma SaveLedger(st: State, i: nat)
    requires Balanced(st) && i < |st.slots| && st.slots[i].keys == []
    ensures Balanced(SaveSpec(st, i))
  {
    var h, st' := st.heap, SaveSpec(st, i);
    var taken := Owned(st'.slots[i].keys);
    OwnedOfZeroed(h.live, h.tracked, h.tracked);
    var slots' := st.slots[i := st'.slots[i]];
    assert st'.slots == slots';
    SlotsUpdate(st.slots, i, st'.slots[i]);
    assert OwnedBySlots(slots') + Owned(st.slots[i].keys) == OwnedBySlots(slots');
    assert OwnedBySlots(slots') == OwnedBySlots(st.slots) + taken;
    assert multiset{} + OwnedBySlots(st'.slots) == taken + OwnedBySlots(st.slots);
  }

  lemma SaveKeepsOk(st: State, i: nat)
    requires Ok(st) && i < |st.slots| && st.slots[i].keys == []
    ensures Ok(SaveSpec(st, i))
    ensures forall j :: 0 <= j < |st.slots| && j != i ==> Intact(st, SaveSpec(st, i), j)
  {
    SaveLedger(st, i);
    RecordsShape(st.heap.live, st.heap.tracked);
    AllIntact(st);
    forall j | 0 <= j < |st.slots| && j != i ensures Intact(st, SaveSpec(st, i), j) {
      assert Intact(st, st, j);
    }
  }

  lemma NothingAdded<T>(a: multiset<T>, b: multiset<T>)
    requires a + multiset{} == b + multiset{}
    ensures a == b
  {
    assert a == a + multiset{} && b == b + multiset{};
  }

  lemma MarkedOk(st: State, i: nat, slot: Slot)
    requires Ok(st) && i < |st.slots| && st.slots[i].keys == [] && slot == st.slots[i].(used := true)
    ensures Ok(st.(slots := st.slots[i := slot]))
  {
    SlotsUpdate(st.slots, i, slot);
    var slots' := st.slots[i := slot];
    NothingAdded(OwnedBySlots(slots'), OwnedBySlots(st.slots));
    hide OwnedBySlots, HeapOk, OwnedLive;
  }

  lemma OwnedIsAllocated(st: State, i: nat, b: Address)
    requires Balanced(st) && i < |st.slots| && b in Owned(st.slots[i].keys)
    ensures b in st.heap.bufs && Owned(st.slots[i].keys)[b] == 1
    ensures b !in OwnedLive(st.heap.live, st.heap.tracked)
    ensures forall j :: 0 <= j < |st.slots| && j != i ==> b !in Owned(st.slots[j].keys)
  {
    var live, saved := OwnedLive(st.heap.live, st.heap.tracked), OwnedBySlots(st.slots);
    SlotWithin(st.slots, i);
    assert (live + saved)[b] == multiset(st.heap.bufs.Keys)[b];
    forall j | 0 <= j < |st.slots| && j != i ensures b !in Owned(st.slots[j].keys) {
      SlotsDisjoint(st.slots, i, j);
      assert (Owned(st.slots[i].keys) + Owned(st.slots[j].keys))[b] <= saved[b];
    }
  }

  lemma FreeLedger(st: State, i: nat)
    requires Balanced(st) && i < |st.slots|
    ensures Balanced(FreeSpec(st, i))
    ensures multiset(st.heap.bufs.Keys) == multiset(FreeSpec(st, i).heap.bufs.Keys) + Owned(st.slots[i].keys)
  {
    var st' := FreeSpec(st, i);
    var gone, live := Owned(st.slots[i].keys), OwnedLive(st.heap.live, st.heap.tracked);
    SlotsUpdate(st.slots, i, st'.slots[i]);
    assert OwnedBySlots(st'.slots) + gone == OwnedBySlots(st.slots);
    forall b
      ensures multiset(st.heap.bufs.Keys)[b] == (multiset(st'.heap.bufs.Keys) + gone)[b]
      ensures (live + OwnedBySlots(st'.slots))[b] == multiset(st'.heap.bufs.Keys)[b]
    {
      if b in gone { OwnedIsAllocated(st, i, b); }
      assert (OwnedBySlots(st'.slots) + gone)[b] == OwnedBySlots(st.slots)[b];
      assert (live + OwnedBySlots(st.slots))[b] == multiset(st.heap.bufs.Keys)[b];
    }
  }

  /** `Free` releases the victim's buffers and nothing else. */
  lemma FreeKeepsOk(st: State, i: nat)
    requires Ok(st) && i < |st.slots|
    ensures Ok(FreeSpec(st, i))
    ensures FreeSpec(st, i).heap.live == st.heap.live && FreeSpec(st, i).heap.tracked == st.heap.tracked
    ensures FreeSpec(st, i).game == st.game
    ensures multiset(st.heap.bufs.Keys) == multiset(FreeSpec(st, i).heap.bufs.Keys) + Owned(st.slots[i].keys)
    ensures forall j :: 0 <= j < |st.slots| && j != i ==> Intact(st, FreeSpec(st, i), j)
  {
    var st' := FreeSpec(st, i);
    FreeLedger(st, i);
    forall j | 0 <= j < |st.slots| && j != i ensures Intact(st, st', j) {
      forall b | b in Owned(st.slots[j].keys) ensures b in st.heap.bufs && b in st'.heap.bufs {
        OwnedIsAllocated(st, j, b);
      }
    }
  }

  lemma LoadKeepsOk(e: Engine, st: State, i: nat)
    requires Ok(st) && i < |st.slots|
    ensures Ok(LoadSpec(e, st, i)) && LoadSpec(e, st, i).heap == st.heap && LoadSpec(e, st, i).slots == st.slots
    ensures forall j :: 0 <= j < |st.slots| ==> Intact(st, LoadSpec(e, st, i), j)
  {
    forall j, b | 0 <= j < |st.slots| && b in Owned(st.slots[j].keys) ensures b in st.heap.bufs {
      OwnedIsAllocated(st, j, b);
    }
  }

  /** Sweeping a slot that still holds records loses exactly what it owned, and
      is the identity on the slots a release has already been through. */
  lemma ReclaimLeaks(st: State, i: nat)
    requires Ok(st) && i < |st.slots|
    ensures var st' := ReclaimSpec(st, i);
      OwnedLive(st'.heap.live, st'.heap.tracked) + OwnedBySlots(st'.slots) + Owned(st.slots[i].keys)
        == multiset(st'.heap.bufs.Keys)
    ensures Balanced(ReclaimSpec(st, i)) <==> Owned(st.slots[i].keys) == multiset{}
  {
    var st' := ReclaimSpec(st, i);
    SlotsUpdate(st.slots, i, Cleared(st.slots[i]));
    var live, gone := OwnedLive(st.heap.live, st.heap.tracked), Owned(st.slots[i].keys);
    assert OwnedBySlots(st'.slots) + gone == OwnedBySlots(st.slots);
    assert live + (OwnedBySlots(st'.slots) + gone) == live + OwnedBySlots(st'.slots) + gone;
    if Balanced(st') {
      forall b ensures gone[b] == 0 {
        assert (live + OwnedBySlots(st'.slots) + gone)[b] == multiset(st.heap.bufs.Keys)[b];
        assert (live + OwnedBySlots(st'.slots))[b] == multiset(st.heap.bufs.Keys)[b];
      }
    }
  }

  // ------------------------------------------------------------- the mod

  /** The live key objects, the tracked set and the save slots, updated in
      place by the mod. */
  class Rollback {
    const engine: Engine
    var live: map<Address, Key>
    var bufs: map<Address, Bytes>
    var tracked: set<Address>
    var game: Game
    var queued: map<Address, seq<Sound>>
    const slots: array<Slot>

    constructor (engine: Engine, n: nat, game: Game, globals: Globals)
      ensures fresh(slots) && slots.Length == n && this.engine == engine
      ensures Ok(View()) && View().game == game
      ensures forall i :: 0 <= i < n ==> slots[i] == Slot(false, true, [], map[], globals)
    {
      this.engine := engine;
      live, bufs, tracked := map[], map[], {};
      this.game, queued := game, map[];
      slots := new Slot[n](_ => Slot(false, true, [], map[], globals));
      new;
      NothingOwned(slots[..]);
    }

    ghost function Keys(): Heap
      reads this
    {
      Heap(live, bufs, tracked)
    }

    ghost function View(): State
      reads this, slots
    {
      State(Keys(), game, queued, slots[..])
    }

    /** The engine's ClearKey, reached directly. */
    method EngineClearKey(k: Address)
      requires k in live && Releasable(bufs, live[k])
      modifies this`live, this`bufs
      ensures Keys() == EngineClear(old(Keys()), k)
    {
      if live[k].mementos != 0 {
        bufs := bufs - {live[k].mementos};
      }
      live := live[k := ZERO_KEY];
    }

    /** Detour: the engine initialises the key, then the mod tracks it. */
    method Initialize(k: Address, key: Key, data: Bytes)
      requires Releasable(bufs, KeyAt(live, k)) && CanDo(Keys(), Init(k, key, data))
      modifies this`live, this`bufs, this`tracked
      ensures Keys() == Do(old(Keys()), Init(k, key, data)) && tracked == old(tracked) + {k}
    {
      if k in live {
        EngineClearKey(k);
      } else {
        live := live[k := ZERO_KEY];
      }
      live, bufs := live[k := key], bufs[key.mementos := data];
      tracked := tracked + {k};
    }

    /** Detour: the engine clears the key, then the mod forgets it. */
    method ClearKey(k: Address)
      requires k in live && Releasable(bufs, live[k])
      modifies this`live, this`bufs, this`tracked
      ensures Keys() == Do(old(Keys()), Drop(k)) && tracked == old(tracked) - {k}
    {
      EngineClearKey(k);
      tracked := tracked - {k};
    }

    method Perform(op: KeyOp)
      requires CanDo(Keys(), op) && Releasable(bufs, KeyAt(live, op.k))
      modifies this`live, this`bufs, this`tracked
      ensures Keys() == Do(old(Keys()), op)
    {
      match op {
        case Init(k, key, data) => Initialize(k, key, data);
        case Drop(k) => ClearKey(k);
        case Wipe(k) => EngineClearKey(k);
        case Write(k, next, data) =>
          var key := live[k];
          live, bufs := live[k := key.(nextMementoIndex := next)], bufs[key.mementos := data];
      }
    }

    /** The engine works on its keys: game code, or a record pass. */
    method Run(ops: seq<KeyOp>)
      requires Ok(View()) && CanDoAll(Keys(), ops)
      modifies this`live, this`bufs, this`tracked
      ensures View() == old(View()).(heap := DoAll(old(Keys()), ops)) && Ok(View())
    {
      ghost var st := View();
      for n := 0 to |ops|
        invariant View() == st.(heap := Keys()) && Ok(View())
        invariant CanDoAll(Keys(), ops[n..])
        invariant DoAll(st.heap, ops) == DoAll(Keys(), ops[n..])
      {
        assert ops[n..][0] == ops[n] && ops[n..][1..] == ops[n + 1..];
        DoKeepsOk(View(), ops[n]);
        Perform(ops[n]);
      }
      assert ops[|ops|..] == [];
    }

    /** Copy and zero every tracked key, in set order. */
    method TakeKeys() returns (keys: seq<Record>)
      requires HeapOk(Keys())
      modifies this`live
      ensures keys == Records(old(live), tracked)
      ensures live == ZeroAll(old(live), tracked)
    {
      ghost var live0 := live;
      keys := [];
      var rest := tracked;
      while rest != {}
        invariant rest <= tracked
        invariant forall x, y :: x in tracked - rest && y in rest ==> x < y
        invariant keys == Records(live0, tracked - rest)
        invariant live == ZeroAll(live0, tracked - rest)
        decreases |rest|
      {
        var k := Min(rest);
        TakeOne(live0, tracked - rest, k);
        assert tracked - (rest - {k}) == tracked - rest + {k};
        keys := keys + [(k, live[k])];
        live := live[k := ZERO_KEY];
        rest := rest - {k};
      }
      assert tracked - rest == tracked;
    }

    /** Put each record's key back into its position. */
    method PlaceKeys(rs: seq<Record>)
      modifies this`live
      ensures live == Install(old(live), rs)
    {
      ghost var live0 := live;
      for n := 0 to |rs|
        invariant live == Install(live0, rs[..n])
      {
        live := live[rs[n].0 := rs[n].1];
        assert rs[..n + 1][..n] == rs[..n];
      }
      assert rs[..|rs|] == rs;
    }

    method Save(i: nat, record: seq<KeyOp>)
      requires i < slots.Length && Ok(View()) && slots[i].keys == []
      requires CanDoAll(Keys(), record)
      modifies this`live, this`bufs, this`tracked, slots
      ensures View() == SaveSpec(old(View()).(heap := DoAll(old(Keys()), record)), i)
      ensures Ok(View())
    {
      ghost var st0 := View();
      slots[i] := slots[i].(used := true);
      MarkedOk(st0, i, slots[i]);
      assert View() == st0.(slots := st0.slots[i := slots[i]]);
      Run(record);
      ghost var st := View();
      var keys := TakeKeys();
      slots[i] := slots[i].(keys := keys, sounds := slots[i].sounds + game.sounds, globals := game.globals);
      SaveKeepsOk(st, i);
      assert View() == SaveSpec(st, i);
    }

    /** Zero the position of every record. */
    method ZeroKeys(rs: seq<Record>)
      modifies this`live
      ensures live == ZeroAt(old(live), rs)
    {
      ghost var live0 := live;
      for n := 0 to |rs|
        invariant live == ZeroAt(live0, rs[..n])
      {
        live := live[rs[n].0 := ZERO_KEY];
        assert rs[..n + 1][..n] == rs[..n];
      }
      assert rs[..|rs|] == rs;
    }

    method CopyIntoPlace(i: nat)
      requires i < slots.Length
      modifies this`live, this`game
      ensures live == Install(old(live), slots[i].keys)
      ensures game == Game(engine.restore(old(game).world, Installed(Keys())),
                           slots[i].globals, Merge(slots[i].sounds, old(game).sounds))
    {
      game := game.(globals := slots[i].globals, sounds := Merge(slots[i].sounds, game.sounds));
      PlaceKeys(slots[i].keys);
      game := game.(world := engine.restore(game.world, Installed(Heap(live, bufs, tracked))));
    }

    /** The stops queued on the abandoned timeline go with it. */
    method ForgetStops()
      modifies this`queued
      ensures queued == if engine.pureSounds then map m | m in old(queued) :: [] else old(queued)
    {
      if engine.pureSounds { queued := map m | m in queued :: []; }
    }

    /** Takes the live keys out of the way, installs the saved ones, lets the
        engine restore from them, and puts every key back. */
    method Load(i: nat)
      requires i < slots.Length && Ok(View())
      modifies this`live, this`game, this`queued
      ensures View() == LoadSpec(engine, old(View()), i)
      ensures Ok(View())
    {
      ghost var st := View();
      assert SlotOk(st.heap, st.slots[i]);
      ZeroedOwnNothing(st.heap);
      hide Image, Installed, Records, ZeroAll, Install, ZeroAt, Merge, SlotOk, Balanced, Distinct, Ok;
      ForgetStops();
      var tmp := TakeKeys();
      InstallGivesImage(live, bufs, tracked, slots[i].keys);
      CopyIntoPlace(i);
      ZeroKeys(slots[i].keys);
      PlaceKeys(tmp);
      PutBack(st.heap, slots[i].keys);
      LoadKeepsOk(engine, st, i);
    }

    /** Forget a slot's records and reset its plain data, clearing the live keys first
        while the slot still claims its own. */
    method Clear(i: nat)
      requires i < slots.Length && (slots[i].ownsKeys ==> Ok(View()))
      modifies this`live, this`bufs, this`tracked, slots
      ensures View() == ClearSpec(old(View()), i)
    {
      ghost var st := View();
      var keys := slots[i].keys;
      if slots[i].ownsKeys {
        WipesCanGo(st, i);
        Run(Wipes(keys));
      }
      var globals := slots[i].globals.(
        currentFlow := 0, previousFlow := 0, currentSubstate := 0, previousSubstate := 0,
        currentFlowFrame := ZERO_POINT, currentSubstateFrame := ZERO_POINT,
        previousFlowFrame := ZERO_POINT, previousSubstateFrame := ZERO_POINT,
        substateCallable := 0, everyFrameCallback := 0);
      slots[i] := Slot(false, true, [], map[], globals);
      assert slots[..] == st.slots[i := Cleared(st.slots[i])];
    }

    /** Install a saved key, let the engine release it, put the live key back. */
    method ReleaseSaved(k: Address, key: Key)
      requires k in live && Releasable(bufs, key)
      modifies this`live, this`bufs
      ensures live == old(live) && bufs == Release(old(bufs), key)
    {
      var kept := live[k];
      live := live[k := key];
      EngineClearKey(k);
      live := live[k := kept];
    }

    /** Each saved key is installed just long enough for the engine to release
        it, then the live key goes back. */
    method ReleaseKeys(i: nat)
      requires i < slots.Length && Ok(View())
      modifies this`live, this`bufs
      ensures live == old(live)
      ensures bufs == Without(old(bufs), Owned(slots[i].keys))
    {
      ghost var st := View();
      var keys := slots[i].keys;
      for n := 0 to |keys|
        invariant live == st.heap.live
        invariant bufs == Without(st.heap.bufs, Owned(keys[..n]))
      {
        ReleasableNext(st, i, n);
        assert SlotOk(st.heap, st.slots[i]);
        WithoutOneMore(st.heap.bufs, Owned(keys[..n]), keys[n].1);
        ReleaseSaved(keys[n].0, keys[n].1);
      }
      assert keys[..|keys|] == keys;
    }

    method Free(i: nat)
      requires i < slots.Length && Ok(View())
      modifies this`live, this`bufs, this`tracked, slots
      ensures View() == FreeSpec(old(View()), i)
      ensures Ok(View())
    {
      ghost var st := View();
      assert SlotOk(st.heap, st.slots[i]);
      if slots[i].ownsKeys {
        ReleaseKeys(i);
      }
      slots[i] := slots[i].(ownsKeys := false);
      Clear(i);
      assert View().slots == st.slots[i := Cleared(st.slots[i])];
      FreeKeepsOk(st, i);
    }

    /** Drop a slot's records without touching the engine. */
    method Reclaim(i: nat)
      requires i < slots.Length
      modifies this`live, this`bufs, this`tracked, slots
      ensures View() == ReclaimSpec(old(View()), i)
    {
      ghost var st := View();
      if !slots[i].used && slots[i].keys == [] {
        return;
      }
      slots[i] := slots[i].(ownsKeys := false);
      Clear(i);
      assert View().slots == st.slots[i := Cleared(st.slots[i])];
    }

    /** The sweep when a battle closes: release the used slots, then reclaim. */
    method CloseBattle()
      requires Ok(View())
      modifies this`live, this`bufs, this`tracked, slots
      ensures Ok(View()) && Keys().live == old(live) && Keys().tracked == old(tracked) && game == old(game)
      ensures forall i :: 0 <= i < slots.Length ==> !slots[i].used && slots[i].keys == []
      ensures multiset(bufs.Keys) == OwnedLive(live, tracked)
    {
      for i := 0 to slots.Length
        invariant Ok(View()) && live == old(live) && tracked == old(tracked) && game == old(game)
        invariant forall j :: 0 <= j < i ==> !slots[j].used
      {
        if slots[i].used {
          Free(i);
        }
      }
      for i := 0 to slots.Length
        invariant Ok(View()) && live == old(live) && tracked == old(tracked) && game == old(game)
        invariant forall j :: 0 <= j < slots.Length ==> !slots[j].used
      {
        assert SlotOk(Keys(), View().slots[i]);
        Reclaim(i);
      }
      assert forall i :: 0 <= i < slots.Length ==> SlotOk(Keys(), View().slots[i]);
      NothingOwned(slots[..]);
      assert OwnedLive(live, tracked) + multiset{} == OwnedLive(live, tracked);
    }

    // GGPO's callbacks. `present` tells whether there is a battle system: while a
    // match is being torn down there is none, and nothing is touched.

    /** Forward simulation: the engine works on its keys and its state moves on. */
    method AdvanceCallback(present: bool, input: Input, ops: seq<KeyOp>)
      requires Ok(View()) && (present ==> CanDoAll(Keys(), ops))
      modifies this`live, this`bufs, this`tracked, this`game
      ensures View()
        == if present then old(View()).(heap := DoAll(old(Keys()), ops), game := engine.step(old(game), input))
                        else old(View())
      ensures Ok(View())
    {
      if !present {
        return;
      }
      Run(ops);
      game := engine.step(game, input);
    }

    /** `slots.Length` stands for the null buffer GGPO holds for a failed save. */
    method LoadCallback(present: bool, buffer: nat)
      requires Ok(View()) && buffer <= slots.Length
      modifies this`live, this`game, this`queued
      ensures View() == if present && buffer < slots.Length then LoadSpec(engine, old(View()), buffer) else old(View())
      ensures Ok(View())
    {
      if buffer == slots.Length || !present {
        return;
      }
      Load(buffer);
    }

    method FreeCallback(buffer: nat)
      requires Ok(View()) && buffer <= slots.Length
      modifies this`live, this`bufs, this`tracked, slots
      ensures View() == if buffer < slots.Length then FreeSpec(old(View()), buffer) else old(View())
      ensures Ok(View())
    {
      if buffer == slots.Length {
        return;
      }
      Free(buffer);
    }

    /** GGPO wants the state kept: the first slot not in use, or none. */
    method SaveCallback(present: bool, record: seq<KeyOp>) returns (slot: nat)
      requires Ok(View()) && (present ==> CanDoAll(Keys(), record))
      modifies this`live, this`bufs, this`tracked, slots
      ensures slot == (if present then FirstUnused(old(slots[..])) else slots.Length) && Ok(View())
      ensures View()
        == if slot < slots.Length then SaveSpec(old(View()).(heap := DoAll(old(Keys()), record)), slot)
           else old(View())
    {
      if !present {
        return slots.Length;
      }
      ghost var st := View();
      for i := 0 to slots.Length
        invariant View() == st
        invariant forall j :: 0 <= j < i ==> slots[j].used
      {
        if slots[i].used {
          continue;
        }
        FirstUnusedIs(slots[..], i);
        assert SlotOk(Keys(), View().slots[i]);
        Save(i, record);
        return i;
      }
      FirstUnusedIs(slots[..], slots.Length);
      return slots.Length;
    }
  }

  /** The places of a slot's records are key objects, and stay so. */
  lemma {:induction false} WipesLive(h: Heap, rs: seq<Record>)
    requires forall i :: 0 <= i < |rs| ==> rs[i].0 in h.live
    ensures CanDoAll(h, Wipes(rs))
    decreases |rs|
  {
    if rs != [] {
      assert Wipes(rs)[1..] == Wipes(rs[1..]);
      WipesLive(Do(h, Wipe(rs[0].0)), rs[1..]);
    }
  }

  /** Clearing a slot leaves it as good as new but for the bytes of the game manager. If it
      claims its keys the live ones at those places come out zero with exactly their buffers
      released; else no key changes. */
  lemma ClearReleases(st: State, i: nat, k: Address, b: Address)
    requires i < |st.slots|
    ensures var st', slot := ClearSpec(st, i), st.slots[i];
      && st'.game == st.game && st'.queued == st.queued && st'.heap.tracked == st.heap.tracked
      && st'.slots == st.slots[i := st'.slots[i]]
      && st'.slots[i] == Slot(false, true, [], map[], Globals(0, 0, 0, 0, FixedPoint(0, 0), FixedPoint(0, 0),
           FixedPoint(0, 0), FixedPoint(0, 0), 0, 0, slot.globals.gameManager))
      && KeyAt(st'.heap.live, k) == (if slot.ownsKeys && exists n :: 0 <= n < |slot.keys| && slot.keys[n].0 == k
                                     then ZERO_KEY else KeyAt(st.heap.live, k))
      && (b in st'.heap.bufs ==> b in st.heap.bufs && st'.heap.bufs[b] == st.heap.bufs[b])
      && (b in st.heap.bufs ==>
            (b !in st'.heap.bufs <==>
               slot.ownsKeys && exists n ::
                 0 <= n < |slot.keys| && KeyAt(st.heap.live, slot.keys[n].0).mementos == b != 0))
  {
    WipesRelease(st.heap, st.slots[i].keys, k, b);
    hide DoAll, Wipes;
  }

  lemma {:induction false} WipesRelease(h: Heap, rs: seq<Record>, k: Address, b: Address)
    ensures var h' := DoAll(h, Wipes(rs));
      && h'.tracked == h.tracked
      && KeyAt(h'.live, k) == (if exists i :: 0 <= i < |rs| && rs[i].0 == k then ZERO_KEY else KeyAt(h.live, k))
      && (b in h'.bufs ==> b in h.bufs && h'.bufs[b] == h.bufs[b])
      && (b in h.bufs ==>
            (b !in h'.bufs <==> exists i :: 0 <= i < |rs| && KeyAt(h.live, rs[i].0).mementos == b != 0))
    decreases |rs|
  {
    if rs != [] {
      assert Wipes(rs)[1..] == Wipes(rs[1..]);
      WipesRelease(Do(h, Wipe(rs[0].0)), rs[1..], k, b);
      assert rs == [rs[0]] + rs[1..];
    }
  }

  lemma WipesCanGo(st: State, i: nat)
    requires Ok(st) && i < |st.slots|
    ensures CanDoAll(st.heap, Wipes(st.slots[i].keys))
  {
    assert SlotOk(st.heap, st.slots[i]);
    WipesLive(st.heap, st.slots[i].keys);
  }

  lemma TakeOne(live: map<Address, Key>, done: set<Address>, k: Address)
    requires k !in done && (forall x :: x in done ==> x < k) && k in live
    ensures Records(live, done + {k}) == Records(live, done) + [(k, live[k])]
    ensures ZeroAll(live, done + {k}) == ZeroAll(live, done)[k := ZERO_KEY]
  {
    RecordsTop(live, done + {k}, k);
    assert done + {k} - {k} == done;
  }

  lemma {:induction false} FirstUnusedIs(slots: seq<Slot>, i: nat)
    requires i <= |slots| && (forall j :: 0 <= j < i ==> slots[j].used)
    requires i < |slots| ==> !slots[i].used
    ensures FirstUnused(slots) == i
  {
  }

  lemma ReleasableNext(st: State, i: nat, n: nat)
    requires Balanced(st) && i < |st.slots| && n < |st.slots[i].keys|
    ensures var keys := st.slots[i].keys; keys[n].1.Owns() ==>
      keys[n].1.mementos in st.heap.bufs && keys[n].1.mementos !in Owned(keys[..n])
    ensures var keys := st.slots[i].keys; Owned(keys[..n + 1]) == Owned(keys[..n]) + One(keys[n].1)
  {
    var keys := st.slots[i].keys;
    assert keys[..n + 1][..n] == keys[..n];
    if keys[n].1.Owns() {
      var b := keys[n].1.mementos;
      OwnedMember(keys, n);
      OwnedIsAllocated(st, i, b);
      OwnedPrefix(keys, n + 1);
      assert Owned(keys[..n + 1])[b] == Owned(keys[..n])[b] + 1;
    }
  }

  lemma {:induction false} NothingOwned(slots: seq<Slot>)
    requires forall i :: 0 <= i < |slots| ==> slots[i].keys == []
    ensures OwnedBySlots(slots) == multiset{}
  {
    if slots != [] { NothingOwned(slots[..|slots| - 1]); }
  }
}
