/** The shadows' mementos: the actor's memento is appended to the afterimage's own
    in the same engine slot, with a tail that says so. */
module Afterimage {

  type Byte = b: int | 0 <= b < 256

  type Memory = seq<Byte>

  /** Sizes and addresses are 32 bits wide. */
  const SPACE := 0x1_0000_0000

  function Word(n: int): nat { n % SPACE }

  const STATE_OFFSET := 16
  const STATE_BYTES := 0x6870
  const FIXED_BYTES := STATE_OFFSET + STATE_BYTES + 144
  const ACTOR_FIXED_BYTES := 576
  const ACTOR_BOX_BYTES := 272
  const ACTOR_LISTS := 5
  const ACTOR_COUNTS_OFFSET := 4
  const MAX_MEMENTOS := 64
  const TAIL_MAGIC := 0x57444853
  const AFTERIMAGE_ONLY := 1
  const WITH_ACTOR := 2
  const TAIL_BYTES := 16

  function AlignUp16(n: nat): nat { Word(n + 15) / 16 * 16 }

  // ---------------------------------------------------------------- memory

  function Put(m: Memory, at: nat, data: Memory): (r: Memory)
    requires at + |data| <= |m|
    ensures |r| == |m|
    ensures forall i :: 0 <= i < |m| ==> r[i] == if at <= i < at + |data| then data[i - at] else m[i]
  {
    m[..at] + data + m[at + |data|..]
  }

  /** Bytes from memory; addresses wrap like the program's own. */
  function Get(m: Memory, at: nat, n: nat): (r: Memory)
    requires |m| == SPACE
    ensures |r| == n
  {
    if at + n <= SPACE then m[at..at + n] else seq(n, i requires 0 <= i < n => m[Word(at + i)])
  }

  lemma GetAt(m: Memory, at: nat, n: nat, i: nat)
    requires |m| == SPACE && i < n
    ensures Get(m, at, n)[i] == m[Word(at + i)]
  {}

  lemma GetPart(m: Memory, at: nat, n: nat, k: nat, j: nat)
    requires |m| == SPACE && k + j <= n
    ensures Get(m, at, n)[k..k + j] == Get(m, at + k, j)
  {
    var whole, part := Get(m, at, n), Get(m, at + k, j);
    hide Get, Word;
    forall i | 0 <= i < j ensures part[i] == whole[k + i] {
      GetAt(m, at, n, k + i);
      GetAt(m, at + k, j, i);
    }
  }

  function LowByte(v: int): Byte { v % 256 }

  function Encode(v: nat): (r: Memory)
    ensures |r| == 4
  {
    [LowByte(v), LowByte(v / 256), LowByte(v / 0x1_0000), LowByte(v / 0x100_0000)]
  }

  function Decode(d: Memory): (v: nat)
    requires |d| == 4
    ensures v < SPACE
  {
    d[0] as int + 256 * (d[1] as int + 256 * (d[2] as int + 256 * (d[3] as int)))
  }

  lemma WordRoundTrip(v: nat)
    requires v < SPACE
    ensures Decode(Encode(v)) == v
  {
    assert v / 0x1_0000 == v / 256 / 256 && v / 0x100_0000 == v / 256 / 256 / 256;
  }

  /** A 32-bit integer read as signed. */
  function Signed(v: nat): int { if v >= 0x8000_0000 then v - SPACE else v }

  // ----------------------------------------------------------------- slots

  /** The engine's key: where its slots begin, where its table of slots begins, and
      the slot addresses the table lists. */
  datatype Key = Key(mementos: nat, metadata: nat, numMementos: int, entries: seq<nat>)

  /** The table is there to be read. */
  predicate Readable(key: Key) { 0 < key.numMementos <= MAX_MEMENTOS ==> |key.entries| >= key.numMementos }

  datatype Slot = Rejected | Slot(m: nat, size: nat)

  /** The first table entry for this address, or `n`. */
  function Listed(entries: seq<nat>, memento: nat, from: nat, n: nat): (i: nat)
    requires from <= n <= |entries|
    ensures from <= i <= n && (i < n ==> entries[i] == memento)
    decreases n - from
  {
    if from == n || entries[from] == memento then from else Listed(entries, memento, from + 1, n)
  }

  function FindSlot(key: Key, memento: nat): Slot
    requires Readable(key)
  {
    var n := key.numMementos;
    if memento == 0 || key.mementos == 0 || key.metadata == 0 || n <= 0 || n > MAX_MEMENTOS then Rejected
    else
      var total := Word(key.metadata - key.mementos);
      var size := total / n;
      if total == 0 || total % n != 0 || size < FIXED_BYTES + TAIL_BYTES then Rejected
      else
        var i := Listed(key.entries, memento, 0, n);
        if i == n || memento != Word(key.mementos + i * size) then Rejected else Slot(memento, size)
  }

  /** The slots lie before the table, in one allocation. */
  predicate Allocated(key: Key) { key.mementos <= key.metadata < SPACE }

  predicate SlotSized(key: Key, memento: nat)
    requires Readable(key)
  {
    FindSlot(key, memento).Slot? ==> FindSlot(key, memento).size >= FIXED_BYTES + TAIL_BYTES
  }

  lemma FoundSize(key: Key, memento: nat)
    requires Readable(key)
    ensures SlotSized(key, memento)
  {}

  /** A found slot is one of the key's, whole, inside its buffer and apart from the others. */
  lemma FoundSlotIsWhole(key: Key, memento: nat) returns (i: nat)
    requires Readable(key) && Allocated(key) && FindSlot(key, memento).Slot?
    ensures var s := FindSlot(key, memento); var n := key.numMementos;
      && i < n && key.entries[i] == s.m == memento == key.mementos + i * s.size
      && n * s.size == key.metadata - key.mementos
      && FIXED_BYTES + TAIL_BYTES <= s.size && key.mementos <= s.m && s.m + s.size <= key.metadata
      && forall j :: 0 <= j < n && j != i ==>
           key.mementos + j * s.size + s.size <= s.m || s.m + s.size <= key.mementos + j * s.size
  {
    var s, n := FindSlot(key, memento), key.numMementos;
    i := SlotAt(key, memento);
    Inside(i, n, s.size);
    hide FindSlot, Listed, Readable, Allocated, Word;
    forall j | 0 <= j < n && j != i
      ensures key.mementos + j * s.size + s.size <= s.m || s.m + s.size <= key.mementos + j * s.size
    {
      if j < i { Inside(j, i, s.size); } else { Inside(i, j, s.size); }
    }
  }

  /** Where in the table a found slot is listed. */
  lemma SlotAt(key: Key, memento: nat) returns (i: nat)
    requires Readable(key) && Allocated(key) && FindSlot(key, memento).Slot?
    ensures var s := FindSlot(key, memento); var n := key.numMementos;
      && i < n && key.entries[i] == s.m == memento == key.mementos + i * s.size
      && n * s.size == key.metadata - key.mementos && FIXED_BYTES + TAIL_BYTES <= s.size
  {
    var s, n := FindSlot(key, memento), key.numMementos;
    i := Listed(key.entries, memento, 0, n);
    var total := key.metadata - key.mementos;
    assert n * s.size == total;
    Inside(i, n, s.size);
  }

  /** The key as the engine lays it out: its slots one after another in front of the table,
      which lists each where it is. */
  ghost predicate LaidOut(key: Key, size: nat) {
    && 0 < key.mementos && 0 < key.numMementos <= 64 && Readable(key) && Allocated(key)
    && key.metadata == key.mementos + key.numMementos * size && size >= FIXED_BYTES + TAIL_BYTES
    && forall i :: 0 <= i < key.numMementos ==> key.entries[i] == key.mementos + i * size
  }

  /** In such a key every listed slot is found at its size, and nothing else is. */
  lemma SlotIsFoundIff(key: Key, size: nat, memento: nat)
    requires LaidOut(key, size)
    ensures FindSlot(key, memento) ==
      if exists i :: 0 <= i < key.numMementos && memento == key.mementos + i * size then Slot(memento, size)
      else Rejected
  {
    var n := key.numMementos;
    SearchIs(key, size, memento);
    if i :| 0 <= i < n && memento == key.mementos + i * size {
      var j := Listed(key.entries, memento, 0, n);
      assert key.entries[i] == memento;
      ListedIsLeast(key.entries, memento, 0, n, i);
      SameSlot(i, j, size);
    }
    hide FindSlot, Listed;
  }

  /** What is left of the search in such a key. */
  lemma SearchIs(key: Key, size: nat, memento: nat)
    requires LaidOut(key, size)
    ensures var i := Listed(key.entries, memento, 0, key.numMementos);
      && FindSlot(key, memento) == (if memento == 0 || i == key.numMementos then Rejected else Slot(memento, size))
      && (memento == 0 ==> forall k :: 0 <= k < key.numMementos ==> memento != key.mementos + k * size)
      && (i < key.numMementos ==> memento == key.mementos + i * size)
  {
    var n, total := key.numMementos, key.metadata - key.mementos;
    var i := Listed(key.entries, memento, 0, n);
    Inside(0, n, size);
    Divides(n, size);
    assert total == n * size && Word(total) == total && total / n == size && total % n == 0;
    forall k | 0 <= k < n ensures 0 <= k * size { Inside(k, n, size); }
    if i < n {
      Inside(i, n, size);
      assert key.mementos + i * size < SPACE;
    }
    hide Listed, Readable;
  }

  lemma Divides(n: nat, size: nat)
    requires n > 0
    ensures n * size / n == size && n * size % n == 0
  {
    var q, r := n * size / n, n * size % n;
    assert n * q + r == n * size && n * (size - q) == r;
    if q < size { Inside(0, size - q, n); }
  }

  lemma {:induction false} ListedIsLeast(entries: seq<nat>, memento: nat, from: nat, n: nat, i: nat)
    requires from <= i < n <= |entries| && entries[i] == memento
    ensures Listed(entries, memento, from, n) <= i
    decreases n - from
  {
    if entries[from] != memento { ListedIsLeast(entries, memento, from + 1, n, i); }
  }

  lemma SameSlot(i: nat, j: nat, size: nat)
    requires i * size == j * size && size > 0
    ensures i == j
  {
    if i < j { Inside(i, j, size); }
    if j < i { Inside(j, i, size); }
  }

  lemma Inside(i: nat, n: nat, size: nat)
    requires i < n
    ensures 0 <= i * size && i * size + size <= n * size
  {
    assert n * size == i * size + size + (n - i - 1) * size;
  }

  // ------------------------------------------------------ record and restore

  /** A shadow: the bytes its own engine record writes, the part of it that restoring
      copies back, and what its actor's record leaves in the place made for it, complete
      or not. */
  datatype Shadow = Shadow(own: Memory, state: Memory, actor: Memory)

  /** The engine's contracts: the state is part of the afterimage's own memento, and
      mementos are of real sizes. */
  predicate EngineOk(x: Shadow) {
    && |x.state| == STATE_BYTES && FIXED_BYTES <= |x.own| < 0x4000_0000 && |x.actor| < 0x4000_0000
    && x.own[STATE_OFFSET..STATE_OFFSET + STATE_BYTES] == x.state
  }

  function MementoSize(x: Shadow): nat { Word(AlignUp16(|x.own|) + |x.actor| + TAIL_BYTES) }

  /** The slot has room for the actor's memento, exactly. */
  predicate Sized(slot: Slot, x: Shadow) {
    && slot.Slot? && |x.own| >= FIXED_BYTES && |x.actor| >= ACTOR_FIXED_BYTES
    && Word(AlignUp16(|x.own|) + |x.actor| + TAIL_BYTES) == slot.size
  }

  function Tail(kind: nat, ownSize: nat, actorSize: nat): (t: Memory)
    ensures |t| == TAIL_BYTES
  {
    Encode(TAIL_MAGIC) + Encode(kind) + Encode(ownSize) + Encode(actorSize)
  }

  /** The slot and the afterimage's own memento lie in memory, the latter in its slot. */
  predicate Roomy(m: Memory, slot: Slot, memento: nat, x: Shadow) {
    && |m| == SPACE && memento + |x.own| <= SPACE
    && (slot.Slot? ==> |x.own| <= slot.size && FIXED_BYTES + TAIL_BYTES <= slot.size && slot.m + slot.size <= SPACE)
  }

  lemma SizedFits(slot: Slot, x: Shadow)
    requires Sized(slot, x) && EngineOk(x)
    ensures |x.own| <= AlignUp16(|x.own|) && AlignUp16(|x.own|) + |x.actor| + TAIL_BYTES == slot.size
  {}

  /** The actor's memento behind the afterimage's own, if the slot is made for it. */
  function Placed(m: Memory, slot: Slot, x: Shadow): (r: Memory)
    requires EngineOk(x) && |m| == SPACE && (slot.Slot? ==> slot.m + slot.size <= SPACE)
    ensures |r| == |m|
  {
    if !Sized(slot, x) then m
    else
      SizedFits(slot, x);
      Put(m, slot.m + AlignUp16(|x.own|), x.actor)
  }

  /** `taken` says whether the actor's own record succeeds. */
  function Recorded(m: Memory, slot: Slot, memento: nat, x: Shadow, taken: bool): (r: Memory)
    requires EngineOk(x) && Roomy(m, slot, memento, x)
    ensures |r| == |m|
  {
    var placed := Placed(Put(m, memento, x.own), slot, x);
    if slot.Rejected? then placed
    else
      Put(placed, slot.m + slot.size - TAIL_BYTES,
          Tail(if Sized(slot, x) && taken then WITH_ACTOR else AFTERIMAGE_ONLY, |x.own|, |x.actor|))
  }

  // The box counts at the head of an actor payload.

  const HEAD_BYTES := ACTOR_COUNTS_OFFSET + 4 * ACTOR_LISTS

  function Count(head: Memory, i: nat): int
    requires |head| >= HEAD_BYTES && i < ACTOR_LISTS
  {
    Signed(Decode(head[ACTOR_COUNTS_OFFSET + 4 * i..ACTOR_COUNTS_OFFSET + 4 * i + 4]))
  }

  predicate NoNegative(head: Memory, n: nat)
    requires |head| >= HEAD_BYTES && n <= ACTOR_LISTS
  {
    forall i :: 0 <= i < n ==> Count(head, i) >= 0
  }

  function Boxes(head: Memory, n: nat): nat
    requires |head| >= HEAD_BYTES && n <= ACTOR_LISTS
  {
    if n == 0 then 0 else Word(Boxes(head, n - 1) + Count(head, n - 1))
  }

  lemma NextCount(head: Memory, i: nat)
    requires |head| >= HEAD_BYTES && i < ACTOR_LISTS
    ensures Boxes(head, 0) == 0 && NoNegative(head, 0)
    ensures Boxes(head, i + 1) == Word(Boxes(head, i) + Count(head, i))
    ensures NoNegative(head, i + 1) <==> NoNegative(head, i) && Count(head, i) >= 0
  {
    hide Count, Word;
  }

  lemma StillNegative(head: Memory, i: nat)
    requires |head| >= HEAD_BYTES && i <= ACTOR_LISTS && !NoNegative(head, i)
    ensures !NoNegative(head, ACTOR_LISTS)
  {
    hide Count;
  }

  /** The counts account for a payload of this size. */
  predicate CountsMatch(head: Memory, size: nat)
    requires |head| >= HEAD_BYTES
  {
    NoNegative(head, ACTOR_LISTS) && Word(ACTOR_FIXED_BYTES + ACTOR_BOX_BYTES * Boxes(head, ACTOR_LISTS)) == size
  }

  function TailWord(m: Memory, slot: Slot, k: nat): nat
    requires |m| == SPACE && slot.Slot? && TAIL_BYTES <= slot.size
  {
    Decode(Get(m, slot.m + slot.size - TAIL_BYTES + 4 * k, 4))
  }

  function PayloadAt(m: Memory, slot: Slot): nat
    requires |m| == SPACE && slot.Slot? && TAIL_BYTES <= slot.size
  {
    slot.m + AlignUp16(TailWord(m, slot, 2))
  }

  /** The tail says that an actor payload of a consistent layout is there. */
  predicate TailAgrees(m: Memory, slot: Slot)
    requires |m| == SPACE && slot.Slot? && TAIL_BYTES <= slot.size
  {
    && TailWord(m, slot, 0) == TAIL_MAGIC && TailWord(m, slot, 1) == WITH_ACTOR
    && TailWord(m, slot, 2) >= FIXED_BYTES
    && Word(AlignUp16(TailWord(m, slot, 2)) + TailWord(m, slot, 3) + TAIL_BYTES) == slot.size
    && TailWord(m, slot, 3) >= ACTOR_FIXED_BYTES
    && CountsMatch(Get(m, PayloadAt(m, slot), HEAD_BYTES), TailWord(m, slot, 3))
  }

  /** The actor after a restore; `taken` says whether the engine's own succeeds, `torn`
      what it leaves if not. */
  function ActorAfter(m: Memory, slot: Slot, actor: Memory, taken: bool, torn: Memory): Memory
    requires |m| == SPACE && (slot.Slot? ==> TAIL_BYTES <= slot.size)
  {
    if slot.Slot? && TailAgrees(m, slot) then
      if taken then Get(m, PayloadAt(m, slot), TailWord(m, slot, 3)) else torn
    else actor
  }

  /** The state after a restore; the pose ring behind it is left alone. */
  function StateAfter(m: Memory, memento: nat): Memory
    requires |m| == SPACE
  {
    Get(m, memento + STATE_OFFSET, STATE_BYTES)
  }

  // -------------------------------------------------------------- the object

  /** Copies bytes into memory. */
  method Store(mem: array<Byte>, at: nat, data: Memory)
    requires at + |data| <= mem.Length
    modifies mem
    ensures mem[..] == Put(old(mem[..]), at, data)
  {
    var i := 0;
    while i < |data|
      invariant 0 <= i <= |data|
      invariant forall k :: 0 <= k < mem.Length ==> mem[k] == if at <= k < at + i then data[k - at] else old(mem[k])
    {
      mem[at + i] := data[i];
      i := i + 1;
    }
  }

  class Afterimage {
    const mem: array<Byte>
    const key: Key
    var own: Memory
    var state: Memory
    var actor: Memory

    ghost predicate Valid()
      reads this
    {
      mem.Length == SPACE && Readable(key)
    }

    constructor (mem: array<Byte>, key: Key, own: Memory, state: Memory, actor: Memory)
      requires mem.Length == SPACE && Readable(key)
      ensures Valid() && this.mem == mem && this.key == key && this.own == own
      ensures this.state == state && this.actor == actor
    {
      this.mem, this.key, this.own, this.state, this.actor := mem, key, own, state, actor;
    }

    /** The engine slot of this memento, checked against the key. */
    method Locate(memento: nat) returns (slot: Slot)
      requires Valid()
      ensures slot == FindSlot(key, memento)
    {
      if memento == 0 || key.mementos == 0 || key.metadata == 0 { return Rejected; }
      var n := key.numMementos;
      if n <= 0 || n > MAX_MEMENTOS { return Rejected; }
      var total := Word(key.metadata - key.mementos);
      if total == 0 || total % n != 0 { return Rejected; }
      var size := total / n;
      if size < FIXED_BYTES + TAIL_BYTES { return Rejected; }
      var i := 0;
      while i < n
        invariant 0 <= i <= n
        invariant Listed(key.entries, memento, 0, n) == Listed(key.entries, memento, i, n)
      {
        if key.entries[i] != memento {
          i := i + 1;
          continue;
        }
        if memento != Word(key.mementos + i * size) { return Rejected; }
        return Slot(memento, size);
      }
      return Rejected;
    }

    method GetMementoSize() returns (size: nat)
      ensures size == MementoSize(Shadow(own, state, actor))
    {
      size := Word(AlignUp16(|own|) + |actor| + TAIL_BYTES);
    }

    method RecordToMemento(memento: nat, taken: bool)
      requires Valid() && EngineOk(Shadow(own, state, actor))
      requires Roomy(mem[..], FindSlot(key, memento), memento, Shadow(own, state, actor))
      modifies mem
      ensures mem[..] == Recorded(old(mem[..]), FindSlot(key, memento), memento, Shadow(own, state, actor), taken)
    {
      hide Put, Tail, FindSlot, Sized, Placed, Readable, EngineOk, Word, AlignUp16;
      Store(mem, memento, own);
      var slot := Locate(memento);
      var whole := PlaceActor(slot);
      if slot.Slot? { WriteTail(slot, if whole && taken then WITH_ACTOR else AFTERIMAGE_ONLY); }
    }

    method WriteTail(slot: Slot, kind: nat)
      requires Valid() && slot.Slot? && TAIL_BYTES <= slot.size && slot.m + slot.size <= SPACE
      modifies mem
      ensures mem[..] == Put(old(mem[..]), slot.m + slot.size - TAIL_BYTES, Tail(kind, |own|, |actor|))
    {
      hide Put, Tail;
      Store(mem, slot.m + slot.size - TAIL_BYTES, Tail(kind, |own|, |actor|));
    }

    method PlaceActor(slot: Slot) returns (placed: bool)
      requires Valid() && EngineOk(Shadow(own, state, actor)) && (slot.Slot? ==> slot.m + slot.size <= SPACE)
      modifies mem
      ensures placed == Sized(slot, Shadow(own, state, actor))
      ensures mem[..] == Placed(old(mem[..]), slot, Shadow(own, state, actor))
    {
      hide Put;
      var actorOffset := AlignUp16(|own|);
      placed := slot.Slot? && |own| >= FIXED_BYTES && |actor| >= ACTOR_FIXED_BYTES
        && Word(actorOffset + |actor| + TAIL_BYTES) == slot.size;
      if placed {
        SizedFits(slot, Shadow(own, state, actor));
        Store(mem, slot.m + actorOffset, actor);
      }
    }

    method RestoreFromMemento(memento: nat, taken: bool, torn: Memory) returns (result: int)
      requires Valid()
      modifies this`state, this`actor
      ensures memento == 0 ==> result == 0 && state == old(state) && actor == old(actor)
      ensures memento != 0 ==> result == 1 && state == StateAfter(mem[..], memento)
      ensures SlotSized(key, memento)
      ensures memento != 0 ==> actor == ActorAfter(mem[..], FindSlot(key, memento), old(actor), taken, torn)
    {
      FoundSize(key, memento);
      if memento == 0 { return 0; }
      hide FindSlot, TailAgrees, PayloadAt, TailWord, Get, Readable;
      var slot := Locate(memento);
      if slot.Slot? {
        var agrees, payload, size := ReadTail(slot);
        if agrees { actor := if taken then Get(mem[..], payload, size) else torn; }
      }
      state := Get(mem[..], memento + STATE_OFFSET, STATE_BYTES);
      return 1;
    }

    /** Whether the tail vouches for an actor payload, and where that is. */
    method ReadTail(slot: Slot) returns (agrees: bool, payload: nat, actorSize: nat)
      requires Valid() && slot.Slot? && TAIL_BYTES <= slot.size
      ensures agrees == TailAgrees(mem[..], slot)
      ensures payload == PayloadAt(mem[..], slot) && actorSize == TailWord(mem[..], slot, 3)
    {
      hide Get, Decode, AlignUp16, CountsMatch;
      var at := slot.m + slot.size - TAIL_BYTES;
      var magic := Load(at);
      var kind := Load(at + 4);
      var ownSize := Load(at + 8);
      actorSize := Load(at + 12);
      payload := slot.m + AlignUp16(ownSize);
      agrees := magic == TAIL_MAGIC && kind == WITH_ACTOR && ownSize >= FIXED_BYTES
        && Word(AlignUp16(ownSize) + actorSize + TAIL_BYTES) == slot.size && actorSize >= ACTOR_FIXED_BYTES;
      if agrees { agrees := CheckCounts(payload, actorSize); }
    }

    method CountAt(payload: nat, i: nat) returns (count: int)
      requires Valid() && i < ACTOR_LISTS
      ensures count == Count(Get(mem[..], payload, HEAD_BYTES), i)
    {
      hide Get, Decode;
      var raw := Load(payload + ACTOR_COUNTS_OFFSET + 4 * i);
      GetPart(mem[..], payload, HEAD_BYTES, ACTOR_COUNTS_OFFSET + 4 * i, 4);
      return Signed(raw);
    }

    method CheckCounts(payload: nat, actorSize: nat) returns (matching: bool)
      requires Valid()
      ensures matching == CountsMatch(Get(mem[..], payload, HEAD_BYTES), actorSize)
    {
      ghost var head := Get(mem[..], payload, HEAD_BYTES);
      hide Get, Decode, Count, Word, Boxes, NoNegative;
      NextCount(head, 0);
      var boxes, i, negative := 0, 0, false;
      while i < ACTOR_LISTS && !negative
        invariant 0 <= i <= ACTOR_LISTS
        invariant negative <==> !NoNegative(head, i)
        invariant boxes == Boxes(head, i)
      {
        var count := CountAt(payload, i);
        NextCount(head, i);
        if count < 0 { negative := true; }
        boxes := Word(boxes + count);
        i := i + 1;
      }
      if negative { StillNegative(head, i); }
      return !negative && Word(ACTOR_FIXED_BYTES + ACTOR_BOX_BYTES * boxes) == actorSize;
    }

    method Load(at: nat) returns (v: nat)
      requires Valid()
      ensures v == Decode(Get(mem[..], at, 4))
    {
      v := Decode([mem[Word(at)], mem[Word(at + 1)], mem[Word(at + 2)], mem[Word(at + 3)]]);
    }
  }

  // ---------------------------------------------------------------- results

  /** A record leaves alone everything outside its slot: the other mementos of the
      key, the table, the rest of memory. */
  lemma RecordKeepsToItsSlot(m: Memory, key: Key, memento: nat, x: Shadow, taken: bool, i: nat)
    requires Readable(key) && FindSlot(key, memento).Slot? && EngineOk(x)
    requires Roomy(m, FindSlot(key, memento), memento, x)
    requires i < SPACE && !(memento <= i < memento + FindSlot(key, memento).size)
    ensures Recorded(m, FindSlot(key, memento), memento, x, taken)[i] == m[i]
  {
    var slot := FindSlot(key, memento);
    assert slot.m == memento;
    if Sized(slot, x) { SizedFits(slot, x); }
    hide FindSlot, Word, AlignUp16, Readable;
  }

  /** The tail and the actor's part never touch the bytes a restore copies back. */
  lemma RecordKeepsState(m: Memory, key: Key, memento: nat, x: Shadow, taken: bool)
    requires Readable(key) && EngineOk(x) && Roomy(m, FindSlot(key, memento), memento, x)
    ensures Get(Recorded(m, FindSlot(key, memento), memento, x, taken), memento + STATE_OFFSET, STATE_BYTES) == x.state
  {
    var slot := FindSlot(key, memento);
    assert slot.Slot? ==> slot.m == memento && slot.size >= FIXED_BYTES + TAIL_BYTES;
    if Sized(slot, x) { SizedFits(slot, x); }
    var r := Recorded(m, slot, memento, x, taken);
    hide FindSlot, Word, AlignUp16, Readable, Tail, Sized;
    forall k | 0 <= k < STATE_BYTES ensures r[memento + STATE_OFFSET + k] == x.state[k] {
      assert x.state[k] == x.own[STATE_OFFSET + k];
      assert Put(m, memento, x.own)[memento + STATE_OFFSET + k] == x.own[STATE_OFFSET + k];
    }
  }

  /** The tail reads back as written. */
  lemma TailReadsBack(m: Memory, slot: Slot, kind: nat, ownSize: nat, actorSize: nat)
    requires |m| == SPACE && slot.Slot? && TAIL_BYTES <= slot.size && slot.m + slot.size <= SPACE
    requires kind < SPACE && ownSize < SPACE && actorSize < SPACE
    ensures var r := Put(m, slot.m + slot.size - TAIL_BYTES, Tail(kind, ownSize, actorSize));
      && TailWord(r, slot, 0) == TAIL_MAGIC && TailWord(r, slot, 1) == kind
      && TailWord(r, slot, 2) == ownSize && TailWord(r, slot, 3) == actorSize
  {
    var at := slot.m + slot.size - TAIL_BYTES;
    var r := Put(m, at, Tail(kind, ownSize, actorSize));
    hide Decode, Encode;
    WordRoundTrip(TAIL_MAGIC);
    WordRoundTrip(kind);
    WordRoundTrip(ownSize);
    WordRoundTrip(actorSize);
    assert Get(r, at, 4) == Encode(TAIL_MAGIC);
    assert Get(r, at + 4, 4) == Encode(kind);
    assert Get(r, at + 8, 4) == Encode(ownSize);
    assert Get(r, at + 12, 4) == Encode(actorSize);
  }

  /** An actor payload whose own counts account for its size. */
  predicate Accounted(actor: Memory) { |actor| >= ACTOR_FIXED_BYTES && CountsMatch(actor, |actor|) }

  /** The actor's payload in memory after a record that had room for it. */
  lemma PayloadReadsBack(m: Memory, key: Key, memento: nat, x: Shadow, taken: bool)
    requires Readable(key) && EngineOk(x) && Roomy(m, FindSlot(key, memento), memento, x)
    requires Sized(FindSlot(key, memento), x)
    ensures var slot := FindSlot(key, memento);
      Get(Recorded(m, slot, memento, x, taken), slot.m + AlignUp16(|x.own|), |x.actor|) == x.actor
  {
    var slot := FindSlot(key, memento);
    SizedFits(slot, x);
    var kind := if taken then WITH_ACTOR else AFTERIMAGE_ONLY;
    hide FindSlot, Word, AlignUp16, Readable, Tail, Get, Put;
    PutBeforeTail(Put(m, memento, x.own), slot.m + AlignUp16(|x.own|), x.actor, Tail(kind, |x.own|, |x.actor|));
  }

  lemma PutBeforeTail(m: Memory, at: nat, data: Memory, tail: Memory)
    requires |m| == SPACE && at + |data| + |tail| <= SPACE
    ensures Get(Put(Put(m, at, data), at + |data|, tail), at, |data|) == data
  {}

  /** The actor is restored exactly when the slot was sized for it, its record succeeded
      and its box counts account for its size; otherwise it is left as it is. */
  lemma ActorComesBack(m: Memory, key: Key, memento: nat, x: Shadow, taken: bool, actor: Memory, back: bool,
                       torn: Memory)
    requires Readable(key) && EngineOk(x) && Roomy(m, FindSlot(key, memento), memento, x)
    ensures var slot := FindSlot(key, memento);
      ActorAfter(Recorded(m, slot, memento, x, taken), slot, actor, back, torn)
        == if Sized(slot, x) && taken && Accounted(x.actor) then (if back then x.actor else torn) else actor
  {
    var slot := FindSlot(key, memento);
    var r := Recorded(m, slot, memento, x, taken);
    if slot.Slot? {
      RecordedTail(m, key, memento, x, taken);
      if Sized(slot, x) { PayloadReadsBack(m, key, memento, x, taken); }
      hide FindSlot, AlignUp16, Readable, Get, TailWord, Recorded;
      TailDecides(r, slot, x, Sized(slot, x) && taken, actor, back, torn);
    }
  }

  /** Memory whose tail and payload are as recorded decides as the record did. */
  lemma TailDecides(r: Memory, slot: Slot, x: Shadow, whole: bool, actor: Memory, back: bool, torn: Memory)
    requires |r| == SPACE && slot.Slot? && TAIL_BYTES <= slot.size
    requires TailWord(r, slot, 0) == TAIL_MAGIC
    requires TailWord(r, slot, 1) == (if whole then WITH_ACTOR else AFTERIMAGE_ONLY)
    requires TailWord(r, slot, 2) == |x.own| && TailWord(r, slot, 3) == |x.actor|
    requires whole ==> Sized(slot, x) && Get(r, slot.m + AlignUp16(|x.own|), |x.actor|) == x.actor
    ensures ActorAfter(r, slot, actor, back, torn)
      == if whole && Accounted(x.actor) then (if back then x.actor else torn) else actor
  {
    var payload := slot.m + AlignUp16(|x.own|);
    assert PayloadAt(r, slot) == payload;
    if whole {
      HeadDecides(Get(r, payload, HEAD_BYTES), x.actor) by { GetPart(r, payload, |x.actor|, 0, HEAD_BYTES); }
      WholeTail(r, slot, x);
    } else {
      assert !TailAgrees(r, slot);
    }
    hide AlignUp16, Get, TailWord, TailAgrees, CountsMatch, PayloadAt;
  }

  lemma HeadDecides(head: Memory, actor: Memory)
    requires |actor| >= ACTOR_FIXED_BYTES && |head| == HEAD_BYTES && actor[..HEAD_BYTES] == head
    ensures CountsMatch(head, |actor|) == Accounted(actor)
  {
    hide Decode, Word;
    forall i | 0 <= i < ACTOR_LISTS ensures Count(actor, i) == Count(head, i) {
      var at := ACTOR_COUNTS_OFFSET + 4 * i;
      assert actor[at..at + 4] == head[at..at + 4];
    }
    for n := 0 to ACTOR_LISTS
      invariant Boxes(actor, n) == Boxes(head, n)
    {}
  }

  /** The tail of a slot recorded whole leaves only the counts to check. */
  lemma WholeTail(r: Memory, slot: Slot, x: Shadow)
    requires |r| == SPACE && slot.Slot? && TAIL_BYTES <= slot.size && Sized(slot, x)
    ensures TailWord(r, slot, 0) == TAIL_MAGIC && TailWord(r, slot, 1) == WITH_ACTOR
      && TailWord(r, slot, 2) == |x.own| && TailWord(r, slot, 3) == |x.actor|
      ==> TailAgrees(r, slot) == CountsMatch(Get(r, slot.m + AlignUp16(|x.own|), HEAD_BYTES), |x.actor|)
  {
    hide AlignUp16, Get, TailWord, CountsMatch;
  }

  lemma RecordedTail(m: Memory, key: Key, memento: nat, x: Shadow, taken: bool)
    requires Readable(key) && EngineOk(x) && Roomy(m, FindSlot(key, memento), memento, x)
    requires FindSlot(key, memento).Slot?
    ensures var slot := FindSlot(key, memento); var r := Recorded(m, slot, memento, x, taken);
      && TailWord(r, slot, 0) == TAIL_MAGIC
      && TailWord(r, slot, 1) == (if Sized(slot, x) && taken then WITH_ACTOR else AFTERIMAGE_ONLY)
      && TailWord(r, slot, 2) == |x.own| && TailWord(r, slot, 3) == |x.actor|
  {
    var slot := FindSlot(key, memento);
    var kind := if Sized(slot, x) && taken then WITH_ACTOR else AFTERIMAGE_ONLY;
    TailReadsBack(Placed(Put(m, memento, x.own), slot, x), slot, kind, |x.own|, |x.actor|);
    hide FindSlot, TailWord, Put, Tail, Placed, Sized, Readable;
  }

  /** What was recorded comes back, whatever happened to the shadow in between. */
  lemma RecordThenRestore(m: Memory, key: Key, memento: nat, x: Shadow, taken: bool, actor: Memory, back: bool,
                          torn: Memory)
    requires Readable(key) && EngineOk(x) && Roomy(m, FindSlot(key, memento), memento, x)
    ensures var slot := FindSlot(key, memento); var r := Recorded(m, slot, memento, x, taken);
      && StateAfter(r, memento) == x.state
      && ActorAfter(r, slot, actor, back, torn)
         == if Sized(slot, x) && taken && Accounted(x.actor) then (if back then x.actor else torn) else actor
  {
    RecordKeepsState(m, key, memento, x, taken);
    ActorComesBack(m, key, memento, x, taken, actor, back, torn);
    hide FindSlot, Recorded, ActorAfter, Sized, Accounted;
  }

  /** The engine sizes a slot by asking first, so the actor's part fits. */
  lemma AskedSlotIsSized(key: Key, memento: nat, x: Shadow)
    requires Readable(key) && EngineOk(x) && |x.actor| >= ACTOR_FIXED_BYTES
    requires FindSlot(key, memento).Slot? && FindSlot(key, memento).size == MementoSize(x)
    ensures Sized(FindSlot(key, memento), x) && |x.own| <= FindSlot(key, memento).size
  {
    SizedFits(FindSlot(key, memento), x);
  }

  // ------------------------------------------------------------ sizes and counts

  /** Rounding goes up to the next multiple of 16. */
  lemma AlignUp16Is(n: nat)
    requires n + 15 < SPACE
    ensures AlignUp16(n) % 16 == 0 && n <= AlignUp16(n) < n + 16
  {}

  /** The head of an actor payload with these box counts. */
  function Head(first: Memory, a: nat, b: nat, c: nat, d: nat, e: nat): Memory {
    first + Encode(a) + Encode(b) + Encode(c) + Encode(d) + Encode(e)
  }

  lemma CountsRead(first: Memory, a: nat, b: nat, c: nat, d: nat, e: nat)
    requires |first| == 4 && a < SPACE && b < SPACE && c < SPACE && d < SPACE && e < SPACE
    ensures var head := Head(first, a, b, c, d, e);
      && |head| == 24 && Count(head, 0) == Signed(a) && Count(head, 1) == Signed(b) && Count(head, 2) == Signed(c)
      && Count(head, 3) == Signed(d) && Count(head, 4) == Signed(e)
  {
    var head := Head(first, a, b, c, d, e);
    assert head[4..8] == Encode(a) && head[8..12] == Encode(b) && head[12..16] == Encode(c);
    assert head[16..20] == Encode(d) && head[20..24] == Encode(e);
    WordRoundTrip(a);
    WordRoundTrip(b);
    WordRoundTrip(c);
    WordRoundTrip(d);
    WordRoundTrip(e);
    hide Encode, Decode, Signed;
  }

  lemma OneMoreBox(head: Memory, i: nat, s: nat)
    requires |head| >= 24 && i < 5 && Boxes(head, i) == s && 0 <= Count(head, i) && s + Count(head, i) < SPACE
    ensures Boxes(head, i + 1) == s + Count(head, i)
  {
    hide Count;
  }

  lemma BoxesAre(head: Memory, a: nat, b: nat, c: nat, d: nat, e: nat)
    requires |head| >= 24 && a + b + c + d + e < SPACE
    requires Count(head, 0) == a && Count(head, 1) == b && Count(head, 2) == c && Count(head, 3) == d
    requires Count(head, 4) == e
    ensures Boxes(head, 5) == a + b + c + d + e
  {
    hide Count, Boxes;
    NextCount(head, 0);
    OneMoreBox(head, 0, 0);
    OneMoreBox(head, 1, a);
    OneMoreBox(head, 2, a + b);
    OneMoreBox(head, 3, a + b + c);
    OneMoreBox(head, 4, a + b + c + d);
  }

  /** A payload is accepted exactly if its five counts are not negative and it is 576 bytes
      long and 272 more for each box. */
  lemma CountsMatchIff(first: Memory, a: nat, b: nat, c: nat, d: nat, e: nat, size: nat)
    requires |first| == 4 && a < SPACE && b < SPACE && c < SPACE && d < SPACE && e < SPACE
    requires a + b + c + d + e < 10_000_000 || a >= 0x8000_0000 || b >= 0x8000_0000 || c >= 0x8000_0000
      || d >= 0x8000_0000 || e >= 0x8000_0000
    ensures CountsMatch(Head(first, a, b, c, d, e), size)
      <==> a + b + c + d + e < 10_000_000 && size == 576 + 272 * (a + b + c + d + e)
  {
    hide Count, Head, NoNegative, Boxes, Word;
    var head := Head(first, a, b, c, d, e);
    CountsRead(first, a, b, c, d, e);
    FiveCounts(head);
    WordOfSmall(576 + 272 * (a + b + c + d + e));
    if NoNegative(head, 5) { BoxesAre(head, a, b, c, d, e); }
  }

  lemma WordOfSmall(n: nat)
    ensures n < SPACE ==> Word(n) == n
  {}

  lemma FiveCounts(head: Memory)
    requires |head| >= 24
    ensures NoNegative(head, 5) <==>
      (Count(head, 0) >= 0 && Count(head, 1) >= 0 && Count(head, 2) >= 0 && Count(head, 3) >= 0 && Count(head, 4) >= 0)
  {
    hide Count;
  }
}
