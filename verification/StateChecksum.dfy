/** Hashing buffers, keys and whole save states. */
module StateChecksum {
  import opened BattleState
  import opened Mixing
  import opened Checksum

  /** One word into the running hash. */
  method Stir(start: bv32, word: bv32) returns (h: bv32)
    ensures h == Round(start, word)
  {
    hide Xor, TimesC1, Rotate15, TimesC2, Rotate13, Advance;
    var k := word;
    k := TimesC1(k);
    k := Rotate15(k);
    k := TimesC2(k);
    h := Xor(start, k);
    h := Rotate13(h);
    h := Advance(h);
  }

  method CollectTail(tail: Bytes) returns (k: bv32)
    requires |tail| < 4
    ensures k == TailWord(tail)
  {
    k := 0;
    if |tail| == 3 { k := k ^ ((tail[2] as bv32) << 16); }
    if |tail| >= 2 { k := k ^ ((tail[1] as bv32) << 8); }
    if |tail| >= 1 { k := k ^ (tail[0] as bv32); }
  }

  /** The tail, the length and the final avalanche. */
  method HashEnd(start: bv32, data: Bytes) returns (h: bv32)
    ensures h == Close(start, RestOf(data))
  {
    hide Xor, TimesC1, Rotate15, TimesC2, Fold16, Fold13, TimesF1, TimesF2, Count, TailWord;
    h := start;
    var tail := data[|data| / 4 * 4..];
    assert tail == Tail(data);
    if |tail| >= 1 {
      var k := CollectTail(tail);
      k := TimesC1(k);
      k := Rotate15(k);
      k := TimesC2(k);
      h := Xor(h, k);
    }
    h := Xor(h, Count(|data|));
    h := Fold16(h);
    h := TimesF1(h);
    h := Fold13(h);
    h := TimesF2(h);
    h := Fold16(h);
  }

  /** Hashes raw bytes. */
  method HashBytes(data: Bytes, seed: bv32) returns (h: bv32)
    ensures h == BytesDigest(data, seed)
  {
    hide Word, Round, RestOf, Close;
    h := seed;
    var blocks := |data| / 4;
    var i := 0;
    while i < blocks
      invariant 0 <= i <= blocks
      invariant h == Absorb(seed, Words(data)[..i])
    {
      h := Stir(h, WordAt(data, i));
      assert Words(data)[..i + 1] == Words(data)[..i] + [WordAt(data, i)];
      i := i + 1;
    }
    assert Words(data)[..blocks] == Words(data);
    h := HashEnd(h, data);
  }

  /** Folds one word into a hash. */
  method Mix(h: bv32, v: bv32) returns (r: bv32)
    ensures r == Mixed(h, v)
  {
    hide Digest, Word, LittleEndian;
    r := HashBytes(LittleEndian(v), h);
    WordRoundTrip(v);
    OneWord(LittleEndian(v));
  }

  lemma OneWord(p: Bytes)
    requires |p| == 4
    ensures Words(p) == [Word(p)] && RestOf(p) == Rest(false, 0, 4)
  {
    hide Word;
    assert p[0..4] == p;
    assert Count(2) == 2;
  }

  /** Replaces heap addresses by the order in which they first appear. */
  class PointerNormalizer {
    var ordinals: Ordinals
    const heap: Heap

    constructor (heap: Heap)
      ensures this.heap == heap && ordinals == map[]
    {
      this.heap := heap;
      ordinals := map[];
    }

    method Reset()
      modifies this
      ensures ordinals == map[]
    {
      ordinals := map[];
    }

    /** The word to hash in place of `k`; a new heap address gets the next ordinal. */
    method Substitute(k: bv32) returns (r: bv32)
      modifies this
      ensures r == Substituted(heap, old(ordinals), k)
      ensures ordinals == Noted(heap, old(ordinals), k)
    {
      hide IsHeapPointer, Xor, Count;
      r := k;
      if IsHeapPointer(heap, k) {
        var ordinal: bv32;
        if Address(k) !in ordinals {
          ordinal := Count(|ordinals|);
          ordinals := ordinals[Address(k) := ordinal];
        } else {
          ordinal := ordinals[Address(k)];
        }
        r := Xor(ORDINAL_TAG, ordinal);
      }
    }

    method Hash(data: Bytes, seed: bv32) returns (h: bv32)
      modifies this
      ensures h == Digest(Normalized(heap, old(ordinals), Words(data)), RestOf(data), seed)
      ensures ordinals == Numbering(heap, old(ordinals), Words(data))
    {
      hide Word, Round, RestOf, Close, Noted, Substituted;
      h := seed;
      var words := |data| / 4;
      var i := 0;
      while i < words
        invariant 0 <= i <= words
        invariant ordinals == Numbering(heap, old(ordinals), Words(data)[..i])
        invariant h == Absorb(seed, Normalized(heap, old(ordinals), Words(data)[..i]))
      {
        var k := Substitute(WordAt(data, i));
        h := Stir(h, k);
        assert Words(data)[..i + 1] == Words(data)[..i] + [WordAt(data, i)];
        i := i + 1;
      }
      assert Words(data)[..words] == Words(data);
      h := HashEnd(h, data);
    }
  }

  // ------------------------------------------------------------ save states

  /** A saved copy of a key: `memory` is the allocation `mementos` points at,
      memento data first and the metadata table last. */
  datatype KeyCopy = KeyCopy(mementoable: nat, mementos: nat, metadata: nat, sizeAllocated: int, memory: Bytes)

  function BufferSize(key: KeyCopy): nat { if key.sizeAllocated <= 0 then 0 else key.sizeAllocated }

  predicate KeyOk(key: KeyCopy) { BufferSize(key) <= |key.memory| < 0x1_0000_0000 }

  /** The metadata table lies behind the mementos, inside the allocation. */
  predicate LaidOut(key: KeyCopy) {
    0 < key.mementos < key.metadata <= key.mementos + key.sizeAllocated
  }

  /** Where the metadata table begins; 0 for a key that is not laid out as expected. */
  function DataSize(key: KeyCopy): (n: nat)
    ensures n <= BufferSize(key)
    ensures LaidOut(key) ==> n == key.metadata - key.mementos
    ensures !LaidOut(key) ==> n == 0
  {
    if key.mementos == 0 || key.metadata == 0 then 0
    else if key.metadata <= key.mementos || key.metadata - key.mementos > BufferSize(key) then 0
    else key.metadata - key.mementos
  }

  /** The hashed part: mementos without the metadata table, whose pointers are
      fresh on every initialisation. */
  function Data(key: KeyCopy): (r: Bytes)
    requires KeyOk(key)
    ensures |r| == DataSize(key)
  {
    key.memory[..DataSize(key)]
  }

  const KEY_SEED: bv32 := 0x5f4e0001

  function NormalDigest(heap: Heap, p: Bytes, seed: bv32): bv32 {
    Digest(Normalized(heap, map[], Words(p)), RestOf(p), seed)
  }

  function KeySum(heap: Heap, key: KeyCopy): bv32
    requires KeyOk(key)
  {
    if DataSize(key) == 0 then 0 else NormalDigest(heap, Data(key), KEY_SEED)
  }

  function RawKeySum(key: KeyCopy): bv32
    requires KeyOk(key)
  {
    if DataSize(key) == 0 then 0 else BytesDigest(Data(key), KEY_SEED)
  }

  function FixedWord(p: FixedPoint): bv32 { (p.fractional as bv32) | ((p.integral as bv32) << 16) }

  /** The battle globals in hashing order, the game manager apart. */
  function GlobalWord(d: Globals, i: nat): bv32 {
    match i
    case 0 => d.currentFlow
    case 1 => d.previousFlow
    case 2 => d.currentSubstate
    case 3 => d.previousSubstate
    case 4 => FixedWord(d.currentFlowFrame)
    case 5 => FixedWord(d.currentSubstateFrame)
    case 6 => FixedWord(d.previousFlowFrame)
    case 7 => FixedWord(d.previousSubstateFrame)
    case 8 => d.substateCallable
    case _ => d.everyFrameCallback
  }

  function GlobalWords(d: Globals): (ws: seq<bv32>) {
    seq(10, i requires 0 <= i < 10 => GlobalWord(d, i))
  }

  const GLOBAL_SEED: bv32 := 0x474c4f42

  function GlobalSum(heap: Heap, d: Globals): bv32 {
    NormalDigest(heap, d.gameManager, MixedAll(GLOBAL_SEED, GlobalWords(d)))
  }

  const TOTAL_SEED: bv32 := 0x53463445

  type Keys = seq<(nat, KeyCopy)>

  predicate KeysOk(keys: Keys) { forall i :: 0 <= i < |keys| ==> KeyOk(keys[i].1) }

  function KeySums(heap: Heap, keys: Keys): (r: seq<bv32>)
    requires KeysOk(keys)
    ensures |r| == |keys|
  {
    seq(|keys|, i requires 0 <= i < |keys| => KeySum(heap, keys[i].1))
  }

  function RawKeySums(keys: Keys): (r: seq<bv32>)
    requires KeysOk(keys)
    ensures |r| == |keys|
  {
    seq(|keys|, i requires 0 <= i < |keys| => RawKeySum(keys[i].1))
  }

  /** What two peers compare. */
  function StateSum(heap: Heap, keys: Keys, d: Globals): bv32
    requires KeysOk(keys)
  {
    Mixed(MixedAll(TOTAL_SEED, KeySums(heap, keys)), GlobalSum(heap, d))
  }

  function RawStateSum(heap: Heap, keys: Keys, d: Globals): bv32
    requires KeysOk(keys)
  {
    Mixed(MixedAll(TOTAL_SEED, RawKeySums(keys)), GlobalSum(heap, d))
  }

  lemma OneMoreKey(heap: Heap, keys: Keys, i: nat)
    requires KeysOk(keys) && i < |keys|
    ensures MixedUpTo(TOTAL_SEED, KeySums(heap, keys), i + 1)
      == Mixed(MixedUpTo(TOTAL_SEED, KeySums(heap, keys), i), KeySum(heap, keys[i].1))
    ensures MixedUpTo(TOTAL_SEED, RawKeySums(keys), i + 1)
      == Mixed(MixedUpTo(TOTAL_SEED, RawKeySums(keys), i), RawKeySum(keys[i].1))
  {
    hide Mixed, KeySum, RawKeySum;
  }

  datatype KeyChecksum = KeyChecksum(key: nat, mementoable: nat, size: bv32, checksum: bv32, checksumRaw: bv32)

  /** The checksum fields of a save slot and what they are computed from. */
  class SavedState {
    var keys: Keys
    var d: Globals
    var keyChecksums: seq<KeyChecksum>
    var globalChecksum: bv32
    var checksum: bv32
    var checksumRaw: bv32

    constructor (keys: Keys, d: Globals)
      ensures this.keys == keys && this.d == d
    {
      this.keys, this.d := keys, d;
      keyChecksums, globalChecksum, checksum, checksumRaw := [], 0, 0, 0;
    }

    /** Hashes field by field, so that no padding is hashed. */
    method HashGlobalData(normalizer: PointerNormalizer) returns (h: bv32)
      requires normalizer.ordinals == map[]
      modifies normalizer
      ensures h == GlobalSum(normalizer.heap, d)
    {
      hide FixedWord, Mixed, Digest;
      ghost var ws := GlobalWords(d);
      h := GLOBAL_SEED;
      h := Mix(h, d.currentFlow);
      assert h == MixedUpTo(GLOBAL_SEED, ws, 1);
      h := Mix(h, d.previousFlow);
      assert h == MixedUpTo(GLOBAL_SEED, ws, 2);
      h := Mix(h, d.currentSubstate);
      assert h == MixedUpTo(GLOBAL_SEED, ws, 3);
      h := Mix(h, d.previousSubstate);
      assert h == MixedUpTo(GLOBAL_SEED, ws, 4);
      h := Mix(h, FixedWord(d.currentFlowFrame));
      assert h == MixedUpTo(GLOBAL_SEED, ws, 5);
      h := Mix(h, FixedWord(d.currentSubstateFrame));
      assert h == MixedUpTo(GLOBAL_SEED, ws, 6);
      h := Mix(h, FixedWord(d.previousFlowFrame));
      assert h == MixedUpTo(GLOBAL_SEED, ws, 7);
      h := Mix(h, FixedWord(d.previousSubstateFrame));
      assert h == MixedUpTo(GLOBAL_SEED, ws, 8);
      h := Mix(h, d.substateCallable);
      assert h == MixedUpTo(GLOBAL_SEED, ws, 9);
      h := Mix(h, d.everyFrameCallback);
      assert h == MixedUpTo(GLOBAL_SEED, ws, 10);
      h := normalizer.Hash(d.gameManager, h);
    }

    method ChecksumKey(key: KeyCopy, normalizer: PointerNormalizer) returns (sum: bv32, raw: bv32)
      requires KeyOk(key) && normalizer.ordinals == map[]
      modifies normalizer
      ensures sum == KeySum(normalizer.heap, key) && raw == RawKeySum(key)
    {
      hide KeyOk, Digest, DataSize, RestOf;
      sum, raw := 0, 0;
      if DataSize(key) != 0 {
        sum := normalizer.Hash(Data(key), KEY_SEED);
        raw := HashBytes(Data(key), KEY_SEED);
      }
    }

    method ComputeChecksum(normalizer: PointerNormalizer)
      requires KeysOk(keys)
      modifies this, normalizer
      ensures keys == old(keys) && d == old(d)
      ensures |keyChecksums| == |keys|
      ensures forall i :: 0 <= i < |keys| ==>
        keyChecksums[i] == KeyChecksum(keys[i].0, keys[i].1.mementoable, Count(DataSize(keys[i].1)),
                                       KeySum(normalizer.heap, keys[i].1), RawKeySum(keys[i].1))
      ensures globalChecksum == GlobalSum(normalizer.heap, d)
      ensures checksum == StateSum(normalizer.heap, keys, d)
      ensures checksumRaw == RawStateSum(normalizer.heap, keys, d)
    {
      hide KeyOk, KeySum, RawKeySum, Mixed, GlobalSum, Count, DataSize, KeySums, RawKeySums;
      keyChecksums := [];
      var total, totalRaw := TOTAL_SEED, TOTAL_SEED;
      var i := 0;
      while i < |keys|
        invariant 0 <= i <= |keys| && |keyChecksums| == i
        invariant keys == old(keys) && d == old(d)
        invariant forall k :: 0 <= k < i ==>
          keyChecksums[k] == KeyChecksum(keys[k].0, keys[k].1.mementoable, Count(DataSize(keys[k].1)),
                                         KeySum(normalizer.heap, keys[k].1), RawKeySum(keys[k].1))
        invariant total == MixedUpTo(TOTAL_SEED, KeySums(normalizer.heap, keys), i)
        invariant totalRaw == MixedUpTo(TOTAL_SEED, RawKeySums(keys), i)
      {
        var key := keys[i].1;
        normalizer.Reset();
        var sum, raw := ChecksumKey(key, normalizer);
        keyChecksums := keyChecksums + [KeyChecksum(keys[i].0, key.mementoable, Count(DataSize(key)), sum, raw)];
        OneMoreKey(normalizer.heap, keys, i);
        total := Mix(total, sum);
        totalRaw := Mix(totalRaw, raw);
        i := i + 1;
      }
      normalizer.Reset();
      globalChecksum := HashGlobalData(normalizer);
      checksum := Mix(total, globalChecksum);
      checksumRaw := Mix(totalRaw, globalChecksum);
    }
  }

  // ---------------------------------------------------------------- results

  ghost predicate PlainlyApartAt(heap: Heap, ws: seq<bv32>, vs: seq<bv32>, i: nat) {
    ApartAt(ws, vs, i) && !IsHeapPointer(heap, ws[i]) && !IsHeapPointer(heap, vs[i])
  }

  /** Same length, and different in exactly one word that is no heap pointer on
      either side, or in the trailing bytes alone. */
  ghost predicate OneWordApart(heap: Heap, p: Bytes, q: Bytes) {
    && |p| == |q|
    && ((Tail(p) == Tail(q) && exists i: nat :: PlainlyApartAt(heap, Words(p), Words(q), i))
        || (Words(p) == Words(q) && Tail(p) != Tail(q)))
  }

  /** A one-word difference always shows in the digest. */
  lemma OneWordShows(heap: Heap, p: Bytes, q: Bytes, seed: bv32)
    requires OneWordApart(heap, p, q)
    ensures NormalDigest(heap, p, seed) != NormalDigest(heap, q, seed)
  {
    hide Word, Digest, IsHeapPointer, Count, TailWord;
    if Tail(p) == Tail(q) {
      var i: nat :| PlainlyApartAt(heap, Words(p), Words(q), i);
      NormalizedApart(heap, map[], Words(p), Words(q), i);
      hide ApartAt;
    } else if RestOf(p) == RestOf(q) {
      WordsDetermineBytes(p, q);
    }
    DigestSensitive(Normalized(heap, map[], Words(p)), Normalized(heap, map[], Words(q)), RestOf(p), RestOf(q), seed);
  }

  lemma LengthsCount(n: nat, d: nat)
    requires 0 < d < 3
    ensures Count(n + d) != Count(n)
  {
    assert Count(1) == 1 && Count(2) == 2;
    CountAdds(n, d);
    hide Count;
  }

  /** So does the length by itself: zero bytes at the end are not lost. */
  lemma LengthShows(heap: Heap, p: Bytes, q: Bytes, seed: bv32)
    requires Words(p) == Words(q) && Tail(p) != [] && Tail(q) != [] && TailWord(Tail(p)) == TailWord(Tail(q))
    requires |p| != |q|
    ensures NormalDigest(heap, p, seed) != NormalDigest(heap, q, seed)
  {
    if |p| < |q| { LengthsCount(|p|, |q| - |p|); } else { LengthsCount(|q|, |p| - |q|); }
    hide Word, TailWord, Count, Digest, Numbering;
    var ws := Normalized(heap, map[], Words(p));
    DigestSensitive(ws, ws, RestOf(p), RestOf(q), seed);
  }

  /** Two copies of a key have the same mementos, wherever each was allocated. */
  predicate SameMementos(key: KeyCopy, other: KeyCopy)
    requires KeyOk(key) && KeyOk(other)
  {
    && (LaidOut(key) <==> LaidOut(other))
    && (LaidOut(key) ==>
          && key.metadata - key.mementos == other.metadata - other.mementos
          && key.memory[..key.metadata - key.mementos] == other.memory[..other.metadata - other.mementos])
  }

  /** They differ in one word in front of the metadata table. */
  ghost predicate MementosApart(heap: Heap, key: KeyCopy, other: KeyCopy)
    requires KeyOk(key) && KeyOk(other)
  {
    && LaidOut(key) && LaidOut(other)
    && OneWordApart(heap, key.memory[..key.metadata - key.mementos], other.memory[..other.metadata - other.mementos])
  }

  lemma SameMementosSameSums(heap: Heap, key: KeyCopy, other: KeyCopy)
    requires KeyOk(key) && KeyOk(other) && SameMementos(key, other)
    ensures KeySum(heap, key) == KeySum(heap, other)
  {
    hide NormalDigest;
  }

  lemma MementosApartShow(heap: Heap, key: KeyCopy, other: KeyCopy)
    requires KeyOk(key) && KeyOk(other) && MementosApart(heap, key, other)
    ensures KeySum(heap, key) != KeySum(heap, other)
  {
    hide OneWordApart, NormalDigest;
    OneWordShows(heap, Data(key), Data(other), KEY_SEED);
  }

  /** A one-word difference in one saved key changes the checksum of the state. */
  lemma KeyChangeShows(heap: Heap, keys: Keys, others: Keys, d: Globals, j: nat)
    requires KeysOk(keys) && KeysOk(others) && |keys| == |others| && j < |keys|
    requires forall k :: 0 <= k < |keys| && k != j ==> SameMementos(keys[k].1, others[k].1)
    requires MementosApart(heap, keys[j].1, others[j].1)
    ensures StateSum(heap, keys, d) != StateSum(heap, others, d)
  {
    hide Mixed, KeyOk, KeySum, SameMementos, MementosApart;
    forall k | 0 <= k < |keys| && k != j ensures KeySum(heap, keys[k].1) == KeySum(heap, others[k].1) {
      SameMementosSameSums(heap, keys[k].1, others[k].1);
    }
    MementosApartShow(heap, keys[j].1, others[j].1);
    assert ApartAt(KeySums(heap, keys), KeySums(heap, others), j);
    MixedUpToSensitive(TOTAL_SEED, KeySums(heap, keys), KeySums(heap, others), j, |keys|);
    var x, y := MixedAll(TOTAL_SEED, KeySums(heap, keys)), MixedAll(TOTAL_SEED, KeySums(heap, others));
    if Mixed(x, GlobalSum(heap, d)) == Mixed(y, GlobalSum(heap, d)) {
      MixedInjective(x, GlobalSum(heap, d), y, GlobalSum(heap, d));
    }
  }

  /** A new value for one battle variable. */
  datatype Change =
    | CurrentFlow(x: bv32)
    | PreviousFlow(x: bv32)
    | CurrentSubstate(x: bv32)
    | PreviousSubstate(x: bv32)
    | CurrentFlowFrame(p: FixedPoint)
    | CurrentSubstateFrame(p: FixedPoint)
    | PreviousFlowFrame(p: FixedPoint)
    | PreviousSubstateFrame(p: FixedPoint)
    | SubstateCallable(x: bv32)
    | EveryFrameCallback(x: bv32)

  function Changed(d: Globals, c: Change): Globals {
    match c
    case CurrentFlow(x) => d.(currentFlow := x)
    case PreviousFlow(x) => d.(previousFlow := x)
    case CurrentSubstate(x) => d.(currentSubstate := x)
    case PreviousSubstate(x) => d.(previousSubstate := x)
    case CurrentFlowFrame(p) => d.(currentFlowFrame := p)
    case CurrentSubstateFrame(p) => d.(currentSubstateFrame := p)
    case PreviousFlowFrame(p) => d.(previousFlowFrame := p)
    case PreviousSubstateFrame(p) => d.(previousSubstateFrame := p)
    case SubstateCallable(x) => d.(substateCallable := x)
    case EveryFrameCallback(x) => d.(everyFrameCallback := x)
  }

  lemma FixedWordsApart(p: FixedPoint, q: FixedPoint)
    ensures p != q ==> FixedWord(p) != FixedWord(q)
  {
    HalvesApart(p.fractional, p.integral);
    HalvesApart(q.fractional, q.integral);
  }

  lemma HalvesApart(low: bv16, high: bv16)
    ensures ((low as bv32) | ((high as bv32) << 16)) & 0xffff == low as bv32
    ensures ((low as bv32) | ((high as bv32) << 16)) >> 16 == high as bv32
  {}

  /** Which word a change shows in. */
  function PlaceOf(c: Change): nat {
    match c
    case CurrentFlow(x) => 0
    case PreviousFlow(x) => 1
    case CurrentSubstate(x) => 2
    case PreviousSubstate(x) => 3
    case CurrentFlowFrame(p) => 4
    case CurrentSubstateFrame(p) => 5
    case PreviousFlowFrame(p) => 6
    case PreviousSubstateFrame(p) => 7
    case SubstateCallable(x) => 8
    case EveryFrameCallback(x) => 9
  }

  /** Every variable has a place of its own among the words hashed. */
  lemma VariableHasItsWord(d: Globals, c: Change)
    ensures Changed(d, c).gameManager == d.gameManager
    ensures Changed(d, c) != d ==> GlobalWord(Changed(d, c), PlaceOf(c)) != GlobalWord(d, PlaceOf(c))
  {
    hide FixedWord;
    match c {
      case CurrentFlow(x) =>
      case PreviousFlow(x) =>
      case CurrentSubstate(x) =>
      case PreviousSubstate(x) =>
      case CurrentFlowFrame(p) => FixedWordsApart(d.currentFlowFrame, p);
      case CurrentSubstateFrame(p) => FixedWordsApart(d.currentSubstateFrame, p);
      case PreviousFlowFrame(p) => FixedWordsApart(d.previousFlowFrame, p);
      case PreviousSubstateFrame(p) => FixedWordsApart(d.previousSubstateFrame, p);
      case SubstateCallable(x) =>
      case EveryFrameCallback(x) =>
    }
  }

  lemma VariableHasNoOther(d: Globals, c: Change, k: nat)
    requires k < 10 && k != PlaceOf(c)
    ensures GlobalWord(Changed(d, c), k) == GlobalWord(d, k)
  {
    hide FixedWord;
    match c {
      case CurrentFlow(x) =>
      case PreviousFlow(x) =>
      case CurrentSubstate(x) =>
      case PreviousSubstate(x) =>
      case CurrentFlowFrame(p) =>
      case CurrentSubstateFrame(p) =>
      case PreviousFlowFrame(p) =>
      case PreviousSubstateFrame(p) =>
      case SubstateCallable(x) =>
      case EveryFrameCallback(x) =>
    }
  }

  lemma VariableShows(d: Globals, c: Change)
    requires Changed(d, c) != d
    ensures PlaceOf(c) < 10 && ApartAt(GlobalWords(d), GlobalWords(Changed(d, c)), PlaceOf(c))
  {
    forall k | 0 <= k < 10 && k != PlaceOf(c) ensures GlobalWord(Changed(d, c), k) == GlobalWord(d, k) {
      VariableHasNoOther(d, c, k);
    }
    VariableHasItsWord(d, c);
    hide GlobalWord, Changed;
  }

  lemma ManagerIsApart(d: Globals, manager: Bytes)
    ensures GlobalWords(d.(gameManager := manager)) == GlobalWords(d)
  {}

  /** So does a difference in one battle variable, or one word of the game manager. */
  lemma GlobalChangeShows(heap: Heap, keys: Keys, d: Globals, e: Globals)
    requires KeysOk(keys)
    requires (e != d && exists c :: e == Changed(d, c))
      || (e == d.(gameManager := e.gameManager) && OneWordApart(heap, d.gameManager, e.gameManager))
    ensures StateSum(heap, keys, d) != StateSum(heap, keys, e)
  {
    hide Words, Tail, Mixed, KeyOk, IsHeapPointer, Digest, FixedWord, Changed, GlobalWords, PlaceOf;
    if c :| e == Changed(d, c) && e != d {
      VariableHasItsWord(d, c);
      VariableShows(d, c);
      var i := PlaceOf(c);
      MixedUpToSensitive(GLOBAL_SEED, GlobalWords(d), GlobalWords(e), i, |GlobalWords(d)|);
      if GlobalSum(heap, d) == GlobalSum(heap, e) {
        DigestSeed(Normalized(heap, map[], Words(d.gameManager)), RestOf(d.gameManager),
                   MixedAll(GLOBAL_SEED, GlobalWords(d)), MixedAll(GLOBAL_SEED, GlobalWords(e)));
      }
    } else {
      ManagerIsApart(d, e.gameManager);
      OneWordShows(heap, d.gameManager, e.gameManager, MixedAll(GLOBAL_SEED, GlobalWords(d)));
    }
    var x := MixedAll(TOTAL_SEED, KeySums(heap, keys));
    if StateSum(heap, keys, d) == StateSum(heap, keys, e) {
      MixedInjective(x, GlobalSum(heap, d), x, GlobalSum(heap, e));
    }
  }

  /** Two buffers, possibly of two processes, that differ only in where the heap
      objects they point at happen to lie. */
  ghost predicate Relocated(heap: Heap, p: Bytes, other: Heap, q: Bytes) {
    |p| == |q| && Tail(p) == Tail(q) && SameUpToRelocation(heap, Words(p), other, Words(q))
  }

  /** Two peers in the same state compute the same checksum, wherever their
      allocators placed things. */
  lemma RelocationIsInvisible(heap: Heap, keys: Keys, d: Globals, other: Heap, others: Keys, e: Globals)
    requires KeysOk(keys) && KeysOk(others) && |keys| == |others|
    requires forall k :: 0 <= k < |keys| ==> Relocated(heap, Data(keys[k].1), other, Data(others[k].1))
    requires GlobalWords(d) == GlobalWords(e) && Relocated(heap, d.gameManager, other, e.gameManager)
    ensures KeySums(heap, keys) == KeySums(other, others)
    ensures StateSum(heap, keys, d) == StateSum(other, others, e)
  {
    hide Words, Mixed, Digest, IsHeapPointer, GlobalWords, KeyOk, SameUpToRelocation, DataSize;
    forall k | 0 <= k < |keys| ensures KeySum(heap, keys[k].1) == KeySum(other, others[k].1) {
      var p, q := Data(keys[k].1), Data(others[k].1);
      assert Relocated(heap, p, other, q);
      RelocationAgrees(heap, Words(p), other, Words(q));
    }
    RelocationAgrees(heap, Words(d.gameManager), other, Words(e.gameManager));
  }

  ghost predicate HoldsNoPointer(heap: Heap, ws: seq<bv32>) {
    forall i :: 0 <= i < |ws| ==> !IsHeapPointer(heap, ws[i])
  }

  /** Without heap pointers normalising changes nothing: both checksums agree. */
  lemma PlainStateSumsAgree(heap: Heap, keys: Keys, d: Globals)
    requires KeysOk(keys)
    requires forall k :: 0 <= k < |keys| ==> HoldsNoPointer(heap, Words(Data(keys[k].1)))
    ensures KeySums(heap, keys) == RawKeySums(keys)
    ensures StateSum(heap, keys, d) == RawStateSum(heap, keys, d)
  {
    hide Words, Digest, IsHeapPointer, Mixed, KeyOk;
    forall k | 0 <= k < |keys| ensures KeySum(heap, keys[k].1) == RawKeySum(keys[k].1) {
      PlainWordsStay(heap, map[], Words(Data(keys[k].1)));
    }
  }
}
