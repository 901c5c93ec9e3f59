/** The desync checksum of a save state: every saved key is hashed word by word,
    with heap addresses replaced by first-appearance ordinals. */
module Checksum {
  import opened BattleState
  import opened Mixing

  function Plus(a: bv32, b: bv32): bv32 { a + b }

  /** `n` modulo 2^32. */
  function Count(n: nat): bv32 { if n == 0 then 0 else Plus(Count(n - 1), 1) }

  // How far `Count` gets without wrapping.

  function Pow2(w: bv32): nat { if w == 0 then 1 else 2 * Pow2(w - 1) }

  lemma SumAssociates(a: bv32, b: bv32, c: bv32) ensures Plus(a + b, c) == Plus(a, b + c) {}

  lemma PlusAssociates(a: bv32, b: bv32, c: bv32)
    ensures Plus(Plus(a, b), c) == Plus(a, Plus(b, c))
  {
    assert Plus(a, b) == a + b && Plus(b, c) == b + c;
    hide Plus;
    SumAssociates(a, b, c);
  }

  lemma PlusZero(a: bv32) ensures Plus(a, 0) == a && Plus(0, a) == a {}

  lemma {:induction false} CountAdds(n: nat, m: nat)
    ensures Count(n + m) == Plus(Count(n), Count(m))
  {
    hide Plus;
    if m > 0 {
      CountAdds(n, m - 1);
      PlusAssociates(Count(n), Count(m - 1), 1);
    } else {
      PlusZero(Count(n));
    }
  }

  lemma Double(c: bv32, b: bv32, w: bv32)
    ensures 0 < w <= 30 && c < (1 << (w - 1)) && b <= 1 ==> Plus(Plus(c, c), b) < (1 << w)
  {}

  lemma {:induction false} CountBound(n: nat, w: bv32)
    requires w <= 30 && n < Pow2(w)
    ensures Count(n) < (1 << w)
  {
    hide Plus;
    PlusZero(1);
    if w > 0 {
      assert Count(n % 2) <= 1;
      CountBound(n / 2, w - 1);
      CountAdds(n / 2, n / 2);
      CountAdds(n / 2 + n / 2, n % 2);
      Double(Count(n / 2), Count(n % 2), w);
    }
  }

  lemma CountSmall(n: nat)
    requires n < 0x4000_0000
    ensures Count(n) < 0x4000_0000
  {
    assert Pow2(10) == 0x400;
    assert Pow2(20) == 0x10_0000;
    assert Pow2(30) == 0x4000_0000;
    CountBound(n, 30);
  }

  /** The little-endian word of the first four bytes. */
  function Word(p: Bytes): bv32
    requires |p| >= 4
  {
    (p[0] as bv32) | ((p[1] as bv32) << 8) | ((p[2] as bv32) << 16) | ((p[3] as bv32) << 24)
  }

  function WordAt(p: Bytes, i: nat): bv32
    requires i < |p| / 4
  {
    Word(p[4 * i..4 * i + 4])
  }

  /** The whole words of a buffer. */
  function Words(p: Bytes): (ws: seq<bv32>)
    ensures |ws| == |p| / 4
  {
    seq(|p| / 4, i requires 0 <= i < |p| / 4 => WordAt(p, i))
  }

  /** The up to three bytes past the last whole word. */
  function Tail(p: Bytes): Bytes { p[|p| - |p| % 4..] }

  function TailWord(t: Bytes): bv32
    requires |t| < 4
  {
    var c := if |t| > 2 then (t[2] as bv32) << 16 else 0;
    var b := if |t| > 1 then c ^ ((t[1] as bv32) << 8) else c;
    if |t| > 0 then b ^ (t[0] as bv32) else b
  }

  function RestOf(p: Bytes): Rest { Rest(Tail(p) != [], TailWord(Tail(p)), Count(|p|)) }

  function BytesDigest(p: Bytes, seed: bv32): bv32 { Digest(Words(p), RestOf(p), seed) }

  function LittleEndian(v: bv32): (r: Bytes)
    ensures |r| == 4
  {
    [(v & 0xff) as bv8, ((v >> 8) & 0xff) as bv8, ((v >> 16) & 0xff) as bv8, (v >> 24) as bv8]
  }

  lemma WordRoundTrip(v: bv32)
    ensures Word(LittleEndian(v)) == v
  {}

  lemma BytesOfWord(a: bv8, b: bv8, c: bv8, d: bv8)
    ensures LittleEndian(Word([a, b, c, d])) == [a, b, c, d]
  {}

  lemma WordInjective(p: Bytes, q: Bytes)
    requires |p| == |q| == 4 && Word(p) == Word(q)
    ensures p == q
  {
    hide LittleEndian, Word;
    assert p == [p[0], p[1], p[2], p[3]];
    assert q == [q[0], q[1], q[2], q[3]];
    BytesOfWord(p[0], p[1], p[2], p[3]);
    BytesOfWord(q[0], q[1], q[2], q[3]);
  }

  function Padded(t: Bytes): Bytes
    requires |t| < 4
  {
    [if |t| > 0 then t[0] else 0, if |t| > 1 then t[1] else 0, if |t| > 2 then t[2] else 0, 0]
  }

  lemma XorIsOr(a: bv8, b: bv8, c: bv8)
    ensures (((c as bv32) << 16) ^ ((b as bv32) << 8)) ^ (a as bv32) == Word([a, b, c, 0])
  {}

  lemma TailWordPads(t: Bytes)
    requires |t| < 4
    ensures TailWord(t) == Word(Padded(t))
  {
    XorIsOr(Padded(t)[0], Padded(t)[1], Padded(t)[2]);
  }

  /** No byte escapes the hash: words and tail word determine the buffer. */
  lemma WordsDetermineBytes(p: Bytes, q: Bytes)
    requires |p| == |q| && Words(p) == Words(q) && RestOf(p) == RestOf(q)
    ensures p == q
  {
    hide Word, Count, TailWord;
    forall i | 0 <= i < |p| ensures p[i] == q[i] {
      if i < |p| - |p| % 4 {
        var j := i / 4;
        assert Words(p)[j] == WordAt(p, j) && Words(q)[j] == WordAt(q, j);
        WordInjective(p[4 * j..4 * j + 4], q[4 * j..4 * j + 4]);
        assert p[i] == p[4 * j..4 * j + 4][i % 4];
        assert q[i] == q[4 * j..4 * j + 4][i % 4];
      } else {
        var t, u := Tail(p), Tail(q);
        TailWordPads(t);
        TailWordPads(u);
        WordInjective(Padded(t), Padded(u));
        var k := i - (|p| - |p| % 4);
        assert p[i] == t[k] && q[i] == u[k] && Padded(t)[k] == t[k] && Padded(u)[k] == u[k];
      }
    }
  }

  // ---------------------------------------------------------- normalisation

  const ORDINAL_TAG: bv32 := 0xb01dfa00

  /** Which 64 KB blocks of the address space hold heap memory, by block number. */
  type Heap = bv32 -> bool

  predicate IsHeapPointer(heap: Heap, v: bv32) {
    0x0001_0000 <= v <= 0x7ffe_ffff && heap(v >> 16)
  }

  datatype Address = Address(value: bv32)

  type Ordinals = map<Address, bv32>

  function OrdinalOf(ords: Ordinals, k: bv32): bv32 {
    if Address(k) in ords then ords[Address(k)] else Count(|ords|)
  }

  function Noted(heap: Heap, ords: Ordinals, k: bv32): Ordinals {
    if IsHeapPointer(heap, k) then ords[Address(k) := OrdinalOf(ords, k)] else ords
  }

  function Substituted(heap: Heap, ords: Ordinals, k: bv32): bv32 {
    if IsHeapPointer(heap, k) then Xor(ORDINAL_TAG, OrdinalOf(ords, k)) else k
  }

  /** The numbering after the words, and the words as they are hashed. */
  function Numbering(heap: Heap, ords: Ordinals, ws: seq<bv32>): Ordinals {
    if ws == [] then ords
    else Noted(heap, Numbering(heap, ords, ws[..|ws| - 1]), ws[|ws| - 1])
  }

  function Normalized(heap: Heap, ords: Ordinals, ws: seq<bv32>): (r: seq<bv32>)
    ensures |r| == |ws|
  {
    if ws == [] then []
    else
      var n := |ws| - 1;
      Normalized(heap, ords, ws[..n]) + [Substituted(heap, Numbering(heap, ords, ws[..n]), ws[n])]
  }

  /** The same words up to where the heap objects happen to lie: heap words in the
      same places, equal to one another in the same places, other words equal.
      The two sides may belong to different processes. */
  ghost predicate SameUpToRelocation(heap: Heap, ws: seq<bv32>, other: Heap, vs: seq<bv32>) {
    && |ws| == |vs|
    && (forall i :: 0 <= i < |ws| ==> IsHeapPointer(heap, ws[i]) == IsHeapPointer(other, vs[i]))
    && (forall i :: 0 <= i < |ws| && !IsHeapPointer(heap, ws[i]) ==> ws[i] == vs[i])
    && (forall i, j :: 0 <= i < j < |ws| && IsHeapPointer(heap, ws[i]) ==> (ws[i] == ws[j] <==> vs[i] == vs[j]))
  }

  ghost predicate NotedWords(heap: Heap, ords: Ordinals, ws: seq<bv32>) {
    forall a :: a in ords <==> a.value in ws && IsHeapPointer(heap, a.value)
  }

  lemma {:induction false} NumberingDomain(heap: Heap, ws: seq<bv32>)
    ensures NotedWords(heap, Numbering(heap, map[], ws), ws)
    ensures |Numbering(heap, map[], ws)| <= |ws|
  {
    hide IsHeapPointer;
    if ws != [] {
      var n := |ws| - 1;
      NumberingDomain(heap, ws[..n]);
      assert ws == ws[..n] + [ws[n]];
    }
  }

  /** Two numberings agree on the words so far. */
  ghost predicate Agree(a: Ordinals, ws: seq<bv32>, b: Ordinals, vs: seq<bv32>, heap: Heap) {
    && |a| == |b| && |ws| == |vs|
    && (forall i :: 0 <= i < |ws| && IsHeapPointer(heap, ws[i]) ==>
         && Address(ws[i]) in a && Address(vs[i]) in b
         && a[Address(ws[i])] == b[Address(vs[i])])
  }

  lemma AgreeOnNext(heap: Heap, ws: seq<bv32>, other: Heap, vs: seq<bv32>, n: nat, a: Ordinals, b: Ordinals)
    requires SameUpToRelocation(heap, ws, other, vs) && n < |ws|
    requires NotedWords(heap, a, ws[..n]) && NotedWords(other, b, vs[..n])
    requires Agree(a, ws[..n], b, vs[..n], heap)
    requires IsHeapPointer(heap, ws[n])
    ensures Address(ws[n]) in a <==> Address(vs[n]) in b
    ensures OrdinalOf(a, ws[n]) == OrdinalOf(b, vs[n])
  {
    hide IsHeapPointer;
    if Address(ws[n]) in a {
      var i :| 0 <= i < n && ws[..n][i] == ws[n];
      assert vs[..n][i] == vs[n];
    }
    if Address(vs[n]) in b {
      var i :| 0 <= i < n && vs[..n][i] == vs[n];
      assert ws[..n][i] == ws[n];
    }
  }

  lemma AgreeUpdate(heap: Heap, ws: seq<bv32>, vs: seq<bv32>, n: nat, a: Ordinals, b: Ordinals, o: bv32)
    requires |ws| == |vs| == n + 1 && Agree(a, ws[..n], b, vs[..n], heap)
    requires forall i :: 0 <= i < n && IsHeapPointer(heap, ws[i]) ==> (ws[i] == ws[n] <==> vs[i] == vs[n])
    requires Address(ws[n]) in a <==> Address(vs[n]) in b
    ensures Agree(a[Address(ws[n]) := o], ws, b[Address(vs[n]) := o], vs, heap)
  {
    hide IsHeapPointer;
    var a', b' := a[Address(ws[n]) := o], b[Address(vs[n]) := o];
    forall i | 0 <= i < n && IsHeapPointer(heap, ws[i])
      ensures Address(ws[i]) in a' && Address(vs[i]) in b' && a'[Address(ws[i])] == b'[Address(vs[i])]
    {
      assert ws[..n][i] == ws[i] && vs[..n][i] == vs[i];
    }
  }

  lemma AgreeExtend(heap: Heap, ws: seq<bv32>, vs: seq<bv32>, n: nat, a: Ordinals, b: Ordinals)
    requires |ws| == |vs| == n + 1 && Agree(a, ws[..n], b, vs[..n], heap)
    requires !IsHeapPointer(heap, ws[n])
    ensures Agree(a, ws, b, vs, heap)
  {
    hide IsHeapPointer;
    forall i | 0 <= i < |ws| && IsHeapPointer(heap, ws[i])
      ensures Address(ws[i]) in a && Address(vs[i]) in b && a[Address(ws[i])] == b[Address(vs[i])]
    {
      assert i != n;
      assert ws[..n][i] == ws[i] && vs[..n][i] == vs[i];
    }
  }

  lemma AgreeStep(heap: Heap, ws: seq<bv32>, other: Heap, vs: seq<bv32>, n: nat, a: Ordinals, b: Ordinals)
    requires SameUpToRelocation(heap, ws, other, vs) && n + 1 == |ws|
    requires NotedWords(heap, a, ws[..n]) && NotedWords(other, b, vs[..n])
    requires Agree(a, ws[..n], b, vs[..n], heap)
    ensures Agree(Noted(heap, a, ws[n]), ws, Noted(other, b, vs[n]), vs, heap)
    ensures Substituted(heap, a, ws[n]) == Substituted(other, b, vs[n])
  {
    hide IsHeapPointer, OrdinalOf, NotedWords, Agree;
    if IsHeapPointer(heap, ws[n]) {
      AgreeOnNext(heap, ws, other, vs, n, a, b);
      AgreeUpdate(heap, ws, vs, n, a, b, OrdinalOf(a, ws[n]));
    } else {
      AgreeExtend(heap, ws, vs, n, a, b);
    }
  }

  /** First-appearance numbering does not see where the objects lie. */
  lemma {:induction false} RelocationAgrees(heap: Heap, ws: seq<bv32>, other: Heap, vs: seq<bv32>)
    requires SameUpToRelocation(heap, ws, other, vs)
    ensures Agree(Numbering(heap, map[], ws), ws, Numbering(other, map[], vs), vs, heap)
    ensures Normalized(heap, map[], ws) == Normalized(other, map[], vs)
  {
    if ws != [] {
      var n := |ws| - 1;
      assert SameUpToRelocation(heap, ws[..n], other, vs[..n]) by { hide IsHeapPointer; }
      hide IsHeapPointer, Substituted, Noted, Agree, SameUpToRelocation, NotedWords;
      RelocationAgrees(heap, ws[..n], other, vs[..n]);
      NumberingDomain(heap, ws[..n]);
      NumberingDomain(other, vs[..n]);
      AgreeStep(heap, ws, other, vs, n, Numbering(heap, map[], ws[..n]), Numbering(other, map[], vs[..n]));
    }
  }

  predicate Below(x: bv32, c: bv32) { x < c }

  /** The ordinals given out are distinct. */
  ghost predicate Distinct(ords: Ordinals) {
    && (forall a :: a in ords ==> Below(ords[a], Count(|ords|)))
    && (forall a, b :: a in ords && b in ords && a != b ==> ords[a] != ords[b])
  }

  lemma OneMore(x: bv32, c: bv32)
    requires c < 0x4000_0000
    ensures Below(c, Plus(c, 1))
    ensures Below(x, c) ==> Below(x, Plus(c, 1)) && x != c
  {}

  lemma DistinctStep(ords: Ordinals, a: Address)
    requires Distinct(ords) && a !in ords && |ords| < 0x4000_0000
    ensures Distinct(ords[a := Count(|ords|)])
  {
    var c := Count(|ords|);
    CountSmall(|ords|);
    hide Plus, Below;
    assert Count(|ords| + 1) == Plus(c, 1);
    var ords' := ords[a := c];
    forall b | b in ords' ensures Below(ords'[b], Plus(c, 1)) && (b != a ==> ords'[b] != c) {
      OneMore(ords'[b], c);
    }
  }

  lemma {:induction false} NumberingDistinct(heap: Heap, ws: seq<bv32>)
    requires |ws| < 0x4000_0000
    ensures Distinct(Numbering(heap, map[], ws))
  {
    if ws != [] {
      hide IsHeapPointer, Distinct;
      var n := |ws| - 1;
      NumberingDistinct(heap, ws[..n]);
      NumberingDomain(heap, ws[..n]);
      var ords := Numbering(heap, map[], ws[..n]);
      if IsHeapPointer(heap, ws[n]) && Address(ws[n]) !in ords { DistinctStep(ords, Address(ws[n])); }
      assert Address(ws[n]) in ords ==> ords[Address(ws[n]) := ords[Address(ws[n])]] == ords;
    } else {
      assert Distinct(map[]);
    }
  }

  /** Each word as hashed, read off the final numbering. */
  lemma {:induction false} NormalizedAt(heap: Heap, ws: seq<bv32>, i: nat)
    requires i < |ws|
    ensures IsHeapPointer(heap, ws[i]) ==> Address(ws[i]) in Numbering(heap, map[], ws)
    ensures Normalized(heap, map[], ws)[i] ==
      if IsHeapPointer(heap, ws[i]) then Xor(ORDINAL_TAG, Numbering(heap, map[], ws)[Address(ws[i])]) else ws[i]
  {
    hide IsHeapPointer, Xor;
    var n := |ws| - 1;
    if i < n {
      NormalizedAt(heap, ws[..n], i);
      assert ws[..n][i] == ws[i];
    }
  }

  /** No word outside the heap looks like a substituted one. */
  ghost predicate NoLookalikes(heap: Heap, ws: seq<bv32>) {
    forall i :: 0 <= i < |ws| && !IsHeapPointer(heap, ws[i]) ==> !Tagged(ws[i])
  }

  predicate Tagged(v: bv32) { 0x8000_0000 <= v < 0xc000_0000 }

  lemma TagsStandOut(heap: Heap, o: bv32)
    requires o < 0x4000_0000
    ensures Tagged(Xor(ORDINAL_TAG, o)) && !IsHeapPointer(heap, Xor(ORDINAL_TAG, o))
  {}

  /** The words as hashed hold no heap pointers. */
  lemma NormalizedHasNoPointers(heap: Heap, ws: seq<bv32>, i: nat)
    requires i < |ws| < 0x4000_0000
    ensures !IsHeapPointer(heap, Normalized(heap, map[], ws)[i])
    ensures IsHeapPointer(heap, ws[i]) ==> Tagged(Normalized(heap, map[], ws)[i])
  {
    NormalizedAt(heap, ws, i);
    NumberingDistinct(heap, ws);
    NumberingDomain(heap, ws);
    CountSmall(|Numbering(heap, map[], ws)|);
    hide IsHeapPointer, Tagged, Xor;
    if IsHeapPointer(heap, ws[i]) { TagsStandOut(heap, Numbering(heap, map[], ws)[Address(ws[i])]); }
  }

  lemma {:induction false} PlainWordsStay(heap: Heap, ords: Ordinals, ws: seq<bv32>)
    requires forall i :: 0 <= i < |ws| ==> !IsHeapPointer(heap, ws[i])
    ensures Normalized(heap, ords, ws) == ws && Numbering(heap, ords, ws) == ords
  {
    hide IsHeapPointer;
    if ws != [] { PlainWordsStay(heap, ords, ws[..|ws| - 1]); }
  }

  /** Normalising twice is normalising once. */
  lemma NormalizingIsIdempotent(heap: Heap, ws: seq<bv32>, ords: Ordinals)
    requires |ws| < 0x4000_0000
    ensures var once := Normalized(heap, map[], ws); Normalized(heap, ords, once) == once
  {
    forall i | 0 <= i < |ws| ensures !IsHeapPointer(heap, Normalized(heap, map[], ws)[i]) {
      NormalizedHasNoPointers(heap, ws, i);
    }
    PlainWordsStay(heap, ords, Normalized(heap, map[], ws));
  }

  /** Conversely, equal words after normalising mean equal words up to relocation,
      unless plain data mimics a substituted word. */
  lemma NormalizingKeepsPattern(heap: Heap, ws: seq<bv32>, other: Heap, vs: seq<bv32>)
    requires |ws| == |vs| < 0x4000_0000 && NoLookalikes(heap, ws) && NoLookalikes(other, vs)
    ensures Normalized(heap, map[], ws) == Normalized(other, map[], vs) <==> SameUpToRelocation(heap, ws, other, vs)
  {
    if SameUpToRelocation(heap, ws, other, vs) {
      RelocationAgrees(heap, ws, other, vs);
    } else if Normalized(heap, map[], ws) == Normalized(other, map[], vs) {
      hide IsHeapPointer, Tagged;
      forall i | 0 <= i < |ws|
        ensures IsHeapPointer(heap, ws[i]) == IsHeapPointer(other, vs[i])
        ensures !IsHeapPointer(heap, ws[i]) ==> ws[i] == vs[i]
      {
        NormalizedHasNoPointers(heap, ws, i);
        NormalizedHasNoPointers(other, vs, i);
        NormalizedAt(heap, ws, i);
        NormalizedAt(other, vs, i);
      }
      forall i, j | 0 <= i < j < |ws| && IsHeapPointer(heap, ws[i]) ensures ws[i] == ws[j] <==> vs[i] == vs[j] {
        SameWordTwice(heap, ws, i, j);
        SameWordTwice(other, vs, i, j);
      }
      assert false;
    }
  }

  lemma SameWordTwice(heap: Heap, ws: seq<bv32>, i: nat, j: nat)
    requires i < |ws| < 0x4000_0000 && j < |ws|
    requires IsHeapPointer(heap, ws[i]) && NoLookalikes(heap, ws)
    ensures ws[i] == ws[j] <==> Normalized(heap, map[], ws)[i] == Normalized(heap, map[], ws)[j]
  {
    hide IsHeapPointer, Tagged, Xor;
    NormalizedAt(heap, ws, i);
    NormalizedAt(heap, ws, j);
    NormalizedHasNoPointers(heap, ws, i);
    if IsHeapPointer(heap, ws[j]) && Normalized(heap, map[], ws)[i] == Normalized(heap, map[], ws)[j] {
      NumberingDistinct(heap, ws);
      var ords := Numbering(heap, map[], ws);
      XorInjective(ORDINAL_TAG, ords[Address(ws[i])], ORDINAL_TAG, ords[Address(ws[j])]);
    }
  }

  lemma ApartAppend(ws: seq<bv32>, vs: seq<bv32>, i: nat, w: bv32, v: bv32)
    ensures (ApartAt(ws, vs, i) && w == v) || (ws == vs && w != v && i == |ws|) ==> ApartAt(ws + [w], vs + [v], i)
  {}

  lemma ApartInit(ws: seq<bv32>, vs: seq<bv32>, i: nat)
    requires ApartAt(ws, vs, i)
    ensures var n := |ws| - 1;
      && |vs| == n + 1 && i <= n
      && (i == n ==> ws[..n] == vs[..n] && ws[n] != vs[n])
      && (i < n ==> ApartAt(ws[..n], vs[..n], i) && ws[n] == vs[n] && ws[..n][i] == ws[i] && vs[..n][i] == vs[i])
  {}

  /** A change to one word that is no pointer on either side changes that word only. */
  lemma {:induction false} NormalizedApart(heap: Heap, ords: Ordinals, ws: seq<bv32>, vs: seq<bv32>, i: nat)
    requires ApartAt(ws, vs, i) && !IsHeapPointer(heap, ws[i]) && !IsHeapPointer(heap, vs[i])
    ensures ApartAt(Normalized(heap, ords, ws), Normalized(heap, ords, vs), i)
    ensures Numbering(heap, ords, ws) == Numbering(heap, ords, vs)
  {
    var n := |ws| - 1;
    ApartInit(ws, vs, i);
    var before := Numbering(heap, ords, ws[..n]);
    LastWord(heap, ords, ws);
    LastWord(heap, ords, vs);
    if i == n {
      PlainWord(heap, before, ws[n]);
      PlainWord(heap, before, vs[n]);
    }
    hide IsHeapPointer, ApartAt, Normalized, Numbering, Substituted, Noted;
    if i < n { NormalizedApart(heap, ords, ws[..n], vs[..n], i); }
    ApartAppend(Normalized(heap, ords, ws[..n]), Normalized(heap, ords, vs[..n]), i,
                Substituted(heap, before, ws[n]), Substituted(heap, before, vs[n]));
  }

  lemma LastWord(heap: Heap, ords: Ordinals, ws: seq<bv32>)
    requires ws != []
    ensures var n := |ws| - 1; var before := Numbering(heap, ords, ws[..n]);
      && Normalized(heap, ords, ws) == Normalized(heap, ords, ws[..n]) + [Substituted(heap, before, ws[n])]
      && Numbering(heap, ords, ws) == Noted(heap, before, ws[n])
  {
    hide Substituted, Noted;
  }

  lemma PlainWord(heap: Heap, ords: Ordinals, k: bv32)
    ensures !IsHeapPointer(heap, k) ==> Substituted(heap, ords, k) == k && Noted(heap, ords, k) == ords
  {
    hide IsHeapPointer;
  }

  /** Exactly the words that point into heap blocks of the user address space are replaced. */
  lemma SubstitutedIff(heap: Heap, ords: Ordinals, k: bv32)
    requires OrdinalOf(ords, k) < 0x4000_0000
    ensures Substituted(heap, ords, k) != k <==> 0x0001_0000 <= k <= 0x7ffe_ffff && heap(k >> 16)
  {
    TagsStandOut(heap, OrdinalOf(ords, k));
    hide OrdinalOf, Xor;
  }
}
