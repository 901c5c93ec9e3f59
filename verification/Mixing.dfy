/** The 32-bit mixing hash on words, and why it loses nothing: every step is a
    bijection on 32-bit words. */
module Mixing {

  function Xor(h: bv32, x: bv32): bv32 { h ^ x }
  function TimesC1(k: bv32): bv32 { k * 0xcc9e2d51 }
  function TimesC2(k: bv32): bv32 { k * 0x1b873593 }
  function Rotate15(k: bv32): bv32 { (k << 15) | (k >> 17) }
  function Rotate13(h: bv32): bv32 { (h << 13) | (h >> 19) }
  function Advance(h: bv32): bv32 { h * 5 + 0xe6546b64 }
  function Fold16(h: bv32): bv32 { h ^ (h >> 16) }
  function Fold13(h: bv32): bv32 { h ^ (h >> 13) }
  function TimesF1(h: bv32): bv32 { h * 0x85ebca6b }
  function TimesF2(h: bv32): bv32 { h * 0xc2b2ae35 }

  function Scramble(k: bv32): bv32 { TimesC2(Rotate15(TimesC1(k))) }
  function Round(h: bv32, k: bv32): bv32 { Advance(Rotate13(Xor(h, Scramble(k)))) }
  function Finish(h: bv32): bv32 { Fold16(TimesF2(Fold13(TimesF1(Fold16(h))))) }

  function Absorb(h: bv32, ws: seq<bv32>): bv32 {
    if ws == [] then h else Round(Absorb(h, ws[..|ws| - 1]), ws[|ws| - 1])
  }

  /** What is hashed besides the words: the tail and the length. */
  datatype Rest = Rest(hasTail: bool, tail: bv32, len: bv32)

  function Close(h: bv32, rest: Rest): bv32 {
    Finish(Xor(if rest.hasTail then Xor(h, Scramble(rest.tail)) else h, rest.len))
  }

  function Digest(ws: seq<bv32>, rest: Rest, seed: bv32): bv32 {
    Close(Absorb(seed, ws), rest)
  }

  /** Folding one word into a running total: the digest of its four bytes. */
  function Mixed(h: bv32, v: bv32): bv32 { Digest([v], Rest(false, 0, 4), h) }

  function MixedUpTo(h: bv32, vs: seq<bv32>, n: nat): bv32
    requires n <= |vs|
  {
    if n == 0 then h else Mixed(MixedUpTo(h, vs, n - 1), vs[n - 1])
  }

  function MixedAll(h: bv32, vs: seq<bv32>): bv32 { MixedUpTo(h, vs, |vs|) }

  // Each step is undone: odd multipliers by their inverse modulo 2^32, rotations
  // by rotating back, shifted folds by folding again.

  lemma UndoProducts(k: bv32)
    ensures OverC1(k * 0xcc9e2d51) == k && OverC2(k * 0x1b873593) == k
    ensures OverF1(k * 0x85ebca6b) == k && OverF2(k * 0xc2b2ae35) == k
    ensures Retreat(k * 5 + 0xe6546b64) == k
  {}

  lemma UndoFolds(k: bv32)
    ensures Unfold16(k ^ (k >> 16)) == k && Unfold13(k ^ (k >> 13)) == k
  {}

  function OverC1(s: bv32): bv32 { s * 0xdee13bb1 }
  lemma TimesC1Injective(j: bv32, k: bv32)
    ensures TimesC1(j) == TimesC1(k) ==> j == k
  {
    hide OverC1, OverC2, OverF1, OverF2, Retreat;
    UndoProducts(j);
    UndoProducts(k);
  }

  function OverC2(s: bv32): bv32 { s * 0x56ed309b }
  lemma TimesC2Injective(j: bv32, k: bv32)
    ensures TimesC2(j) == TimesC2(k) ==> j == k
  {
    hide OverC1, OverC2, OverF1, OverF2, Retreat;
    UndoProducts(j);
    UndoProducts(k);
  }

  function Retreat(s: bv32): bv32 { (s - 0xe6546b64) * 0xcccccccd }
  lemma AdvanceInjective(j: bv32, k: bv32)
    ensures Advance(j) == Advance(k) ==> j == k
  {
    hide OverC1, OverC2, OverF1, OverF2, Retreat;
    UndoProducts(j);
    UndoProducts(k);
  }

  function OverF1(s: bv32): bv32 { s * 0xa5cb9243 }
  lemma TimesF1Injective(j: bv32, k: bv32)
    ensures TimesF1(j) == TimesF1(k) ==> j == k
  {
    hide OverC1, OverC2, OverF1, OverF2, Retreat;
    UndoProducts(j);
    UndoProducts(k);
  }

  function OverF2(s: bv32): bv32 { s * 0x7ed1b41d }
  lemma TimesF2Injective(j: bv32, k: bv32)
    ensures TimesF2(j) == TimesF2(k) ==> j == k
  {
    hide OverC1, OverC2, OverF1, OverF2, Retreat;
    UndoProducts(j);
    UndoProducts(k);
  }

  function Unfold16(s: bv32): bv32 { s ^ (s >> 16) }
  lemma Fold16Injective(j: bv32, k: bv32)
    ensures Fold16(j) == Fold16(k) ==> j == k
  {
    hide Unfold16, Unfold13;
    UndoFolds(j);
    UndoFolds(k);
  }

  function Unfold13(s: bv32): bv32 { s ^ (s >> 13) ^ (s >> 26) }
  lemma Fold13Injective(j: bv32, k: bv32)
    ensures Fold13(j) == Fold13(k) ==> j == k
  {
    hide Unfold16, Unfold13;
    UndoFolds(j);
    UndoFolds(k);
  }

  lemma RotationsInjective(h: bv32, g: bv32)
    ensures Rotate15(h) == Rotate15(g) ==> h == g
    ensures Rotate13(h) == Rotate13(g) ==> h == g
  {}

  lemma UndoXor(h: bv32, x: bv32) ensures Xor(h ^ x, x) == h && Xor(h ^ x, h) == x {}

  lemma XorInjective(h: bv32, x: bv32, g: bv32, y: bv32)
    requires Xor(h, x) == Xor(g, y)
    ensures h == g <==> x == y
  {
    assert h ^ x == g ^ y;
    hide Xor;
    UndoXor(h, x);
    UndoXor(g, y);
    assert Xor(h ^ x, x) == h && Xor(h ^ x, h) == x;
  }

  lemma ScrambleInjective(j: bv32, k: bv32)
    ensures Scramble(j) == Scramble(k) ==> j == k
  {
    hide TimesC1, TimesC2, Rotate15;
    TimesC2Injective(Rotate15(TimesC1(j)), Rotate15(TimesC1(k)));
    RotationsInjective(TimesC1(j), TimesC1(k));
    TimesC1Injective(j, k);
  }

  /** A round loses nothing: it is injective in the running hash and in the word. */
  lemma RoundInjective(h: bv32, j: bv32, g: bv32, k: bv32)
    requires Round(h, j) == Round(g, k)
    ensures h == g <==> j == k
  {
    hide Advance, Rotate13, Scramble, Xor;
    AdvanceInjective(Rotate13(Xor(h, Scramble(j))), Rotate13(Xor(g, Scramble(k))));
    RotationsInjective(Xor(h, Scramble(j)), Xor(g, Scramble(k)));
    XorInjective(h, Scramble(j), g, Scramble(k));
    if h == g { ScrambleInjective(j, k); }
  }

  lemma FinishInjective(h: bv32, g: bv32)
    requires Finish(h) == Finish(g)
    ensures h == g
  {
    hide Fold16, Fold13, TimesF1, TimesF2;
    Fold16Injective(TimesF2(Fold13(TimesF1(Fold16(h)))), TimesF2(Fold13(TimesF1(Fold16(g)))));
    TimesF2Injective(Fold13(TimesF1(Fold16(h))), Fold13(TimesF1(Fold16(g))));
    Fold13Injective(TimesF1(Fold16(h)), TimesF1(Fold16(g)));
    TimesF1Injective(Fold16(h), Fold16(g));
    Fold16Injective(h, g);
  }

  lemma CloseInjective(h: bv32, g: bv32, rest: Rest)
    requires Close(h, rest) == Close(g, rest)
    ensures h == g
  {
    hide Finish, Scramble, Xor;
    var x := if rest.hasTail then Xor(h, Scramble(rest.tail)) else h;
    var y := if rest.hasTail then Xor(g, Scramble(rest.tail)) else g;
    FinishInjective(Xor(x, rest.len), Xor(y, rest.len));
    XorInjective(x, rest.len, y, rest.len);
    if rest.hasTail { XorInjective(h, Scramble(rest.tail), g, Scramble(rest.tail)); }
  }

  lemma LengthMatters(h: bv32, rest: Rest, other: Rest)
    requires rest.hasTail == other.hasTail && rest.tail == other.tail && Close(h, rest) == Close(h, other)
    ensures rest.len == other.len
  {
    hide Finish, Scramble, Xor;
    var x := if rest.hasTail then Xor(h, Scramble(rest.tail)) else h;
    FinishInjective(Xor(x, rest.len), Xor(x, other.len));
    XorInjective(x, rest.len, x, other.len);
  }

  lemma TailMatters(h: bv32, rest: Rest, other: Rest)
    requires rest.hasTail && other.hasTail && rest.len == other.len
    requires Close(h, rest) == Close(h, other)
    ensures rest.tail == other.tail
  {
    hide Finish, Scramble, Xor;
    var x, y := Xor(h, Scramble(rest.tail)), Xor(h, Scramble(other.tail));
    FinishInjective(Xor(x, rest.len), Xor(y, other.len));
    XorInjective(x, rest.len, y, other.len);
    XorInjective(h, Scramble(rest.tail), h, Scramble(other.tail));
    ScrambleInjective(rest.tail, other.tail);
  }

  lemma {:induction false} AbsorbInjective(h: bv32, g: bv32, ws: seq<bv32>)
    requires Absorb(h, ws) == Absorb(g, ws)
    ensures h == g
  {
    if ws != [] {
      hide Round;
      var n := |ws| - 1;
      RoundInjective(Absorb(h, ws[..n]), ws[n], Absorb(g, ws[..n]), ws[n]);
      AbsorbInjective(h, g, ws[..n]);
    }
  }

  ghost predicate ApartAt(ws: seq<bv32>, vs: seq<bv32>, i: nat) {
    && |ws| == |vs| && i < |ws| && ws[i] != vs[i]
    && forall k :: 0 <= k < |ws| && k != i ==> ws[k] == vs[k]
  }

  /** A change to exactly one word changes the running hash. */
  lemma {:induction false} AbsorbSensitive(h: bv32, ws: seq<bv32>, vs: seq<bv32>, i: nat)
    requires ApartAt(ws, vs, i)
    ensures Absorb(h, ws) != Absorb(h, vs)
  {
    hide Round;
    var n := |ws| - 1;
    var x, y := Absorb(h, ws[..n]), Absorb(h, vs[..n]);
    if i == n {
      assert ws[..n] == vs[..n];
    } else {
      AbsorbSensitive(h, ws[..n], vs[..n], i);
    }
    if Round(x, ws[n]) == Round(y, vs[n]) { RoundInjective(x, ws[n], y, vs[n]); }
  }

  /** A digest is injective in its seed. */
  lemma DigestSeed(ws: seq<bv32>, rest: Rest, seed: bv32, other: bv32)
    requires Digest(ws, rest, seed) == Digest(ws, rest, other)
    ensures seed == other
  {
    hide Close;
    CloseInjective(Absorb(seed, ws), Absorb(other, ws), rest);
    AbsorbInjective(seed, other, ws);
  }

  /** A change to exactly one word, to the tail alone, or to the length alone, changes the
      digest. */
  lemma DigestSensitive(ws: seq<bv32>, vs: seq<bv32>, rest: Rest, other: Rest, seed: bv32)
    requires (rest == other && exists i :: ApartAt(ws, vs, i))
      || (ws == vs && rest.hasTail && other == rest.(tail := other.tail) && rest.tail != other.tail)
      || (ws == vs && other == rest.(len := other.len) && rest.len != other.len)
    ensures Digest(ws, rest, seed) != Digest(vs, other, seed)
  {
    hide Close;
    if Digest(ws, rest, seed) == Digest(vs, other, seed) {
      if rest == other {
        var i :| ApartAt(ws, vs, i);
        AbsorbSensitive(seed, ws, vs, i);
        CloseInjective(Absorb(seed, ws), Absorb(seed, vs), rest);
      } else if rest.len == other.len {
        TailMatters(Absorb(seed, ws), rest, other);
      } else {
        LengthMatters(Absorb(seed, ws), rest, other);
      }
    }
  }

  /** Mixing is injective in the total and in the word mixed in. */
  lemma MixedInjective(h: bv32, v: bv32, g: bv32, w: bv32)
    requires Mixed(h, v) == Mixed(g, w)
    ensures h == g <==> v == w
  {
    hide Digest;
    if v == w {
      DigestSeed([v], Rest(false, 0, 4), h, g);
    } else if h == g {
      assert ApartAt([v], [w], 0);
      DigestSensitive([v], [w], Rest(false, 0, 4), Rest(false, 0, 4), h);
    }
  }

  lemma {:induction false} MixedUpToSensitive(h: bv32, vs: seq<bv32>, ws: seq<bv32>, i: nat, n: nat)
    requires ApartAt(vs, ws, i) && n <= |vs|
    ensures MixedUpTo(h, vs, n) == MixedUpTo(h, ws, n) <==> n <= i
  {
    hide Mixed;
    if n > 0 {
      MixedUpToSensitive(h, vs, ws, i, n - 1);
      var x, y := MixedUpTo(h, vs, n - 1), MixedUpTo(h, ws, n - 1);
      if Mixed(x, vs[n - 1]) == Mixed(y, ws[n - 1]) { MixedInjective(x, vs[n - 1], y, ws[n - 1]); }
    }
  }
}
