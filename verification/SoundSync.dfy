/** Sound reconciliation.

    The simulation plays its sounds on a silent stub manager. The audible
    manager shadows it and is brought into agreement after every rollback. */
module SoundSync {

  type Voice(==)   // an adapter's mixing parameters: flags, position, volume, fade, state

  // -------------------------------------------------------------- requests

  /** The arguments of a sound request. `position` is compared as a pointer. */
  datatype What = What(sheet: nat, cue: nat, kind: nat, flags: nat, position: nat)

  /** The metadata kept per adapter. */
  datatype Request = Request(live: bool, frame: int, handle: nat, what: What)

  predicate IsEqual(a: Request, b: Request) {
    && a.what.cue == b.what.cue
    && a.what.sheet == b.what.sheet
    && a.what.flags == b.what.flags
    && a.what.kind == b.what.kind
    && a.what.position == b.what.position
  }

  const FAILED: nat := 0xffff_ffff

  /** A handle carries its adapter index in the upper half. */
  function IndexOf(handle: nat): nat { handle / 0x1_0000 }

  // --------------------------------------------------------------- pairing

  /** First fit over the first `n` stubs: each live one, in order, takes the
      first live equal audible player no earlier stub took. */
  ghost predicate PairedUpTo(stub: seq<Request>, audible: seq<Request>, f: seq<int>, n: nat) {
    && |f| == |stub| && n <= |stub|
    && (forall s :: n <= s < |stub| ==> f[s] == -1)
    && (forall s :: 0 <= s < n && f[s] != -1 ==>
         0 <= f[s] < |audible| && stub[s].live && audible[f[s]].live && IsEqual(stub[s], audible[f[s]]))
    && (forall s, t :: 0 <= s < t < n && f[s] != -1 ==> f[s] != f[t])
    && (forall s, r :: 0 <= s < n && Wanted(stub, audible, f, s, r) ==> exists t :: 0 <= t < s && f[t] == r)
  }

  /** Stub `s` could have played on `r`, which comes before its own player. */
  predicate Wanted(stub: seq<Request>, audible: seq<Request>, f: seq<int>, s: int, r: int) {
    && 0 <= s < |stub| && s < |f|
    && 0 <= r < |audible| && (f[s] == -1 || r < f[s])
    && stub[s].live && audible[r].live && IsEqual(stub[s], audible[r])
  }

  ghost predicate Pairing(stub: seq<Request>, audible: seq<Request>, f: seq<int>) {
    PairedUpTo(stub, audible, f, |stub|)
  }

  lemma PairNext(stub: seq<Request>, audible: seq<Request>, f: seq<int>, n: nat, r: int)
    requires n < |stub| && PairedUpTo(stub, audible, f, n)
    requires r != -1 ==>
      0 <= r < |audible| && stub[n].live && audible[r].live && IsEqual(stub[n], audible[r]) && r !in f[..n]
    requires forall q | 0 <= q < |audible| && (r == -1 || q < r) ::
      stub[n].live && audible[q].live && IsEqual(stub[n], audible[q]) ==> q in f[..n]
    ensures PairedUpTo(stub, audible, f[n := r], n + 1)
  {
    var g := f[n := r];
    forall s, q | 0 <= s < n + 1 && Wanted(stub, audible, g, s, q) ensures exists t :: 0 <= t < s && g[t] == q {
      if s < n {
        assert Wanted(stub, audible, f, s, q);
        var t :| 0 <= t < s && f[t] == q;
        assert g[t] == q;
      } else {
        assert q in f[..n];
        var t :| 0 <= t < n && f[..n][t] == q;
        assert g[t] == q;
      }
    }
  }

  method PairLiveSounds(stub: seq<Request>, audible: seq<Request>)
    returns (audibleForStub: array<int>, audiblePaired: array<bool>)
    ensures fresh(audibleForStub) && fresh(audiblePaired)
    ensures Pairing(stub, audible, audibleForStub[..])
    ensures audibleForStub.Length == |stub| && forall s :: 0 <= s < |stub| ==> -1 <= audibleForStub[s] < |audible|
    ensures audiblePaired.Length == |audible|
    ensures forall r :: 0 <= r < |audible| ==> (audiblePaired[r] <==> r in audibleForStub[..])
  {
    audibleForStub := new int[|stub|](_ => -1);
    audiblePaired := new bool[|audible|](_ => false);
    for s := 0 to |stub|
      invariant PairedUpTo(stub, audible, audibleForStub[..], s)
      invariant forall r :: 0 <= r < |audible| ==> (audiblePaired[r] <==> r in audibleForStub[..s])
    {
      ghost var f := audibleForStub[..];
      assert f[s := -1] == f && f[..s + 1] == f[..s] + [-1];
      if !stub[s].live {
        PairNext(stub, audible, f, s, -1);
        continue;
      }
      for r := 0 to |audible|
        invariant audibleForStub[..] == f
        invariant forall q :: 0 <= q < |audible| ==> (audiblePaired[q] <==> q in f[..s])
        invariant forall q :: 0 <= q < r && audible[q].live && IsEqual(stub[s], audible[q]) ==> audiblePaired[q]
      {
        if audiblePaired[r] || !audible[r].live || !IsEqual(stub[s], audible[r]) { continue; }
        audiblePaired[r] := true;
        audibleForStub[s] := r;
        break;
      }
      ghost var r := audibleForStub[s];
      assert audibleForStub[..] == f[s := r] && audibleForStub[..s + 1] == f[..s] + [r];
      PairNext(stub, audible, f, s, r);
    }
    assert audibleForStub[..|stub|] == audibleForStub[..];
  }

  // ------------------------------------------------ the pairing is maximum

  /** Live adapters playing one given request. */
  ghost function Playing(meta: seq<Request>, w: What): set<int> {
    set i | 0 <= i < |meta| && meta[i].live && meta[i].what == w
  }

  ghost function PairedStubs(f: seq<int>): set<int> {
    set s | 0 <= s < |f| && f[s] != -1
  }

  /** Any way at all of giving live stubs distinct live equal players. */
  ghost predicate Matching(stub: seq<Request>, audible: seq<Request>, g: seq<int>) {
    && |g| == |stub|
    && (forall s :: 0 <= s < |g| && g[s] != -1 ==>
         0 <= g[s] < |audible| && stub[s].live && audible[g[s]].live && stub[s].what == audible[g[s]].what)
    && (forall s, t :: 0 <= s < t < |g| && g[s] != -1 ==> g[s] != g[t])
  }

  ghost function Pick<T>(s: set<T>): (x: T)
    requires s != {}
    ensures x in s
  {
    var x :| x in s;
    x
  }

  /** Distinct images: a set is no larger than the set it maps into. */
  lemma {:induction false} InjectionBound(a: set<int>, b: set<int>, m: map<int, int>)
    requires a <= m.Keys && (forall x :: x in a ==> m[x] in b)
    requires forall x, y :: x in a && y in a && x != y ==> m[x] != m[y]
    ensures |a| <= |b|
  {
    if a != {} {
      var x := Pick(a);
      InjectionBound(a - {x}, b - {m[x]}, m);
    }
  }

  /** Within a request class first fit leaves no stub and player both waiting:
      either every live stub of the class is paired or every live player is. */
  lemma ClassExhausted(stub: seq<Request>, audible: seq<Request>, f: seq<int>, w: What)
    requires Pairing(stub, audible, f)
    ensures Playing(stub, w) <= PairedStubs(f) || forall r :: r in Playing(audible, w) ==> r in f
  {
    if s :| s in Playing(stub, w) && s !in PairedStubs(f) {
      forall r | r in Playing(audible, w) ensures r in f {
        assert Wanted(stub, audible, f, s, r);
      }
    }
  }

  ghost function Owner(f: seq<int>, r: int): (s: int)
    requires r in f
    ensures 0 <= s < |f| && f[s] == r
  {
    var s :| 0 <= s < |f| && f[s] == r;
    s
  }

  lemma PairsAtMost(stub: seq<Request>, audible: seq<Request>, f: seq<int>, w: What)
    requires Pairing(stub, audible, f)
    ensures |Playing(stub, w) * PairedStubs(f)| <= |Playing(stub, w)|
    ensures |Playing(stub, w) * PairedStubs(f)| <= |Playing(audible, w)|
  {
    var paired := Playing(stub, w) * PairedStubs(f);
    InjectionBound(paired, Playing(stub, w), map s | s in paired :: s);
    InjectionBound(paired, Playing(audible, w), map s | s in paired :: f[s]);
  }

  lemma PlayersAllPaired(stub: seq<Request>, audible: seq<Request>, f: seq<int>, w: What)
    requires Pairing(stub, audible, f)
    requires forall r :: r in Playing(audible, w) ==> r in f
    ensures |Playing(audible, w)| <= |Playing(stub, w) * PairedStubs(f)|
  {
    var players := Playing(audible, w);
    InjectionBound(players, Playing(stub, w) * PairedStubs(f),
                   map r | r in players :: if r in f then Owner(f, r) else -1);
  }

  /** Per request class exactly min(live stubs, live players) pairs are made. */
  lemma PairsPerClass(stub: seq<Request>, audible: seq<Request>, f: seq<int>, w: What)
    requires Pairing(stub, audible, f)
    ensures |Playing(stub, w) * PairedStubs(f)| ==
      if |Playing(stub, w)| <= |Playing(audible, w)| then |Playing(stub, w)| else |Playing(audible, w)|
  {
    PairsAtMost(stub, audible, f, w);
    ClassExhausted(stub, audible, f, w);
    if Playing(stub, w) <= PairedStubs(f) {
      assert Playing(stub, w) * PairedStubs(f) == Playing(stub, w);
    } else {
      PlayersAllPaired(stub, audible, f, w);
    }
  }

  /** No assignment of distinct live equal players serves more stubs. */
  lemma PairingIsMaximum(stub: seq<Request>, audible: seq<Request>, f: seq<int>, g: seq<int>)
    requires Pairing(stub, audible, f) && Matching(stub, audible, g)
    ensures |PairedStubs(g)| <= |PairedStubs(f)|
  {
    // A stub of an exhausted class goes to whoever first fit gave its player;
    // any other is paired by first fit itself.
    var m := map s | s in PairedStubs(g) ::
      if Playing(stub, stub[s].what) <= PairedStubs(f) then s else if g[s] in f then Owner(f, g[s]) else -1;
    forall s | s in PairedStubs(g) ensures m[s] in PairedStubs(f) && stub[m[s]].what == stub[s].what {
      ClassExhausted(stub, audible, f, stub[s].what);
      assert s in Playing(stub, stub[s].what) && g[s] in Playing(audible, stub[s].what);
    }
    InjectionBound(PairedStubs(g), PairedStubs(f), m);
  }

  /** If every class has as many live players as live stubs, all are paired. */
  lemma BalancedMeansAllPaired(stub: seq<Request>, audible: seq<Request>, f: seq<int>)
    requires Pairing(stub, audible, f)
    requires forall w :: |Playing(stub, w)| == |Playing(audible, w)|
    ensures forall s :: 0 <= s < |stub| && stub[s].live ==> f[s] != -1
    ensures forall r :: 0 <= r < |audible| && audible[r].live ==> r in f
  {
    forall s | 0 <= s < |stub| && stub[s].live ensures f[s] != -1 {
      var w := stub[s].what;
      PairsPerClass(stub, audible, f, w);
      if f[s] == -1 {
        assert s in Playing(stub, w);
        InjectionBound(Playing(stub, w) * PairedStubs(f), Playing(stub, w) - {s},
                       map t | t in Playing(stub, w) * PairedStubs(f) :: t);
      }
    }
    forall r | 0 <= r < |audible| && audible[r].live ensures r in f {
      var w := audible[r].what;
      var stubs, players := Playing(stub, w), Playing(audible, w);
      if r !in f {
        assert r in players;
        InjectionBound(stubs, players - {r}, map s | s in stubs :: f[s]);
      }
    }
  }

  // -------------------------------------------------------------- managers

  /** Calls that reach the engine behind one manager. */
  datatype Call = Start(what: What, reply: nat) | Stop(handle: nat)

  datatype Manager = Manager(
    isStub: bool,
    meta: seq<Request>,      // one entry per adapter
    voice: seq<Voice>,
    queue: seq<Request>,     // stops the audible side has not seen yet
    calls: seq<Call>)

  function Busy(meta: seq<Request>): (b: seq<bool>)
    ensures |b| == |meta| && forall i :: 0 <= i < |b| ==> b[i] == meta[i].live
  {
    seq(|meta|, i requires 0 <= i < |meta| => meta[i].live)
  }

  /** The engine's PlaySound: its reply may depend on everything called so far,
      on which adapters are still playing, and on the request. */
  type Player = (seq<Call>, seq<bool>, What) -> nat

  /** A reply is a failure or names an adapter of this manager. */
  ghost predicate InRange(player: Player, n: nat) {
    forall calls: seq<Call>, busy: seq<bool>, w: What :: |busy| == n ==>
      player(calls, busy, w) == FAILED || IndexOf(player(calls, busy, w)) < n
  }

  /** The contract: while some adapter is free, a free one is returned. */
  ghost predicate PlaysOnFree(player: Player, n: nat) {
    forall calls: seq<Call>, busy: seq<bool>, w: What :: |busy| == n && false in busy ==>
      player(calls, busy, w) != FAILED && IndexOf(player(calls, busy, w)) < n && !busy[IndexOf(player(calls, busy, w))]
  }

  predicate Valid(m: Manager) {
    && |m.voice| == |m.meta|
    && forall i :: 0 <= i < |m.meta| && m.meta[i].live ==> IndexOf(m.meta[i].handle) == i
  }

  function StopSpec(m: Manager, handle: nat): Manager
    requires IndexOf(handle) < |m.meta|
  {
    var i := IndexOf(handle);
    var stopped := m.meta[i].(live := false);
    m.(meta := m.meta[i := stopped],
       queue := if m.isStub then m.queue + [stopped] else m.queue,
       calls := m.calls + [Stop(handle)])
  }

  /** The live sound that started first; the lowest adapter among equals. */
  ghost predicate IsOldest(meta: seq<Request>, i: int) {
    && 0 <= i < |meta| && meta[i].live
    && (forall j :: 0 <= j < |meta| && meta[j].live ==> meta[i].frame <= meta[j].frame)
    && (forall j :: 0 <= j < i && meta[j].live ==> meta[i].frame < meta[j].frame)
  }

  function Oldest(meta: seq<Request>): (i: int)
    ensures i == -1 ==> forall j :: 0 <= j < |meta| ==> !meta[j].live
    ensures i != -1 ==> IsOldest(meta, i)
  {
    if meta == [] then -1
    else
      var n := |meta| - 1;
      var i := Oldest(meta[..n]);
      if meta[n].live && (i == -1 || meta[n].frame < meta[i].frame) then n else i
  }

  function Ask(m: Manager, player: Player, w: What): Manager {
    m.(calls := m.calls + [Start(w, player(m.calls, Busy(m.meta), w))])
  }

  /** Metadata after the engine put the sound on the adapter named by `handle`.
      On a stub, an interrupted sound counts as stopped. */
  function Started(m: Manager, frame: int, w: What, handle: nat): Manager
    requires IndexOf(handle) < |m.meta|
  {
    var i := IndexOf(handle);
    m.(meta := m.meta[i := Request(true, frame, handle, w)],
       queue := if m.isStub && m.meta[i].live then m.queue + [m.meta[i]] else m.queue)
  }

  /** Play, making room by stopping the oldest sound when the engine is full. */
  function PlaySpec(m: Manager, player: Player, frame: int, w: What): (r: (Manager, nat))
    requires Valid(m) && InRange(player, |m.meta|)
    ensures Valid(r.0) && |r.0.meta| == |m.meta|
  {
    var first := player(m.calls, Busy(m.meta), w);
    var m1 := Ask(m, player, w);
    var oldest := Oldest(m1.meta);
    var retry := first == FAILED && oldest != -1;
    var m2 := if retry then StopSpec(m1, m1.meta[oldest].handle) else m1;
    var out := if retry then player(m2.calls, Busy(m2.meta), w) else first;
    var m3 := if retry then Ask(m2, player, w) else m2;
    if out == FAILED then (m3, out) else (Started(m3, frame, w, out), out)
  }

  /** A sound the engine takes is noted on its adapter; on a stub the one it interrupts
      is queued as stopped. */
  ghost predicate Placed(m: Manager, frame: int, w: What, out: nat, r: Manager) {
    var i := IndexOf(out);
    && i < |m.meta| && r.meta == m.meta[i := Request(true, frame, out, w)]
    && r.queue == if m.isStub && m.meta[i].live then m.queue + [m.meta[i]] else m.queue
  }

  /** What playing comes to: a sound the engine takes at once is placed. If it is full, the
      sound that has played longest is stopped and the engine asked once more; only a second
      failure, or having nothing to stop, ends without a sound. */
  lemma PlayMakesRoom(m: Manager, player: Player, frame: int, w: What, oldest: int)
    requires Valid(m) && InRange(player, |m.meta|)
    requires if exists i :: IsOldest(m.meta, i) then IsOldest(m.meta, oldest) else oldest == -1
    ensures var (r, out) := PlaySpec(m, player, frame, w);
      var first := player(m.calls, Busy(m.meta), w);
      var asked := m.calls + [Start(w, first)];
      if first != FAILED then
        out == first && r.calls == asked && Placed(m, frame, w, out, r)
      else if oldest == -1 then
        out == FAILED && r == m.(calls := asked)
      else
        var gone := m.meta[oldest].(live := false);
        var told := asked + [Stop(m.meta[oldest].handle)];
        var quiet := m.(meta := m.meta[oldest := gone], calls := told,
                        queue := if m.isStub then m.queue + [gone] else m.queue);
        && out == player(told, Busy(quiet.meta), w) && r.calls == told + [Start(w, out)]
        && if out == FAILED then r.meta == quiet.meta && r.queue == quiet.queue else Placed(quiet, frame, w, out, r)
  {
    OldestIsOne(m.meta, oldest);
    hide InRange;
  }

  lemma OldestIsOne(meta: seq<Request>, oldest: int)
    requires if exists i :: IsOldest(meta, i) then IsOldest(meta, oldest) else oldest == -1
    ensures Oldest(meta) == oldest
  {
    if Oldest(meta) != -1 { assert IsOldest(meta, Oldest(meta)); }
  }

  /** An engine that never refuses while an adapter is free always ends up playing. */
  lemma PlayNeverFails(m: Manager, player: Player, frame: int, w: What)
    requires Valid(m) && InRange(player, |m.meta|) && PlaysOnFree(player, |m.meta|) && m.meta != []
    ensures PlaySpec(m, player, frame, w).1 != FAILED
  {
    var first := player(m.calls, Busy(m.meta), w);
    if first == FAILED {
      assert forall i :: 0 <= i < |m.meta| ==> m.meta[i].live by {
        forall i | 0 <= i < |m.meta| ensures m.meta[i].live { assert Busy(m.meta)[i] == m.meta[i].live; }
      }
      var i := Oldest(m.meta);
      assert !Busy(m.meta[i := m.meta[i].(live := false)])[i];
    }
  }

  /** One of the mod's sound managers: adapter metadata updated in place. */
  class SoundManager {
    const isStub: bool
    const player: Player
    var meta: seq<Request>
    var voice: seq<Voice>
    var queue: seq<Request>
    var calls: seq<Call>

    constructor (isStub: bool, player: Player, voice: seq<Voice>)
      ensures View() == Manager(isStub, seq(|voice|, _ => SILENT), voice, [], []) && Valid(View())
      ensures this.player == player
    {
      this.isStub, this.player := isStub, player;
      meta, this.voice, queue, calls := seq(|voice|, _ => SILENT), voice, [], [];
    }

    ghost function View(): Manager
      reads this
    {
      Manager(isStub, meta, voice, queue, calls)
    }

    method EnginePlay(w: What) returns (handle: nat)
      modifies this`calls
      ensures View() == Ask(old(View()), player, w) && handle == player(old(calls), Busy(meta), w)
    {
      handle := player(calls, Busy(meta), w);
      calls := calls + [Start(w, handle)];
    }

    method StopSound(handle: nat)
      requires IndexOf(handle) < |meta|
      modifies this
      ensures View() == StopSpec(old(View()), handle)
    {
      var i := IndexOf(handle);
      meta := meta[i := meta[i].(live := false)];
      if isStub {
        queue := queue + [meta[i]];
      }
      calls := calls + [Stop(handle)];
    }

    /** The live sound that started first goes, if there is any. */
    method StopOldest() returns (stopped: bool)
      requires Valid(View())
      modifies this
      ensures var m, oldest := old(View()), Oldest(old(View()).meta);
        && stopped == (oldest != -1)
        && View() == if stopped then StopSpec(m, m.meta[oldest].handle) else m
    {
      var oldest := -1;
      for i := 0 to |meta|
        invariant oldest == Oldest(meta[..i])
      {
        assert meta[..i + 1][..i] == meta[..i];
        if !meta[i].live { continue; }
        if oldest == -1 || meta[i].frame < meta[oldest].frame {
          oldest := i;
        }
      }
      assert meta[..|meta|] == meta;
      stopped := oldest != -1;
      if stopped { StopSound(meta[oldest].handle); }
    }

    /** A sound has started; on a stub the one it interrupts counts as stopped. */
    method Note(frame: int, w: What, out: nat)
      requires Valid(View()) && out != FAILED && IndexOf(out) < |meta|
      modifies this
      ensures View() == Started(old(View()), frame, w, out)
    {
      var i := IndexOf(out);
      if meta[i].live {
        if isStub {
          queue := queue + [meta[i]];
        }
      }
      meta := meta[i := Request(true, frame, out, w)];
    }

    method PlaySound(frame: int, w: What) returns (out: nat)
      requires Valid(View()) && InRange(player, |meta|)
      modifies this
      ensures (View(), out) == PlaySpec(old(View()), player, frame, w)
    {
      out := EnginePlay(w);
      if out == FAILED {
        var stopped := StopOldest();
        if stopped { out := EnginePlay(w); }
      }
      if out == FAILED {
        return;
      }
      Note(frame, w, out);
    }

    /** Every adapter is marked stopped; a stub queues every entry. */
    method StopAll()
      modifies this
      ensures View() == old(View()).(
        meta := Hushed(old(meta)),
        queue := if isStub then old(queue) + Hushed(old(meta)) else old(queue))
    {
      ghost var m0, q0 := meta, queue;
      for i := 0 to |meta|
        invariant |meta| == |m0| && voice == old(voice) && calls == old(calls)
        invariant forall j :: 0 <= j < |m0| ==> meta[j] == if j < i then m0[j].(live := false) else m0[j]
        invariant queue == if isStub then q0 + meta[..i] else q0
      {
        ghost var done := meta[..i];
        meta := meta[i := meta[i].(live := false)];
        assert meta[..i + 1] == done + [meta[i]];
        if isStub {
          queue := queue + [meta[i]];
        }
      }
      assert meta[..|m0|] == meta && meta == Hushed(m0);
    }
  }

  function Hushed(meta: seq<Request>): (r: seq<Request>)
    ensures |r| == |meta| && forall i :: 0 <= i < |meta| ==> r[i] == meta[i].(live := false)
  {
    seq(|meta|, i requires 0 <= i < |meta| => meta[i].(live := false))
  }

  const SILENT := Request(false, 0, 0, What(0, 0, 0, 0, 0))

  // ---------------------------------------------------------- reconciliation

  /** A queued stop hits the first live sound with its request and start frame. */
  predicate Targets(q: Request, sound: Request) {
    sound.live && IsEqual(q, sound) && sound.frame == q.frame
  }

  function FirstTarget(meta: seq<Request>, q: Request): (i: nat)
    ensures i <= |meta| && (i < |meta| ==> Targets(q, meta[i]))
    ensures forall j :: 0 <= j < i ==> !Targets(q, meta[j])
  {
    if meta == [] || Targets(q, meta[0]) then 0 else 1 + FirstTarget(meta[1..], q)
  }

  /** Deliver the queued stops, oldest first. */
  function StopQueued(m: Manager, queue: seq<Request>): (r: Manager)
    requires Valid(m)
    ensures Valid(r) && |r.meta| == |m.meta| && r.isStub == m.isStub
  {
    if queue == [] then m
    else
      var r := StopQueued(m, queue[..|queue| - 1]);
      var i := FirstTarget(r.meta, queue[|queue| - 1]);
      if i < |r.meta| then StopSpec(r, r.meta[i].handle) else r
  }

  /** Stop the live players among the first `n` that nobody claimed. */
  function StopUnclaimed(m: Manager, f: seq<int>, n: nat): (r: Manager)
    requires Valid(m) && n <= |m.meta|
    ensures Valid(r) && |r.meta| == |m.meta| && r.isStub == m.isStub
  {
    if n == 0 then m
    else
      var r := StopUnclaimed(m, f, n - 1);
      if r.meta[n - 1].live && n - 1 !in f then StopSpec(r, r.meta[n - 1].handle) else r
  }

  /** The player a stub ends up on. */
  function Adopt(m: Manager, stub: Manager, s: nat, target: nat): Manager
    requires s < |stub.meta| && s < |stub.voice| && target < |m.meta| && target < |m.voice|
  {
    m.(meta := m.meta[target := m.meta[target].(frame := stub.meta[s].frame)],
       voice := m.voice[target := stub.voice[s]])
  }

  /** Walk the first `n` stubs: paired ones update their player, the others
      start a new sound. The second result is each stub's player, or -1. */
  function Reconcile(m: Manager, player: Player, frame: int, stub: Manager, f: seq<int>,
                     n: nat): (r: (Manager, seq<int>))
    requires Valid(m) && Valid(stub) && InRange(player, |m.meta|)
    requires n <= |stub.meta| == |f|
    requires forall s :: 0 <= s < |f| ==> -1 <= f[s] < |m.meta|
    ensures Valid(r.0) && |r.0.meta| == |m.meta| && r.0.isStub == m.isStub
    ensures |r.1| == |f| && (forall s :: n <= s < |f| ==> r.1[s] == f[s])
  {
    if n == 0 then (m, f)
    else
      var p := Reconcile(m, player, frame, stub, f, n - 1);
      ReconcileOne(p.0, player, frame, stub, p.1, n - 1)
  }

  function ReconcileOne(m: Manager, player: Player, frame: int, stub: Manager, c: seq<int>,
                        s: nat): (r: (Manager, seq<int>))
    requires Valid(m) && Valid(stub) && InRange(player, |m.meta|)
    requires s < |stub.meta| == |c| && -1 <= c[s] < |m.meta|
    ensures Valid(r.0) && |r.0.meta| == |m.meta| && r.0.isStub == m.isStub
    ensures |r.1| == |c| && (forall u :: s < u < |c| ==> r.1[u] == c[u])
  {
    if !stub.meta[s].live then (m, c)
    else if c[s] != -1 then (Adopt(m, stub, s, c[s]), c)
    else
      var (m', handle) := PlaySpec(m, player, frame, stub.meta[s].what);
      if handle == FAILED || IndexOf(handle) >= |m'.meta| then (m', c)
      else (Adopt(m', stub, s, IndexOf(handle)), c[s := IndexOf(handle)])
  }

  /** Stub and audible side agree through `t`: a bijection between live stubs
      and live players that preserves request, start frame and voice. */
  ghost predicate Agree(stub: Manager, audible: Manager, t: seq<int>) {
    && |t| == |stub.meta| && |stub.voice| == |stub.meta| && |audible.voice| == |audible.meta|
    && (forall s :: 0 <= s < |t| && stub.meta[s].live ==>
         && 0 <= t[s] < |audible.meta|
         && audible.meta[t[s]].live
         && audible.meta[t[s]].what == stub.meta[s].what
         && audible.meta[t[s]].frame == stub.meta[s].frame
         && audible.voice[t[s]] == stub.voice[s])
    && (forall s, u :: 0 <= s < u < |t| && stub.meta[s].live && stub.meta[u].live ==> t[s] != t[u])
    && (forall r :: 0 <= r < |audible.meta| && audible.meta[r].live ==>
         exists s :: 0 <= s < |t| && stub.meta[s].live && t[s] == r)
  }

  ghost predicate InAgreement(stub: Manager, audible: Manager) {
    exists t :: Agree(stub, audible, t)
  }

  /** Agreement in the making: `c` gives the player each stub has or keeps;
      the first `n` stubs are settled. */
  ghost predicate Midway(stub: Manager, m: Manager, c: seq<int>, n: nat) {
    && |c| == |stub.meta| == |stub.voice| && |m.voice| == |m.meta|
    && (forall s :: 0 <= s < |c| && c[s] != -1 ==>
         && 0 <= c[s] < |m.meta| && stub.meta[s].live && m.meta[c[s]].live
         && m.meta[c[s]].what == stub.meta[s].what
         && (s < n ==> m.meta[c[s]].frame == stub.meta[s].frame && m.voice[c[s]] == stub.voice[s]))
    && (forall s :: 0 <= s < |c| && s < n && stub.meta[s].live ==> c[s] != -1)
    && (forall s, u :: 0 <= s < u < |c| && c[s] != -1 ==> c[s] != c[u])
    && (forall r :: 0 <= r < |m.meta| && m.meta[r].live ==> r in c)
  }

  ghost function UpTo(n: nat): (r: set<int>)
    ensures |r| == n && forall x :: x in r <==> 0 <= x < n
  {
    if n == 0 then {} else UpTo(n - 1) + {n - 1}
  }

  /** If every player has a stub and some stub has none, stubs outnumber players. */
  lemma StubsOutnumber(c: seq<int>, n: nat, players: set<int>, stubs: set<int>)
    requires n < |c| && c[n] == -1
    requires forall s, u :: 0 <= s < u < |c| && c[s] != -1 ==> c[s] != c[u]
    requires forall r :: r in players ==> r in c && r != -1
    requires forall s :: s in stubs <==> 0 <= s < |c|
    ensures |players| < |stubs|
  {
    InjectionBound(players, stubs - {n}, map r | r in players :: if r in c then Owner(c, r) else -1);
  }

  /** Pigeonhole: while some live stub still has no player, a player is free. */
  lemma SomePlayerFree(stub: Manager, m: Manager, c: seq<int>, n: nat)
    requires Midway(stub, m, c, n) && |stub.meta| <= |m.meta|
    requires n < |c| && stub.meta[n].live && c[n] == -1
    ensures false in Busy(m.meta)
  {
    if forall r :: 0 <= r < |m.meta| ==> r in c {
      StubsOutnumber(c, n, UpTo(|m.meta|), UpTo(|c|));
    } else {
      var r :| 0 <= r < |m.meta| && r !in c;
      assert !Busy(m.meta)[r];
    }
  }

  lemma AdoptSettles(stub: Manager, m: Manager, c: seq<int>, n: nat)
    requires Midway(stub, m, c, n) && n < |c| && c[n] != -1
    ensures Midway(stub, Adopt(m, stub, n, c[n]), c, n + 1)
  {
  }

  lemma StartSettles(stub: Manager, m: Manager, player: Player, frame: int, c: seq<int>, n: nat)
    requires Midway(stub, m, c, n) && n < |c| && c[n] == -1 && stub.meta[n].live
    requires Valid(m) && !m.isStub && |stub.meta| <= |m.meta|
    requires InRange(player, |m.meta|) && PlaysOnFree(player, |m.meta|)
    ensures var (r, handle) := PlaySpec(m, player, frame, stub.meta[n].what);
      handle != FAILED && IndexOf(handle) < |m.meta|
      && Midway(stub, Adopt(r, stub, n, IndexOf(handle)), c[n := IndexOf(handle)], n + 1)
  {
    SomePlayerFree(stub, m, c, n);
    var handle := player(m.calls, Busy(m.meta), stub.meta[n].what);
    var i := IndexOf(handle);
    assert !m.meta[i].live;
    forall r | 0 <= r < |m.meta| && (m.meta[r].live || r == i) ensures r in c[n := i] {
      if r == i {
        assert c[n := i][n] == i;
      } else {
        var s := Owner(c, r);
        assert c[n := i][s] == r;
      }
    }
  }

  lemma OneSettles(m: Manager, player: Player, frame: int, stub: Manager, c: seq<int>, s: nat)
    requires Midway(stub, m, c, s) && s < |c|
    requires Valid(m) && Valid(stub) && !m.isStub && |stub.meta| <= |m.meta|
    requires InRange(player, |m.meta|) && PlaysOnFree(player, |m.meta|)
    ensures -1 <= c[s] < |m.meta|
    ensures var one := ReconcileOne(m, player, frame, stub, c, s);
      Midway(stub, one.0, one.1, s + 1)
  {
    if c[s] != -1 {
      AdoptSettles(stub, m, c, s);
    } else if stub.meta[s].live {
      StartSettles(stub, m, player, frame, c, s);
    }
  }

  lemma ReconcileUnfolds(m: Manager, player: Player, frame: int, stub: Manager, f: seq<int>, n: nat)
    requires Valid(m) && Valid(stub) && InRange(player, |m.meta|)
    requires 0 < n <= |stub.meta| == |f|
    requires forall s :: 0 <= s < |f| ==> -1 <= f[s] < |m.meta|
    ensures var p := Reconcile(m, player, frame, stub, f, n - 1);
      -1 <= p.1[n - 1] < |p.0.meta|
      && Reconcile(m, player, frame, stub, f, n) == ReconcileOne(p.0, player, frame, stub, p.1, n - 1)
  {
    hide ReconcileOne, InRange, Valid;
  }

  ghost predicate Settling(stub: Manager, p: (Manager, seq<int>), n: nat) { Midway(stub, p.0, p.1, n) }

  lemma OneMoreSettles(p: (Manager, seq<int>), player: Player, frame: int, stub: Manager, s: nat)
    requires Settling(stub, p, s) && s < |stub.meta| == |p.1| && -1 <= p.1[s] < |p.0.meta|
    requires Valid(p.0) && Valid(stub) && !p.0.isStub && |stub.meta| <= |p.0.meta|
    requires InRange(player, |p.0.meta|) && PlaysOnFree(player, |p.0.meta|)
    ensures Settling(stub, ReconcileOne(p.0, player, frame, stub, p.1, s), s + 1)
  {
    hide ReconcileOne;
    OneSettles(p.0, player, frame, stub, p.1, s);
  }

  lemma {:induction false} ReconcileSettles(m: Manager, player: Player, frame: int, stub: Manager, f: seq<int>, n: nat)
    requires Valid(m) && Valid(stub) && !m.isStub && |stub.meta| <= |m.meta|
    requires InRange(player, |m.meta|) && PlaysOnFree(player, |m.meta|)
    requires n <= |stub.meta| == |f| && Settling(stub, (m, f), 0)
    requires forall s :: 0 <= s < |f| ==> -1 <= f[s] < |m.meta|
    ensures Settling(stub, Reconcile(m, player, frame, stub, f, n), n)
  {
    hide ReconcileOne, PlaysOnFree, InRange, Valid, Midway, Settling;
    if n > 0 {
      ReconcileSettles(m, player, frame, stub, f, n - 1);
      ReconcileUnfolds(m, player, frame, stub, f, n);
      OneMoreSettles(Reconcile(m, player, frame, stub, f, n - 1), player, frame, stub, n - 1);
    }
  }

  lemma {:induction false} StopUnclaimedIs(m: Manager, f: seq<int>, n: nat)
    requires Valid(m) && n <= |m.meta|
    ensures var r := StopUnclaimed(m, f, n);
      && r.voice == m.voice
      && (forall i :: 0 <= i < |m.meta| ==>
            r.meta[i] == if i < n && i !in f then m.meta[i].(live := false) else m.meta[i])
      && ((forall i :: 0 <= i < n && m.meta[i].live ==> i in f) ==> r.calls == m.calls)
  {
    if n > 0 { StopUnclaimedIs(m, f, n - 1); }
  }

  /** With the unclaimed players stopped, the pairing is where reconciling starts. */
  lemma PairingIsMidway(stub: Manager, m: Manager, f: seq<int>)
    requires Valid(m) && Valid(stub) && Pairing(stub.meta, m.meta, f)
    ensures var rest := StopUnclaimed(m, f, |m.meta|);
      Settling(stub, (rest, f), 0) && forall s :: 0 <= s < |f| ==> -1 <= f[s] < |rest.meta|
  {
    var rest := StopUnclaimed(m, f, |m.meta|);
    StopUnclaimedIs(m, f, |m.meta|);
    forall s | 0 <= s < |f| && f[s] != -1 ensures rest.meta[f[s]] == m.meta[f[s]] { assert f[s] in f; }
  }

  /** The reconciliation after the queued stops ends in agreement. */
  lemma SyncAgrees(stub: Manager, m: Manager, player: Player, frame: int, f: seq<int>)
    requires Valid(m) && Valid(stub) && !m.isStub && |stub.meta| <= |m.meta|
    requires InRange(player, |m.meta|) && PlaysOnFree(player, |m.meta|)
    requires Pairing(stub.meta, m.meta, f)
    ensures var (r, t) := Reconcile(StopUnclaimed(m, f, |m.meta|), player, frame, stub, f, |f|);
      Agree(stub, r, t)
  {
    var rest := StopUnclaimed(m, f, |m.meta|);
    PairingIsMidway(stub, m, f);
    ReconcileSettles(rest, player, frame, stub, f, |f|);
    var (r, t) := Reconcile(rest, player, frame, stub, f, |f|);
    forall j | 0 <= j < |r.meta| && r.meta[j].live
      ensures exists s :: 0 <= s < |t| && stub.meta[s].live && t[s] == j
    {
      var s := Owner(t, j);
      assert t[s] == j && stub.meta[s].live;
    }
  }

  lemma {:induction false} ReconcileQuiet(m: Manager, player: Player, frame: int, stub: Manager, f: seq<int>, n: nat)
    requires Valid(m) && Valid(stub) && InRange(player, |m.meta|)
    requires n <= |stub.meta| == |f| && (forall s :: 0 <= s < |f| ==> -1 <= f[s] < |m.meta|)
    requires forall s :: 0 <= s < |f| && stub.meta[s].live ==> f[s] != -1
    ensures Reconcile(m, player, frame, stub, f, n).0.calls == m.calls
    ensures Reconcile(m, player, frame, stub, f, n).1 == f
  {
    if n > 0 { ReconcileQuiet(m, player, frame, stub, f, n - 1); }
  }

  lemma PlayersOwned(stub: Manager, audible: Manager, t: seq<int>, w: What)
    requires Agree(stub, audible, t)
    ensures |Playing(audible.meta, w)| <= |Playing(stub.meta, w)|
  {
    var players := Playing(audible.meta, w);
    var back := map r | r in players :: LiveOwner(stub, t, r);
    forall r | r in players ensures back[r] in Playing(stub.meta, w) && t[back[r]] == r {
      assert exists s :: 0 <= s < |t| && stub.meta[s].live && t[s] == r;
    }
    InjectionBound(players, Playing(stub.meta, w), back);
  }

  lemma AgreementBalances(stub: Manager, audible: Manager, t: seq<int>, w: What)
    requires Agree(stub, audible, t)
    ensures |Playing(stub.meta, w)| == |Playing(audible.meta, w)|
  {
    PlayersOwned(stub, audible, t, w);
    var stubs := Playing(stub.meta, w);
    InjectionBound(stubs, Playing(audible.meta, w), map s | s in stubs :: t[s]);
  }

  ghost function LiveOwner(stub: Manager, t: seq<int>, r: int): (s: int)
    requires |t| == |stub.meta|
    ensures (exists s :: 0 <= s < |t| && stub.meta[s].live && t[s] == r) ==>
      0 <= s < |t| && stub.meta[s].live && t[s] == r
  {
    if s :| 0 <= s < |t| && stub.meta[s].live && t[s] == r then s else -1
  }

  /** Once in agreement, a sync with nothing queued starts and stops nothing. */
  lemma SecondSyncIsQuiet(stub: Manager, m: Manager, player: Player, frame: int, f: seq<int>)
    requires Valid(m) && Valid(stub) && InRange(player, |m.meta|)
    requires InAgreement(stub, m) && Pairing(stub.meta, m.meta, f)
    ensures Reconcile(StopUnclaimed(m, f, |m.meta|), player, frame, stub, f, |f|).0.calls == m.calls
  {
    var t :| Agree(stub, m, t);
    forall w ensures |Playing(stub.meta, w)| == |Playing(m.meta, w)| { AgreementBalances(stub, m, t, w); }
    BalancedMeansAllPaired(stub.meta, m.meta, f);
    StopUnclaimedIs(m, f, |m.meta|);
    ReconcileQuiet(StopUnclaimed(m, f, |m.meta|), player, frame, stub, f, |f|);
  }

  // ------------------------------------------------- what the engine is told

  /** Live adapters playing this request since this frame. */
  ghost function Sounding(meta: seq<Request>, w: What, since: int): set<int> {
    set i | 0 <= i < |meta| && meta[i].live && meta[i].what == w && meta[i].frame == since
  }

  function Queued(queue: seq<Request>, w: What, since: int): nat {
    if queue == [] then 0
    else
      var q := queue[|queue| - 1];
      Queued(queue[..|queue| - 1], w, since) + if q.what == w && q.frame == since then 1 else 0
  }

  function Least(a: int, b: int): int { if a <= b then a else b }

  /** The sounds that queued stops reach: of each request and start frame as many as
      were queued, or all there are. */
  ghost predicate Hit(meta: seq<Request>, queue: seq<Request>, hit: set<int>) {
    && (forall i :: i in hit ==> 0 <= i < |meta| && meta[i].live)
    && forall w, since :: |hit * Sounding(meta, w, since)| == Least(Queued(queue, w, since), |Sounding(meta, w, since)|)
  }

  function StopsIn(calls: seq<Call>): multiset<nat> {
    if calls == [] then multiset{}
    else
      var last := calls[|calls| - 1];
      StopsIn(calls[..|calls| - 1]) + if last.Stop? then multiset{last.handle} else multiset{}
  }

  function StartsIn(calls: seq<Call>, w: What): nat {
    if calls == [] then 0
    else
      var last := calls[|calls| - 1];
      StartsIn(calls[..|calls| - 1], w) + if last.Start? && last.what == w then 1 else 0
  }

  lemma OneMoreCall(calls: seq<Call>, c: Call, w: What)
    ensures StopsIn(calls + [c]) == StopsIn(calls) + if c.Stop? then multiset{c.handle} else multiset{}
    ensures StartsIn(calls + [c], w) == StartsIn(calls, w) + if c.Start? && c.what == w then 1 else 0
  {
    assert (calls + [c])[..|calls|] == calls;
  }

  ghost function Handles(meta: seq<Request>, gone: set<int>): multiset<nat>
    requires forall i :: i in gone ==> 0 <= i < |meta|
  {
    multiset(set i | i in gone :: meta[i].handle)
  }

  lemma OneMoreHandle(m: Manager, gone: set<int>, i: int)
    requires Valid(m) && (forall j :: j in gone ==> 0 <= j < |m.meta| && m.meta[j].live)
    requires 0 <= i < |m.meta| && m.meta[i].live && i !in gone
    ensures Handles(m.meta, gone + {i}) == Handles(m.meta, gone) + multiset{m.meta[i].handle}
  {
    var a, b := set j | j in gone :: m.meta[j].handle, set j | j in gone + {i} :: m.meta[j].handle;
    forall h ensures h in b <==> h in a || h == m.meta[i].handle {
      if h == m.meta[i].handle { assert i in gone + {i}; }
    }
    assert b == a + {m.meta[i].handle};
  }

  /** These sounds are marked stopped, the engine was told so once for each, and
      nothing else has happened. */
  ghost predicate JustStopped(m: Manager, gone: set<int>, r: Manager) {
    && (forall i :: i in gone ==> 0 <= i < |m.meta| && m.meta[i].live)
    && |r.meta| == |m.meta| && r.voice == m.voice && r.isStub == m.isStub
    && (forall i :: 0 <= i < |m.meta| ==> r.meta[i] == if i in gone then m.meta[i].(live := false) else m.meta[i])
    && StopsIn(r.calls) == StopsIn(m.calls) + Handles(m.meta, gone)
    && (forall w :: StartsIn(r.calls, w) == StartsIn(m.calls, w))
  }

  lemma StopOneMore(m: Manager, gone: set<int>, r: Manager, i: int)
    requires Valid(m) && Valid(r) && JustStopped(m, gone, r) && 0 <= i < |r.meta| && r.meta[i].live
    ensures IndexOf(r.meta[i].handle) == i && i !in gone
    ensures JustStopped(m, gone + {i}, StopSpec(r, r.meta[i].handle))
  {
    var r' := StopSpec(r, r.meta[i].handle);
    OneMoreHandle(m, gone, i);
    forall w
      ensures StopsIn(r'.calls) == StopsIn(r.calls) + multiset{m.meta[i].handle}
      ensures StartsIn(r'.calls, w) == StartsIn(r.calls, w)
    {
      OneMoreCall(r.calls, Stop(r.meta[i].handle), w);
    }
    assert StopsIn(m.calls) + Handles(m.meta, gone) + multiset{m.meta[i].handle}
      == StopsIn(m.calls) + Handles(m.meta, gone + {i});
    hide StopsIn, StartsIn, Handles;
  }

  lemma NothingHit(meta: seq<Request>)
    ensures Hit(meta, [], {})
  {
    forall w, since ensures {} * Sounding(meta, w, since) == {} {}
  }

  lemma ClassOneMore(same: set<int>, hit: set<int>, queued: nat, i: int)
    requires i !in hit && |hit * same| == Least(queued, |same|)
    ensures i in same ==> |(hit + {i}) * same| == Least(queued + 1, |same|)
    ensures i !in same ==> |(hit + {i}) * same| == Least(queued, |same|)
  {
    if i in same {
      assert (hit + {i}) * same == hit * same + {i};
      Subset(hit * same + {i}, same);
    } else {
      assert (hit + {i}) * same == hit * same;
    }
  }

  lemma HitOneMore(meta: seq<Request>, queue: seq<Request>, q: Request, hit: set<int>, i: int)
    requires Hit(meta, queue, hit) && 0 <= i < |meta| && Targets(q, meta[i]) && i !in hit
    ensures Hit(meta, queue + [q], hit + {i})
  {
    assert (queue + [q])[..|queue|] == queue;
    forall w, since
      ensures |(hit + {i}) * Sounding(meta, w, since)|
        == Least(Queued(queue + [q], w, since), |Sounding(meta, w, since)|)
    {
      ClassOneMore(Sounding(meta, w, since), hit, Queued(queue, w, since), i);
      hide Least;
    }
  }

  lemma HitAllAlready(meta: seq<Request>, queue: seq<Request>, q: Request, hit: set<int>)
    requires Hit(meta, queue, hit) && forall i :: 0 <= i < |meta| && Targets(q, meta[i]) ==> i in hit
    ensures Hit(meta, queue + [q], hit)
  {
    assert (queue + [q])[..|queue|] == queue;
    forall w, since
      ensures |hit * Sounding(meta, w, since)| == Least(Queued(queue + [q], w, since), |Sounding(meta, w, since)|)
    {
      var same := Sounding(meta, w, since);
      if q.what == w && q.frame == since { assert hit * same == same; }
    }
  }

  lemma Subset(a: set<int>, b: set<int>)
    requires a <= b
    ensures |a| <= |b|
  {
    InjectionBound(a, b, map x | x in a :: x);
  }

  /** Delivering the queued stops reaches exactly those sounds. */
  lemma {:induction false} StopsReach(m: Manager, queue: seq<Request>) returns (hit: set<int>)
    requires Valid(m)
    ensures Hit(m.meta, queue, hit) && JustStopped(m, hit, StopQueued(m, queue))
  {
    if queue == [] {
      hit := {};
      NothingHit(m.meta);
    } else {
      var n := |queue| - 1;
      assert queue == queue[..n] + [queue[n]];
      hit := StopsReach(m, queue[..n]);
      var r := StopQueued(m, queue[..n]);
      var i := FirstTarget(r.meta, queue[n]);
      hide Hit;
      if i < |r.meta| {
        StopOneMore(m, hit, r, i);
        HitOneMore(m.meta, queue[..n], queue[n], hit, i);
        hit := hit + {i};
      } else {
        HitAllAlready(m.meta, queue[..n], queue[n], hit);
      }
    }
  }

  /** Live players among the first `n` that no stub claimed. */
  ghost function Unclaimed(meta: seq<Request>, f: seq<int>, n: nat): set<int>
    requires n <= |meta|
  {
    set i | 0 <= i < n && meta[i].live && i !in f
  }

  lemma {:induction false} UnclaimedStopped(m: Manager, f: seq<int>, n: nat)
    requires Valid(m) && n <= |m.meta|
    ensures JustStopped(m, Unclaimed(m.meta, f, n), StopUnclaimed(m, f, n))
  {
    hide JustStopped, StopSpec, Unclaimed;
    if n == 0 {
      NothingStopped(m, f);
    } else {
      UnclaimedStopped(m, f, n - 1);
      OneMoreStopped(m, f, n - 1, StopUnclaimed(m, f, n - 1));
    }
  }

  lemma NothingStopped(m: Manager, f: seq<int>)
    ensures JustStopped(m, Unclaimed(m.meta, f, 0), m)
  {
    assert Unclaimed(m.meta, f, 0) == {};
    hide StopsIn, StartsIn;
  }

  lemma OneMoreStopped(m: Manager, f: seq<int>, i: nat, r: Manager)
    requires Valid(m) && Valid(r) && i < |m.meta| && JustStopped(m, Unclaimed(m.meta, f, i), r)
    ensures i < |r.meta|
    ensures JustStopped(m, Unclaimed(m.meta, f, i + 1),
                        if r.meta[i].live && i !in f then StopSpec(r, r.meta[i].handle) else r)
  {
    hide JustStopped, StopSpec, Unclaimed, Valid;
    var before := Unclaimed(m.meta, f, i);
    StillThere(m, before, r, f, i);
    OneMoreUnclaimed(m.meta, f, i + 1);
    if r.meta[i].live && i !in f {
      StopOneMore(m, before, r, i);
    } else {
      assert before + {} == before;
    }
  }

  lemma StillThere(m: Manager, before: set<int>, r: Manager, f: seq<int>, i: nat)
    requires i < |m.meta| && before == Unclaimed(m.meta, f, i) && JustStopped(m, before, r)
    ensures i < |r.meta| && r.meta[i] == m.meta[i]
  {
    hide StopsIn, StartsIn, Handles;
  }

  lemma OneMoreUnclaimed(meta: seq<Request>, f: seq<int>, n: nat)
    requires 0 < n <= |meta|
    ensures Unclaimed(meta, f, n)
      == Unclaimed(meta, f, n - 1) + if meta[n - 1].live && n - 1 !in f then {n - 1} else {}
  {}

  /** Live stubs among the first `n` with this request that have no player. */
  ghost function Waiting(stub: seq<Request>, f: seq<int>, w: What, n: nat): set<int>
    requires n <= |stub| == |f|
  {
    set s | 0 <= s < n && stub[s].live && stub[s].what == w && f[s] == -1
  }

  lemma OneMoreWaits(stub: seq<Request>, f: seq<int>, w: What, n: nat)
    requires 0 < n <= |stub| == |f|
    ensures |Waiting(stub, f, w, n)| == |Waiting(stub, f, w, n - 1)|
      + if stub[n - 1].live && stub[n - 1].what == w && f[n - 1] == -1 then 1 else 0
  {
    var before := Waiting(stub, f, w, n - 1);
    if stub[n - 1].live && stub[n - 1].what == w && f[n - 1] == -1 {
      assert Waiting(stub, f, w, n) == before + {n - 1};
    } else {
      assert Waiting(stub, f, w, n) == before;
    }
  }

  /** A stub without a player starts one sound, the others tell the engine nothing. */
  lemma OneStart(p: (Manager, seq<int>), player: Player, frame: int, stub: Manager, s: nat)
    requires Settling(stub, p, s) && s < |stub.meta| == |p.1| && -1 <= p.1[s] < |p.0.meta|
    requires Valid(p.0) && Valid(stub) && !p.0.isStub && |stub.meta| <= |p.0.meta|
    requires InRange(player, |p.0.meta|) && PlaysOnFree(player, |p.0.meta|)
    ensures var r := ReconcileOne(p.0, player, frame, stub, p.1, s).0;
      r.calls == if stub.meta[s].live && p.1[s] == -1
        then p.0.calls + [Start(stub.meta[s].what, player(p.0.calls, Busy(p.0.meta), stub.meta[s].what))]
        else p.0.calls
  {
    if stub.meta[s].live && p.1[s] == -1 {
      SomePlayerFree(stub, p.0, p.1, s);
      hide Midway;
    }
  }

  /** The reconciliation starts one sound for every stub without a player. */
  lemma {:induction false} ReconcileStarts(m: Manager, player: Player, frame: int, stub: Manager, f: seq<int>,
                                           n: nat, w: What)
    requires Valid(m) && Valid(stub) && !m.isStub && |stub.meta| <= |m.meta|
    requires InRange(player, |m.meta|) && PlaysOnFree(player, |m.meta|)
    requires n <= |stub.meta| == |f| && Settling(stub, (m, f), 0)
    requires forall s :: 0 <= s < |f| ==> -1 <= f[s] < |m.meta|
    ensures var r := Reconcile(m, player, frame, stub, f, n).0;
      && StopsIn(r.calls) == StopsIn(m.calls)
      && StartsIn(r.calls, w) == StartsIn(m.calls, w) + |Waiting(stub.meta, f, w, n)|
  {
    hide ReconcileOne, PlaysOnFree, InRange, Valid, Settling, StopsIn, StartsIn, Waiting;
    if n == 0 {
      assert Waiting(stub.meta, f, w, 0) == {} by { NobodyWaits(stub.meta, f, w); }
    } else {
      ReconcileStarts(m, player, frame, stub, f, n - 1, w);
      ReconcileSettles(m, player, frame, stub, f, n - 1);
      ReconcileUnfolds(m, player, frame, stub, f, n);
      var p := Reconcile(m, player, frame, stub, f, n - 1);
      OneStart(p, player, frame, stub, n - 1);
      OneMoreCall(p.0.calls, Start(stub.meta[n - 1].what, player(p.0.calls, Busy(p.0.meta), stub.meta[n - 1].what)), w);
      OneMoreWaits(stub.meta, f, w, n);
    }
  }

  lemma NobodyWaits(stub: seq<Request>, f: seq<int>, w: What)
    requires |stub| == |f|
    ensures Waiting(stub, f, w, 0) == {}
  {}

  /** What one sync tells the engine: it stops the sounds `gone`, among them as many of
      each request and start frame as were queued; of each request it leaves no more than
      the stubs play, and starts what they play beyond that. */
  ghost predicate Accounted(stub: Manager, before: Manager, queue: seq<Request>, calls: seq<Call>, hit: set<int>,
                            gone: set<int>)
  {
    && Hit(before.meta, queue, hit) && hit <= gone
    && (forall i :: i in gone ==> 0 <= i < |before.meta| && before.meta[i].live)
    && StopsIn(calls) == StopsIn(before.calls) + Handles(before.meta, gone)
    && forall w :: Served(stub, before, calls, hit, gone, w)
  }

  /** Of the sounds with this request the stops leave at most as many as the stubs play;
      for every stub beyond that one is started. */
  ghost predicate Served(stub: Manager, before: Manager, calls: seq<Call>, hit: set<int>, gone: set<int>, w: What) {
    var left := |Playing(before.meta, w) - gone|;
    && left == Least(|Playing(stub.meta, w)|, |Playing(before.meta, w) - hit|)
    && StartsIn(calls, w) == StartsIn(before.calls, w) + |Playing(stub.meta, w)| - left
  }

  ghost predicate AccountedFor(stub: Manager, before: Manager, queue: seq<Request>, calls: seq<Call>) {
    exists hit, gone :: Accounted(stub, before, queue, calls, hit, gone)
  }

  lemma {:induction false} HandlesUnion(m: Manager, a: set<int>, b: set<int>)
    requires Valid(m) && a !! b
    requires forall i :: i in a ==> 0 <= i < |m.meta| && m.meta[i].live
    requires forall i :: i in b ==> 0 <= i < |m.meta| && m.meta[i].live
    ensures Handles(m.meta, a + b) == Handles(m.meta, a) + Handles(m.meta, b)
    decreases |b|
  {
    if b == {} {
      assert a + b == a;
    } else {
      var i := Pick(b);
      HandlesUnion(m, a, b - {i});
      OneMoreHandle(m, a + (b - {i}), i);
      OneMoreHandle(m, b - {i}, i);
      assert a + (b - {i}) + {i} == a + b && b - {i} + {i} == b;
      hide Handles;
    }
  }

  lemma StoppedApart(m: Manager, a: set<int>, mid: Manager, b: set<int>, r: Manager)
    requires JustStopped(m, a, mid) && JustStopped(mid, b, r)
    ensures a !! b && (forall i :: i in b ==> 0 <= i < |m.meta| && m.meta[i].live)
    ensures Handles(mid.meta, b) == Handles(m.meta, b)
    ensures forall i :: 0 <= i < |m.meta| ==> r.meta[i] == if i in a + b then m.meta[i].(live := false) else m.meta[i]
  {
    hide StopsIn, StartsIn;
    forall i | i in b ensures i !in a { assert mid.meta[i].live; }
    forall i | i in b ensures mid.meta[i] == m.meta[i] {}
    forall i | 0 <= i < |m.meta|
      ensures r.meta[i] == if i in a + b then m.meta[i].(live := false) else m.meta[i]
    {
      assert mid.meta[i] == if i in a then m.meta[i].(live := false) else m.meta[i];
    }
    assert (set i | i in b :: mid.meta[i].handle) == (set i | i in b :: m.meta[i].handle);
  }

  lemma JustStoppedTwice(m: Manager, a: set<int>, mid: Manager, b: set<int>, r: Manager)
    requires Valid(m) && JustStopped(m, a, mid) && JustStopped(mid, b, r)
    ensures a !! b && JustStopped(m, a + b, r)
  {
    hide Handles, StopsIn, StartsIn, Valid;
    StoppedApart(m, a, mid, b, r);
    HandlesUnion(m, a, b);
  }

  /** Live players somebody claimed. */
  ghost function Taken(audible: seq<Request>, f: seq<int>, w: What): set<int> {
    Playing(audible, w) - Unclaimed(audible, f, |audible|)
  }

  lemma TakenBounds(stub: seq<Request>, audible: seq<Request>, f: seq<int>, w: What)
    requires Pairing(stub, audible, f)
    ensures |Taken(audible, f, w)| == |Playing(stub, w) * PairedStubs(f)|
  {
    var taken, paired := Taken(audible, f, w), Playing(stub, w) * PairedStubs(f);
    InjectionBound(paired, taken, map s | s in paired :: f[s]);
    var back := map r | r in taken :: if r in f then Owner(f, r) else -1;
    forall r | r in taken ensures r in f && back[r] in paired {}
    InjectionBound(taken, paired, back);
  }

  /** As many players are taken as stubs are paired. */
  lemma TakenPlayers(stub: seq<Request>, audible: seq<Request>, f: seq<int>, w: What)
    requires Pairing(stub, audible, f)
    ensures |Taken(audible, f, w)| == Least(|Playing(stub, w)|, |Playing(audible, w)|)
    ensures |Waiting(stub, f, w, |f|)| == |Playing(stub, w)| - |Taken(audible, f, w)|
  {
    TakenBounds(stub, audible, f, w);
    PairsPerClass(stub, audible, f, w);
    WaitingRest(stub, f, w);
    hide Taken, Pairing, Waiting, Playing, PairedStubs;
  }

  lemma WaitingRest(stub: seq<Request>, f: seq<int>, w: What)
    requires |stub| == |f|
    ensures |Waiting(stub, f, w, |f|)| == |Playing(stub, w)| - |Playing(stub, w) * PairedStubs(f)|
  {
    assert Waiting(stub, f, w, |f|) == Playing(stub, w) - (Playing(stub, w) * PairedStubs(f));
  }

  /** The account of one class of sounds. */
  lemma ClassServed(stub: Manager, before: Manager, hit: set<int>, m: Manager, player: Player, frame: int, f: seq<int>,
                    w: What)
    requires Valid(before) && Valid(m) && Valid(stub) && !m.isStub && |stub.meta| <= |m.meta|
    requires InRange(player, |m.meta|) && PlaysOnFree(player, |m.meta|)
    requires Pairing(stub.meta, m.meta, f) && JustStopped(before, hit, m)
    requires forall s :: 0 <= s < |f| ==> -1 <= f[s] < |m.meta|
    requires StartsIn(StopUnclaimed(m, f, |m.meta|).calls, w) == StartsIn(before.calls, w)
    ensures var rest := StopUnclaimed(m, f, |m.meta|);
      var calls := Reconcile(rest, player, frame, stub, f, |f|).0.calls;
      && Served(stub, before, calls, hit, hit + Unclaimed(m.meta, f, |m.meta|), w)
      && StopsIn(calls) == StopsIn(rest.calls)
  {
    hide Settling, PlaysOnFree, InRange, Valid, StopsIn, StartsIn, Waiting, Playing, Unclaimed, Least;
    PairingIsMidway(stub, m, f);
    TakenPlayers(stub.meta, m.meta, f, w);
    PlayingAfter(before, hit, m, w);
    ReconcileStarts(StopUnclaimed(m, f, |m.meta|), player, frame, stub, f, |f|, w);
    var un := Unclaimed(m.meta, f, |m.meta|);
    assert Playing(before.meta, w) - hit - un == Playing(before.meta, w) - (hit + un);
    hide Pairing, JustStopped, Reconcile, StopUnclaimed;
  }

  lemma SyncAccounts(stub: Manager, before: Manager, queue: seq<Request>, player: Player, frame: int, f: seq<int>)
    requires Valid(before) && Valid(stub) && !before.isStub && |stub.meta| <= |before.meta|
    requires InRange(player, |before.meta|) && PlaysOnFree(player, |before.meta|)
    requires Pairing(stub.meta, StopQueued(before, queue).meta, f)
    requires forall s :: 0 <= s < |f| ==> -1 <= f[s] < |before.meta|
    ensures var m := StopQueued(before, queue);
      AccountedFor(stub, before, queue, Reconcile(StopUnclaimed(m, f, |m.meta|), player, frame, stub, f, |f|).0.calls)
  {
    var m := StopQueued(before, queue);
    var rest := StopUnclaimed(m, f, |m.meta|);
    var calls := Reconcile(rest, player, frame, stub, f, |f|).0.calls;
    var hit := StopsReach(before, queue);
    var un := Unclaimed(m.meta, f, |m.meta|);
    UnclaimedStopped(m, f, |m.meta|);
    hide PlaysOnFree, InRange, Valid, StopsIn, StartsIn, Playing, Hit, Handles, StopUnclaimed, Served;
    hide Reconcile, StopQueued, Unclaimed, Pairing;
    JustStoppedTwice(before, hit, m, un, rest);
    forall w ensures Served(stub, before, calls, hit, hit + un, w) && StopsIn(calls) == StopsIn(rest.calls) {
      ClassServed(stub, before, hit, m, player, frame, f, w);
    }
    ClassServed(stub, before, hit, m, player, frame, f, What(0, 0, 0, 0, 0));
    assert Accounted(stub, before, queue, calls, hit, hit + un);
  }

  lemma AllOfThem(hit: set<int>, same: set<int>)
    requires |hit * same| == |same|
    ensures same <= hit
  {
    forall i | i in same ensures i in hit {
      if i !in hit { Subset(hit * same, same - {i}); }
    }
  }

  /** If queued stops reach every real sound with this request, each is stopped and every
      stub that plays it, retriggered since, is started anew. */
  lemma RetriggeredIsRestarted(stub: Manager, before: Manager, queue: seq<Request>, calls: seq<Call>, w: What, i: int)
    requires AccountedFor(stub, before, queue, calls) && i in Playing(before.meta, w)
    requires forall r :: r in Playing(before.meta, w) ==>
      Queued(queue, w, before.meta[r].frame) >= |Sounding(before.meta, w, before.meta[r].frame)|
    ensures StartsIn(calls, w) == StartsIn(before.calls, w) + |Playing(stub.meta, w)|
    ensures before.meta[i].handle in StopsIn(calls)
  {
    var hit, gone :| Accounted(stub, before, queue, calls, hit, gone);
    forall r | r in Playing(before.meta, w) ensures r in hit {
      AllOfThem(hit, Sounding(before.meta, w, before.meta[r].frame));
    }
    assert Served(stub, before, calls, hit, gone, w);
    assert Playing(before.meta, w) - hit == {} && Playing(before.meta, w) - gone == {};
    assert before.meta[i].handle in Handles(before.meta, gone);
  }

  lemma PlayingAfter(m: Manager, gone: set<int>, r: Manager, w: What)
    requires JustStopped(m, gone, r)
    ensures Playing(r.meta, w) == Playing(m.meta, w) - gone
  {}

  // -------------------------------------------------------------- the methods

  /** Everything one sync does to the audible manager, given the pairing. */
  ghost predicate Synced(stub: Manager, before: Manager, queue: seq<Request>, player: Player, frame: int,
                         after: Manager, t: seq<int>)
    requires Valid(stub) && Valid(before) && InRange(player, |before.meta|)
  {
    exists f :: SyncedBy(stub, StopQueued(before, queue), player, frame, after, t, f)
  }

  ghost predicate SyncedBy(stub: Manager, m: Manager, player: Player, frame: int, after: Manager, t: seq<int>,
                           f: seq<int>)
    requires Valid(stub) && Valid(m) && InRange(player, |m.meta|)
  {
    && Pairing(stub.meta, m.meta, f)
    && (after, t) == Reconcile(StopUnclaimed(m, f, |m.meta|), player, frame, stub, f, |f|)
  }

  /** Agreement and the account of calls, from what was done. */
  lemma SyncComesTo(stub: Manager, before: Manager, player: Player, frame: int, after: Manager, t: seq<int>,
                    f: seq<int>)
    requires Valid(stub) && Valid(before) && !before.isStub && InRange(player, |before.meta|)
    requires SyncedBy(stub, StopQueued(before, stub.queue), player, frame, after, t, f)
    ensures Synced(stub, before, stub.queue, player, frame, after, t)
    ensures PlaysOnFree(player, |before.meta|) && |stub.meta| <= |before.meta| ==>
      Agree(stub, after, t) && AccountedFor(stub, before, stub.queue, after.calls)
    ensures InAgreement(stub, before) && stub.queue == [] ==> after.calls == before.calls
  {
    hide InAgreement, AccountedFor, InRange, PlaysOnFree, Agree, SyncedBy, Valid, StopQueued;
    if PlaysOnFree(player, |before.meta|) && |stub.meta| <= |before.meta| {
      SyncSettles(stub, before, player, frame, after, t, f);
    }
    if InAgreement(stub, before) && stub.queue == [] {
      SyncStaysQuiet(stub, before, player, frame, after, t, f);
    }
  }

  lemma SyncSettles(stub: Manager, before: Manager, player: Player, frame: int, after: Manager, t: seq<int>,
                    f: seq<int>)
    requires Valid(stub) && Valid(before) && !before.isStub && InRange(player, |before.meta|)
    requires SyncedBy(stub, StopQueued(before, stub.queue), player, frame, after, t, f)
    requires PlaysOnFree(player, |before.meta|) && |stub.meta| <= |before.meta|
    ensures Agree(stub, after, t) && AccountedFor(stub, before, stub.queue, after.calls)
  {
    PairingInRange(stub.meta, StopQueued(before, stub.queue).meta, f);
    hide AccountedFor, InRange, PlaysOnFree, Agree, StopQueued, Valid, StopUnclaimed, Reconcile, PairedUpTo;
    SyncAgrees(stub, StopQueued(before, stub.queue), player, frame, f);
    SyncAccounts(stub, before, stub.queue, player, frame, f);
  }

  lemma PairingInRange(stub: seq<Request>, audible: seq<Request>, f: seq<int>)
    requires Pairing(stub, audible, f)
    ensures |f| == |stub| && forall s :: 0 <= s < |f| ==> -1 <= f[s] < |audible|
  {}

  lemma SyncStaysQuiet(stub: Manager, before: Manager, player: Player, frame: int, after: Manager, t: seq<int>,
                       f: seq<int>)
    requires Valid(stub) && Valid(before) && InRange(player, |before.meta|)
    requires SyncedBy(stub, StopQueued(before, []), player, frame, after, t, f) && InAgreement(stub, before)
    ensures after.calls == before.calls
  {
    assert StopQueued(before, []) == before;
    hide InRange, InAgreement, Valid, StopUnclaimed, Reconcile, PairedUpTo;
    SecondSyncIsQuiet(stub, before, player, frame, f);
  }

  method DeliverStops(stub: SoundManager, audible: SoundManager)
    requires stub != audible && Valid(audible.View()) && !audible.isStub
    modifies audible
    ensures audible.View() == StopQueued(old(audible.View()), stub.queue)
    ensures exists hit ::
      Hit(old(audible.meta), stub.queue, hit) && JustStopped(old(audible.View()), hit, audible.View())
  {
    ghost var m := audible.View();
    hide Hit, JustStopped;
    for n := 0 to |stub.queue|
      invariant audible.View() == StopQueued(m, stub.queue[..n])
    {
      var stopped := stub.queue[n];
      assert stub.queue[..n + 1][..n] == stub.queue[..n];
      ghost var r := audible.View();
      for i := 0 to |audible.meta|
        invariant audible.View() == r
        invariant forall j :: 0 <= j < i ==> !Targets(stopped, r.meta[j])
      {
        if !audible.meta[i].live { continue; }
        if IsEqual(stopped, audible.meta[i]) && audible.meta[i].frame == stopped.frame {
          assert FirstTarget(r.meta, stopped) == i;
          audible.StopSound(audible.meta[i].handle);
          break;
        }
      }
    }
    assert stub.queue[..|stub.queue|] == stub.queue;
    ghost var _ := StopsReach(m, stub.queue);
  }

  method StopUnpaired(audible: SoundManager, paired: array<bool>, ghost f: seq<int>)
    requires Valid(audible.View()) && paired.Length == |audible.meta|
    requires forall r :: 0 <= r < paired.Length ==> (paired[r] <==> r in f)
    modifies audible
    ensures audible.View() == StopUnclaimed(old(audible.View()), f, |old(audible.meta)|)
  {
    ghost var m := audible.View();
    for i := 0 to |audible.meta|
      invariant audible.View() == StopUnclaimed(m, f, i)
    {
      if audible.meta[i].live && !paired[i] {
        audible.StopSound(audible.meta[i].handle);
      }
    }
  }

  method ReconcileStub(stub: SoundManager, audible: SoundManager, frame: int, players: array<int>, s: nat)
    requires stub != audible && Valid(stub.View()) && Valid(audible.View())
    requires InRange(audible.player, |audible.meta|)
    requires s < |stub.meta| == players.Length && -1 <= players[s] < |audible.meta|
    modifies audible, players
    ensures (audible.View(), players[..]) ==
            ReconcileOne(old(audible.View()), audible.player, frame, stub.View(), old(players[..]), s)
  {
    if !stub.meta[s].live { return; }
    var target := players[s];
    if target == -1 {
      var handle := audible.PlaySound(frame, stub.meta[s].what);
      if handle == FAILED { return; }
      target := IndexOf(handle);
      if target < 0 || target >= |audible.meta| { return; }
      players[s] := target;
    }
    audible.meta := audible.meta[target := audible.meta[target].(frame := stub.meta[s].frame)];
    audible.voice := audible.voice[target := stub.voice[s]];
  }

  /** Bring one shadow manager into agreement with its stub. */
  method SyncManager(stub: SoundManager, audible: SoundManager, frame: int) returns (players: array<int>)
    requires stub.isStub && !audible.isStub && Valid(stub.View()) && Valid(audible.View())
    requires InRange(audible.player, |audible.meta|)
    modifies stub`queue, audible
    ensures fresh(players) && Valid(audible.View()) && |audible.meta| == |old(audible.meta)|
    ensures stub.queue == []
    ensures Synced(old(stub.View()), old(audible.View()), old(stub.queue), audible.player, frame,
                   audible.View(), players[..])
    ensures PlaysOnFree(audible.player, |audible.meta|) && |stub.meta| <= |audible.meta| ==>
      Agree(stub.View(), audible.View(), players[..])
    ensures PlaysOnFree(audible.player, |audible.meta|) && |stub.meta| <= |audible.meta| ==>
      AccountedFor(old(stub.View()), old(audible.View()), old(stub.queue), audible.calls)
    ensures old(InAgreement(stub.View(), audible.View()) && stub.queue == []) ==> audible.calls == old(audible.calls)
  {
    hide ReconcileOne, InAgreement, StopUnclaimed, PairedUpTo, AccountedFor, Hit, JustStopped;
    ghost var now, before, player := stub.View(), audible.View(), audible.player;
    DeliverStops(stub, audible);
    ghost var m := audible.View();
    var paired;
    players, paired := PairLiveSounds(stub.meta, audible.meta);
    ghost var f := players[..];
    StopUnpaired(audible, paired, f);
    ghost var rest := audible.View();
    for s := 0 to |stub.meta|
      invariant players.Length == |stub.meta| && stub.View() == now
      invariant (audible.View(), players[..]) == Reconcile(rest, player, frame, now, f, s)
    {
      ReconcileStub(stub, audible, frame, players, s);
    }
    stub.queue := [];
    SyncComesTo(now, before, player, frame, audible.View(), players[..], f);
  }

  /** A stub and its shadow, as the factory makes them. */
  ghost predicate Shadowed(stub: SoundManager, audible: SoundManager)
    reads stub, audible
  {
    && stub.isStub && !audible.isStub && |stub.meta| == |audible.meta|
    && Valid(stub.View()) && Valid(audible.View())
    && InRange(audible.player, |audible.meta|) && PlaysOnFree(audible.player, |audible.meta|)
  }

  ghost predicate Settled(stub: SoundManager, audible: SoundManager)
    reads stub, audible
  {
    InAgreement(stub.View(), audible.View()) && stub.queue == []
  }

  method SyncShadow(stub: SoundManager, audible: SoundManager, frame: int)
    requires Shadowed(stub, audible)
    modifies stub`queue, audible
    ensures Shadowed(stub, audible) && Settled(stub, audible)
    ensures AccountedFor(old(stub.View()), old(audible.View()), old(stub.queue), audible.calls)
    ensures old(Settled(stub, audible)) ==> audible.calls == old(audible.calls)
  {
    hide AccountedFor;
    var players := SyncManager(stub, audible, frame);
  }

  lemma StubsAreNoShadows(stub: SoundManager, audible: SoundManager, stub': SoundManager, audible': SoundManager)
    ensures Shadowed(stub, audible) && Shadowed(stub', audible') ==> stub != audible'
  {}

  /** The mod's sync: every stub manager and its shadow, in turn. */
  method SyncState(stubs: seq<SoundManager>, shadows: seq<SoundManager>, frame: int)
    requires |stubs| == |shadows| && forall i :: 0 <= i < |stubs| ==> Shadowed(stubs[i], shadows[i])
    requires forall i, j :: 0 <= i < j < |stubs| ==> stubs[i] != stubs[j] && shadows[i] != shadows[j]
    modifies (set x | x in stubs)`queue, set x | x in shadows
    ensures forall i :: 0 <= i < |stubs| ==> Shadowed(stubs[i], shadows[i]) && Settled(stubs[i], shadows[i])
    ensures forall i :: 0 <= i < |stubs| ==>
      old(Settled(stubs[i], shadows[i])) ==> shadows[i].calls == old(shadows[i].calls)
    ensures forall i :: 0 <= i < |stubs| ==>
      AccountedFor(old(stubs[i].View()), old(shadows[i].View()), old(stubs[i].queue), shadows[i].calls)
  {
    hide Shadowed, Settled, AccountedFor;
    forall i, j | 0 <= i < |stubs| && 0 <= j < |stubs| ensures stubs[i] != shadows[j] {
      StubsAreNoShadows(stubs[i], shadows[i], stubs[j], shadows[j]);
    }
    for n := 0 to |stubs|
      invariant forall i :: 0 <= i < |stubs| ==>
        Shadowed(stubs[i], shadows[i]) && (i < n ==> Settled(stubs[i], shadows[i]))
      invariant forall i :: 0 <= i < |stubs| ==>
        (old(Settled(stubs[i], shadows[i])) || n <= i ==> shadows[i].calls == old(shadows[i].calls))
      invariant forall i :: 0 <= i < n ==>
        AccountedFor(old(stubs[i].View()), old(shadows[i].View()), old(stubs[i].queue), shadows[i].calls)
      invariant forall i :: n <= i < |stubs| ==>
        stubs[i].View() == old(stubs[i].View()) && shadows[i].View() == old(shadows[i].View())
      invariant forall i :: n <= i < |stubs| ==> old(Settled(stubs[i], shadows[i])) ==> Settled(stubs[i], shadows[i])
    {
      ghost var stub, audible := stubs[n], shadows[n];
      SyncShadow(stubs[n], shadows[n], frame);
      assert forall i :: 0 <= i < |stubs| && i != n ==>
        stubs[i] != stub && shadows[i] != audible && stubs[i] != audible && shadows[i] != stub;
    }
  }
}
