/** One client's half of desync detection: state snapshots taken every second are
    sent to the peer and compared with the peer's. */
module SnapshotSync {
  import opened BattleState
  import opened Extremes

  const SNAPSHOT_INTERVAL := 60
  const MIN_SETTLED_DEPTH := 60

  /** A snapshot; the whole record is compared. */
  datatype Snapshot = Snapshot(frame: nat, state: Bytes)

  datatype Entry = Entry(snapshot: Snapshot, sent: bool, confirmed: bool)

  datatype Client = Client(snapshots: map<nat, Entry>, pending: map<nat, Snapshot>, spectator: bool)

  /** What a client does with a snapshot of its own. */
  datatype Act = Sends(mine: Snapshot) | Compares(mine: Snapshot, theirs: Snapshot)

  /** A client after a step, and what it did, in order. */
  datatype Outcome = Outcome(client: Client, acts: seq<Act>)

  function Then(first: Outcome, second: Outcome): Outcome { Outcome(second.client, first.acts + second.acts) }

  function Capture(c: Client, frame: nat, state: Bytes): Client {
    if frame % SNAPSHOT_INTERVAL != 0 then c
    else c.(snapshots := c.snapshots[frame := Entry(Snapshot(frame, state), false, false)])
  }

  /** An entry goes once it is both sent and confirmed. */
  function Stored(snapshots: map<nat, Entry>, f: nat, e: Entry): map<nat, Entry> {
    if e.sent && e.confirmed then snapshots - {f} else snapshots[f := e]
  }

  function Receive(c: Client, m: Snapshot): Outcome {
    if m.frame in c.snapshots then
      var e := c.snapshots[m.frame];
      Outcome(c.(snapshots := Stored(c.snapshots, m.frame, e.(confirmed := true))), [Compares(e.snapshot, m)])
    else
      Outcome(c.(pending := c.pending[m.frame := m]), [])
  }

  /** One settled snapshot: sent if it was not, compared if the peer's is waiting. */
  function Visit(c: Client, f: nat): Outcome {
    if f !in c.snapshots then Outcome(c, [])
    else
      var e := c.snapshots[f];
      var sends := if e.sent || c.spectator then [] else [Sends(e.snapshot)];
      var meets := !e.confirmed && f in c.pending;
      var compares := if meets then [Compares(e.snapshot, c.pending[f])] else [];
      var pending := if meets then c.pending - {f} else c.pending;
      var stored := Stored(c.snapshots, f, Entry(e.snapshot, true, e.confirmed || meets));
      Outcome(c.(snapshots := stored, pending := pending), sends + compares)
  }

  /** The frames in ascending order, those not yet settled skipped. */
  function Pass(c: Client, frames: set<nat>, mostRecent: int, depth: int): Outcome
    decreases |frames|
  {
    if frames == {} then Outcome(c, [])
    else
      var f := Min(frames);
      var o := if mostRecent - f < depth then Outcome(c, []) else Visit(c, f);
      Then(o, Pass(o.client, frames - {f}, mostRecent, depth))
  }

  function SettledDepth(unconfirmed: int): int {
    if unconfirmed > MIN_SETTLED_DEPTH then unconfirmed else MIN_SETTLED_DEPTH
  }

  function Reconcile(c: Client, mostRecent: int, unconfirmed: int): Outcome {
    Pass(c, c.snapshots.Keys, mostRecent, SettledDepth(unconfirmed))
  }

  lemma VisitTouchesOne(c: Client, f: nat)
    ensures c.snapshots.Keys - {f} <= Visit(c, f).client.snapshots.Keys
  {}

  lemma ThenAssociates(a: Outcome, b: Outcome, c: Outcome)
    ensures Then(Then(a, b), c) == Then(a, Then(b, c))
  {}

  /** What going over the snapshots does with the one of frame `f`: it goes out unless it
      did before or this is a spectator, and meets the peer's if that is waiting. */
  ghost predicate Does(c: Client, f: nat, act: Act) {
    f in c.snapshots &&
    var e := c.snapshots[f];
    match act
    case Sends(mine) => !e.sent && !c.spectator && mine == e.snapshot
    case Compares(mine, theirs) => !e.confirmed && f in c.pending && mine == e.snapshot && theirs == c.pending[f]
  }

  lemma VisitDoes(c: Client, f: nat, act: Act)
    ensures act in Visit(c, f).acts <==> Does(c, f, act)
    ensures forall g: nat :: g != f ==> (Does(Visit(c, f).client, g, act) <==> Does(c, g, act))
    ensures Visit(c, f).client.spectator == c.spectator
  {}

  lemma {:induction false} PassDoes(c: Client, frames: set<nat>, mostRecent: int, depth: int, act: Act)
    ensures act in Pass(c, frames, mostRecent, depth).acts
      <==> exists f :: f in frames && mostRecent - f >= depth && Does(c, f, act)
    decreases |frames|
  {
    if frames != {} {
      hide Visit, Does;
      var f := Min(frames);
      var o := if mostRecent - f < depth then Outcome(c, []) else Visit(c, f);
      VisitDoes(c, f, act);
      PassDoes(o.client, frames - {f}, mostRecent, depth, act);
      assert forall g :: g in frames <==> g == f || g in frames - {f};
    }
  }

  /** A reconciliation sends and compares exactly what is at least 60 frames old and no
      longer to be rolled back; a spectator sends nothing. */
  lemma ReconcileDoes(c: Client, mostRecent: int, unconfirmed: int, act: Act)
    ensures act in Reconcile(c, mostRecent, unconfirmed).acts
      <==> exists f :: mostRecent - f >= 60 && mostRecent - f >= unconfirmed && Does(c, f, act)
  {
    PassDoes(c, c.snapshots.Keys, mostRecent, SettledDepth(unconfirmed), act);
    hide Pass;
  }

  /** A capture is of every sixtieth frame and starts neither sent nor confirmed. */
  lemma CaptureTakes(c: Client, frame: nat, state: Bytes)
    ensures frame % 60 == 0 ==> Does(Capture(c, frame, state), frame, Sends(Snapshot(frame, state))) || c.spectator
    ensures frame % 60 != 0 ==> Capture(c, frame, state) == c
  {}

  // -------------------------------------------------------------- the object

  class SnapshotClient {
    var snapshotMap: map<nat, Entry>
    var pendingRemoteSnapshots: map<nat, Snapshot>
    const spectator: bool

    ghost function View(): Client
      reads this
    {
      Client(snapshotMap, pendingRemoteSnapshots, spectator)
    }

    constructor (spectator: bool)
      ensures View() == Client(map[], map[], spectator)
    {
      snapshotMap, pendingRemoteSnapshots := map[], map[];
      this.spectator := spectator;
    }

    method CaptureSnapshot(frame: nat, state: Bytes)
      modifies this`snapshotMap
      ensures View() == Capture(old(View()), frame, state)
    {
      if frame % SNAPSHOT_INTERVAL != 0 { return; }
      if frame in snapshotMap { snapshotMap := snapshotMap - {frame}; }
      snapshotMap := snapshotMap[frame := Entry(Snapshot(frame, state), false, false)];
    }

    method OnBattleSnapshot(m: Snapshot) returns (acts: seq<Act>)
      modifies this
      ensures Outcome(View(), acts) == Receive(old(View()), m)
    {
      if m.frame in snapshotMap {
        var local := snapshotMap[m.frame].(confirmed := true);
        acts := [Compares(local.snapshot, m)];
        snapshotMap := snapshotMap[m.frame := local];
        if local.sent { snapshotMap := snapshotMap - {m.frame}; }
      } else {
        acts := [];
        pendingRemoteSnapshots := pendingRemoteSnapshots[m.frame := m];
      }
    }

    method VisitOne(f: nat) returns (acts: seq<Act>)
      requires f in snapshotMap
      modifies this
      ensures Outcome(View(), acts) == Visit(old(View()), f)
    {
      acts := [];
      var local := snapshotMap[f];
      if spectator { local := local.(sent := true); }
      if !local.sent {
        local := local.(sent := true);
        acts := [Sends(local.snapshot)];
      }
      if !local.confirmed && f in pendingRemoteSnapshots {
        acts := acts + [Compares(local.snapshot, pendingRemoteSnapshots[f])];
        local := local.(confirmed := true);
        pendingRemoteSnapshots := pendingRemoteSnapshots - {f};
      }
      if local.confirmed && local.sent { snapshotMap := snapshotMap - {f}; }
      else { snapshotMap := snapshotMap[f := local]; }
    }

    method ReconcileSnapshots(mostRecent: int, unconfirmed: int) returns (acts: seq<Act>)
      modifies this
      ensures Outcome(View(), acts) == Reconcile(old(View()), mostRecent, unconfirmed)
    {
      var settledDepth := MIN_SETTLED_DEPTH;
      if unconfirmed > settledDepth { settledDepth := unconfirmed; }
      acts := [];
      var frames := snapshotMap.Keys;
      hide Visit, Min;
      while frames != {}
        invariant frames <= snapshotMap.Keys
        invariant Then(Outcome(View(), acts), Pass(View(), frames, mostRecent, settledDepth))
          == Reconcile(old(View()), mostRecent, unconfirmed)
        decreases |frames|
      {
        ghost var done, before := Outcome(View(), acts), View();
        var f := Min(frames);
        ghost var step := if mostRecent - f < settledDepth then Outcome(before, []) else Visit(before, f);
        if mostRecent - f >= settledDepth {
          var more := VisitOne(f);
          acts := acts + more;
          VisitTouchesOne(before, f);
        }
        frames := frames - {f};
        assert Outcome(View(), acts) == Then(done, step);
        ThenAssociates(done, step, Pass(View(), frames, mostRecent, settledDepth));
      }
    }
  }

  // ------------------------------------------------------------ two clients

  /** A player's history: the latest capture of each frame, what was sent and
      compared for each frame, and whether any frame was twice. */
  datatype History = History(captured: map<nat, Snapshot>, sent: map<nat, Snapshot>, compared: map<nat, Act>,
                             repeated: bool)

  datatype Peer = Peer(client: Client, past: History)

  const NEWCOMER := Peer(Client(map[], map[], false), History(map[], map[], map[], false))

  function Note(h: History, act: Act): History {
    if act.Sends? then
      h.(sent := h.sent[act.mine.frame := act.mine], repeated := h.repeated || act.mine.frame in h.sent)
    else
      h.(compared := h.compared[act.theirs.frame := act], repeated := h.repeated || act.theirs.frame in h.compared)
  }

  function NoteAll(h: History, acts: seq<Act>): History
    decreases |acts|
  {
    if acts == [] then h else NoteAll(Note(h, acts[0]), acts[1..])
  }

  function SentBy(acts: seq<Act>): seq<Snapshot> {
    if acts == [] then [] else (if acts[0].Sends? then [acts[0].mine] else []) + SentBy(acts[1..])
  }

  function After(p: Peer, o: Outcome): Peer { Peer(o.client, NoteAll(p.past, o.acts)) }

  lemma {:induction false} NoteAllConcat(h: History, a: seq<Act>, b: seq<Act>)
    ensures NoteAll(h, a + b) == NoteAll(NoteAll(h, a), b)
    decreases |a|
  {
    if a == [] {
      assert a + b == b;
    } else {
      NoteAllConcat(Note(h, a[0]), a[1..], b);
      assert (a + b)[1..] == a[1..] + b && (a + b)[0] == a[0];
      hide Note;
    }
  }

  lemma {:induction false} SentByConcat(a: seq<Act>, b: seq<Act>)
    ensures SentBy(a + b) == SentBy(a) + SentBy(b)
  {
    if a == [] {
      assert a + b == b;
    } else {
      SentByConcat(a[1..], b);
      assert (a + b)[1..] == a[1..] + b && (a + b)[0] == a[0];
    }
  }

  /** Two players and the snapshots on their way to each. */
  datatype World = World(a: Peer, b: Peer, toA: seq<Snapshot>, toB: seq<Snapshot>)

  const BEGIN := World(NEWCOMER, NEWCOMER, [], [])

  function Flip(w: World): World { World(w.b, w.a, w.toB, w.toA) }

  /** What a player's client does; the link to it delivers in order. */
  datatype Event = Captures(frame: nat, state: Bytes) | Delivers | Reconciles(mostRecent: int, unconfirmed: int)

  function StepA(w: World, e: Event): World {
    match e
    case Captures(frame, state) =>
      var p := w.a.(client := Capture(w.a.client, frame, state));
      w.(a := if frame % SNAPSHOT_INTERVAL != 0 then p
              else p.(past := p.past.(captured := p.past.captured[frame := Snapshot(frame, state)])))
    case Delivers =>
      if w.toA == [] then w
      else w.(a := After(w.a, Receive(w.a.client, w.toA[0])), toA := w.toA[1..])
    case Reconciles(mostRecent, unconfirmed) =>
      var o := Reconcile(w.a.client, mostRecent, unconfirmed);
      w.(a := After(w.a, o), toB := w.toB + SentBy(o.acts))
  }

  function Step(w: World, onA: bool, e: Event): World {
    if onA then StepA(w, e) else Flip(StepA(Flip(w), e))
  }

  /** A frame is only captured again while neither sent nor compared. */
  predicate Timely(p: Peer, e: Event) {
    e.Captures? ==> e.frame !in p.past.sent && e.frame !in p.past.compared
  }

  /** The client's record of frame `f` agrees with its history. */
  ghost predicate OwnAt(p: Peer, f: nat) {
    && (f in p.client.snapshots ==>
         && f in p.past.captured && p.client.snapshots[f].snapshot == p.past.captured[f]
         && (p.client.snapshots[f].sent <==> f in p.past.sent)
         && (p.client.snapshots[f].confirmed <==> f in p.past.compared)
         && !(f in p.past.sent && f in p.past.compared))
    && (f in p.past.captured ==>
         p.past.captured[f].frame == f && (f in p.client.snapshots || (f in p.past.sent && f in p.past.compared)))
    && (f in p.past.sent ==> f in p.past.captured && p.past.sent[f] == p.past.captured[f])
    && (f in p.past.compared ==> f in p.past.captured && p.past.compared[f].mine == p.past.captured[f])
  }

  ghost predicate Own(p: Peer) {
    !p.past.repeated && !p.client.spectator && forall f: nat :: OwnAt(p, f)
  }

  ghost predicate OnTheWay(link: seq<Snapshot>, f: nat) { exists i :: 0 <= i < |link| && link[i].frame == f }

  /** Where the peer's snapshot of `f` is: on the way, waiting, or compared; in one
      place only, and nowhere unless it was sent. */
  ghost predicate InboundAt(p: Peer, theirs: map<nat, Snapshot>, link: seq<Snapshot>, f: nat) {
    && (f in theirs ==> theirs[f].frame == f)
    && (f in theirs <==> f in p.past.compared || f in p.client.pending || OnTheWay(link, f))
    && (f in p.client.pending ==> p.client.pending[f] == theirs[f])
    && (f in p.past.compared ==> p.past.compared[f].Compares? && p.past.compared[f].theirs == theirs[f])
    && !(f in p.past.compared && f in p.client.pending)
    && (OnTheWay(link, f) ==> f !in p.past.compared && f !in p.client.pending)
  }

  ghost predicate Inbound(p: Peer, theirs: map<nat, Snapshot>, link: seq<Snapshot>) {
    && (forall i, j :: 0 <= i < j < |link| ==> link[i].frame != link[j].frame)
    && (forall i :: 0 <= i < |link| ==> link[i].frame in theirs && theirs[link[i].frame] == link[i])
    && (forall f: nat :: InboundAt(p, theirs, link, f))
  }

  ghost predicate Consistent(w: World) {
    Own(w.a) && Own(w.b) && Inbound(w.a, w.b.past.sent, w.toA) && Inbound(w.b, w.a.past.sent, w.toB)
  }

  lemma NoteFew(h: History, acts: seq<Act>)
    requires |acts| <= 2 && (|acts| == 2 ==> acts[1].Compares?)
    ensures NoteAll(h, acts)
      == if acts == [] then h else if |acts| == 1 then Note(h, acts[0]) else Note(Note(h, acts[0]), acts[1])
    ensures SentBy(acts) == if acts != [] && acts[0].Sends? then [acts[0].mine] else []
  {
    if |acts| > 0 {
      assert NoteAll(h, acts) == NoteAll(Note(h, acts[0]), acts[1..]);
      if |acts| == 1 {
        assert acts[1..] == [] && SentBy(acts[1..]) == [];
      } else {
        assert acts[1..] == [acts[1]] && acts[1..][1..] == [] && SentBy([]) == [] && SentBy(acts[1..]) == [];
        assert NoteAll(Note(h, acts[0]), [acts[1]]) == NoteAll(Note(Note(h, acts[0]), acts[1]), []);
      }
    }
  }

  lemma ReceiveFits(p: Peer, theirs: map<nat, Snapshot>, link: seq<Snapshot>)
    requires Own(p) && link != [] && Inbound(p, theirs, link)
    ensures var p' := After(p, Receive(p.client, link[0]));
      Own(p') && Inbound(p', theirs, link[1..]) && p'.past.sent == p.past.sent && p'.past.captured == p.past.captured
  {
    var m, rest := link[0], link[1..];
    var p' := After(p, Receive(p.client, m));
    NoteFew(p.past, Receive(p.client, m).acts);
    assert OnTheWay(link, m.frame) && InboundAt(p, theirs, link, m.frame) && OwnAt(p, m.frame);
    hide NoteAll, SentBy;
    forall i | 0 <= i < |rest| ensures rest[i] == link[i + 1] {}
    forall f: nat ensures OwnAt(p', f) { assert OwnAt(p, f); }
    forall f: nat ensures InboundAt(p', theirs, rest, f) {
      assert InboundAt(p, theirs, link, f);
      RestOfLink(link, f);
    }
  }

  lemma RestOfLink(link: seq<Snapshot>, f: nat)
    requires link != [] && forall i, j :: 0 <= i < j < |link| ==> link[i].frame != link[j].frame
    ensures OnTheWay(link[1..], f) <==> OnTheWay(link, f) && f != link[0].frame
  {
    if i :| 0 <= i < |link| && link[i].frame == f && i > 0 { assert link[1..][i - 1].frame == f; }
    if i :| 0 <= i < |link[1..]| && link[1..][i].frame == f { assert link[i + 1].frame == f; }
  }

  lemma VisitFits(p: Peer, f: nat, theirs: map<nat, Snapshot>, link: seq<Snapshot>)
    requires Own(p) && Inbound(p, theirs, link)
    ensures var p' := After(p, Visit(p.client, f));
      Own(p') && Inbound(p', theirs, link) && p'.past.captured == p.past.captured
  {
    hide OwnAt, InboundAt, After, Visit;
    var p' := After(p, Visit(p.client, f));
    assert OwnAt(p, f) && InboundAt(p, theirs, link, f);
    forall g: nat ensures OwnAt(p', g) && InboundAt(p', theirs, link, g) {
      assert OwnAt(p, g) && InboundAt(p, theirs, link, g);
      VisitFitsAt(p, f, theirs, link, g);
    }
    VisitFitsAt(p, f, theirs, link, f);
  }

  lemma VisitFitsAt(p: Peer, f: nat, theirs: map<nat, Snapshot>, link: seq<Snapshot>, g: nat)
    requires OwnAt(p, f) && InboundAt(p, theirs, link, f)
    requires OwnAt(p, g) && InboundAt(p, theirs, link, g)
    requires !p.past.repeated && !p.client.spectator
    ensures var p' := After(p, Visit(p.client, f));
      && OwnAt(p', g) && InboundAt(p', theirs, link, g)
      && p'.past.captured == p.past.captured && !p'.past.repeated && !p'.client.spectator
  {
    NoteFew(p.past, Visit(p.client, f).acts);
    hide NoteAll, SentBy, OnTheWay;
  }

  lemma MoreOnTheWay(link: seq<Snapshot>, m: Snapshot, f: nat)
    ensures OnTheWay(link + [m], f) <==> OnTheWay(link, f) || f == m.frame
  {
    if i :| 0 <= i < |link| && link[i].frame == f { assert (link + [m])[i].frame == f; }
    assert (link + [m])[|link|] == m;
  }

  /** What a visit sends is new to the other side. */
  lemma VisitReaches(p: Peer, f: nat, q: Peer, onward: seq<Snapshot>)
    requires Own(p) && Inbound(q, p.past.sent, onward)
    ensures Inbound(q, After(p, Visit(p.client, f)).past.sent, onward + SentBy(Visit(p.client, f).acts))
  {
    var p' := After(p, Visit(p.client, f));
    var sends := SentBy(Visit(p.client, f).acts);
    NoteFew(p.past, Visit(p.client, f).acts);
    assert OwnAt(p, f);
    hide NoteAll, SentBy;
    if sends == [] {
      assert onward + sends == onward;
    } else {
      assert InboundAt(q, p.past.sent, onward, f);
      var more := onward + sends;
      assert f !in p.past.sent && sends == [p'.past.sent[f]];
      forall i | 0 <= i < |onward| ensures onward[i].frame in p.past.sent {}
      hide OwnAt, Visit, OnTheWay;
      forall g: nat ensures InboundAt(q, p'.past.sent, more, g) {
        assert InboundAt(q, p.past.sent, onward, g);
        MoreOnTheWay(onward, sends[0], g);
      }
    }
  }

  lemma {:induction false} PassFits(p: Peer, frames: set<nat>, mostRecent: int, depth: int,
                                    theirs: map<nat, Snapshot>, link: seq<Snapshot>, q: Peer, onward: seq<Snapshot>)
    requires Own(p) && Inbound(p, theirs, link) && Inbound(q, p.past.sent, onward)
    ensures var o := Pass(p.client, frames, mostRecent, depth);
      && Own(After(p, o)) && Inbound(After(p, o), theirs, link) && After(p, o).past.captured == p.past.captured
      && Inbound(q, After(p, o).past.sent, onward + SentBy(o.acts))
    decreases |frames|
  {
    hide Own, Inbound, Visit, Min;
    if frames == {} {
      assert onward + SentBy([]) == onward;
    } else {
      var f := Min(frames);
      var skip := mostRecent - f < depth;
      var o := if skip then Outcome(p.client, []) else Visit(p.client, f);
      if skip {
        assert After(p, o) == p && onward + SentBy(o.acts) == onward;
      } else {
        VisitFits(p, f, theirs, link);
        VisitReaches(p, f, q, onward);
      }
      var rest := Pass(o.client, frames - {f}, mostRecent, depth);
      PassFits(After(p, o), frames - {f}, mostRecent, depth, theirs, link, q, onward + SentBy(o.acts));
      NoteAllConcat(p.past, o.acts, rest.acts);
      SentByConcat(o.acts, rest.acts);
      assert onward + SentBy(o.acts) + SentBy(rest.acts) == onward + (SentBy(o.acts) + SentBy(rest.acts));
      assert After(p, Then(o, rest)) == After(After(p, o), rest);
    }
  }

  lemma CaptureFits(p: Peer, frame: nat, state: Bytes, theirs: map<nat, Snapshot>, link: seq<Snapshot>)
    requires Own(p) && Inbound(p, theirs, link) && frame !in p.past.sent && frame !in p.past.compared
    ensures var p' := StepA(World(p, p, link, []), Captures(frame, state)).a;
      Own(p') && Inbound(p', theirs, link) && p'.past.sent == p.past.sent
  {
    var p' := StepA(World(p, p, link, []), Captures(frame, state)).a;
    forall f: nat ensures OwnAt(p', f) && InboundAt(p', theirs, link, f) {
      assert OwnAt(p, f) && InboundAt(p, theirs, link, f);
    }
  }

  lemma StepAKeeps(w: World, e: Event)
    requires Consistent(w) && Timely(w.a, e)
    ensures Consistent(StepA(w, e))
  {
    match e
    case Captures(frame, state) => CaptureFits(w.a, frame, state, w.b.past.sent, w.toA);
    case Delivers => if w.toA != [] { ReceiveFits(w.a, w.b.past.sent, w.toA); }
    case Reconciles(mostRecent, unconfirmed) =>
      PassFits(w.a, w.a.client.snapshots.Keys, mostRecent, SettledDepth(unconfirmed), w.b.past.sent, w.toA, w.b, w.toB);
  }

  datatype Move = Move(onA: bool, event: Event)

  function Run(moves: seq<Move>): World {
    if moves == [] then BEGIN
    else Step(Run(moves[..|moves| - 1]), moves[|moves| - 1].onA, moves[|moves| - 1].event)
  }

  /** Re-captures only hit frames not yet sent nor compared. */
  ghost predicate AllTimely(moves: seq<Move>) {
    forall k :: 0 <= k < |moves| ==>
      Timely(if moves[k].onA then Run(moves[..k]).a else Run(moves[..k]).b, moves[k].event)
  }

  lemma TimelyPrefix(moves: seq<Move>)
    requires AllTimely(moves) && moves != []
    ensures var n := |moves| - 1; var w := Run(moves[..n]);
      AllTimely(moves[..n]) && Timely(if moves[n].onA then w.a else w.b, moves[n].event)
  {
    hide Run, Timely;
    var n := |moves| - 1;
    forall k | 0 <= k < n ensures moves[..n][..k] == moves[..k] && moves[..n][k] == moves[k] {}
  }

  lemma {:induction false} RunIsConsistent(moves: seq<Move>)
    requires AllTimely(moves)
    ensures Consistent(Run(moves))
  {
    if moves == [] {
      forall f: nat ensures OwnAt(NEWCOMER, f) && InboundAt(NEWCOMER, map[], [], f) {}
    } else {
      var n := |moves| - 1;
      TimelyPrefix(moves);
      hide Consistent, StepA, Timely, AllTimely;
      RunIsConsistent(moves[..n]);
      var w := Run(moves[..n]);
      FlipConsistent(w);
      if moves[n].onA {
        StepAKeeps(w, moves[n].event);
      } else {
        StepAKeeps(Flip(w), moves[n].event);
        FlipConsistent(StepA(Flip(w), moves[n].event));
      }
    }
  }

  lemma FlipConsistent(w: World)
    ensures Consistent(w) <==> Consistent(Flip(w))
  {}

  /** In every run each side sends a frame at most once and compares it at most once,
      and what it compares is its own final snapshot against the peer's: a difference
      is seen exactly when the two captured states differ. */
  lemma ComparesOnceAndRight(moves: seq<Move>, f: nat)
    requires AllTimely(moves)
    ensures var w := Run(moves);
      && !w.a.past.repeated && !w.b.past.repeated
      && (f in w.a.past.compared ==>
           && f in w.a.past.captured && f in w.b.past.captured
           && w.a.past.compared[f] == Compares(w.a.past.captured[f], w.b.past.captured[f]))
      && (f in w.b.past.compared ==>
           && f in w.a.past.captured && f in w.b.past.captured
           && w.b.past.compared[f] == Compares(w.b.past.captured[f], w.a.past.captured[f]))
  {
    RunIsConsistent(moves);
    var w := Run(moves);
    hide Run, AllTimely;
    assert OwnAt(w.a, f) && OwnAt(w.b, f) && InboundAt(w.a, w.b.past.sent, w.toA, f) &&
           InboundAt(w.b, w.a.past.sent, w.toB, f);
  }

  /** Every local snapshot has settled, and going over them does nothing more. */
  ghost predicate Idle(c: Client, mostRecent: int, unconfirmed: int) {
    && (forall f :: f in c.snapshots ==> mostRecent - f >= SettledDepth(unconfirmed))
    && Reconcile(c, mostRecent, unconfirmed).acts == []
  }

  lemma {:induction false} IdleMeansNothingToDo(p: Peer, frames: set<nat>, mostRecent: int, depth: int)
    requires Own(p) && frames <= p.client.snapshots.Keys
    requires forall f :: f in frames ==> mostRecent - f >= depth
    requires Pass(p.client, frames, mostRecent, depth).acts == []
    ensures forall f :: f in frames ==> Visit(p.client, f) == Outcome(p.client, [])
    decreases |frames|
  {
    if frames != {} {
      var f := Min(frames);
      assert OwnAt(p, f);
      assert Visit(p.client, f).acts == [];
      assert Visit(p.client, f).client.snapshots == p.client.snapshots;
      assert Visit(p.client, f).client == p.client;
      IdleMeansNothingToDo(p, frames - {f}, mostRecent, depth);
      forall g | g in frames ensures Visit(p.client, g) == Outcome(p.client, []) {
        if g != f { assert g in frames - {f}; }
      }
    }
  }

  /** When both captured the same frames and everything is delivered and gone over,
      nothing is left on either side. */
  lemma QuietMeansClean(moves: seq<Move>, mostRecent: int, unconfirmed: int)
    requires AllTimely(moves)
    requires Run(moves).toA == [] && Run(moves).toB == []
    requires Run(moves).a.past.captured.Keys == Run(moves).b.past.captured.Keys
    requires Idle(Run(moves).a.client, mostRecent, unconfirmed) && Idle(Run(moves).b.client, mostRecent, unconfirmed)
    ensures Run(moves).a.client.snapshots == map[] && Run(moves).a.client.pending == map[]
    ensures Run(moves).b.client.snapshots == map[] && Run(moves).b.client.pending == map[]
    ensures forall f :: f in Run(moves).a.past.captured ==>
      f in Run(moves).a.past.compared && f in Run(moves).b.past.compared
  {
    RunIsConsistent(moves);
    var w := Run(moves);
    hide Run, AllTimely;
    IdleMeansNothingToDo(w.a, w.a.client.snapshots.Keys, mostRecent, SettledDepth(unconfirmed));
    IdleMeansNothingToDo(w.b, w.b.client.snapshots.Keys, mostRecent, SettledDepth(unconfirmed));
    forall f: nat
      ensures f !in w.a.client.snapshots && f !in w.a.client.pending
      ensures f !in w.b.client.snapshots && f !in w.b.client.pending
      ensures f in w.a.past.captured ==> f in w.a.past.compared && f in w.b.past.compared
    {
      assert OwnAt(w.a, f) && OwnAt(w.b, f) && InboundAt(w.a, w.b.past.sent, w.toA, f) &&
             InboundAt(w.b, w.a.past.sent, w.toB, f);
      assert f in w.a.past.captured.Keys <==> f in w.b.past.captured.Keys;
    }
  }

  // --------------------------------------------------------------- catching up

  ghost predicate AllSettled(c: Client, mostRecent: int, unconfirmed: int) {
    forall f :: f in c.snapshots ==> mostRecent - f >= SettledDepth(unconfirmed)
  }

  /** If `f` is still held it was sent, and the peer's is not already here. */
  ghost predicate Done(c: Client, f: nat) { f in c.snapshots ==> c.snapshots[f].sent && f !in c.pending }

  ghost predicate AllDone(c: Client) { forall f: nat :: Done(c, f) }

  lemma VisitGetsDone(p: Peer, f: nat, theirs: map<nat, Snapshot>, link: seq<Snapshot>)
    requires Own(p) && Inbound(p, theirs, link)
    ensures Done(Visit(p.client, f).client, f)
    ensures forall g: nat :: g != f && Done(p.client, g) ==> Done(Visit(p.client, f).client, g)
  {
    assert OwnAt(p, f) && InboundAt(p, theirs, link, f);
  }

  /** Going over settled snapshots gets every one of them done. */
  lemma {:induction false} PassGetsDone(p: Peer, frames: set<nat>, mostRecent: int, depth: int,
                                        theirs: map<nat, Snapshot>, link: seq<Snapshot>)
    requires Own(p) && Inbound(p, theirs, link)
    requires forall f :: f in frames ==> mostRecent - f >= depth
    requires forall f: nat :: f !in frames ==> Done(p.client, f)
    ensures AllDone(Pass(p.client, frames, mostRecent, depth).client)
    decreases |frames|
  {
    hide Own, Inbound, Visit, Done, Min;
    if frames != {} {
      var f := Min(frames);
      var o := Visit(p.client, f);
      VisitFits(p, f, theirs, link);
      VisitGetsDone(p, f, theirs, link);
      PassGetsDone(After(p, o), frames - {f}, mostRecent, depth, theirs, link);
    }
  }

  /** One side goes over its snapshots, all settled. */
  lemma ReconcileGetsDone(w: World, mostRecent: int, unconfirmed: int)
    requires Consistent(w) && AllSettled(w.a.client, mostRecent, unconfirmed)
    ensures var w' := StepA(w, Reconciles(mostRecent, unconfirmed));
      && Consistent(w') && AllDone(w'.a.client) && w'.a.past.captured == w.a.past.captured
      && w'.b == w.b && w'.toA == w.toA
  {
    var depth := SettledDepth(unconfirmed);
    StepAKeeps(w, Reconciles(mostRecent, unconfirmed));
    PassFits(w.a, w.a.client.snapshots.Keys, mostRecent, depth, w.b.past.sent, w.toA, w.b, w.toB);
    assert forall f: nat :: f !in w.a.client.snapshots.Keys ==> Done(w.a.client, f);
    PassGetsDone(w.a, w.a.client.snapshots.Keys, mostRecent, depth, w.b.past.sent, w.toA);
    hide Own, Inbound, Pass, NoteAll, SentBy, AllDone;
  }

  /** Everything on the way to the first side arrives. */
  function Drained(w: World): World
    decreases |w.toA|
  {
    if w.toA == [] then w else Drained(StepA(w, Delivers))
  }

  lemma ReceiveKeepsDone(p: Peer, theirs: map<nat, Snapshot>, link: seq<Snapshot>)
    requires Own(p) && link != [] && Inbound(p, theirs, link) && link[0].frame in p.past.captured && AllDone(p.client)
    ensures AllDone(Receive(p.client, link[0]).client)
  {
    var m := link[0];
    assert OnTheWay(link, m.frame) && InboundAt(p, theirs, link, m.frame) && OwnAt(p, m.frame);
    assert m.frame in p.client.snapshots;
    forall f: nat ensures Done(Receive(p.client, m).client, f) { assert Done(p.client, f); }
  }

  ghost predicate SameFrames(w: World) { w.a.past.captured.Keys == w.b.past.captured.Keys }

  lemma OneArrives(w: World)
    requires Consistent(w) && SameFrames(w) && AllDone(w.a.client) && w.toA != []
    ensures var w' := StepA(w, Delivers);
      && Consistent(w') && SameFrames(w') && AllDone(w'.a.client)
      && w'.b == w.b && w'.toB == w.toB && w'.a.past.sent == w.a.past.sent && w'.a.past.captured == w.a.past.captured
  {
    var f := w.toA[0].frame;
    assert f in w.b.past.sent && OwnAt(w.b, f) && f in w.b.past.captured.Keys;
    ReceiveFits(w.a, w.b.past.sent, w.toA);
    ReceiveKeepsDone(w.a, w.b.past.sent, w.toA);
    hide Own, Inbound, Receive, NoteAll, AllDone, OwnAt;
  }

  lemma {:induction false} DrainKeepsDone(w: World)
    requires Consistent(w) && SameFrames(w) && AllDone(w.a.client)
    ensures var w' := Drained(w);
      && Consistent(w') && SameFrames(w') && AllDone(w'.a.client) && w'.toA == []
      && w'.b == w.b && w'.toB == w.toB && w'.a.past.sent == w.a.past.sent && w'.a.past.captured == w.a.past.captured
    decreases |w.toA|
  {
    hide Consistent, AllDone, SameFrames;
    if w.toA != [] {
      OneArrives(w);
      DrainKeepsDone(StepA(w, Delivers));
    }
  }

  /** Nothing is left, and every frame has been compared on both sides. */
  ghost predicate Clean(w: World) {
    && w.toA == [] && w.toB == []
    && w.a.client.snapshots == map[] && w.a.client.pending == map[]
    && w.b.client.snapshots == map[] && w.b.client.pending == map[]
    && forall f :: f in w.a.past.captured ==> f in w.a.past.compared && f in w.b.past.compared
  }

  lemma DoneAndDelivered(w: World)
    requires Consistent(w) && SameFrames(w) && AllDone(w.a.client) && AllDone(w.b.client) && w.toA == [] && w.toB == []
    ensures Clean(w)
  {
    forall f: nat
      ensures f !in w.a.client.snapshots && f !in w.a.client.pending
      ensures f !in w.b.client.snapshots && f !in w.b.client.pending
      ensures f in w.a.past.captured ==> f in w.a.past.compared && f in w.b.past.compared
    {
      assert OwnAt(w.a, f) && OwnAt(w.b, f) && InboundAt(w.a, w.b.past.sent, w.toA, f) &&
             InboundAt(w.b, w.a.past.sent, w.toB, f);
      assert Done(w.a.client, f) && Done(w.b.client, f);
      assert f in w.a.past.captured.Keys <==> f in w.b.past.captured.Keys;
    }
  }

  /** One pass on each side, then everything delivered. */
  function CaughtUp(w: World, recentA: int, unconfirmedA: int, recentB: int, unconfirmedB: int): World {
    var passed := Step(Step(w, true, Reconciles(recentA, unconfirmedA)), false, Reconciles(recentB, unconfirmedB));
    Flip(Drained(Flip(Drained(passed))))
  }

  lemma BothPassed(w: World, recentA: int, unconfirmedA: int, recentB: int, unconfirmedB: int)
    requires Consistent(w) && SameFrames(w)
    requires AllSettled(w.a.client, recentA, unconfirmedA) && AllSettled(w.b.client, recentB, unconfirmedB)
    ensures var one := Step(w, true, Reconciles(recentA, unconfirmedA));
      var passed := Step(one, false, Reconciles(recentB, unconfirmedB));
      Consistent(passed) && SameFrames(passed) && AllDone(passed.a.client) && AllDone(passed.b.client)
  {
    ReconcileGetsDone(w, recentA, unconfirmedA);
    var one := StepA(w, Reconciles(recentA, unconfirmedA));
    FlipConsistent(one);
    hide Consistent, StepA, AllDone;
    ReconcileGetsDone(Flip(one), recentB, unconfirmedB);
    FlipConsistent(StepA(Flip(one), Reconciles(recentB, unconfirmedB)));
  }

  /** Catching up always succeeds: wherever two clients with the same captured frames
      are, once all of them have settled one pass on each side and the delivery of what
      is on the way leave nothing behind. */
  lemma OnePassCleans(w: World, recentA: int, unconfirmedA: int, recentB: int, unconfirmedB: int)
    requires Consistent(w) && SameFrames(w)
    requires AllSettled(w.a.client, recentA, unconfirmedA) && AllSettled(w.b.client, recentB, unconfirmedB)
    ensures Clean(CaughtUp(w, recentA, unconfirmedA, recentB, unconfirmedB))
  {
    BothPassed(w, recentA, unconfirmedA, recentB, unconfirmedB);
    var passed := Step(Step(w, true, Reconciles(recentA, unconfirmedA)), false, Reconciles(recentB, unconfirmedB));
    hide Consistent, StepA, AllDone, Drained, Clean, AllSettled;
    DrainKeepsDone(passed);
    var half := Drained(passed);
    FlipConsistent(half);
    DrainKeepsDone(Flip(half));
    FlipConsistent(Drained(Flip(half)));
    DoneAndDelivered(Flip(Drained(Flip(half))));
  }

  /** In particular in every run. */
  lemma RunsCatchUp(moves: seq<Move>, recentA: int, unconfirmedA: int, recentB: int, unconfirmedB: int)
    requires AllTimely(moves) && SameFrames(Run(moves))
    requires AllSettled(Run(moves).a.client, recentA, unconfirmedA)
    requires AllSettled(Run(moves).b.client, recentB, unconfirmedB)
    ensures Clean(CaughtUp(Run(moves), recentA, unconfirmedA, recentB, unconfirmedB))
  {
    RunIsConsistent(moves);
    OnePassCleans(Run(moves), recentA, unconfirmedA, recentB, unconfirmedB);
    hide Run, AllTimely, Clean, CaughtUp;
  }
}
