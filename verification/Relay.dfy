/** The players' relay of a lobby: it learns one endpoint per seat and passes
    datagrams between the two. */
module Relay {

  datatype Endpoint = Endpoint(ip: nat, port: nat)

  datatype Datagram = Datagram(from: Endpoint, data: string)

  datatype Slot = Slot(used: bool, addr: Endpoint, lastSeen: nat)

  datatype Send = Forward(to: Endpoint, data: string) | Answer(to: Endpoint)

  const STUN_PROBE := "SF4ESTUN1"
  const RELAY_ENDPOINT_TIMEOUT_MS := 20000
  const FREE_SLOT := Slot(false, Endpoint(0, 0), 0)

  /** Unsigned 64-bit difference of two clock readings. */
  function Elapsed(now: nat, before: nat): nat { (now - before) % 0x1_0000_0000_0000_0000 }

  /** The seats' addresses (0 for an empty seat) and the endpoint learned for each. */
  datatype State = State(players: (nat, nat), slots: (Slot, Slot))

  const IDLE := State((0, 0), (FREE_SLOT, FREE_SLOT))

  function PlayerAt(s: State, i: nat): nat
    requires i < 2
  {
    if i == 0 then s.players.0 else s.players.1
  }

  function SlotAt(s: State, i: nat): Slot
    requires i < 2
  {
    if i == 0 then s.slots.0 else s.slots.1
  }

  function WithSlot(s: State, i: nat, slot: Slot): State
    requires i < 2
  {
    s.(slots := if i == 0 then (slot, s.slots.1) else (s.slots.0, slot))
  }

  predicate IsAllowed(s: State, from: Endpoint) {
    from.ip != 0 && (s.players.0 == from.ip || s.players.1 == from.ip)
  }

  predicate Holds(s: State, i: nat, from: Endpoint)
    requires i < 2
  {
    SlotAt(s, i).used && SlotAt(s, i).addr == from
  }

  predicate Offers(s: State, i: nat, from: Endpoint)
    requires i < 2
  {
    !SlotAt(s, i).used && PlayerAt(s, i) == from.ip
  }

  /** The slot a sender has, or takes if it is entitled to one; -1 for noise. */
  function Claim(s: State, from: Endpoint): int {
    if Holds(s, 0, from) then 0
    else if Holds(s, 1, from) then 1
    else if !IsAllowed(s, from) then -1
    else if Offers(s, 0, from) then 0
    else if Offers(s, 1, from) then 1
    else -1
  }

  function Receive(s: State, d: Datagram, now: nat): (r: (State, seq<Send>)) {
    if d.data == STUN_PROBE then
      (s, if IsAllowed(s, d.from) then [Answer(d.from)] else [])
    else
      var i := Claim(s, d.from);
      if i == -1 then (s, [])
      else
        var s' := WithSlot(s, i, Slot(true, d.from, now));
        (s', if SlotAt(s, 1 - i).used then [Forward(SlotAt(s, 1 - i).addr, d.data)] else [])
  }

  function ReceiveAll(s: State, inbox: seq<Datagram>, now: nat): (r: (State, seq<Send>)) {
    if inbox == [] then (s, [])
    else
      var n := |inbox| - 1;
      var before := ReceiveAll(s, inbox[..n], now);
      var last := Receive(before.0, inbox[n], now);
      (last.0, before.1 + last.1)
  }

  function Expire(s: State, i: nat, now: nat): State
    requires i < 2
  {
    if SlotAt(s, i).used && Elapsed(now, SlotAt(s, i).lastSeen) > RELAY_ENDPOINT_TIMEOUT_MS
    then WithSlot(s, i, SlotAt(s, i).(used := false)) else s
  }

  function Pump(s: State, inbox: seq<Datagram>, now: nat): (State, seq<Send>) {
    var r := ReceiveAll(s, inbox, now);
    (Expire(Expire(r.0, 0, now), 1, now), r.1)
  }

  function Seat(seats: seq<nat>, i: nat): nat { if i < |seats| then seats[i] else 0 }

  function SetPlayer(s: State, i: nat, ip: nat): State
    requires i < 2
  {
    if PlayerAt(s, i) == ip then s
    else
      WithSlot(s.(players := if i == 0 then (ip, s.players.1) else (s.players.0, ip)), i, SlotAt(s, i).(used := false))
  }

  function SetPlayers(s: State, seats: seq<nat>): State {
    SetPlayer(SetPlayer(s, 0, Seat(seats, 0)), 1, Seat(seats, 1))
  }

  function Clear(s: State): State {
    s.(slots := (s.slots.0.(used := false), s.slots.1.(used := false)))
  }

  // -------------------------------------------------------------- the object

  class Relay {
    var players: seq<nat>
    var eps: seq<Slot>

    ghost predicate Valid()
      reads this
    {
      |players| == 2 && |eps| == 2
    }

    ghost function View(): State
      requires Valid()
      reads this
    {
      State((players[0], players[1]), (eps[0], eps[1]))
    }

    constructor ()
      ensures Valid() && View() == IDLE
    {
      players, eps := [0, 0], [FREE_SLOT, FREE_SLOT];
    }

    method Allowed(from: Endpoint) returns (yes: bool)
      requires Valid()
      ensures yes <==> IsAllowed(View(), from)
    {
      yes := false;
      var i := 0;
      while i < |players| && !yes
        invariant 0 <= i <= |players|
        invariant yes ==> IsAllowed(View(), from)
        invariant !yes ==> forall k :: 0 <= k < i ==> from.ip == 0 || players[k] != from.ip
      {
        if from.ip != 0 && players[i] == from.ip { yes := true; }
        i := i + 1;
      }
    }

    method AdoptSeats(seats: seq<nat>)
      requires Valid()
      modifies this
      ensures Valid() && View() == SetPlayers(old(View()), seats)
    {
      var i := 0;
      while i < 2
        invariant 0 <= i <= 2 && Valid()
        invariant View() == if i == 0 then old(View()) else if i == 1 then SetPlayer(old(View()), 0, Seat(seats, 0))
                            else SetPlayers(old(View()), seats)
      {
        var ip := if i < |seats| then seats[i] else 0;
        if players[i] != ip {
          players := players[i := ip];
          eps := eps[i := eps[i].(used := false)];
        }
        i := i + 1;
      }
    }

    method Forget()
      requires Valid()
      modifies this`eps
      ensures Valid() && View() == Clear(old(View()))
    {
      var i := 0;
      while i < 2
        invariant 0 <= i <= 2 && Valid()
        invariant forall k :: 0 <= k < 2 ==> eps[k] == if k < i then old(eps[k]).(used := false) else old(eps[k])
      {
        eps := eps[i := eps[i].(used := false)];
        i := i + 1;
      }
    }

    /** The slot of a sender, learned now if its seat's slot is free. */
    method SlotFor(from: Endpoint, now: nat) returns (idx: int)
      requires Valid()
      modifies this`eps
      ensures Valid() && idx == Claim(old(View()), from)
      ensures View() == if idx == -1 then old(View()) else WithSlot(old(View()), idx, Slot(true, from, now))
    {
      idx := -1;
      var i := 0;
      while i < 2 && idx == -1
        invariant 0 <= i <= 2
        invariant idx == -1 ==> forall k :: 0 <= k < i ==> !Holds(View(), k, from)
        invariant idx != -1 ==> idx == i - 1 && idx == Claim(View(), from) && Holds(View(), idx, from)
      {
        if eps[i].used && eps[i].addr == from { idx := i; }
        i := i + 1;
      }
      if idx < 0 {
        var allowed := Allowed(from);
        if !allowed { return; }
        i := 0;
        while i < 2 && idx == -1
          invariant 0 <= i <= 2
          invariant idx == -1 ==> forall k :: 0 <= k < i ==> !Offers(View(), k, from)
          invariant idx != -1 ==> idx == i - 1 && idx == Claim(View(), from)
        {
          if !eps[i].used && players[i] == from.ip { idx := i; }
          i := i + 1;
        }
        if idx < 0 { return; }
      }
      eps := eps[idx := Slot(true, from, now)];
    }

    method OnDatagram(d: Datagram, now: nat) returns (sends: seq<Send>)
      requires Valid()
      modifies this`eps
      ensures Valid() && (View(), sends) == Receive(old(View()), d, now)
    {
      if d.data == STUN_PROBE {
        var allowed := Allowed(d.from);
        return if allowed then [Answer(d.from)] else [];
      }
      var idx := SlotFor(d.from, now);
      if idx < 0 { return []; }
      var other := 1 - idx;
      sends := if eps[other].used then [Forward(eps[other].addr, d.data)] else [];
    }

    /** Everything that has arrived, then the endpoints that went quiet. An empty
        datagram ends the reading like an empty socket does. */
    method PumpOnce(inbox: seq<Datagram>, now: nat) returns (taken: nat, sends: seq<Send>)
      requires Valid()
      modifies this`eps
      ensures Valid() && taken <= |inbox|
      ensures (View(), sends) == Pump(old(View()), inbox[..taken], now)
      ensures forall k :: 0 <= k < taken ==> inbox[k].data != []
      ensures taken == |inbox| || inbox[taken].data == []
    {
      taken, sends := 0, [];
      while taken < |inbox| && inbox[taken].data != []
        invariant 0 <= taken <= |inbox| && Valid()
        invariant (View(), sends) == ReceiveAll(old(View()), inbox[..taken], now)
        invariant forall k :: 0 <= k < taken ==> inbox[k].data != []
      {
        assert inbox[..taken + 1][..taken] == inbox[..taken];
        var more := OnDatagram(inbox[taken], now);
        sends := sends + more;
        taken := taken + 1;
      }
      ghost var received := View();
      var i := 0;
      while i < 2
        invariant 0 <= i <= 2 && Valid()
        invariant View() == if i == 0 then received else if i == 1 then Expire(received, 0, now)
                            else Expire(Expire(received, 0, now), 1, now)
      {
        if eps[i].used && Elapsed(now, eps[i].lastSeen) > RELAY_ENDPOINT_TIMEOUT_MS {
          eps := eps[i := eps[i].(used := false)];
        }
        i := i + 1;
      }
    }
  }

  // ---------------------------------------------------------------- results

  /** A learned endpoint has its seat's address, and the two differ. */
  ghost predicate Sound(s: State) {
    && (s.slots.0.used ==> s.slots.0.addr.ip == s.players.0 != 0)
    && (s.slots.1.used ==> s.slots.1.addr.ip == s.players.1 != 0)
    && (s.slots.0.used && s.slots.1.used ==> s.slots.0.addr != s.slots.1.addr)
  }

  /** Where a datagram may go: never for a probe, only out of one seat's endpoint
      into the other's. */
  ghost predicate CrossesOver(s: State, d: Datagram, sent: Send) {
    sent.Forward? ==>
      && d.data != STUN_PROBE && sent.data == d.data && sent.to != d.from
      && ((Holds(s, 0, d.from) && Holds(s, 1, sent.to)) || (Holds(s, 1, d.from) && Holds(s, 0, sent.to)))
  }

  lemma ReceiveIsSound(s: State, d: Datagram, now: nat)
    requires Sound(s)
    ensures Sound(Receive(s, d, now).0)
    ensures forall sent :: sent in Receive(s, d, now).1 ==> CrossesOver(Receive(s, d, now).0, d, sent)
    ensures forall sent :: sent in Receive(s, d, now).1 && sent.Answer? ==> sent.to == d.from && IsAllowed(s, d.from)
    ensures Receive(s, d, now).0.players == s.players
  {}

  lemma {:induction false} ReceiveAllIsSound(s: State, inbox: seq<Datagram>, now: nat)
    requires Sound(s)
    ensures Sound(ReceiveAll(s, inbox, now).0) && ReceiveAll(s, inbox, now).0.players == s.players
  {
    if inbox != [] {
      var n := |inbox| - 1;
      ReceiveAllIsSound(s, inbox[..n], now);
      ReceiveIsSound(ReceiveAll(s, inbox[..n], now).0, inbox[n], now);
    }
  }

  datatype Op = Seats(seats: seq<nat>) | Clears | Pumps(inbox: seq<Datagram>, now: nat)

  function Apply(s: State, op: Op): State {
    match op
    case Seats(seats) => SetPlayers(s, seats)
    case Clears => Clear(s)
    case Pumps(inbox, now) => Pump(s, inbox, now).0
  }

  function Run(ops: seq<Op>): State {
    if ops == [] then IDLE else Apply(Run(ops[..|ops| - 1]), ops[|ops| - 1])
  }

  /** The seats last announced. */
  function LastSeats(ops: seq<Op>): seq<nat> {
    if ops == [] then []
    else if ops[|ops| - 1].Seats? then ops[|ops| - 1].seats
    else LastSeats(ops[..|ops| - 1])
  }

  lemma ApplyIsSound(s: State, op: Op)
    requires Sound(s)
    ensures Sound(Apply(s, op))
  {
    if op.Pumps? { ReceiveAllIsSound(s, op.inbox, op.now); }
  }

  /** Along every run the relay only ever holds the current players' endpoints,
      and a pump leaves none that has been quiet too long. */
  lemma {:induction false} RunIsSound(ops: seq<Op>)
    ensures Sound(Run(ops))
    ensures Run(ops).players == (Seat(LastSeats(ops), 0), Seat(LastSeats(ops), 1))
    ensures ops != [] && ops[|ops| - 1].Pumps? ==> forall i :: 0 <= i < 2 && SlotAt(Run(ops), i).used ==>
      Elapsed(ops[|ops| - 1].now, SlotAt(Run(ops), i).lastSeen) <= RELAY_ENDPOINT_TIMEOUT_MS
  {
    if ops != [] {
      var n := |ops| - 1;
      RunIsSound(ops[..n]);
      if ops[n].Pumps? { ReceiveAllIsSound(Run(ops[..n]), ops[n].inbox, ops[n].now); }
    }
  }

  /** For each thing sent, the place in the inbox of the datagram that caused it. */
  function Causes(s: State, inbox: seq<Datagram>, now: nat): seq<nat> {
    if inbox == [] then []
    else
      var n := |inbox| - 1;
      var sent := Receive(ReceiveAll(s, inbox[..n], now).0, inbox[n], now).1;
      Causes(s, inbox[..n], now) + if sent == [] then [] else [n]
  }

  /** What `sent` is to the datagram at place `k`: it crosses over between the two
      endpoints known then, or it answers a probe of a player. */
  ghost predicate CausedBy(s: State, inbox: seq<Datagram>, now: nat, k: nat, sent: Send) {
    && k < |inbox| && CrossesOver(ReceiveAll(s, inbox[..k + 1], now).0, inbox[k], sent)
    && (sent.Answer? ==> inbox[k].data == STUN_PROBE && sent.to == inbox[k].from && IsAllowed(s, inbox[k].from))
  }

  lemma CausedEarlier(s: State, inbox: seq<Datagram>, now: nat, n: nat, k: nat, sent: Send)
    requires n <= |inbox| && CausedBy(s, inbox[..n], now, k, sent)
    ensures CausedBy(s, inbox, now, k, sent)
  {
    assert inbox[..n][..k + 1] == inbox[..k + 1];
  }

  lemma LastIsCaused(s: State, inbox: seq<Datagram>, now: nat, sent: Send)
    requires Sound(s) && inbox != []
    requires sent in Receive(ReceiveAll(s, inbox[..|inbox| - 1], now).0, inbox[|inbox| - 1], now).1
    ensures CausedBy(s, inbox, now, |inbox| - 1, sent)
  {
    var n := |inbox| - 1;
    ReceiveAllIsSound(s, inbox[..n], now);
    ReceiveIsSound(ReceiveAll(s, inbox[..n], now).0, inbox[n], now);
    assert inbox[..n + 1] == inbox;
  }

  /** Each datagram causes at most one sending, in the order of arrival, and every
      sending is accounted for. */
  lemma {:induction false} SendsAreCaused(s: State, inbox: seq<Datagram>, now: nat)
    requires Sound(s)
    ensures var sends, causes := ReceiveAll(s, inbox, now).1, Causes(s, inbox, now);
      && |causes| == |sends|
      && (forall i, j :: 0 <= i < j < |causes| ==> causes[i] < causes[j])
      && (forall i :: 0 <= i < |sends| ==> CausedBy(s, inbox, now, causes[i], sends[i]))
  {
    if inbox != [] {
      var n := |inbox| - 1;
      SendsAreCaused(s, inbox[..n], now);
      var before, causes := ReceiveAll(s, inbox[..n], now), Causes(s, inbox[..n], now);
      var last := Receive(before.0, inbox[n], now).1;
      assert |last| <= 1;
      forall i | 0 <= i < |before.1 + last|
        ensures CausedBy(s, inbox, now, Causes(s, inbox, now)[i], (before.1 + last)[i])
      {
        if i < |before.1| {
          CausedEarlier(s, inbox, now, n, causes[i], before.1[i]);
        } else {
          LastIsCaused(s, inbox, now, last[0]);
        }
      }
      hide CausedBy, Receive, Sound;
    }
  }

  /** Along every run a pump sends nothing but what a datagram calls for: passed on
      from one player's endpoint to the other's, never back where it came from, once
      and in order; or a player's probe answered. */
  lemma RunForwardsAcross(ops: seq<Op>, inbox: seq<Datagram>, now: nat)
    ensures var s := Run(ops); var sends, causes := Pump(s, inbox, now).1, Causes(s, inbox, now);
      && |causes| == |sends|
      && (forall i, j :: 0 <= i < j < |causes| ==> causes[i] < causes[j])
      && (forall i :: 0 <= i < |sends| ==> CausedBy(s, inbox, now, causes[i], sends[i]))
  {
    RunIsSound(ops);
    SendsAreCaused(Run(ops), inbox, now);
    hide Sound, CausedBy, Run, Causes;
  }

  /** What should reach the players while both are known: each one's datagrams to
      the other, in order; probes are answered, strangers ignored. */
  function Expected(a: Endpoint, b: Endpoint, inbox: seq<Datagram>): seq<Send> {
    if inbox == [] then []
    else
      var d := inbox[|inbox| - 1];
      Expected(a, b, inbox[..|inbox| - 1]) +
      if d.data == STUN_PROBE then (if d.from.ip == a.ip || d.from.ip == b.ip then [Answer(d.from)] else [])
      else if d.from == a then [Forward(b, d.data)]
      else if d.from == b then [Forward(a, d.data)]
      else []
  }

  /** Once both players are known the relay is a wire between them: nobody else,
      not even another program behind a player's address, gets in or is heard. */
  lemma {:induction false} EstablishedRelayIsAWire(s: State, inbox: seq<Datagram>, now: nat)
    requires Sound(s) && s.slots.0.used && s.slots.1.used
    ensures var r := ReceiveAll(s, inbox, now);
      && r.1 == Expected(s.slots.0.addr, s.slots.1.addr, inbox)
      && r.0.players == s.players
      && r.0.slots.0.used && r.0.slots.0.addr == s.slots.0.addr
      && r.0.slots.1.used && r.0.slots.1.addr == s.slots.1.addr
  {
    if inbox != [] { EstablishedRelayIsAWire(s, inbox[..|inbox| - 1], now); }
  }

  // ---------------------------------------------------------------- learning

  /** A datagram of the game itself, from a seat's address. */
  predicate Speaks(d: Datagram, ip: nat) { d.data != STUN_PROBE && d.from.ip == ip && ip != 0 }

  /** A player nobody knows yet takes the lowest free slot of his address. */
  lemma NewcomerTakesSlot(s: State, d: Datagram, now: nat, i: nat)
    requires i < 2 && Speaks(d, PlayerAt(s, i)) && !SlotAt(s, i).used
    requires !Holds(s, 0, d.from) && !Holds(s, 1, d.from)
    requires i == 1 ==> s.players.0 != d.from.ip || s.slots.0.used
    ensures Receive(s, d, now).0 == WithSlot(s, i, Slot(true, d.from, now))
  {}

  /** And only such a one ever does. */
  lemma OnlyNewcomersTakeSlots(s: State, d: Datagram, now: nat, i: nat)
    requires i < 2 && !SlotAt(s, i).used && SlotAt(Receive(s, d, now).0, i).used
    ensures Speaks(d, PlayerAt(s, i)) && !Holds(s, 0, d.from) && !Holds(s, 1, d.from)
    ensures SlotAt(Receive(s, d, now).0, i).addr == d.from
  {}

  /** The place of the first speaker of this address besides the given endpoint, or the
      length of the inbox. */
  function First(inbox: seq<Datagram>, ip: nat, besides: Slot): (k: nat)
    ensures k <= |inbox|
    ensures forall j :: 0 <= j < k ==> !IsNew(inbox[j], ip, besides)
    ensures k < |inbox| ==> IsNew(inbox[k], ip, besides)
  {
    if inbox == [] then 0
    else
      var n := |inbox| - 1;
      var k := First(inbox[..n], ip, besides);
      if k < n || IsNew(inbox[n], ip, besides) then k else n + 1
  }

  predicate IsNew(d: Datagram, ip: nat, besides: Slot) {
    Speaks(d, ip) && !(besides.used && besides.addr == d.from)
  }

  /** A slot belongs to the sender of the datagram at place `k`, if there is one. */
  predicate LearnedFrom(slot: Slot, inbox: seq<Datagram>, k: nat) {
    (slot.used <==> k < |inbox|) && (k < |inbox| ==> slot.addr == inbox[k].from)
  }

  /** What one inbox teaches a relay that knows nobody: the first seat's slot goes to the
      first who speaks from its address, the second seat's to the first other one who
      speaks from its own. Two players behind one address both get in. */
  lemma {:induction false} LearnsFirstSpeakers(s: State, inbox: seq<Datagram>, now: nat)
    requires !s.slots.0.used && !s.slots.1.used
    ensures var r := ReceiveAll(s, inbox, now).0;
      && r.players == s.players
      && LearnedFrom(r.slots.0, inbox, First(inbox, s.players.0, FREE_SLOT))
      && LearnedFrom(r.slots.1, inbox, First(inbox, s.players.1, r.slots.0))
      && (r.slots.0.used ==> r.slots.0.lastSeen == now) && (r.slots.1.used ==> r.slots.1.lastSeen == now)
  {
    if inbox != [] {
      LearnsFirstSpeakers(s, inbox[..|inbox| - 1], now);
      OneMoreLesson(ReceiveAll(s, inbox[..|inbox| - 1], now).0, inbox, now);
    }
  }

  lemma FirstDependsOn(inbox: seq<Datagram>, ip: nat, x: Slot, y: Slot)
    requires forall j :: 0 <= j < |inbox| ==> (IsNew(inbox[j], ip, x) <==> IsNew(inbox[j], ip, y))
    ensures First(inbox, ip, x) == First(inbox, ip, y)
  {
    hide IsNew;
  }

  lemma LessonKept(slot: Slot, slot': Slot, inbox: seq<Datagram>, ip: nat, besides: Slot)
    requires inbox != []
    requires LearnedFrom(slot, inbox[..|inbox| - 1], First(inbox[..|inbox| - 1], ip, besides))
    requires slot'.used == (slot.used || IsNew(inbox[|inbox| - 1], ip, besides))
    requires slot'.used ==> slot'.addr == if slot.used then slot.addr else inbox[|inbox| - 1].from
    ensures LearnedFrom(slot', inbox, First(inbox, ip, besides))
  {
    hide IsNew;
  }

  lemma OneMoreLesson(r: State, inbox: seq<Datagram>, now: nat)
    requires inbox != []
    requires LearnedFrom(r.slots.0, inbox[..|inbox| - 1], First(inbox[..|inbox| - 1], r.players.0, FREE_SLOT))
    requires LearnedFrom(r.slots.1, inbox[..|inbox| - 1], First(inbox[..|inbox| - 1], r.players.1, r.slots.0))
    requires (r.slots.0.used ==> r.slots.0.lastSeen == now) && (r.slots.1.used ==> r.slots.1.lastSeen == now)
    ensures var r' := Receive(r, inbox[|inbox| - 1], now).0;
      && r'.players == r.players
      && LearnedFrom(r'.slots.0, inbox, First(inbox, r.players.0, FREE_SLOT))
      && LearnedFrom(r'.slots.1, inbox, First(inbox, r.players.1, r'.slots.0))
      && (r'.slots.0.used ==> r'.slots.0.lastSeen == now) && (r'.slots.1.used ==> r'.slots.1.lastSeen == now)
  {
    var n := |inbox| - 1;
    var before, d := inbox[..n], inbox[n];
    var r' := Receive(r, d, now).0;
    SlotsAfter(r, before, d, now);
    hide First, LearnedFrom, Receive;
    NothingNewBefore(r.slots.0, r'.slots.0, before, r.players.0, r.players.1);
    hide IsNew;
    LessonKept(r.slots.0, r'.slots.0, inbox, r.players.0, FREE_SLOT);
    LessonKept(r.slots.1, r'.slots.1, inbox, r.players.1, r'.slots.0);
    ReceiveTimes(r, d, now);
  }

  lemma NothingNewBefore(slot: Slot, slot': Slot, before: seq<Datagram>, ip: nat, other: nat)
    requires LearnedFrom(slot, before, First(before, ip, FREE_SLOT))
    requires slot.used ==> slot'.used && slot'.addr == slot.addr
    requires slot'.used && !slot.used ==> slot'.addr.ip == ip
    ensures First(before, other, slot) == First(before, other, slot')
  {
    forall j | 0 <= j < |before| ensures IsNew(before[j], other, slot) <==> IsNew(before[j], other, slot') {
      if !slot.used { assert !IsNew(before[j], ip, FREE_SLOT); }
    }
    FirstDependsOn(before, other, slot, slot');
  }

  /** Which slots one datagram leaves used, and by whom. */
  lemma SlotsAfter(r: State, before: seq<Datagram>, d: Datagram, now: nat)
    requires LearnedFrom(r.slots.0, before, First(before, r.players.0, FREE_SLOT))
    requires LearnedFrom(r.slots.1, before, First(before, r.players.1, r.slots.0))
    ensures var r' := Receive(r, d, now).0;
      && r'.players == r.players
      && r'.slots.0.used == (r.slots.0.used || IsNew(d, r.players.0, FREE_SLOT))
      && (r'.slots.0.used ==> r'.slots.0.addr == if r.slots.0.used then r.slots.0.addr else d.from)
      && r'.slots.1.used == (r.slots.1.used || IsNew(d, r.players.1, r'.slots.0))
      && (r'.slots.1.used ==> r'.slots.1.addr == if r.slots.1.used then r.slots.1.addr else d.from)
  {
    if r.slots.1.used && !r.slots.0.used {
      var k := First(before, r.players.1, r.slots.0);
      assert !IsNew(before[k], r.players.0, FREE_SLOT);
    }
    hide First;
  }

  lemma ReceiveTimes(r: State, d: Datagram, now: nat)
    requires (r.slots.0.used ==> r.slots.0.lastSeen == now) && (r.slots.1.used ==> r.slots.1.lastSeen == now)
    ensures var r' := Receive(r, d, now).0;
      && (r'.slots.0.used ==> r'.slots.0.lastSeen == now) && (r'.slots.1.used ==> r'.slots.1.lastSeen == now)
  {}

  /** From any state: two speakers on the two seats' addresses end up with both slots taken. */
  lemma {:induction false} BothGetIn(s: State, inbox: seq<Datagram>, now: nat, j: nat, k: nat)
    requires Sound(s) && j < |inbox| && k < |inbox| && inbox[j].from != inbox[k].from
    requires Speaks(inbox[j], s.players.0) && Speaks(inbox[k], s.players.1)
    ensures ReceiveAll(s, inbox, now).0.slots.0.used && ReceiveAll(s, inbox, now).0.slots.1.used
  {
    var n := |inbox| - 1;
    var before := ReceiveAll(s, inbox[..n], now).0;
    ReceiveAllIsSound(s, inbox[..n], now);
    if j < n && k < n {
      BothGetIn(s, inbox[..n], now, j, k);
    } else {
      var m := if j < k then j else k;
      OneGetsIn(s, inbox[..n], now, m);
      hide ReceiveAll, Sound;
    }
  }

  /** Whoever speaks from a seat's address has a slot, or its slots are taken. */
  ghost predicate Placed(s: State, from: Endpoint) {
    || Holds(s, 0, from) || Holds(s, 1, from)
    || ((s.players.0 == from.ip ==> s.slots.0.used) && (s.players.1 == from.ip ==> s.slots.1.used))
  }

  lemma {:induction false} OneGetsIn(s: State, inbox: seq<Datagram>, now: nat, m: nat)
    requires Sound(s) && m < |inbox| && (Speaks(inbox[m], s.players.0) || Speaks(inbox[m], s.players.1))
    ensures Placed(ReceiveAll(s, inbox, now).0, inbox[m].from)
  {
    var n := |inbox| - 1;
    ReceiveAllIsSound(s, inbox[..n], now);
    if m < n { OneGetsIn(s, inbox[..n], now, m); }
  }

  /** From boot: the seats are announced, both players speak in one pump, and from the
      next one on the relay is a wire between exactly these two. */
  lemma BootForwards(seats: seq<nat>, inbox: seq<Datagram>, now: nat, later: seq<Datagram>, next: nat)
    requires First(inbox, Seat(seats, 0), FREE_SLOT) < |inbox|
    requires var a := inbox[First(inbox, Seat(seats, 0), FREE_SLOT)].from;
      First(inbox, Seat(seats, 1), Slot(true, a, now)) < |inbox|
    ensures var a := inbox[First(inbox, Seat(seats, 0), FREE_SLOT)].from;
      var b := inbox[First(inbox, Seat(seats, 1), Slot(true, a, now))].from;
      var s := Run([Seats(seats), Pumps(inbox, now)]);
      && s.slots.0.used && s.slots.0.addr == a && s.slots.1.used && s.slots.1.addr == b
      && Pump(s, later, next).1 == Expected(a, b, later)
  {
    var ops := [Seats(seats), Pumps(inbox, now)];
    assert ops[..1] == [Seats(seats)] && ops[..1][..0] == [];
    var s0 := SetPlayers(IDLE, seats);
    assert Run(ops[..1]) == s0;
    LearnsFirstSpeakers(s0, inbox, now);
    RunIsSound(ops);
    EstablishedRelayIsAWire(Run(ops), later, next);
    hide ReceiveAll, Expected;
  }

  /** Whoever speaks keeps his slot through the pump, however long he was quiet before. */
  lemma {:induction false} SpeakerKeepsSlot(s: State, inbox: seq<Datagram>, now: nat, j: nat, i: nat)
    requires Sound(s) && j < |inbox| && inbox[j].data != STUN_PROBE
    requires i < 2 && Holds(s, i, inbox[j].from)
    ensures Holds(ReceiveAll(s, inbox, now).0, i, inbox[j].from)
    ensures SlotAt(ReceiveAll(s, inbox, now).0, i).lastSeen == now
    ensures Holds(Pump(s, inbox, now).0, i, inbox[j].from)
  {
    var n := |inbox| - 1;
    HolderStays(s, inbox[..n], now, i);
    ReceiveAllIsSound(s, inbox[..n], now);
    if j < n { SpeakerKeepsSlot(s, inbox[..n], now, j, i); }
    hide ReceiveAll;
  }

  lemma {:induction false} HolderStays(s: State, inbox: seq<Datagram>, now: nat, i: nat)
    requires Sound(s) && i < 2 && SlotAt(s, i).used
    ensures var slot := SlotAt(ReceiveAll(s, inbox, now).0, i);
      slot.used && slot.addr == SlotAt(s, i).addr && (slot.lastSeen == now || slot.lastSeen == SlotAt(s, i).lastSeen)
  {
    if inbox != [] {
      ReceiveAllIsSound(s, inbox[..|inbox| - 1], now);
      HolderStays(s, inbox[..|inbox| - 1], now, i);
    }
  }
}
