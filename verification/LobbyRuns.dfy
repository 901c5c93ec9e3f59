/** What every run of the lobby server keeps. */
module LobbyRuns {
  import opened SessionSeats
  import SessionRuns
  import opened LobbyServer
  import Pipe
  import Relay

  datatype Op =
    | Creates(request: CreateRequest, now: nat)
    | Housekeeps(index: nat, now: nat)
    | Sessions(index: nat, event: SessionRuns.Event)
    | Refreshes(index: nat)
    | RelayPumps(index: nat, inbox: seq<Relay.Datagram>, now: nat)
    | PipePumps(index: nat, second: bool, hostIn: seq<Relay.Datagram>, specIn: seq<Relay.Datagram>, now: nat)

  /** Requests come with good random draws and a non-empty new secret; only the
      lobby server itself hands a session over. */
  ghost predicate Proper(ls: Lobbies, op: Op) {
    match op
    case Creates(q, now) => q.secret != "" && Lucky(ReleaseOwn(ls, |ls|, q.ip, now), q)
    case Housekeeps(i, now) => i < |ls|
    case Sessions(i, e) => i < |ls| && !e.Reopens?
    case _ => op.index < |ls|
  }

  ghost function Apply(ls: Lobbies, op: Op): Lobbies
    requires Proper(ls, op)
  {
    match op
    case Creates(q, now) => Create(ls, q, now).0
    case Housekeeps(i, now) => ls[i := Aged(ls[i], now)]
    case Sessions(i, e) => ls[i := InSession(ls[i], e)]
    case Refreshes(i) => ls[i := Refreshed(ls[i])]
    case RelayPumps(i, inbox, now) => ls[i := ls[i].(relay := Relay.Pump(ls[i].relay, inbox, now).0)]
    case PipePumps(i, second, hostIn, specIn, now) =>
      var pumped := Pipe.PumpTube(if second then ls[i].pipes.1 else ls[i].pipes.0, hostIn, specIn, now).0;
      ls[i := ls[i].(pipes := if second then (ls[i].pipes.0, pumped) else (pumped, ls[i].pipes.1))]
  }

  /** An inactive lobby is empty and locked; the session always carries the
      lobby's own secret and build; whoever is in came with that secret. */
  ghost predicate LobbyOk(l: Lobby, i: nat) {
    && l.room.config == LobbyConfig(i).(secret := l.secret, hash := l.hash)
    && (l.active <==> l.secret != "") && (l.active ==> l.hash != "")
    && (!l.active ==> l.room.clients == [])
    && (forall m :: m in l.room.clients ==> m.conn in l.presented && l.presented[m.conn] == l.secret)
  }

  ghost predicate CodesDistinct(ls: Lobbies) {
    forall i, j :: 0 <= i < j < |ls| && ls[i].active && ls[j].active ==> ls[i].code != ls[j].code
  }

  ghost predicate Capped(ls: Lobbies) {
    forall ip :: CountOwn(ls, |ls|, ip) <= MAX_LOBBIES_PER_IP
  }

  ghost predicate ServerOk(ls: Lobbies) {
    && |ls| == NUM_LOBBIES && CodesDistinct(ls) && Capped(ls)
    && forall i :: 0 <= i < |ls| ==> LobbyOk(ls[i], i)
  }

  lemma SessionKeepsLobbyOk(l: Lobby, i: nat, e: SessionRuns.Event)
    requires LobbyOk(l, i) && !e.Reopens?
    ensures LobbyOk(InSession(l, e), i)
  {
    SessionRuns.OnlyJoinsAdd(l.room, e);
    if e.Joins? && CheckJoin(l.room, e.request) == JoinOk {
      assert e.request.secret == l.secret != "";
    }
    hide SessionRuns.Apply, CheckJoin;
  }

  lemma {:induction false} CountUpdate(ls: Lobbies, n: nat, ip: nat, i: nat, l: Lobby)
    requires i < |ls| && n <= |ls|
    ensures CountOwn(ls[i := l], n, ip) == CountOwn(ls, n, ip) +
      if i < n then (if Own(l, ip) then 1 else 0) - (if Own(ls[i], ip) then 1 else 0) else 0
  {
    if n > 0 { CountUpdate(ls, n - 1, ip, i, l); }
  }

  lemma {:induction false} CountFewer(ls: Lobbies, r: Lobbies, n: nat, ip: nat)
    requires n <= |ls| == |r|
    requires forall i :: 0 <= i < n && Own(r[i], ip) ==> Own(ls[i], ip)
    ensures CountOwn(r, n, ip) <= CountOwn(ls, n, ip)
  {
    if n > 0 { CountFewer(ls, r, n - 1, ip); }
  }

  /** Releasing lobbies, or anything that leaves code, creator and activity alone. */
  lemma NoNewClaims(ls: Lobbies, r: Lobbies)
    requires CodesDistinct(ls) && Capped(ls) && |r| == |ls|
    requires forall i :: 0 <= i < |ls| && r[i].active ==>
      ls[i].active && r[i].code == ls[i].code && r[i].creatorIp == ls[i].creatorIp
    ensures CodesDistinct(r) && Capped(r)
  {
    forall ip ensures CountOwn(r, |r|, ip) <= MAX_LOBBIES_PER_IP {
      CountFewer(ls, r, |ls|, ip);
      assert CountOwn(ls, |ls|, ip) <= MAX_LOBBIES_PER_IP;
    }
  }

  lemma OneMoreClaim(ls: Lobbies, i: nat, l: Lobby)
    requires CodesDistinct(ls) && Capped(ls) && i < |ls| && !ls[i].active
    requires !Taken(ls, l.code) && CountOwn(ls, |ls|, l.creatorIp) < MAX_LOBBIES_PER_IP
    ensures CodesDistinct(ls[i := l]) && Capped(ls[i := l])
  {
    var r := ls[i := l];
    forall ip ensures CountOwn(r, |r|, ip) <= MAX_LOBBIES_PER_IP {
      CountUpdate(ls, |ls|, ip, i, l);
      assert CountOwn(ls, |ls|, ip) <= MAX_LOBBIES_PER_IP;
    }
    forall k | 0 <= k < |r| && k != i && r[k].active ensures r[k].code != l.code { assert ls[k] in ls; }
  }

  ghost predicate AllOk(ls: Lobbies) { forall i :: 0 <= i < |ls| ==> LobbyOk(ls[i], i) }

  lemma ReleasedOk(l: Lobby, i: nat, now: nat)
    ensures LobbyOk(l, i) ==> LobbyOk(Released(l, now), i)
    ensures !Released(l, now).active
  {}

  lemma AgedOk(l: Lobby, i: nat, now: nat)
    requires LobbyOk(l, i)
    ensures LobbyOk(Aged(l, now), i)
    ensures Aged(l, now).active ==> l.active && Aged(l, now).code == l.code && Aged(l, now).creatorIp == l.creatorIp
  {
    ReleasedOk(l, i, now);
    ReleasedOk(l.(lastNonEmpty := now), i, now);
    hide Released;
  }

  lemma OccupiedOk(l: Lobby, i: nat, q: CreateRequest, code: string, now: nat)
    requires LobbyOk(l, i) && q.secret != "" && q.hash != ""
    ensures var l' := Occupied(l, q, code, now);
      && LobbyOk(l', i) && l'.active && l'.code == code
      && l'.creatorIp == q.ip && l'.secret == q.secret && l'.hash == q.hash
  {
    hide TitleOf;
  }

  lemma ReleaseOwnOk(ls: Lobbies, ip: nat, now: nat)
    requires AllOk(ls) && CodesDistinct(ls) && Capped(ls)
    ensures var r := ReleaseOwn(ls, |ls|, ip, now); AllOk(r) && CodesDistinct(r) && Capped(r)
  {
    var r := ReleaseOwn(ls, |ls|, ip, now);
    hide LobbyOk, Released, ReleaseOwn, CodesDistinct, Capped, Own;
    forall i | 0 <= i < |ls| ensures LobbyOk(r[i], i) && (r[i].active ==> r[i] == ls[i]) { ReleasedOk(ls[i], i, now); }
    NoNewClaims(ls, r);
  }

  /** What a create request comes to. */
  lemma CreateIs(ls: Lobbies, q: CreateRequest, now: nat)
    requires Lucky(ReleaseOwn(ls, |ls|, q.ip, now), q)
    ensures var cleared := ReleaseOwn(ls, |ls|, q.ip, now); var (r, reply) := Create(ls, q, now);
      if reply.Created? then
        && reply.index < |cleared| && !cleared[reply.index].active && !Taken(cleared, reply.code)
        && CountOwn(cleared, |cleared|, q.ip) < MAX_LOBBIES_PER_IP && reply.secret == q.secret && q.hash != ""
        && r == cleared[reply.index := Occupied(cleared[reply.index], q, reply.code, now)]
      else r == ls || r == cleared
  {
    hide Occupied, Released, ReleaseOwn, CountOwn, Taken;
  }

  lemma CreateKeepsServerOk(ls: Lobbies, q: CreateRequest, now: nat)
    requires ServerOk(ls) && q.secret != "" && Lucky(ReleaseOwn(ls, |ls|, q.ip, now), q)
    ensures ServerOk(Create(ls, q, now).0)
  {
    var cleared := ReleaseOwn(ls, |ls|, q.ip, now);
    var (r, reply) := Create(ls, q, now);
    CreateIs(ls, q, now);
    hide Create, LobbyOk, Occupied, CodesDistinct, Capped, Taken, CountOwn, Lucky;
    ReleaseOwnOk(ls, q.ip, now);
    if reply.Created? {
      OccupiedOk(cleared[reply.index], reply.index, q, reply.code, now);
      OneMoreClaim(cleared, reply.index, r[reply.index]);
    }
  }

  /** Something that concerns one lobby and claims nothing. */
  lemma OneChanges(ls: Lobbies, i: nat, l: Lobby)
    requires ServerOk(ls) && i < |ls| && LobbyOk(l, i)
    requires l.active ==> ls[i].active && l.code == ls[i].code && l.creatorIp == ls[i].creatorIp
    ensures ServerOk(ls[i := l])
  {
    hide LobbyOk, CodesDistinct, Capped;
    NoNewClaims(ls, ls[i := l]);
  }

  lemma StepKeepsServerOk(ls: Lobbies, op: Op)
    requires ServerOk(ls) && Proper(ls, op)
    ensures ServerOk(Apply(ls, op))
  {
    if op.Creates? {
      CreateKeepsServerOk(ls, op.request, op.now);
    } else {
      var i := op.index;
      assert LobbyOk(ls[i], i);
      match op {
        case Housekeeps(_, now) => AgedOk(ls[i], i, now);
        case Sessions(_, e) => SessionKeepsLobbyOk(ls[i], i, e);
        case _ =>
      }
      assert LobbyOk(Apply(ls, op)[i], i);
      hide LobbyOk, CodesDistinct, Capped, Aged, Relay.Pump, Pipe.PumpTube, InSession;
      OneChanges(ls, i, Apply(ls, op)[i]);
    }
  }

  /** The connections that asked to join somewhere. */
  function Joined(ops: seq<Op>): set<nat> {
    if ops == [] then {}
    else
      var op := ops[|ops| - 1];
      Joined(ops[..|ops| - 1]) + if op.Sessions? && op.event.Joins? then {op.event.request.conn} else {}
  }

  /** A connection joins at most once. */
  predicate JoinsAnew(seen: set<nat>, op: Op) {
    op.Sessions? && op.event.Joins? ==> op.event.request.conn !in seen
  }

  /** Runs from the boot state, every step proper. */
  ghost predicate Reaches(ops: seq<Op>, ls: Lobbies) {
    if ops == [] then ls == Boot()
    else
      var n := |ops| - 1;
      && JoinsAnew(Joined(ops[..n]), ops[n])
      && exists before :: Reaches(ops[..n], before) && Proper(before, ops[n]) && ls == Apply(before, ops[n])
  }

  /** In every reachable state active codes are distinct, nobody holds more than two
      lobbies, idle lobbies are empty, and members came with their lobby's secret. */
  lemma {:induction false} ReachableIsOk(ops: seq<Op>, ls: Lobbies)
    requires Reaches(ops, ls)
    ensures ServerOk(ls)
  {
    if ops == [] {
      forall ip ensures CountOwn(ls, |ls|, ip) == 0 { BootIsIdle(|ls|, ip); }
    } else {
      var n := |ops| - 1;
      var before :| Reaches(ops[..n], before) && Proper(before, ops[n]) && ls == Apply(before, ops[n]);
      ReachableIsOk(ops[..n], before);
      StepKeepsServerOk(before, ops[n]);
    }
  }

  lemma {:induction false} BootIsIdle(n: nat, ip: nat)
    requires n <= NUM_LOBBIES
    ensures CountOwn(Boot(), n, ip) == 0
  {
    if n > 0 { BootIsIdle(n - 1, ip); }
  }

  lemma {:induction false} LookupFinds(ls: Lobbies, from: nat, i: nat, code: string, hash: string, spectate: bool)
    requires from <= i < |ls| && CodesDistinct(ls) && ls[i].active && ls[i].code == code
    ensures Lookup(ls, from, code, hash, spectate) == Lookup(ls, i, code, hash, spectate)
    decreases i - from
  {
    if from < i { LookupFinds(ls, from + 1, i, code, hash, spectate); }
  }

  /** Neither relay nor pipes hold an endpoint. */
  predicate KnowsNobody(l: Lobby) {
    && !l.relay.slots.0.used && !l.relay.slots.1.used
    && !l.pipes.0.host.used && !l.pipes.0.spec.used && !l.pipes.1.host.used && !l.pipes.1.spec.used
  }

  /** The code just handed out finds that lobby and no other, and its secret opens
      the door that stays shut to everyone without it; its relay and pipes know
      nobody from before. */
  lemma CreatedLobbyIsFound(ls: Lobbies, q: CreateRequest, now: nat, typed: string, spectate: bool, j: JoinRequest)
    requires ServerOk(ls) && q.secret != "" && Lucky(ReleaseOwn(ls, |ls|, q.ip, now), q)
    requires Create(ls, q, now).1.Created?
    ensures var (r, reply) := Create(ls, q, now);
      && (Upper(typed) == reply.code ==> Lookup(r, 0, Upper(typed), q.hash, spectate) == At(reply.index, reply.secret))
      && var l := r[reply.index];
      && KnowsNobody(l) && l.creatorIp == q.ip && l.createdAt == l.lastNonEmpty == now
      && l.listed == q.listed && l.title == TitleOf(q)
      && (j.secret != reply.secret ==> CheckJoin(r[reply.index].room, j) == SecretInvalid)
      && (j.secret == reply.secret && j.hash == q.hash ==> CheckJoin(r[reply.index].room, j) == JoinOk)
  {
    CreateKeepsServerOk(ls, q, now);
    CreateIs(ls, q, now);
    var cleared := ReleaseOwn(ls, |ls|, q.ip, now);
    var (r, reply) := Create(ls, q, now);
    NewLobbyIs(cleared[reply.index], q, reply.code, now, j);
    hide Create, Occupied, Lucky, CheckJoin, KnowsNobody, ReleaseOwn, TitleOf;
    LookupFinds(r, 0, reply.index, reply.code, q.hash, spectate);
  }

  lemma NewLobbyIs(l: Lobby, q: CreateRequest, code: string, now: nat, j: JoinRequest)
    requires q.secret != "" && l.room.config.secretRequired
    ensures var l' := Occupied(l, q, code, now);
      && l'.active && l'.code == code && l'.secret == q.secret && l'.hash == q.hash
      && l'.room.clients == [] && KnowsNobody(l')
      && l'.creatorIp == q.ip && l'.createdAt == l'.lastNonEmpty == now && l'.listed == q.listed
      && l'.title == TitleOf(q)
      && (j.secret != q.secret ==> CheckJoin(l'.room, j) == SecretInvalid)
      && (j.secret == q.secret && j.hash == q.hash && l.room.config.spectatorSlots > 0 ==>
            CheckJoin(l'.room, j) == JoinOk)
  {
    hide TitleOf, CleanName;
  }

  // ------------------------------------------------------------------ ports

  /** Every port the lobby at this index listens on. */
  function Ports(i: nat): set<nat> {
    {FIRST_SESSION_PORT + i, FIRST_RELAY_PORT + i,
     FIRST_SPECTATOR_PORT + 4 * i, FIRST_SPECTATOR_PORT + 4 * i + 1,
     FIRST_SPECTATOR_PORT + 4 * i + 2, FIRST_SPECTATOR_PORT + 4 * i + 3}
  }

  /** No two lobbies share a port, nor any of them the matchmaker's, and all are
      real port numbers. */
  lemma PortsDisjoint(i: nat, j: nat)
    requires i < j < NUM_LOBBIES
    ensures Ports(i) !! Ports(j) && MATCHMAKER_PORT !in Ports(i) + Ports(j)
    ensures forall p :: p in Ports(i) + Ports(j) ==> 0 < p < 0x1_0000
  {}

  // ----------------------------------------------------------- its sessions

  /** These events in a session of its own lead to this room. */
  ghost predicate SessionLeads(i: nat, events: seq<SessionRuns.Event>, room: Room, seen: set<nat>) {
    var begin := SessionRuns.Start(LobbyConfig(i));
    && SessionRuns.Plausible(begin, events)
    && SessionRuns.Run(begin, events).room == room && SessionRuns.Run(begin, events).seen <= seen
  }

  lemma SessionGoesOn(i: nat, events: seq<SessionRuns.Event>, room: Room, seen: set<nat>, e: SessionRuns.Event)
    returns (more: seq<SessionRuns.Event>)
    requires SessionLeads(i, events, room, seen) && (e.Joins? ==> e.request.conn !in seen)
    ensures SessionLeads(i, more, SessionRuns.Apply(room, e), seen + if e.Joins? then {e.request.conn} else {})
  {
    var begin := SessionRuns.Start(LobbyConfig(i));
    var w;
    more, w := SessionRuns.OneStepMore(LobbyConfig(i), events, SessionRuns.Run(begin, events), e);
    hide SessionRuns.Run, SessionRuns.Apply, SessionRuns.Plausible;
  }

  /** Nothing, one or two handovers. */
  ghost predicate HandedOver(before: Room, after: Room, once: SessionRuns.Event, twice: SessionRuns.Event) {
    && once.Reopens? && twice.Reopens?
    && (after == before || after == SessionRuns.Apply(before, once) || after == SessionRuns.Apply(before, twice)
        || after == SessionRuns.Apply(SessionRuns.Apply(before, once), twice))
  }

  lemma HandoverRooms(l: Lobby, q: CreateRequest, code: string, now: nat)
    ensures Released(l, now).room == SessionRuns.Apply(l.room, SessionRuns.Reopens("", ""))
    ensures Occupied(l, q, code, now).room == SessionRuns.Apply(l.room, SessionRuns.Reopens(q.secret, q.hash))
    ensures Aged(l, now).room == l.room || Aged(l, now).room == SessionRuns.Apply(l.room, SessionRuns.Reopens("", ""))
  {}

  lemma CreateHandsOver(ls: Lobbies, q: CreateRequest, now: nat, i: nat)
    requires i < |ls| && Lucky(ReleaseOwn(ls, |ls|, q.ip, now), q)
    ensures var r := Create(ls, q, now).0;
      && |r| == |ls|
      && HandedOver(ls[i].room, r[i].room, SessionRuns.Reopens("", ""), SessionRuns.Reopens(q.secret, q.hash))
  {
    hide Released, Occupied, SessionRuns.Apply, Taken, CountOwn, Own, Create, Lucky, ReleaseOwn;
    var cleared := ReleaseOwn(ls, |ls|, q.ip, now);
    var reply := Create(ls, q, now).1;
    CreateIs(ls, q, now);
    var code := if reply.Created? then reply.code else "";
    HandoverRooms(ls[i], q, code, now);
    HandoverRooms(cleared[i], q, code, now);
    assert cleared[i] == ls[i] || cleared[i] == Released(ls[i], now);
  }

  lemma OnlyHandovers(ls: Lobbies, op: Op, i: nat) returns (once: SessionRuns.Event, twice: SessionRuns.Event)
    requires i < |ls| && Proper(ls, op) && !op.Sessions?
    ensures |Apply(ls, op)| == |ls| && HandedOver(ls[i].room, Apply(ls, op)[i].room, once, twice)
  {
    once, twice := SessionRuns.Reopens("", ""), SessionRuns.Reopens("", "");
    hide Aged, Create, Lucky, SessionRuns.Apply, Relay.Pump, Pipe.PumpTube;
    if op.Creates? {
      twice := SessionRuns.Reopens(op.request.secret, op.request.hash);
      CreateHandsOver(ls, op.request, op.now, i);
    } else if op.Housekeeps? {
      HandoverRooms(ls[i], CreateRequest(0, "", "", "", false, [], ""), "", op.now);
    }
  }

  /** Every lobby's room is one that its session can reach by itself. */
  lemma {:induction false} RoomIsSession(ops: seq<Op>, ls: Lobbies, i: nat) returns (events: seq<SessionRuns.Event>)
    requires Reaches(ops, ls) && i < NUM_LOBBIES
    ensures |ls| == NUM_LOBBIES && SessionLeads(i, events, ls[i].room, Joined(ops))
  {
    if ops == [] {
      events := [];
    } else {
      var n := |ops| - 1;
      var op := ops[n];
      var before: Lobbies :| Reaches(ops[..n], before) && Proper(before, op) && ls == Apply(before, op);
      events := RoomIsSession(ops[..n], before, i);
      assert SessionLeads(i, events, before[i].room, Joined(ops)) &&
             SessionLeads(i, events, before[i].room, Joined(ops[..n]));
      hide Reaches, SessionLeads, SessionRuns.Apply;
      if op.Sessions? {
        if op.index == i { events := SessionGoesOn(i, events, before[i].room, Joined(ops[..n]), op.event); }
      } else {
        var once, twice := OnlyHandovers(before, op, i);
        var room, seen := before[i].room, Joined(ops);
        if ls[i].room != room {
          if ls[i].room == SessionRuns.Apply(room, once) {
            events := SessionGoesOn(i, events, room, seen, once);
          } else {
            if ls[i].room != SessionRuns.Apply(room, twice) {
              events := SessionGoesOn(i, events, room, seen, once);
              room := SessionRuns.Apply(room, once);
            }
            events := SessionGoesOn(i, events, room, seen, twice);
          }
        }
      }
    }
  }

  /** The two ports of a lobby's pipe. */
  predicate OnPipe(m: Member, i: nat, slot: int) {
    0 <= slot < 2 && m.port == FIRST_SPECTATOR_PORT + 4 * i + 2 * slot && m.hostPort == m.port + 1
  }

  lemma SpectatorIsOnPipe(room: Room, i: nat, m: Member)
    requires room.config.spectatorBase == FIRST_SPECTATOR_PORT + 4 * i && room.config.spectatorSlots == 2
    requires Piped(m, room.config) && m.spectator && i < NUM_LOBBIES
    ensures OnPipe(m, i, m.slot) && m.slot >= 0
  {}

  lemma PipesApart(i: nat, m: Member, n: Member, a: int, b: int)
    requires OnPipe(m, i, a) && OnPipe(n, i, b)
    ensures m.port in Ports(i) && m.hostPort in Ports(i) && m.hostPort == m.port + 1
    ensures a != b ==> {m.port, m.hostPort} !! {n.port, n.hostPort}
  {}

  lemma SlotsApart(room: Room, m: Member, n: Member)
    requires AllApart(room.clients) && m in room.clients && n in room.clients && m != n && m.slot >= 0 && n.slot >= 0
    ensures m.slot != n.slot
  {
    var a :| 0 <= a < |room.clients| && room.clients[a] == m;
    var b :| 0 <= b < |room.clients| && room.clients[b] == n;
    assert if a < b then Apart(m, n) else Apart(n, m);
  }

  lemma LobbyIsSeated(ops: seq<Op>, ls: Lobbies, i: nat)
    requires Reaches(ops, ls) && i < NUM_LOBBIES
    ensures |ls| == NUM_LOBBIES && Seated(ls[i].room)
  {
    var events := RoomIsSession(ops, ls, i);
    SessionRuns.RunIsSeated(LobbyConfig(i), events);
    hide Seated, SessionRuns.Run, SessionRuns.Plausible;
  }

  lemma SpectatorsAreApart(ops: seq<Op>, ls: Lobbies, i: nat, m: Member, n: Member)
    requires Reaches(ops, ls) && i < NUM_LOBBIES == |ls|
    requires m in ls[i].room.clients && n in ls[i].room.clients && m.spectator && n.spectator
    ensures OnPipe(m, i, m.slot) && OnPipe(n, i, n.slot) && (m != n ==> m.slot != n.slot)
  {
    ReachableIsOk(ops, ls);
    LobbyIsSeated(ops, ls, i);
    assert LobbyOk(ls[i], i);
    hide Reaches, AllApart, PlayersLead, Players, Piped, OnPipe, CodesDistinct, Capped, Ports;
    SpectatorIsOnPipe(ls[i].room, i, m);
    SpectatorIsOnPipe(ls[i].room, i, n);
    if m != n { SlotsApart(ls[i].room, m, n); }
  }

  /** In every reachable state every spectator is sent to ports of his own lobby, and two
      spectators never to the same. */
  lemma MembersUseOwnPorts(ops: seq<Op>, ls: Lobbies, i: nat, m: Member, n: Member)
    requires Reaches(ops, ls) && i < NUM_LOBBIES == |ls|
    requires m in ls[i].room.clients && n in ls[i].room.clients && m.spectator && n.spectator
    ensures m.port in Ports(i) && m.hostPort in Ports(i) && m.hostPort == m.port + 1
    ensures m != n ==> {m.port, m.hostPort} !! {n.port, n.hostPort}
  {
    SpectatorsAreApart(ops, ls, i, m, n);
    PipesApart(i, m, n, m.slot, n.slot);
  }

  // ---------------------------------------------------- looking up and joining

  lemma {:induction false} LookupMisses(ls: Lobbies, from: nat, code: string, hash: string, spectate: bool)
    requires from <= |ls| && forall i :: from <= i < |ls| ==> !ls[i].active || ls[i].code != code
    ensures Lookup(ls, from, code, hash, spectate) == NotFound
    decreases |ls| - from
  {
    if from < |ls| { LookupMisses(ls, from + 1, code, hash, spectate); }
  }

  /** Room in a seated session is a matter of one's own kind alone. */
  lemma RoomForKind(room: Room, spectator: bool)
    requires Seated(room) && room.config.spectatorSlots == 2
    ensures NoRoom(room, spectator) <==> if spectator then Spectators(room.clients) >= 2 else Players(room.clients) >= 2
  {
    hide AllApart, PlayersLead, Piped, Players;
  }

  /** The lookup tells beforehand what the session will say: in every reachable state a code
      is answered with a lobby and its secret exactly if joining there with that secret, the
      same build and a free name would succeed, and otherwise with the reason. */
  lemma LookupForetellsJoin(ops: seq<Op>, ls: Lobbies, i: nat, hash: string, j: JoinRequest)
    requires Reaches(ops, ls) && i < NUM_LOBBIES == |ls| && ls[i].active
    requires j.secret == ls[i].secret && j.hash == hash
    requires forall m :: m in ls[i].room.clients ==> m.name != CleanName(j.name)
    ensures var found := Lookup(ls, 0, ls[i].code, hash, j.spectator);
      var answer := CheckJoin(ls[i].room, j);
      var full := if j.spectator then Spectators(ls[i].room.clients) >= 2 else Players(ls[i].room.clients) >= 2;
      && (found == At(i, ls[i].secret) <==> answer == JoinOk)
      && (found == RoomFull <==> full && !j.spectator) && (found == SpectatorsFull <==> full && j.spectator)
      && (found == VersionMismatch <==> answer == HashInvalid && !full)
      && (answer == JoinOk || answer == HashInvalid || answer == LobbyFull)
  {
    ReachableIsOk(ops, ls);
    LobbyIsSeated(ops, ls, i);
    assert LobbyOk(ls[i], i);
    hide Reaches, Seated, Players, CleanName, Capped;
    LookupFinds(ls, 0, i, ls[i].code, hash, j.spectator);
    RoomForKind(ls[i].room, j.spectator);
    hide NoRoom, CodesDistinct;
  }

  /** In every reachable state every player is sent to the relay of his own lobby, and no
      player or spectator is told another's address. */
  lemma PlayersUseOwnRelay(ops: seq<Op>, ls: Lobbies, i: nat, m: Member)
    requires Reaches(ops, ls) && i < NUM_LOBBIES == |ls| && m in ls[i].room.clients
    ensures m.ip == "" && (!m.spectator ==> m.port == 24001 + i)
  {
    ReachableIsOk(ops, ls);
    LobbyIsSeated(ops, ls, i);
    assert LobbyOk(ls[i], i) && Piped(m, ls[i].room.config);
    hide Reaches, AllApart, PlayersLead, Players, CodesDistinct, Capped;
  }

  // ------------------------------------------------------- creating and ageing

  /** The lobbies of one creator with somebody in them, among the first `n`. */
  function Busy(ls: Lobbies, n: nat, ip: nat): nat
    requires n <= |ls|
  {
    if n == 0 then 0
    else
      var l := ls[n - 1];
      Busy(ls, n - 1, ip) + if l.active && l.creatorIp == ip && l.room.clients != [] then 1 else 0
  }

  lemma {:induction false} BusyRemain(ls: Lobbies, n: nat, ip: nat, now: nat)
    requires n <= |ls|
    ensures CountOwn(ReleaseOwn(ls, |ls|, ip, now), n, ip) == Busy(ls, n, ip)
  {
    hide ReleaseOwn;
    if n > 0 { BusyRemain(ls, n - 1, ip, now); }
  }

  /** A lobby nobody holds, or that its own creator left empty. */
  ghost predicate Free(l: Lobby, ip: nat) { !l.active || (l.creatorIp == ip && l.room.clients == []) }

  /** A request gets a lobby exactly if it names a build, its sender has fewer than two
      lobbies with somebody in them, and some lobby is free to him. */
  lemma CreateSucceedsIff(ls: Lobbies, q: CreateRequest, now: nat)
    requires Lucky(ReleaseOwn(ls, |ls|, q.ip, now), q)
    ensures var reply := Create(ls, q, now).1;
      && (reply.Created? <==>
            q.hash != "" && Busy(ls, |ls|, q.ip) < 2 && exists i :: 0 <= i < |ls| && Free(ls[i], q.ip))
      && (reply == BadRequest <==> q.hash == "")
  {
    var cleared := ReleaseOwn(ls, |ls|, q.ip, now);
    BusyRemain(ls, |ls|, q.ip, now);
    ClearedIsFree(ls, q.ip, now);
    hide ReleaseOwn, CountOwn, Occupied, Taken, Busy, Free;
    var i := FirstFree(cleared, 0);
    if i < |ls| { assert !cleared[i].active; }
  }

  lemma ClearedIsFree(ls: Lobbies, ip: nat, now: nat)
    ensures forall i :: 0 <= i < |ls| ==> (!ReleaseOwn(ls, |ls|, ip, now)[i].active <==> Free(ls[i], ip))
  {
    hide ReleaseOwn;
  }

  /** Housekeeping releases a lobby exactly if nobody has been in it for 90 seconds or it is
      twelve hours old, and otherwise leaves it alone but for the time it was last in use. */
  lemma AgedIff(l: Lobby, now: nat)
    requires l.active
    ensures !Aged(l, now).active
      <==> (l.room.clients == [] && Relay.Elapsed(now, l.lastNonEmpty) > 90_000)
           || Relay.Elapsed(now, l.createdAt) > 43_200_000
    ensures Aged(l, now).active ==>
      Aged(l, now) == l.(lastNonEmpty := if l.room.clients != [] then now else l.lastNonEmpty)
  {}

  // ------------------------------------------------------------ titles and codes

  predicate Clean(s: string) { forall c :: c in s ==> ' ' <= c <= '~' }

  lemma {:induction false} CleanTextStays(s: string, cap: nat)
    requires |s| <= cap && Clean(s)
    ensures CleanText(s, cap) == s
  {
    if s != [] {
      var init := s[..|s| - 1];
      assert forall c :: c in init ==> c in s;
      assert s[|s| - 1] in s && init + [s[|s| - 1]] == s;
      CleanTextStays(init, cap);
    }
  }

  /** A lobby has the title it was given, or its creator's name in it. */
  lemma TitleIsKept(q: CreateRequest)
    ensures 0 < |q.title| <= 24 && Clean(q.title) ==> TitleOf(q) == q.title
    ensures q.title == "" && 0 < |q.name| <= 16 && Clean(q.name) ==> TitleOf(q) == "lobby by " + q.name
    ensures q.title == "" && q.name == "" ==> TitleOf(q) == "open lobby"
  {
    if |q.title| <= 24 && Clean(q.title) { CleanTextStays(q.title, 24); }
    if |q.name| <= 16 && Clean(q.name) { CleanTextStays(q.name, 16); }
    hide CleanText, Clean;
  }

  /** A code of capital letters and digits may be typed in small letters. */
  lemma TypedEitherWay(typed: string, code: string)
    requires |typed| == |code|
    requires forall i :: 0 <= i < |code| ==>
      if 'A' <= code[i] <= 'Z' then typed[i] == code[i] || typed[i] == code[i] - 'A' + 'a'
      else '0' <= code[i] <= '9' && typed[i] == code[i]
    ensures Upper(typed) == code
  {}
}
