/** Whom the relay and the pipes of each lobby serve as the dedicated server runs. */
module LobbyTraffic {
  import opened SessionSeats
  import SessionRuns
  import opened LobbyServer
  import opened LobbyRuns
  import Pipe
  import Relay

  /** Endpoints learned belong to whom relay and pipes were last told about. */
  ghost predicate TrafficOk(l: Lobby) {
    Relay.Sound(l.relay) && Pipe.MembersOnly(l.pipes.0) && Pipe.MembersOnly(l.pipes.1)
  }

  ghost predicate AllTrafficOk(ls: Lobbies) { forall i :: 0 <= i < |ls| ==> TrafficOk(ls[i]) }

  lemma SilencedOk(l: Lobby)
    ensures TrafficOk(Silenced(l))
  {}

  lemma RefreshedOk(l: Lobby)
    requires TrafficOk(l)
    ensures TrafficOk(Refreshed(l))
  {
    var players := PlayerIPs(l.room.clients);
    Relay.ApplyIsSound(l.relay, Relay.Seats([players.0, players.1]));
    Pipe.ApplyKeepsMembersOnly(l.pipes.0, Pipe.Assigns(MemberIPs(l.room.clients)));
    Pipe.ApplyKeepsMembersOnly(l.pipes.1, Pipe.Assigns(MemberIPs(l.room.clients)));
    hide Relay.Sound, Pipe.MembersOnly, Relay.SetPlayers, Pipe.Reassign, PlayerIPs, MemberIPs;
  }

  /** A lobby handed over or released was silenced; nothing else but traffic touches
      relay and pipes. */
  lemma HandoverTraffic(l: Lobby, q: CreateRequest, code: string, now: nat)
    ensures TrafficOk(Released(l, now)) && TrafficOk(Occupied(l, q, code, now))
    ensures TrafficOk(l) ==> TrafficOk(Aged(l, now))
  {
    hide TitleOf;
  }

  lemma CreateTraffic(ls: Lobbies, q: CreateRequest, now: nat)
    requires AllTrafficOk(ls) && Lucky(ReleaseOwn(ls, |ls|, q.ip, now), q)
    ensures AllTrafficOk(Create(ls, q, now).0)
  {
    hide Released, Occupied, Taken, CountOwn, Own, Create, Lucky, ReleaseOwn, TrafficOk;
    var cleared := ReleaseOwn(ls, |ls|, q.ip, now);
    var (r, reply) := Create(ls, q, now);
    CreateIs(ls, q, now);
    var code := if reply.Created? then reply.code else "";
    forall i | 0 <= i < |r| ensures TrafficOk(r[i]) {
      HandoverTraffic(ls[i], q, code, now);
      HandoverTraffic(cleared[i], q, code, now);
    }
  }

  lemma OpTraffic(ls: Lobbies, op: Op)
    requires AllTrafficOk(ls) && Proper(ls, op) && !op.Creates?
    ensures TrafficOk(Apply(ls, op)[op.index])
  {
    var l := ls[op.index];
    assert TrafficOk(l);
    match op {
      case Housekeeps(i, now) =>
        HandoverTraffic(l, CreateRequest(0, "", "", "", false, [], ""), "", now);
        hide Aged, TrafficOk;
      case Refreshes(i) =>
        RefreshedOk(l);
        hide Refreshed, TrafficOk;
      case RelayPumps(i, inbox, now) =>
        Relay.ApplyIsSound(l.relay, Relay.Pumps(inbox, now));
        hide Relay.Pump, Relay.Sound, Pipe.MembersOnly;
      case PipePumps(i, second, hostIn, specIn, now) =>
        Pipe.ApplyKeepsMembersOnly(if second then l.pipes.1 else l.pipes.0, Pipe.PumpsTube(hostIn, specIn, now));
        hide Pipe.PumpTube, Relay.Sound, Pipe.MembersOnly;
      case Sessions(i, e) =>
        hide SessionRuns.Apply, CheckJoin, Relay.Sound, Pipe.MembersOnly;
    }
  }

  lemma StepTraffic(ls: Lobbies, op: Op)
    requires AllTrafficOk(ls) && Proper(ls, op)
    ensures AllTrafficOk(Apply(ls, op))
  {
    if op.Creates? {
      CreateTraffic(ls, op.request, op.now);
    } else {
      OpTraffic(ls, op);
      hide TrafficOk, Aged, InSession, Refreshed, Relay.Pump, Pipe.PumpTube;
    }
  }

  lemma {:induction false} ReachableTraffic(ops: seq<Op>, ls: Lobbies)
    requires Reaches(ops, ls)
    ensures |ls| == NUM_LOBBIES && AllTrafficOk(ls)
  {
    ReachableIsOk(ops, ls);
    if ops != [] {
      hide ServerOk, Proper, AllTrafficOk, LobbyRuns.Apply;
      var n := |ops| - 1;
      var before: Lobbies :|
        Reaches(ops[..n], before) && Proper(before, ops[n]) && ls == LobbyRuns.Apply(before, ops[n]);
      ReachableTraffic(ops[..n], before);
      StepTraffic(before, ops[n]);
    }
  }

  // ----------------------------------------------------------- who is served

  /** Relay and pipes know exactly who is in the session now. */
  predicate UpToDate(l: Lobby) {
    && l.relay.players == PlayerIPs(l.room.clients)
    && l.pipes.0.allowed == MemberIPs(l.room.clients) && l.pipes.1.allowed == MemberIPs(l.room.clients)
  }

  /** A datagram goes from one player's address to the other's, or a player gets his answer. */
  predicate BetweenPlayers(l: Lobby, from: Relay.Endpoint, sent: Relay.Send) {
    var (a, b) := PlayerIPs(l.room.clients);
    if sent.Forward? then
      && sent.to != from && a != 0 && b != 0
      && ((from.ip == a && sent.to.ip == b) || (from.ip == b && sent.to.ip == a))
    else
      sent.to == from && from.ip != 0 && (from.ip == a || from.ip == b)
  }

  lemma CausedIsBetween(l: Lobby, inbox: seq<Relay.Datagram>, now: nat, k: nat, sent: Relay.Send)
    requires Relay.Sound(l.relay) && l.relay.players == PlayerIPs(l.room.clients)
    requires Relay.CausedBy(l.relay, inbox, now, k, sent)
    ensures k < |inbox| && BetweenPlayers(l, inbox[k].from, sent)
  {
    Relay.ReceiveAllIsSound(l.relay, inbox[..k + 1], now);
    hide Relay.ReceiveAll, PlayerIPs;
  }

  /** While they are up to date, a pump of the relay serves the session's current players
      and nobody else, each datagram at most once and in order. */
  lemma RelayServesPlayers(l: Lobby, inbox: seq<Relay.Datagram>, now: nat)
    requires TrafficOk(l) && UpToDate(l)
    ensures var sends, causes := Relay.Pump(l.relay, inbox, now).1, Relay.Causes(l.relay, inbox, now);
      && |causes| == |sends|
      && (forall i, j :: 0 <= i < j < |causes| ==> causes[i] < causes[j])
      && (forall i :: 0 <= i < |sends| ==> causes[i] < |inbox| && BetweenPlayers(l, inbox[causes[i]].from, sends[i]))
  {
    Relay.SendsAreCaused(l.relay, inbox, now);
    var sends, causes := Relay.Pump(l.relay, inbox, now).1, Relay.Causes(l.relay, inbox, now);
    hide Relay.CausedBy, BetweenPlayers, PlayerIPs, MemberIPs, Relay.Causes, Relay.Sound, Pipe.MembersOnly;
    forall i | 0 <= i < |sends| ensures causes[i] < |inbox| && BetweenPlayers(l, inbox[causes[i]].from, sends[i]) {
      CausedIsBetween(l, inbox, now, causes[i], sends[i]);
    }
  }

  /** And a pump of a pipe only the session's current members. */
  lemma PipesServeMembers(l: Lobby, second: bool, hostIn: seq<Relay.Datagram>, specIn: seq<Relay.Datagram>, now: nat)
    requires TrafficOk(l) && UpToDate(l)
    ensures var p := if second then l.pipes.1 else l.pipes.0;
      forall sent :: sent in Pipe.PumpTube(p, hostIn, specIn, now).1 ==>
        sent.Forward? && sent.to.ip in MemberIPs(l.room.clients)
  {
    Pipe.PumpServesMembers(if second then l.pipes.1 else l.pipes.0, hostIn, specIn, now);
    hide Pipe.PumpTube, Relay.Sound, Pipe.MembersOnly, MemberIPs, PlayerIPs;
  }

  lemma RefreshBringsUpToDate(l: Lobby)
    ensures UpToDate(Refreshed(l))
  {
    hide PlayerIPs, MemberIPs;
  }

  /** A turn of the main loop, in every reachable state: once relay and pipes are refreshed,
      all they pass on stays among the players and members in the session now. */
  lemma TurnServesSession(ops: seq<Op>, ls: Lobbies, i: nat, second: bool,
                          inbox: seq<Relay.Datagram>, hostIn: seq<Relay.Datagram>,
                          specIn: seq<Relay.Datagram>, now: nat)
    requires Reaches(ops, ls) && i < NUM_LOBBIES == |ls|
    ensures var l := Refreshed(ls[i]);
      var sends, causes := Relay.Pump(l.relay, inbox, now).1, Relay.Causes(l.relay, inbox, now);
      var p := if second then l.pipes.1 else l.pipes.0;
      && l.room == ls[i].room && |causes| == |sends|
      && (forall k, j :: 0 <= k < j < |causes| ==> causes[k] < causes[j])
      && (forall k :: 0 <= k < |sends| ==> causes[k] < |inbox| && BetweenPlayers(l, inbox[causes[k]].from, sends[k]))
      && (forall sent :: sent in Pipe.PumpTube(p, hostIn, specIn, now).1 ==>
           sent.Forward? && sent.to.ip in MemberIPs(l.room.clients))
  {
    ReachableTraffic(ops, ls);
    var l := Refreshed(ls[i]);
    assert l.room == ls[i].room && TrafficOk(ls[i]);
    hide Reaches, Refreshed, TrafficOk, AllTrafficOk, UpToDate, BetweenPlayers, Relay.Pump, Relay.Causes;
    hide Pipe.PumpTube, MemberIPs;
    RefreshedOk(ls[i]);
    RefreshBringsUpToDate(ls[i]);
    RelayServesPlayers(l, inbox, now);
    PipesServeMembers(l, second, hostIn, specIn, now);
  }

  /** The age limit empties a lobby in which somebody with an address still is. */
  predicate Evicts(ls: Lobbies, op: Op, i: nat)
    requires i < |ls|
  {
    && op.Housekeeps? && op.index == i && MemberIPs(ls[i].room.clients) != []
    && Aged(ls[i], op.now).room.clients != ls[i].room.clients
  }

  lemma {:induction false} NoAddresses(clients: seq<Member>)
    ensures MemberIPs(clients) == [] <==> forall m :: m in clients ==> m.peerIPv4 == 0
  {
    if clients != [] {
      var init, last := clients[..|clients| - 1], clients[|clients| - 1];
      NoAddresses(init);
      assert forall m :: m in clients <==> m in init || m == last;
    }
  }

  /** The same relay and pipe settings serve an emptied room only if nobody in it had an
      address. */
  lemma EmptiedRoom(l: Lobby, l': Lobby)
    requires UpToDate(l) && l'.room.clients == [] && l'.relay.players == l.relay.players
    requires l'.pipes.0.allowed == l.pipes.0.allowed && l'.pipes.1.allowed == l.pipes.1.allowed
    ensures UpToDate(l') <==> MemberIPs(l.room.clients) == []
  {
    NoAddresses(l.room.clients);
    assert MemberIPs([]) == [] && PlayerIPs([]) == (0, 0);
    if MemberIPs(l.room.clients) == [] {
      assert PlayerIPs(l.room.clients) == (0, 0);
    }
  }

  lemma AgedSettings(l: Lobby, now: nat)
    ensures var l' := Aged(l, now);
      && l'.relay.players == l.relay.players
      && l'.pipes.0.allowed == l.pipes.0.allowed && l'.pipes.1.allowed == l.pipes.1.allowed
      && (l'.room.clients == l.room.clients || l'.room.clients == [])
      && (l'.room.clients == [] || (l'.relay == l.relay && l'.pipes == l.pipes))
  {}

  lemma HandedSettings(l: Lobby, q: CreateRequest, code: string, now: nat)
    ensures var l' := Released(l, now);
      && l'.room.clients == [] && l'.relay.players == l.relay.players
      && l'.pipes.0.allowed == l.pipes.0.allowed && l'.pipes.1.allowed == l.pipes.1.allowed
    ensures var l' := Occupied(l, q, code, now);
      && l'.room.clients == [] && l'.relay.players == l.relay.players
      && l'.pipes.0.allowed == l.pipes.0.allowed && l'.pipes.1.allowed == l.pipes.1.allowed
  {
    hide TitleOf;
  }

  /** An empty lobby stays up to date as it is released or handed out. */
  lemma HandingOutdatesNothing(l: Lobby, q: CreateRequest, code: string, now: nat)
    requires UpToDate(l) && l.room.clients == []
    ensures UpToDate(Released(l, now)) && UpToDate(Occupied(l, q, code, now))
  {
    HandedSettings(l, q, code, now);
    assert MemberIPs([]) == [];
    hide Released, Occupied, UpToDate, MemberIPs, PlayerIPs;
    EmptiedRoom(l, Released(l, now));
    EmptiedRoom(l, Occupied(l, q, code, now));
  }

  lemma IdleIsEmpty(ls: Lobbies, i: nat)
    requires ServerOk(ls) && i < |ls| && !ls[i].active
    ensures ls[i].room.clients == []
  {
    assert LobbyOk(ls[i], i);
    hide KnowsNobody;
  }

  /** A create request only ever releases and hands out empty lobbies. */
  lemma CreateOutdatesNothing(ls: Lobbies, q: CreateRequest, now: nat, i: nat)
    requires ServerOk(ls) && i < |ls| && UpToDate(ls[i]) && Lucky(ReleaseOwn(ls, |ls|, q.ip, now), q)
    ensures |Create(ls, q, now).0| == |ls| && UpToDate(Create(ls, q, now).0[i])
  {
    hide Released, Occupied, Taken, CountOwn, Own, Create, Lucky, ReleaseOwn, UpToDate, ServerOk;
    var cleared := ReleaseOwn(ls, |ls|, q.ip, now);
    var (r, reply) := Create(ls, q, now);
    CreateIs(ls, q, now);
    var code := if reply.Created? then reply.code else "";
    if !ls[i].active { IdleIsEmpty(ls, i); }
    if ls[i].room.clients == [] {
      HandingOutdatesNothing(ls[i], q, code, now);
      if cleared[i] != ls[i] { HandedSettings(ls[i], q, code, now); }
      HandingOutdatesNothing(cleared[i], q, code, now);
    }
  }

  lemma PumpsOutdateNothing(l: Lobby, inbox: seq<Relay.Datagram>, other: seq<Relay.Datagram>, now: nat)
    requires TrafficOk(l)
    ensures Relay.Pump(l.relay, inbox, now).0.players == l.relay.players
    ensures Pipe.PumpTube(l.pipes.0, inbox, other, now).0.allowed == l.pipes.0.allowed
    ensures Pipe.PumpTube(l.pipes.1, inbox, other, now).0.allowed == l.pipes.1.allowed
  {
    Relay.ReceiveAllIsSound(l.relay, inbox, now);
    Pipe.OutsidersAreNoise(l.pipes.0, true, inbox, now);
    Pipe.OutsidersAreNoise(Pipe.TakeAll(l.pipes.0, true, inbox, now).0, false, other, now);
    Pipe.OutsidersAreNoise(l.pipes.1, true, inbox, now);
    Pipe.OutsidersAreNoise(Pipe.TakeAll(l.pipes.1, true, inbox, now).0, false, other, now);
    hide Pipe.TakeAll, Relay.ReceiveAll, Pipe.MembersOnly, Relay.Sound;
  }

  /** Between turns relay and pipes stay up to date, as no session event comes before the
      next refresh, exactly unless the age limit evicts somebody. */
  lemma OnlyEvictionOutdates(ops: seq<Op>, ls: Lobbies, op: Op, i: nat)
    requires Reaches(ops, ls) && Proper(ls, op) && i < NUM_LOBBIES == |ls|
    requires UpToDate(ls[i]) && !(op.Sessions? && op.index == i)
    ensures |Apply(ls, op)| == |ls| && (UpToDate(Apply(ls, op)[i]) <==> !Evicts(ls, op, i))
  {
    ReachableIsOk(ops, ls);
    ReachableTraffic(ops, ls);
    hide Reaches;
    OneOpOutdates(ls, op, i);
  }

  lemma OneOpOutdates(ls: Lobbies, op: Op, i: nat)
    requires ServerOk(ls) && AllTrafficOk(ls) && Proper(ls, op) && i < |ls|
    requires UpToDate(ls[i]) && !(op.Sessions? && op.index == i)
    ensures |Apply(ls, op)| == |ls| && (UpToDate(Apply(ls, op)[i]) <==> !Evicts(ls, op, i))
  {
    var l := ls[i];
    assert TrafficOk(l);
    if op.Creates? {
      hide UpToDate, TrafficOk, Create, MemberIPs, Lucky;
      CreateOutdatesNothing(ls, op.request, op.now, i);
    } else if op.index == i {
      match op {
        case Housekeeps(_, now) =>
          AgedSettings(l, now);
          var l' := Aged(l, now);
          assert MemberIPs([]) == [];
          if l'.room.clients == [] { EmptiedRoom(l, l'); }
          hide Aged, TrafficOk, MemberIPs, PlayerIPs;
        case Refreshes(_) =>
          RefreshBringsUpToDate(l);
          hide Refreshed, UpToDate;
        case RelayPumps(_, inbox, now) =>
          PumpsOutdateNothing(l, inbox, [], now);
          hide Relay.Pump, TrafficOk, MemberIPs, PlayerIPs;
        case PipePumps(_, second, hostIn, specIn, now) =>
          PumpsOutdateNothing(l, hostIn, specIn, now);
          hide Pipe.PumpTube, TrafficOk, MemberIPs, PlayerIPs;
      }
    } else {
      hide UpToDate, Aged, InSession, Refreshed, Relay.Pump, Pipe.PumpTube, TrafficOk, MemberIPs;
    }
  }

  // ------------------------------------------------------------- an eviction

  function Host(ip: nat): CreateRequest { CreateRequest(ip, "h", "", "", false, ["A"], "s") }

  function Guest(ip: nat): JoinRequest { JoinRequest(1, 0, "h", "a", false, "s", ip, "", false) }

  /** The first lobby is handed out, somebody joins, and the loop's turn is over. */
  function EvictionOps(ip: nat): seq<Op> {
    [Creates(Host(ip), 0), Sessions(0, SessionRuns.Joins(Guest(ip))), Refreshes(0)]
  }

  lemma FirstLobby(ip: nat) returns (ls: Lobbies, code: string)
    ensures Reaches(EvictionOps(ip)[..1], ls) && |ls| == NUM_LOBBIES
    ensures ls[0] == Occupied(Fresh(0), Host(ip), code, 0)
  {
    var q, boot := Host(ip), Boot();
    assert ReleaseOwn(boot, |boot|, ip, 0) == boot;
    assert "A" in q.draws && !Taken(boot, "A");
    BootIsIdle(|boot|, ip);
    ls := Create(boot, q, 0).0;
    code := FirstUntaken(boot, q.draws);
    hide Create, Occupied, ReleaseOwn, Lucky;
    assert Proper(boot, Creates(q, 0)) && ls == LobbyRuns.Apply(boot, Creates(q, 0));
    assert Reaches(EvictionOps(ip)[..0], boot);
    assert EvictionOps(ip)[..1][..0] == EvictionOps(ip)[..0];
  }

  /** The lobby with its one guest. */
  predicate HasGuest(l: Lobby, ip: nat) {
    l.active && l.createdAt == 0 && |l.room.clients| == 1 && l.room.clients[0].peerIPv4 == ip
  }

  lemma GuestSits(l: Lobby, ip: nat, code: string)
    requires l == Occupied(Fresh(0), Host(ip), code, 0)
    ensures HasGuest(InSession(l, SessionRuns.Joins(Guest(ip))), ip)
  {
    hide TitleOf, CleanName;
  }

  /** One more step of a run. */
  lemma ReachesNext(ops: seq<Op>, ls: Lobbies, op: Op)
    requires Reaches(ops, ls) && Proper(ls, op) && JoinsAnew(Joined(ops), op)
    ensures Reaches(ops + [op], LobbyRuns.Apply(ls, op))
  {
    assert (ops + [op])[..|ops|] == ops;
    hide Proper, JoinsAnew, LobbyRuns.Apply, Joined;
  }

  lemma NobodyJoined(ip: nat)
    ensures Joined(EvictionOps(ip)[..1]) == {}
  {
    hide Host, Guest;
  }

  lemma GuestJoins(ip: nat) returns (ls: Lobbies)
    ensures Reaches(EvictionOps(ip)[..2], ls) && |ls| == NUM_LOBBIES && HasGuest(ls[0], ip)
  {
    hide Reaches, Occupied, InSession, Joined, Host, Guest, HasGuest, Create, Lucky, Aged;
    var ops := EvictionOps(ip);
    var first, code := FirstLobby(ip);
    GuestSits(first[0], ip, code);
    NobodyJoined(ip);
    assert ops[..1] + [ops[1]] == ops[..2];
    ReachesNext(ops[..1], first, ops[1]);
    ls := LobbyRuns.Apply(first, ops[1]);
  }

  lemma GuestIsServed(ip: nat) returns (ls: Lobbies)
    ensures Reaches(EvictionOps(ip), ls) && |ls| == NUM_LOBBIES && UpToDate(ls[0]) && HasGuest(ls[0], ip)
  {
    hide Reaches, UpToDate, Joined, Host, Guest, Create, Lucky, Aged, Relay.SetPlayers, Pipe.Reassign;
    hide PlayerIPs, MemberIPs;
    var ops := EvictionOps(ip);
    var joined := GuestJoins(ip);
    RefreshBringsUpToDate(joined[0]);
    assert ops[..2] + [ops[2]] == ops;
    ReachesNext(ops[..2], joined, ops[2]);
    ls := LobbyRuns.Apply(joined, ops[2]);
  }

  /** It does happen: twelve hours later that very lobby is released with its guest in it. */
  lemma EvictionHappens(ip: nat) returns (ls: Lobbies, op: Op)
    requires ip != 0
    ensures Reaches(EvictionOps(ip), ls) && Proper(ls, op) && |ls| == NUM_LOBBIES
    ensures UpToDate(ls[0]) && !op.Sessions? && Evicts(ls, op, 0)
    ensures !UpToDate(LobbyRuns.Apply(ls, op)[0])
  {
    ls := GuestIsServed(ip);
    op := Housekeeps(0, MAX_LOBBY_AGE_MS + 1);
    hide Reaches, UpToDate;
    NoAddresses(ls[0].room.clients);
    assert Evicts(ls, op, 0) by { hide MemberIPs, Silenced, Reopen; }
    hide Evicts, LobbyRuns.Apply;
    OnlyEvictionOutdates(EvictionOps(ip), ls, op, 0);
  }

  // ---------------------------------------------------------------- connecting

  lemma {:induction false} MemberIPsAre(clients: seq<Member>, ip: nat)
    ensures ip in MemberIPs(clients) <==> ip != 0 && exists m :: m in clients && m.peerIPv4 == ip
  {
    if clients != [] {
      var init, last := clients[..|clients| - 1], clients[|clients| - 1];
      MemberIPsAre(init, ip);
      assert forall m :: m in clients <==> m in init || m == last;
    }
  }

  /** In every reachable state, with two players in the session, a turn of the main loop in
      which each speaks from the address he joined from gives both their slots, and whatever
      they say from then on crosses over. */
  lemma TurnConnectsPlayers(ops: seq<Op>, ls: Lobbies, i: nat, inbox: seq<Relay.Datagram>, now: nat, j: nat, k: nat,
                            later: seq<Relay.Datagram>, next: nat)
    requires Reaches(ops, ls) && i < NUM_LOBBIES == |ls|
    requires Players(ls[i].room.clients) == 2 && |ls[i].room.clients| >= 2
    requires j < |inbox| && k < |inbox| && inbox[j].from != inbox[k].from
    requires Relay.Speaks(inbox[j], ls[i].room.clients[0].peerIPv4)
    requires Relay.Speaks(inbox[k], ls[i].room.clients[1].peerIPv4)
    ensures var s := Relay.ReceiveAll(Refreshed(ls[i]).relay, inbox, now).0;
      && s.slots.0.used && s.slots.0.addr.ip == ls[i].room.clients[0].peerIPv4
      && s.slots.1.used && s.slots.1.addr.ip == ls[i].room.clients[1].peerIPv4
      && Relay.ReceiveAll(s, later, next).1 == Relay.Expected(s.slots.0.addr, s.slots.1.addr, later)
  {
    ReachableTraffic(ops, ls);
    assert TrafficOk(ls[i]);
    hide Reaches, Players, MemberIPs, AllTrafficOk, Relay.ReceiveAll, Relay.Expected, Pipe.MembersOnly;
    RefreshedOk(ls[i]);
    RefreshBringsUpToDate(ls[i]);
    assert Refreshed(ls[i]).room == ls[i].room;
    var s := Refreshed(ls[i]).relay;
    Relay.BothGetIn(s, inbox, now, j, k);
    Relay.ReceiveAllIsSound(s, inbox, now);
    Relay.EstablishedRelayIsAWire(Relay.ReceiveAll(s, inbox, now).0, later, next);
  }
}
