/** The session server object: its handlers update the member list and the match
    data in place; `View` is the room they implement. */
module SessionServer {
  import opened SessionSeats
  import opened SessionRuns
  import SessionHistory

  /** What the network library gives for each message it announced. */
  datatype Polled = Message(event: Event) | Missing

  /** The messages in front of the first missing one. */
  function Readable(polled: seq<Polled>): seq<Event> {
    if polled == [] || polled[0].Missing? then [] else [polled[0].event] + Readable(polled[1..])
  }

  lemma {:induction false} ReadableOneMore(polled: seq<Polled>, i: nat)
    requires i < |polled| && Missing !in polled[..i]
    ensures polled[i].Missing? ==> Readable(polled) == Readable(polled[..i])
    ensures polled[i].Message? ==> Readable(polled[..i + 1]) == Readable(polled[..i]) + [polled[i].event]
    decreases i
  {
    if i > 0 {
      var rest := polled[1..];
      assert polled[..i][1..] == rest[..i - 1] && polled[..i + 1][1..] == rest[..i];
      assert polled[..i][0] == polled[0];
      ReadableOneMore(rest, i - 1);
    }
  }

  class SessionServer {
    var clients: seq<Member>
    var chara: seq<Chara>
    var charaOwner: seq<int>
    var readyMessageNum: seq<int>
    var joinSecret: string
    var sidecarHash: string
    const requireJoinSecret: bool
    const relayPort: nat
    const spectatorRelayBase: nat
    const spectatorSlots: int

    ghost predicate Valid()
      reads this
    {
      |chara| == 2 && |charaOwner| == 2 && |readyMessageNum| == 2
    }

    function Settings(): Config
      reads this
    {
      Config(requireJoinSecret, joinSecret, sidecarHash, relayPort, spectatorRelayBase, spectatorSlots)
    }

    ghost function View(): Room
      requires Valid()
      reads this
    {
      Room(clients,
           (Side(chara[0], charaOwner[0], readyMessageNum[0]), Side(chara[1], charaOwner[1], readyMessageNum[1])),
           Settings())
    }

    constructor (requireJoinSecret: bool, relayPort: nat, spectatorRelayBase: nat, spectatorSlots: int)
      ensures Valid()
      ensures View() == Opened(Config(requireJoinSecret, "", "", relayPort, spectatorRelayBase, spectatorSlots))
    {
      clients := [];
      chara, charaOwner, readyMessageNum := [NO_CHARA, NO_CHARA], [NO_OWNER, NO_OWNER], [-1, -1];
      joinSecret, sidecarHash := "", "";
      this.requireJoinSecret, this.relayPort := requireJoinSecret, relayPort;
      this.spectatorRelayBase, this.spectatorSlots := spectatorRelayBase, spectatorSlots;
    }

    method PlayerCount() returns (n: nat)
      ensures n == Players(clients)
    {
      n := 0;
      var i := 0;
      while i < |clients|
        invariant 0 <= i <= |clients|
        invariant n + Players(clients[i..]) == Players(clients)
      {
        assert clients[i..][1..] == clients[i + 1..];
        if !clients[i].spectator { n := n + 1; }
        i := i + 1;
      }
    }

    method SpectatorCount() returns (n: int)
      ensures n == Spectators(clients)
    {
      var players := PlayerCount();
      n := |clients| - players;
    }

    method PlayerIPv4s() returns (ips: seq<nat>)
      ensures ips == [PlayerIPs(clients).0, PlayerIPs(clients).1]
    {
      var players := PlayerCount();
      hide Players;
      ips := [0, 0];
      var i := 0;
      while i < players && i < 2
        invariant 0 <= i <= 2 && |ips| == 2 && i <= players
        invariant ips[0] == if i > 0 then clients[0].peerIPv4 else 0
        invariant ips[1] == if i > 1 then clients[1].peerIPv4 else 0
      {
        ips := ips[i := clients[i].peerIPv4];
        i := i + 1;
      }
    }

    method MemberIPv4s() returns (ips: seq<nat>)
      ensures ips == MemberIPs(clients)
    {
      ips := [];
      var i := 0;
      while i < |clients|
        invariant 0 <= i <= |clients| && ips == MemberIPs(clients[..i])
      {
        assert clients[..i + 1][..i] == clients[..i];
        if clients[i].peerIPv4 != 0 { ips := ips + [clients[i].peerIPv4]; }
        i := i + 1;
      }
      assert clients[..i] == clients;
    }

    static method Clean(raw: string) returns (name: string)
      ensures name == CleanName(raw)
    {
      name := "";
      var i := 0;
      while i < |raw| && |name| < 32
        invariant 0 <= i <= |raw| && |name| <= 32
        invariant name == Filtered(raw[..i])
      {
        assert raw[..i + 1][..i] == raw[..i];
        if Printable(raw[i]) { name := name + [raw[i]]; }
        i := i + 1;
      }
      FilteredPrefix(raw, i);
      assert raw[..|raw|] == raw;
      if name == "" { name := "Player"; }
    }

    method HasName(name: string) returns (taken: bool)
      ensures taken <==> exists m :: m in clients && m.name == name
    {
      taken := false;
      var i := 0;
      while i < |clients| && !taken
        invariant 0 <= i <= |clients|
        invariant taken ==> exists m :: m in clients && m.name == name
        invariant !taken ==> forall k :: 0 <= k < i ==> clients[k].name != name
      {
        if clients[i].name == name { taken := true; }
        i := i + 1;
      }
    }

    /** The lowest pipe no member has. */
    method FreeSlot() returns (slot: nat)
      ensures slot == LowestFree(SlotsTaken(clients), 0)
    {
      ghost var free := LowestFree(SlotsTaken(clients), 0);
      LowestFreeIs(SlotsTaken(clients), 0);
      SlotsTakenIs(clients, free);
      slot := 0;
      while true
        invariant slot <= free
        decreases free - slot
      {
        var taken := false;
        var i := 0;
        while i < |clients|
          invariant 0 <= i <= |clients|
          invariant taken <==> exists k :: 0 <= k < i && clients[k].slot == slot
        {
          if clients[i].slot == slot { taken := true; }
          i := i + 1;
        }
        SlotsTakenIs(clients, slot);
        if !taken { break; }
        slot := slot + 1;
      }
    }

    /** A join message: turned down at once when it does not parse. */
    method OnJoinRequest(message: Parsed) returns (result: JoinResult)
      requires Valid()
      modifies this`clients
      ensures Valid()
      ensures message.Garbled? ==> result == RequestInvalid && View() == old(View())
      ensures message.Request? ==> result == CheckJoin(old(View()), message.request)
      ensures message.Request? ==> View() == Join(old(View()), message.request)
    {
      if message.Garbled? { return RequestInvalid; }
      result := RegisterToWait(message.request);
    }

    method RegisterToWait(q: JoinRequest) returns (result: JoinResult)
      requires Valid()
      modifies this`clients
      ensures Valid() && result == CheckJoin(old(View()), q)
      ensures View() == Join(old(View()), q)
    {
      if requireJoinSecret && (joinSecret == "" || q.secret != joinSecret) { return SecretInvalid; }
      if sidecarHash != "" && q.hash != sidecarHash { return HashInvalid; }
      var name := Clean(q.name);
      hide CleanName, NewMember, Players;
      var full := Full(q.spectator);
      if full { return LobbyFull; }
      var taken := HasName(name);
      if taken { return NameTaken; }

      var member := Enroll(q, name);
      assert CheckJoin(View(), q) == JoinOk;
      hide CheckJoin;
      Insert(member);
      return JoinOk;
    }

    /** No room for another player or spectator. */
    method Full(spectator: bool) returns (full: bool)
      requires Valid()
      ensures full <==> NoRoom(View(), spectator)
    {
      var players := PlayerCount();
      var spectators := SpectatorCount();
      hide Players;
      if |clients| >= MAX_USERS { return true; }
      if !spectator && players >= MAX_PLAYERS { return true; }
      if spectator && spectators >= MAX_SPECTATORS { return true; }
      if spectator && spectatorRelayBase != 0 && spectators >= spectatorSlots { return true; }
      return false;
    }

    /** Spectators at the end, players in front of the spectators. */
    method Insert(m: Member)
      requires Valid()
      modifies this`clients
      ensures clients == Inserted(old(clients), if m.spectator then |old(clients)| else Players(old(clients)), m)
    {
      if m.spectator {
        clients := clients + [m];
        assert clients == Inserted(old(clients), |old(clients)|, m);
      } else {
        var players := PlayerCount();
        clients := clients[..players] + [m] + clients[players..];
      }
    }

    /** The member entry of an accepted request, with the ports its traffic uses. */
    method Enroll(q: JoinRequest, name: string) returns (m: Member)
      requires Valid() && name == CleanName(q.name)
      ensures m == NewMember(View(), q)
    {
      hide CleanName, LowestFree, SlotsTaken;
      var port, ip := q.port, q.address;
      if relayPort != 0 { port, ip := relayPort, ""; } else if q.local { ip := ""; }
      if q.spectator && spectatorRelayBase != 0 {
        var slot := FreeSlot();
        return Member(q.conn, name, true, slot, q.peerIPv4, ip,
                      (spectatorRelayBase + 2 * slot) % 0x1_0000, (spectatorRelayBase + 2 * slot + 1) % 0x1_0000);
      }
      return Member(q.conn, name, q.spectator, -1, q.peerIPv4, ip, port, 0);
    }

    /** The side a connection plays on, or -1. */
    method SideOf(conn: nat) returns (side: int)
      requires Valid()
      ensures side == SeatOf(View(), conn)
    {
      side := -1;
      var i := 0;
      while i < 2 && side == -1
        invariant 0 <= i <= 2
        invariant side == -1 ==> forall k :: 0 <= k < i && k < |clients| ==> clients[k].conn != conn
        invariant side != -1 ==> side == SeatOf(View(), conn)
      {
        if |clients| > i && clients[i].conn == conn { side := i; }
        i := i + 1;
      }
    }

    method OnSetChara(conn: nat, request: Chara)
      requires Valid()
      modifies this`chara, this`charaOwner
      ensures Valid() && View() == SetChara(old(View()), conn, request)
    {
      var side := SideOf(conn);
      if side == -1 || !CharaConditionsValid(request) { return; }
      chara := chara[side := request];
      charaOwner := charaOwner[side := clients[side].conn];
    }

    method OnReady(conn: nat, on: bool, message: nat)
      requires Valid()
      modifies this`readyMessageNum
      ensures Valid() && View() == SetReady(old(View()), conn, on, message)
    {
      var side := SideOf(conn);
      if side == -1 { return; }
      if !on {
        if readyMessageNum[0] == -1 || readyMessageNum[1] == -1 { readyMessageNum := readyMessageNum[side := -1]; }
        return;
      }
      readyMessageNum := readyMessageNum[side := message];
    }

    /** The loser moves behind the other players. */
    method MoveLoser(loserIndex: nat, players: nat)
      requires Valid() && loserIndex < players <= |clients|
      modifies this`clients
      ensures clients == Inserted(Removed(old(clients), loserIndex), players - 1, old(clients)[loserIndex])
    {
      var loser := clients[loserIndex];
      clients := clients[..loserIndex] + clients[loserIndex + 1..];
      clients := clients[..players - 1] + [loser] + clients[players - 1..];
    }

    method HandleResults(loserIndex: int)
      requires Valid()
      modifies this
      ensures Valid() && View() == Results(old(View()), loserIndex)
    {
      var players := PlayerCount();
      if 0 <= loserIndex < players && players > 1 {
        MoveLoser(loserIndex, players);
        if players == 2 && loserIndex == 0 {
          chara := [chara[1], chara[0]];
          charaOwner := [charaOwner[1], charaOwner[0]];
        }
      }
      readyMessageNum := [-1, -1];
      hide Players, Inserted, Removed;
    }

    /** A pick only survives while the player who made it sits in that seat. */
    method DropCharaFromVacatedSeats()
      requires Valid()
      modifies this`chara, this`charaOwner, this`readyMessageNum
      ensures Valid() && View() == Drop(old(View()))
    {
      var side := 0;
      while side < 2
        invariant 0 <= side <= 2 && Valid()
        invariant View()
          == if side == 0 then old(View()) else if side == 1 then DropSide(old(View()), 0) else Drop(old(View()))
      {
        var occupied := |clients| > side && !clients[side].spectator;
        var sameOwner := occupied && charaOwner[side] == clients[side].conn;
        if !sameOwner && chara[side].charaID != 0 {
          chara := chara[side := NO_CHARA];
          readyMessageNum := readyMessageNum[side := -1];
          charaOwner := charaOwner[side := NO_OWNER];
        }
        side := side + 1;
      }
    }

    method OnDisconnected(conn: nat)
      requires Valid()
      modifies this`clients
      ensures Valid() && View() == Leave(old(View()), conn)
      ensures Seated(old(View())) ==> clients == SessionHistory.Others(old(clients), conn)
    {
      if Seated(View()) { SessionHistory.LeaveRemoves(View(), conn); }
      hide Seated;
      var i := 0;
      while i < |clients|
        invariant 0 <= i <= |clients| && clients == old(clients)
        invariant Find(clients, conn) == i + Find(clients[i..], conn)
      {
        if clients[i].conn == conn {
          clients := clients[..i] + clients[i + 1..];
          return;
        }
        assert clients[i..][1..] == clients[i + 1..];
        i := i + 1;
      }
    }

    method DisconnectAll()
      requires Valid()
      modifies this`clients
      ensures Valid() && clients == []
    {
      clients := [];
    }

    method ResetLobby()
      requires Valid()
      modifies this`chara, this`readyMessageNum
      ensures Valid() && chara == [NO_CHARA, NO_CHARA] && readyMessageNum == [-1, -1]
    {
      readyMessageNum := [-1, -1];
      chara := [NO_CHARA, NO_CHARA];
    }

    /** What the lobby server does to its session when it hands out or releases a lobby. */
    method HandOver(secret: string, hash: string)
      requires Valid()
      modifies this
      ensures Valid() && View() == Reopen(old(View()), secret, hash)
    {
      DisconnectAll();
      sidecarHash, joinSecret := hash, secret;
      ResetLobby();
    }

    method Dispatch(e: Event)
      requires Valid() && IsMessage(e)
      modifies this
      ensures Valid() && View() == Apply(old(View()), e)
    {
      match e
      case Joins(q) => var _ := OnJoinRequest(Request(q));
      case Picks(conn, request) => OnSetChara(conn, request);
      case Readies(conn, on, message) => OnReady(conn, on, message);
      case Reports(loser) => HandleResults(loser);
    }

    /** One poll: every message up to a missing one, where the poll ends early with an
        error; else the vacated seats, then what goes out. */
    method Step(polled: seq<Polled>) returns (ok: bool, members: seq<Member>, picks: (Side, Side))
      requires Valid() && forall p :: p in polled && p.Message? ==> IsMessage(p.event)
      modifies this
      ensures Valid() && ok == (Missing !in polled)
      ensures View() == ApplyAll(old(View()), Readable(polled) + End(!ok))
      ensures ok ==> members == View().clients && picks == View().sides
    {
      members, picks := [], (EMPTY_SIDE, EMPTY_SIDE);
      var i := 0;
      assert polled[..0] == [];
      while i < |polled|
        invariant 0 <= i <= |polled| && Valid() && Missing !in polled[..i]
        invariant View() == ApplyAll(old(View()), Readable(polled[..i]))
      {
        ReadableOneMore(polled, i);
        if polled[i].Missing? {
          assert Readable(polled) + End(true) == Readable(polled);
          return false, members, picks;
        }
        Dispatch(polled[i].event);
        i := i + 1;
      }
      assert polled[..i] == polled && (Readable(polled) + [Drops])[..|Readable(polled)|] == Readable(polled);
      hide Readable;
      DropCharaFromVacatedSeats();
      return true, clients,
             (Side(chara[0], charaOwner[0], readyMessageNum[0]), Side(chara[1], charaOwner[1], readyMessageNum[1]));
    }
  }

  /** Once a name is full, or the input used up, more input changes nothing. */
  lemma {:induction false} FilteredPrefix(raw: string, i: nat)
    requires i <= |raw| && |Filtered(raw[..i])| <= 32 && (i == |raw| || |Filtered(raw[..i])| == 32)
    ensures CleanName(raw) == if Filtered(raw[..i]) == [] then "Player" else Filtered(raw[..i])
    decreases |raw|
  {
    FilteredGrows(raw, i);
    assert raw[..|raw|] == raw;
  }

  lemma {:induction false} FilteredGrows(raw: string, i: nat)
    requires i <= |raw|
    ensures |Filtered(raw[..i])| <= |Filtered(raw)| && Filtered(raw)[..|Filtered(raw[..i])|] == Filtered(raw[..i])
    decreases |raw|
  {
    if i == |raw| {
      assert raw[..i] == raw;
    } else {
      var init := raw[..|raw| - 1];
      FilteredGrows(init, i);
      assert init[..i] == raw[..i];
    }
  }
}
