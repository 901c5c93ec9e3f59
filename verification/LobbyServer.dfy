/** The dedicated server's lobbies: creating, finding and releasing them. */
module LobbyServer {
  import opened SessionSeats
  import SessionRuns
  import Pipe
  import Relay

  const NUM_LOBBIES := 20
  const MATCHMAKER_PORT := 23400
  const FIRST_SESSION_PORT := 23401
  const FIRST_RELAY_PORT := 24001
  const FIRST_SPECTATOR_PORT := 25001
  const SPECTATOR_PORTS_PER_LOBBY := 4
  const EMPTY_LOBBY_TIMEOUT_MS := 90 * 1000
  const MAX_LOBBY_AGE_MS := 12 * 3600 * 1000
  const MAX_LOBBIES_PER_IP := 2

  /** `room` is the lobby's session, with its relay and its spectators' pipes; `presented`
      remembers the secret each member came in with. */
  datatype Lobby = Lobby(active: bool, code: string, hash: string, secret: string, creatorIp: nat,
                         createdAt: nat, lastNonEmpty: nat, title: string, listed: bool, room: Room,
                         relay: Relay.State, pipes: (Pipe.Tube, Pipe.Tube), presented: map<nat, string>)

  type Lobbies = seq<Lobby>

  function LobbyConfig(i: nat): Config {
    Config(true, "", "", FIRST_RELAY_PORT + i, FIRST_SPECTATOR_PORT + i * SPECTATOR_PORTS_PER_LOBBY, MAX_SPECTATORS)
  }

  function Fresh(i: nat): Lobby {
    Lobby(false, "", "", "", 0, 0, 0, "", false, Opened(LobbyConfig(i)),
          Relay.IDLE, (Pipe.IDLE_TUBE, Pipe.IDLE_TUBE), map[])
  }

  function Boot(): (ls: Lobbies)
    ensures |ls| == NUM_LOBBIES
  {
    seq(NUM_LOBBIES, i requires 0 <= i < NUM_LOBBIES => Fresh(i))
  }

  // ----------------------------------------------------------- what it does

  /** Relay and pipes forget every endpoint they learned. */
  function Silenced(l: Lobby): Lobby {
    l.(relay := Relay.Clear(l.relay), pipes := (Pipe.ClearTube(l.pipes.0), Pipe.ClearTube(l.pipes.1)))
  }

  function Released(l: Lobby, now: nat): Lobby {
    Silenced(l.(active := false, code := "", hash := "", secret := "", creatorIp := 0, listed := false, title := "",
                lastNonEmpty := now, room := Reopen(l.room, "", ""), presented := map[]))
  }

  predicate Own(l: Lobby, ip: nat) { l.active && l.creatorIp == ip }

  /** The creator's own empty lobbies among the first `n` are released. */
  function ReleaseOwn(ls: Lobbies, n: nat, ip: nat, now: nat): (r: Lobbies)
    requires n <= |ls|
    ensures |r| == |ls| && forall i :: 0 <= i < |ls| ==>
      r[i] == if i < n && Own(ls[i], ip) && ls[i].room.clients == [] then Released(ls[i], now) else ls[i]
  {
    if n == 0 then ls
    else
      var before := ReleaseOwn(ls, n - 1, ip, now);
      if Own(ls[n - 1], ip) && ls[n - 1].room.clients == [] then before[n - 1 := Released(ls[n - 1], now)] else before
  }

  function CountOwn(ls: Lobbies, n: nat, ip: nat): nat
    requires n <= |ls|
  {
    if n == 0 then 0 else CountOwn(ls, n - 1, ip) + if Own(ls[n - 1], ip) then 1 else 0
  }

  predicate Taken(ls: Lobbies, code: string) { exists l :: l in ls && l.active && l.code == code }

  function FirstUntaken(ls: Lobbies, draws: seq<string>): (r: string)
    requires exists d :: d in draws && !Taken(ls, d)
    ensures !Taken(ls, r) && r in draws
  {
    if !Taken(ls, draws[0]) then draws[0] else FirstUntaken(ls, draws[1..])
  }

  function FirstFree(ls: Lobbies, from: nat): (i: nat)
    requires from <= |ls|
    ensures from <= i <= |ls| && (i < |ls| ==> !ls[i].active)
    ensures forall k :: from <= k < i ==> ls[k].active
    decreases |ls| - from
  {
    if from == |ls| || !ls[from].active then from else FirstFree(ls, from + 1)
  }

  datatype CreateReply = BadRequest | ServerFull | Created(index: nat, code: string, secret: string)

  /** `listed` asks for a place in the public list; draws and secret are the server's. */
  datatype CreateRequest = CreateRequest(ip: nat, hash: string, name: string, title: string, listed: bool,
                                         draws: seq<string>, secret: string)

  /** The printable part of a text, cut off. */
  function CleanText(s: string, cap: nat): (r: string)
    ensures |r| <= cap && forall c :: c in r ==> ' ' <= c <= '~'
  {
    if s == [] then []
    else
      var r, c := CleanText(s[..|s| - 1], cap), s[|s| - 1];
      if ' ' <= c <= '~' && |r| < cap then r + [c] else r
  }

  /** The title asked for, or one made from the creator's name. */
  function TitleOf(q: CreateRequest): (r: string)
    ensures 0 < |r| <= 25
  {
    var title, who := CleanText(q.title, 24), CleanText(q.name, 16);
    if title != "" then title else if who == "" then "open lobby" else "lobby by " + who
  }

  function Occupied(l: Lobby, q: CreateRequest, code: string, now: nat): Lobby {
    Silenced(l.(active := true, code := code, hash := q.hash, secret := q.secret, creatorIp := q.ip, createdAt := now,
                lastNonEmpty := now, title := TitleOf(q), listed := q.listed,
                room := Reopen(l.room, q.secret, q.hash), presented := map[]))
  }

  /** The random draws eventually give a code nobody has. */
  ghost predicate Lucky(ls: Lobbies, q: CreateRequest) {
    exists d :: d in q.draws && !Taken(ls, d)
  }

  function Create(ls: Lobbies, q: CreateRequest, now: nat): (r: (Lobbies, CreateReply))
    requires Lucky(ReleaseOwn(ls, |ls|, q.ip, now), q)
  {
    if q.hash == "" then (ls, BadRequest)
    else
      var ls' := ReleaseOwn(ls, |ls|, q.ip, now);
      var i := FirstFree(ls', 0);
      if CountOwn(ls', |ls'|, q.ip) >= MAX_LOBBIES_PER_IP || i == |ls'| then (ls', ServerFull)
      else
        var code := FirstUntaken(ls', q.draws);
        (ls'[i := Occupied(ls'[i], q, code, now)], Created(i, code, q.secret))
  }

  /** The end of a housekeeping turn. */
  function Aged(l: Lobby, now: nat): Lobby {
    if !l.active then l
    else
      var l' :=
        if l.room.clients != [] then l.(lastNonEmpty := now)
        else if Relay.Elapsed(now, l.lastNonEmpty) > EMPTY_LOBBY_TIMEOUT_MS then Released(l, now)
        else l;
      if l'.active && Relay.Elapsed(now, l'.createdAt) > MAX_LOBBY_AGE_MS then Released(l', now) else l'
  }

  /** Something happens in one lobby's session. */
  function InSession(l: Lobby, e: SessionRuns.Event): Lobby {
    l.(room := SessionRuns.Apply(l.room, e),
       presented := if e.Joins? && CheckJoin(l.room, e.request) == JoinOk
                    then l.presented[e.request.conn := e.request.secret] else l.presented)
  }

  /** Relay and pipes are told who is in the session now. */
  function Refreshed(l: Lobby): Lobby {
    var (first, second), players := l.pipes, PlayerIPs(l.room.clients);
    var members := MemberIPs(l.room.clients);
    l.(relay := Relay.SetPlayers(l.relay, [players.0, players.1]),
       pipes := (Pipe.Reassign(first, members), Pipe.Reassign(second, members)))
  }

  datatype Found = NotFound | RoomFull | SpectatorsFull | VersionMismatch | At(index: nat, secret: string)

  /** A code as it is looked up, however it was typed. */
  function Upper(s: string): string {
    seq(|s|, i requires 0 <= i < |s| => UpperChar(s[i]))
  }

  function UpperChar(c: char): char { if 'a' <= c <= 'z' then c - 'a' + 'A' else c }

  function Lookup(ls: Lobbies, from: nat, code: string, hash: string, spectate: bool): Found
    requires from <= |ls|
    decreases |ls| - from
  {
    if from == |ls| then NotFound
    else if !ls[from].active || ls[from].code != code then Lookup(ls, from + 1, code, hash, spectate)
    else
      var l := ls[from];
      if !spectate && Players(l.room.clients) >= MAX_PLAYERS then RoomFull
      else if spectate && Spectators(l.room.clients) >= MAX_SPECTATORS then SpectatorsFull
      else if hash == "" || hash != l.hash then VersionMismatch
      else At(from, l.secret)
  }

  // -------------------------------------------------------------- the object

  class LobbyServer {
    var lobbies: Lobbies

    constructor ()
      ensures lobbies == Boot()
    {
      lobbies := Boot();
    }

    method ResetLobby(i: nat, now: nat)
      requires i < |lobbies|
      modifies this
      ensures lobbies == old(lobbies)[i := Released(old(lobbies)[i], now)]
    {
      var l := lobbies[i];
      l := l.(active := false, code := "", hash := "", secret := "", creatorIp := 0, listed := false, title := "",
              lastNonEmpty := now);
      l := Silenced(l);
      l := l.(room := Reopen(l.room, "", ""), presented := map[]);
      lobbies := lobbies[i := l];
    }

    method NewCode(draws: seq<string>) returns (code: string)
      requires exists d :: d in draws && !Taken(lobbies, d)
      ensures code == FirstUntaken(lobbies, draws)
    {
      var k := 0;
      while true
        invariant 0 <= k < |draws|
        invariant exists d :: d in draws[k..] && !Taken(lobbies, d)
        invariant FirstUntaken(lobbies, draws) == FirstUntaken(lobbies, draws[k..])
        decreases |draws| - k
      {
        code := draws[k];
        var taken := false;
        var i := 0;
        while i < |lobbies|
          invariant 0 <= i <= |lobbies|
          invariant taken <==> exists j :: 0 <= j < i && lobbies[j].active && lobbies[j].code == code
        {
          if lobbies[i].active && lobbies[i].code == code { taken := true; }
          i := i + 1;
        }
        assert taken <==> Taken(lobbies, code);
        if !taken { return; }
        assert draws[k..][1..] == draws[k + 1..];
        k := k + 1;
      }
    }

    static method Clean(s: string, cap: nat) returns (r: string)
      ensures r == CleanText(s, cap)
    {
      r := [];
      var i := 0;
      while i < |s|
        invariant 0 <= i <= |s|
        invariant r == CleanText(s[..i], cap)
      {
        assert s[..i + 1][..i] == s[..i];
        if ' ' <= s[i] <= '~' && |r| < cap { r := r + [s[i]]; }
        i := i + 1;
      }
      assert s[..i] == s;
    }

    static method Title(q: CreateRequest) returns (title: string)
      ensures title == TitleOf(q)
    {
      title := Clean(q.title, 24);
      if title == "" {
        var who := Clean(q.name, 16);
        title := if who == "" then "open lobby" else "lobby by " + who;
      }
    }

    method Occupy(i: nat, q: CreateRequest, code: string, title: string, now: nat)
      requires i < |lobbies| && title == TitleOf(q)
      modifies this
      ensures lobbies == old(lobbies)[i := Occupied(old(lobbies)[i], q, code, now)]
    {
      var l := lobbies[i].(active := true, code := code, secret := q.secret, hash := q.hash, creatorIp := q.ip,
                           createdAt := now, listed := q.listed, title := title, lastNonEmpty := now);
      l := Silenced(l);
      l := l.(room := Reopen(l.room, l.secret, l.hash), presented := map[]);
      lobbies := lobbies[i := l];
    }

    /** A lobby of the creator's: released when empty, else counted. */
    method ReleaseIfOwn(i: nat, ip: nat, now: nat) returns (kept: nat)
      requires i < |lobbies|
      modifies this
      ensures var l := old(lobbies)[i];
        && lobbies == old(lobbies)[i := if Own(l, ip) && l.room.clients == [] then Released(l, now) else l]
        && kept == if Own(lobbies[i], ip) then 1 else 0
    {
      kept := 0;
      if Own(lobbies[i], ip) {
        assert !Released(lobbies[i], now).active;
        hide Released;
        if lobbies[i].room.clients == [] { ResetLobby(i, now); } else { kept := 1; }
      }
    }

    /** Releases the creator's empty lobbies and counts the others. */
    method ReleaseMine(ip: nat, now: nat) returns (mine: nat)
      modifies this
      ensures lobbies == ReleaseOwn(old(lobbies), |old(lobbies)|, ip, now)
      ensures mine == CountOwn(lobbies, |lobbies|, ip)
    {
      hide Released, Own;
      ghost var before := lobbies;
      ghost var cleared := ReleaseOwn(before, |before|, ip, now);
      mine := 0;
      var i := 0;
      while i < |lobbies|
        invariant 0 <= i <= |lobbies| == |before|
        invariant lobbies == ReleaseOwn(before, i, ip, now)
        invariant mine == CountOwn(cleared, i, ip)
      {
        var kept := ReleaseIfOwn(i, ip, now);
        assert lobbies[i] == cleared[i];
        mine := mine + kept;
        i := i + 1;
      }
    }

    method HandleCreate(q: CreateRequest, now: nat) returns (reply: CreateReply)
      requires Lucky(ReleaseOwn(lobbies, |lobbies|, q.ip, now), q)
      modifies this
      ensures (lobbies, reply) == Create(old(lobbies), q, now)
    {
      if q.hash == "" { return BadRequest; }
      var title := Title(q);
      hide Released, Occupied, TitleOf, Taken, CountOwn;
      var mine := ReleaseMine(q.ip, now);
      ghost var cleared := lobbies;
      if mine >= MAX_LOBBIES_PER_IP { return ServerFull; }
      var i := 0;
      while i < |lobbies|
        invariant 0 <= i <= |lobbies|
        invariant lobbies == cleared
        invariant FirstFree(lobbies, 0) == FirstFree(lobbies, i)
      {
        if !lobbies[i].active {
          var code := NewCode(q.draws);
          Occupy(i, q, code, title, now);
          return Created(i, code, q.secret);
        }
        i := i + 1;
      }
      return ServerFull;
    }

    method Housekeep(i: nat, now: nat)
      requires i < |lobbies|
      modifies this
      ensures lobbies == old(lobbies)[i := Aged(old(lobbies)[i], now)]
    {
      if lobbies[i].active {
        if lobbies[i].room.clients != [] {
          lobbies := lobbies[i := lobbies[i].(lastNonEmpty := now)];
        } else if Relay.Elapsed(now, lobbies[i].lastNonEmpty) > EMPTY_LOBBY_TIMEOUT_MS {
          ResetLobby(i, now);
        }
        if lobbies[i].active && Relay.Elapsed(now, lobbies[i].createdAt) > MAX_LOBBY_AGE_MS {
          ResetLobby(i, now);
        }
      }
    }

    method HandleJoin(typed: string, hash: string, spectate: bool) returns (found: Found)
      ensures found == Lookup(lobbies, 0, Upper(typed), hash, spectate)
    {
      var code := [];
      while |code| < |typed|
        invariant |code| <= |typed| && forall k :: 0 <= k < |code| ==> code[k] == UpperChar(typed[k])
      {
        code := code + [UpperChar(typed[|code|])];
      }
      assert code == Upper(typed);
      var i := 0;
      while i < |lobbies| && !(lobbies[i].active && lobbies[i].code == code)
        invariant 0 <= i <= |lobbies|
        invariant Lookup(lobbies, 0, code, hash, spectate) == Lookup(lobbies, i, code, hash, spectate)
      {
        i := i + 1;
      }
      if i == |lobbies| { return NotFound; }
      var l := lobbies[i];
      if !spectate && Players(l.room.clients) >= MAX_PLAYERS { return RoomFull; }
      if spectate && Spectators(l.room.clients) >= MAX_SPECTATORS { return SpectatorsFull; }
      if hash == "" || hash != l.hash { return VersionMismatch; }
      return At(i, l.secret);
    }
  }
}
