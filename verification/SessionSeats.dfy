/** One lobby's session server: who sits where, and whose character picks are
    handed out. Everything here is a value; `SessionServer` updates it in place. */
module SessionSeats {

  const MAX_USERS := 4
  const MAX_PLAYERS := 2
  const MAX_SPECTATORS := 2

  /** `slot` is the spectator pipe, -1 for none; an empty `ip` stands for the server's
      own host. The connection id the clients see is made from `conn`. */
  datatype Member = Member(conn: nat, name: string, spectator: bool, slot: int, peerIPv4: nat, ip: string,
                           port: nat, hostPort: nat)

  datatype Chara = Chara(charaID: nat, costume: nat, color: nat, personalAction: nat, winQuote: nat,
                         ultraCombo: nat, handicap: nat, edition: nat)

  const NO_CHARA := Chara(0, 0, 0, 0, 0, 0, 0, 0)
  const NO_OWNER := -1

  predicate CharaConditionsValid(c: Chara) {
    c.charaID < 0x2c && c.costume < 8 && c.color < 10 && c.ultraCombo < 3 && c.handicap == 0
  }

  /** What one side of the match data holds: a pick, who made it, and the message
      number of its owner's ready (-1 when not ready). */
  datatype Side = Side(chara: Chara, owner: int, ready: int)

  const EMPTY_SIDE := Side(NO_CHARA, NO_OWNER, -1)

  datatype Config = Config(secretRequired: bool, secret: string, hash: string, relayPort: nat,
                           spectatorBase: nat, spectatorSlots: int)

  datatype Room = Room(clients: seq<Member>, sides: (Side, Side), config: Config)

  function Opened(config: Config): Room { Room([], (EMPTY_SIDE, EMPTY_SIDE), config) }

  function SideAt(r: Room, i: nat): Side
    requires i < 2
  {
    if i == 0 then r.sides.0 else r.sides.1
  }

  function WithSide(r: Room, i: nat, s: Side): Room
    requires i < 2
  {
    r.(sides := if i == 0 then (s, r.sides.1) else (r.sides.0, s))
  }

  function Players(clients: seq<Member>): (n: nat)
    ensures n <= |clients|
  {
    if clients == [] then 0 else (if clients[0].spectator then 0 else 1) + Players(clients[1..])
  }

  function Spectators(clients: seq<Member>): int { |clients| - Players(clients) }

  /** The players' addresses by seat, 0 where nobody sits. */
  function PlayerIPs(clients: seq<Member>): (ips: (nat, nat)) {
    (if Players(clients) > 0 then clients[0].peerIPv4 else 0, if Players(clients) > 1 then clients[1].peerIPv4 else 0)
  }

  /** The addresses of all members that have one. */
  function MemberIPs(clients: seq<Member>): seq<nat> {
    if clients == [] then []
    else
      var m := clients[|clients| - 1];
      MemberIPs(clients[..|clients| - 1]) + if m.peerIPv4 != 0 then [m.peerIPv4] else []
  }

  // ---------------------------------------------------------------- joining

  /** With what the server sees of the sender's address: its IPv4 number (0 if none), its
      text, and whether it is the local host. */
  datatype JoinRequest = JoinRequest(conn: nat, port: nat, hash: string, name: string, spectator: bool,
                                     secret: string, peerIPv4: nat, address: string, local: bool)

  /** A join message as it is read. */
  datatype Parsed = Garbled | Request(request: JoinRequest)

  datatype JoinResult = JoinOk | RequestInvalid | SecretInvalid | HashInvalid | LobbyFull | NameTaken

  predicate Printable(c: char) { c >= ' ' && c != (127 as char) }

  function Filtered(raw: string): string {
    if raw == [] then []
    else Filtered(raw[..|raw| - 1]) + (if Printable(raw[|raw| - 1]) then [raw[|raw| - 1]] else [])
  }

  /** The first 32 printable characters, or a stand-in name. */
  function CleanName(raw: string): (name: string)
    ensures 0 < |name| <= 32
  {
    var f := Filtered(raw);
    if f == [] then "Player" else if |f| > 32 then f[..32] else f
  }

  function SlotsTaken(clients: seq<Member>): set<nat> {
    if clients == [] then {}
    else SlotsTaken(clients[1..]) + if clients[0].slot >= 0 then {clients[0].slot as nat} else {}
  }

  /** The lowest slot from `from` on that nobody has. */
  function LowestFree(taken: set<nat>, from: nat): (slot: nat)
    ensures from <= slot <= from + |taken|
    decreases |taken|
  {
    if from !in taken then from else LowestFree(taken - {from}, from + 1)
  }

  lemma {:induction false} LowestFreeIs(taken: set<nat>, from: nat)
    ensures var slot := LowestFree(taken, from);
      slot !in taken && forall s :: from <= s < slot ==> s in taken
    decreases |taken|
  {
    if from in taken {
      LowestFreeIs(taken - {from}, from + 1);
      var slot := LowestFree(taken - {from}, from + 1);
      forall s | from <= s < slot ensures s in taken { if s != from { assert s in taken - {from}; } }
    }
  }

  lemma {:induction false} SlotsTakenIs(clients: seq<Member>, s: nat)
    ensures s in SlotsTaken(clients) <==> exists i :: 0 <= i < |clients| && clients[i].slot == s
  {
    if clients != [] {
      SlotsTakenIs(clients[1..], s);
      if s in SlotsTaken(clients) && clients[0].slot != s {
        var i :| 0 <= i < |clients[1..]| && clients[1..][i].slot == s;
        assert clients[i + 1].slot == s;
      }
      if i :| 0 < i < |clients| && clients[i].slot == s { assert clients[1..][i - 1].slot == s; }
    }
  }

  /** Pigeonhole: no more slots are taken than there are spectators. */
  lemma {:induction false} SlotsTakenSize(clients: seq<Member>)
    requires forall m :: m in clients && m.slot >= 0 ==> m.spectator
    ensures |SlotsTaken(clients)| <= Spectators(clients)
  {
    if clients != [] { SlotsTakenSize(clients[1..]); }
  }

  predicate NoRoom(r: Room, spectator: bool) {
    || |r.clients| >= MAX_USERS
    || (!spectator && Players(r.clients) >= MAX_PLAYERS)
    || (spectator && Spectators(r.clients) >= MAX_SPECTATORS)
    || (spectator && r.config.spectatorBase != 0 && Spectators(r.clients) >= r.config.spectatorSlots)
  }

  function CheckJoin(r: Room, q: JoinRequest): JoinResult {
    if r.config.secretRequired && (r.config.secret == "" || q.secret != r.config.secret) then SecretInvalid
    else if r.config.hash != "" && q.hash != r.config.hash then HashInvalid
    else if NoRoom(r, q.spectator) then LobbyFull
    else if exists m :: m in r.clients && m.name == CleanName(q.name) then NameTaken
    else JoinOk
  }

  function NewMember(r: Room, q: JoinRequest): Member {
    var port := if r.config.relayPort != 0 then r.config.relayPort else q.port;
    var ip := if r.config.relayPort != 0 || q.local then "" else q.address;
    if q.spectator && r.config.spectatorBase != 0 then
      var slot := LowestFree(SlotsTaken(r.clients), 0);
      Member(q.conn, CleanName(q.name), true, slot, q.peerIPv4, ip,
             (r.config.spectatorBase + 2 * slot) % 0x1_0000, (r.config.spectatorBase + 2 * slot + 1) % 0x1_0000)
    else
      Member(q.conn, CleanName(q.name), q.spectator, -1, q.peerIPv4, ip, port, 0)
  }

  function Inserted(c: seq<Member>, n: nat, m: Member): seq<Member>
    requires n <= |c|
  {
    c[..n] + [m] + c[n..]
  }

  function Removed(c: seq<Member>, k: nat): seq<Member>
    requires k < |c|
  {
    c[..k] + c[k + 1..]
  }

  /** Spectators go last; players go behind the players, in front of the spectators. */
  function Admit(r: Room, q: JoinRequest): Room {
    var m := NewMember(r, q);
    var n := if q.spectator then |r.clients| else Players(r.clients);
    r.(clients := Inserted(r.clients, n, m))
  }

  function Join(r: Room, q: JoinRequest): Room {
    if CheckJoin(r, q) == JoinOk then Admit(r, q) else r
  }

  // ---------------------------------------------------- seats and the match

  function SeatOf(r: Room, conn: nat): int {
    if |r.clients| > 0 && r.clients[0].conn == conn then 0
    else if |r.clients| > 1 && r.clients[1].conn == conn then 1
    else -1
  }

  function SetChara(r: Room, conn: nat, chara: Chara): Room {
    var i := SeatOf(r, conn);
    if i == -1 || !CharaConditionsValid(chara) then r
    else WithSide(r, i, SideAt(r, i).(chara := chara, owner := conn))
  }

  predicate AllReady(r: Room) { r.sides.0.ready != -1 && r.sides.1.ready != -1 }

  function SetReady(r: Room, conn: nat, on: bool, message: nat): Room {
    var i := SeatOf(r, conn);
    if i == -1 || (!on && AllReady(r)) then r
    else WithSide(r, i, SideAt(r, i).(ready := if on then message else -1))
  }

  /** Winner stays: the loser goes behind the other player and the picks follow. */
  function Results(r: Room, loser: int): Room {
    var n := Players(r.clients);
    var r' :=
      if 0 <= loser < n && n > 1 then
        var moved := r.(clients := Inserted(Removed(r.clients, loser), n - 1, r.clients[loser]));
        if n == 2 && loser == 0 then moved.(sides := (r.sides.1, r.sides.0)) else moved
      else r;
    r'.(sides := (r'.sides.0.(ready := -1), r'.sides.1.(ready := -1)))
  }

  /** A player sits on side `i` and made the pick held there. */
  predicate Matched(r: Room, i: nat)
    requires i < 2
  {
    |r.clients| > i && !r.clients[i].spectator && SideAt(r, i).owner == r.clients[i].conn
  }

  function DropSide(r: Room, i: nat): Room
    requires i < 2
  {
    if !Matched(r, i) && SideAt(r, i).chara.charaID != 0 then WithSide(r, i, EMPTY_SIDE) else r
  }

  function Drop(r: Room): Room { DropSide(DropSide(r, 0), 1) }

  /** The index of the first member on this connection, or the number of members. */
  function Find(clients: seq<Member>, conn: nat): (k: nat)
    ensures k <= |clients| && (k < |clients| ==> clients[k].conn == conn)
  {
    if clients == [] || clients[0].conn == conn then 0 else 1 + Find(clients[1..], conn)
  }

  function Leave(r: Room, conn: nat): Room {
    var k := Find(r.clients, conn);
    if k < |r.clients| then r.(clients := Removed(r.clients, k)) else r
  }

  /** Handing the lobby to new players: everyone out, match data cleared, the new
      creator's build and secret in force. The owners of the cleared picks stay. */
  function Reopen(r: Room, secret: string, hash: string): Room {
    Room([], (r.sides.0.(chara := NO_CHARA, ready := -1), r.sides.1.(chara := NO_CHARA, ready := -1)),
         r.config.(secret := secret, hash := hash))
  }

  // ---------------------------------------------------------------- seating

  /** Players first, then spectators. */
  ghost predicate PlayersLead(clients: seq<Member>) {
    forall i, j :: 0 <= i < j < |clients| && clients[i].spectator ==> clients[j].spectator
  }

  ghost predicate Apart(x: Member, y: Member) {
    x.name != y.name && x.conn != y.conn && (x.slot >= 0 ==> x.slot != y.slot)
  }

  /** Nobody shares a name, a connection or a spectator pipe. */
  ghost predicate AllApart(clients: seq<Member>) {
    forall i, j :: 0 <= i < j < |clients| ==> Apart(clients[i], clients[j])
  }

  ghost predicate Seated(r: Room) {
    && PlayersLead(r.clients) && AllApart(r.clients)
    && Players(r.clients) <= MAX_PLAYERS && Spectators(r.clients) <= MAX_SPECTATORS
    && (forall m :: m in r.clients ==> Piped(m, r.config))
  }

  /** A spectator behind the relay has a pipe of this lobby, and its two ports; everybody
      else behind it has the relay's. Behind the relay nobody learns an address. */
  ghost predicate Piped(m: Member, config: Config) {
    && (config.relayPort != 0 ==> m.ip == "")
    && if m.spectator && config.spectatorBase != 0 then
         && 0 <= m.slot < config.spectatorSlots
         && m.port == (config.spectatorBase + 2 * m.slot) % 0x1_0000
         && m.hostPort == (config.spectatorBase + 2 * m.slot + 1) % 0x1_0000
       else m.slot == -1 && (config.relayPort != 0 ==> m.port == config.relayPort)
  }

  // ------------------------------------------------------------------ names

  lemma {:induction false} FilteredIsPrintable(raw: string)
    ensures forall c :: c in Filtered(raw) ==> Printable(c)
    ensures (forall c :: c in raw ==> Printable(c)) ==> Filtered(raw) == raw
  {
    if raw != [] { FilteredIsPrintable(raw[..|raw| - 1]); }
  }

  lemma {:induction false} FilteredConcat(a: string, b: string)
    ensures Filtered(a + b) == Filtered(a) + Filtered(b)
  {
    if b == [] {
      assert a + b == a;
    } else {
      FilteredConcat(a, b[..|b| - 1]);
      assert (a + b)[..|a + b| - 1] == a + b[..|b| - 1];
    }
  }

  lemma OneFiltered(c: char)
    ensures Filtered([c]) == if Printable(c) then [c] else []
  {
    assert [c][..0] == [];
  }

  /** What cannot be printed might as well not have been typed. */
  lemma UnprintableIsIgnored(raw: string, more: string, c: char)
    requires !Printable(c)
    ensures CleanName(raw + [c] + more) == CleanName(raw + more)
  {
    hide Printable;
    FilteredConcat(raw, more);
    FilteredConcat(raw + [c], more);
    FilteredConcat(raw, [c]);
    OneFiltered(c);
    assert Filtered(raw) + [] == Filtered(raw);
    hide Filtered;
  }

  /** Any name comes out clean; a clean one is kept, up to its 32nd character. */
  lemma CleanNames(raw: string)
    ensures forall d :: d in CleanName(raw) ==> Printable(d)
    ensures raw != [] && (forall d :: d in raw ==> Printable(d)) ==>
      CleanName(raw) == if |raw| <= 32 then raw else raw[..32]
  {
    hide Printable, Filtered;
    FilteredIsPrintable(raw);
    StandInIsPrintable();
    var f := Filtered(raw);
    if |f| > 32 { assert forall d :: d in f[..32] ==> d in f; }
  }

  lemma StandInIsPrintable()
    ensures forall d :: d in "Player" ==> Printable(d)
  {}
}
