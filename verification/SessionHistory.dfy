/** Who is in a session and what he holds, told by what happened so far. */
module SessionHistory {
  import opened SessionSeats
  import opened SessionRuns

  // ------------------------------------------------------------ who is in

  predicate IsMember(r: Room, conn: nat) { exists m :: m in r.clients && m.conn == conn }

  /** Everybody who is not on this connection, in the same order. */
  function Others(clients: seq<Member>, conn: nat): seq<Member> {
    if clients == [] then []
    else (if clients[0].conn == conn then [] else [clients[0]]) + Others(clients[1..], conn)
  }

  lemma {:induction false} OthersAreOthers(clients: seq<Member>, conn: nat)
    ensures forall m :: m in Others(clients, conn) <==> m in clients && m.conn != conn
  {
    if clients != [] { OthersAreOthers(clients[1..], conn); }
  }

  lemma {:induction false} NobodyToRemove(clients: seq<Member>, conn: nat)
    requires forall m :: m in clients ==> m.conn != conn
    ensures Others(clients, conn) == clients
  {
    if clients != [] { NobodyToRemove(clients[1..], conn); }
  }

  lemma FirstIsApart(clients: seq<Member>)
    requires AllApart(clients) && clients != []
    ensures AllApart(clients[1..]) && forall m :: m in clients[1..] ==> m.conn != clients[0].conn
  {
    forall m | m in clients[1..] ensures m.conn != clients[0].conn {
      var i :| 0 <= i < |clients[1..]| && clients[1..][i] == m;
      assert Apart(clients[0], clients[i + 1]);
    }
  }

  lemma {:induction false} RemovedAreOthers(clients: seq<Member>, conn: nat)
    requires AllApart(clients)
    ensures var k := Find(clients, conn);
      Others(clients, conn) == if k < |clients| then Removed(clients, k) else clients
  {
    hide AllApart;
    if clients != [] {
      FirstIsApart(clients);
      if clients[0].conn == conn {
        NobodyToRemove(clients[1..], conn);
      } else {
        RemovedAreOthers(clients[1..], conn);
      }
    }
  }

  /** Whoever leaves is gone, and everybody else is still there in the same order. */
  lemma LeaveRemoves(r: Room, conn: nat)
    requires Seated(r)
    ensures Leave(r, conn).clients == Others(r.clients, conn)
    ensures Leave(r, conn).sides == r.sides && Leave(r, conn).config == r.config
    ensures !IsMember(Leave(r, conn), conn)
  {
    RemovedAreOthers(r.clients, conn);
    OthersAreOthers(r.clients, conn);
    hide AllApart, PlayersLead, Players, Piped, Find, Removed;
  }

  /** The lobby is closed to a connection by its departure or a handover. */
  predicate Ends(e: Event, conn: nat) { (e.Leaves? && e.conn == conn) || e.Reopens? }

  predicate Enters(r: Room, e: Event, conn: nat) {
    e.Joins? && e.request.conn == conn && CheckJoin(r, e.request) == JoinOk
  }

  lemma JoinMembers(r: Room, q: JoinRequest, conn: nat)
    ensures IsMember(Join(r, q), conn) <==> IsMember(r, conn) || Enters(r, Joins(q), conn)
  {
    if CheckJoin(r, q) == JoinOk {
      hide CheckJoin, CleanName, LowestFree, SlotsTaken, Players;
      var m := NewMember(r, q);
      var n := if q.spectator then |r.clients| else Players(r.clients);
      var c := Inserted(r.clients, n, m);
      assert c[n] == m;
      forall x | x in r.clients ensures x in c {
        var i :| 0 <= i < |r.clients| && r.clients[i] == x;
        assert c[if i < n then i else i + 1] == x;
      }
    }
  }

  lemma ResultsMembers(r: Room, loser: int, conn: nat)
    requires Seated(r)
    ensures IsMember(Results(r, loser), conn) <==> IsMember(r, conn)
  {
    ResultsPermute(r, loser);
    hide Results, Seated;
    var c, c' := r.clients, Results(r, loser).clients;
    forall m ensures m in c' <==> m in c { assert m in multiset(c') <==> m in multiset(c); }
  }

  lemma EventMembers(r: Room, e: Event, conn: nat)
    requires Seated(r)
    ensures IsMember(Apply(r, e), conn) <==> !Ends(e, conn) && (IsMember(r, conn) || Enters(r, e, conn))
  {
    match e
    case Joins(q) =>
      JoinMembers(r, q, conn);
      hide Join, IsMember, Seated;
    case Leaves(gone) =>
      LeaveRemoves(r, gone);
      OthersAreOthers(r.clients, gone);
      hide Leave, Seated, Others;
    case Reports(loser) =>
      ResultsMembers(r, loser, conn);
      hide Results, Seated, IsMember;
    case Reopens(secret, hash) =>
    case _ =>
      OthersMoveNobody(r, e);
      hide Apply, Seated;
  }

  /** The event at `k` let the connection in, and nothing since has ended that. */
  ghost predicate StaysSince(w: World, events: seq<Event>, k: nat, conn: nat) {
    && k < |events| && Enters(Run(w, events[..k]).room, events[k], conn)
    && forall j :: k < j < |events| ==> !Ends(events[j], conn)
  }

  lemma StaysSnoc(w: World, events: seq<Event>, conn: nat)
    requires events != []
    ensures var n := |events| - 1;
      (exists k: nat :: StaysSince(w, events, k, conn)) <==>
        (Enters(Run(w, events[..n]).room, events[n], conn)
         || (!Ends(events[n], conn) && exists k: nat :: StaysSince(w, events[..n], k, conn)))
  {
    hide Run, Enters;
    var n := |events| - 1;
    forall k: nat | k < n ensures StaysSince(w, events, k, conn)
      <==> !Ends(events[n], conn) && StaysSince(w, events[..n], k, conn)
    {
      assert events[..n][..k] == events[..k];
    }
    assert StaysSince(w, events, n, conn) <==> Enters(Run(w, events[..n]).room, events[n], conn);
    if k: nat :| StaysSince(w, events, k, conn) { assert k <= n; }
    if k: nat :| StaysSince(w, events[..n], k, conn) { assert k < n; }
  }

  /** Along every run the members are exactly those who were let in and have neither
      left nor been put out by a handover since. */
  lemma {:induction false} MemberIff(config: Config, events: seq<Event>, conn: nat)
    requires Plausible(Start(config), events)
    ensures IsMember(Run(Start(config), events).room, conn)
      <==> exists k: nat :: StaysSince(Start(config), events, k, conn)
  {
    var w := Start(config);
    if events != [] {
      hide Step, Possible, Plausible, Seated, IsMember, StaysSince, Enters, MembersSeen;
      var n := |events| - 1;
      PrefixHolds(w, events);
      MemberIff(config, events[..n], conn);
      RunIsSeated(config, events[..n]);
      StaysSnoc(w, events, conn);
      LastEventMembers(Run(w, events[..n]), events[n], conn);
    }
  }

  lemma LastEventMembers(w: World, e: Event, conn: nat)
    requires Seated(w.room)
    ensures IsMember(Step(w, e).room, conn)
      <==> !Ends(e, conn) && (IsMember(w.room, conn) || Enters(w.room, e, conn))
    ensures Enters(w.room, e, conn) ==> !Ends(e, conn)
  {
    EventMembers(w.room, e, conn);
    hide Apply, IsMember, Seated, CheckJoin;
  }

  /** A member as his request asked for, with the secret and the build the lobby has now.
      Behind the relay he has its port; else his own, and his address unless he plays on
      the server's own machine. */
  predicate CameBy(m: Member, q: JoinRequest, config: Config) {
    && m.conn == q.conn && m.name == CleanName(q.name) && m.spectator == q.spectator && m.peerIPv4 == q.peerIPv4
    && (config.secretRequired ==> config.secret != "" && q.secret == config.secret)
    && (config.hash != "" ==> q.hash == config.hash)
    && (config.relayPort == 0 && m.slot == -1 ==> m.port == q.port && m.ip == if q.local then "" else q.address)
  }

  lemma NewMemberCame(r: Room, q: JoinRequest)
    requires CheckJoin(r, q) == JoinOk
    ensures CameBy(NewMember(r, q), q, r.config)
    ensures forall m :: m in Join(r, q).clients ==> m in r.clients || m == NewMember(r, q)
  {
    hide CleanName, LowestFree, SlotsTaken, Players, NoRoom;
  }

  lemma EventCame(r: Room, e: Event, m: Member)
    requires m in Apply(r, e).clients
    ensures !e.Reopens?
    ensures (e.Joins? && CameBy(m, e.request, Apply(r, e).config)) || (m in r.clients && Apply(r, e).config == r.config)
  {
    if !e.Reopens? { OnlyJoinsAdd(r, e); }
    if e.Joins? && CheckJoin(r, e.request) == JoinOk {
      NewMemberCame(r, e.request);
      hide CheckJoin, NewMember, CameBy;
    } else if e.Reports? {
      ResultsAddNobody(r, e.loser);
      hide Results;
    } else {
      hide CheckJoin, Players, Find, CharaConditionsValid;
    }
  }

  /** In every run each member is as one of the requests made him, and nobody sits in a
      lobby without its present secret and build. */
  lemma {:induction false} MemberCameBy(config: Config, events: seq<Event>, m: Member)
    requires m in Run(Start(config), events).room.clients
    ensures exists k :: 0 <= k < |events| && events[k].Joins?
                        && CameBy(m, events[k].request, Run(Start(config), events).room.config)
  {
    if events != [] {
      var n := |events| - 1;
      var r, e := Run(Start(config), events[..n]).room, events[n];
      EventCame(r, e, m);
      hide Apply, CameBy;
      if !(e.Joins? && CameBy(m, e.request, Run(Start(config), events).room.config)) {
        MemberCameBy(config, events[..n], m);
      }
    }
  }

  // ---------------------------------------------------------- what he holds

  /** A player holds this pick on the side of his seat. */
  predicate Holds(r: Room, conn: nat, chara: Chara) {
    var i := SeatOf(r, conn);
    && i != -1 && !r.clients[i].spectator
    && SideAt(r, i).owner == conn && SideAt(r, i).chara == chara
  }

  /** A valid pick of a player is held. */
  lemma PickIsTaken(r: Room, conn: nat, chara: Chara)
    requires SitsAsPlayer(r, conn) && CharaConditionsValid(chara)
    ensures Holds(Apply(r, Picks(conn, chara)), conn, chara)
  {
    hide CharaConditionsValid;
  }

  /** Nothing takes it away but a new pick of his own, a departure or a handover. */
  predicate Disturbs(e: Event, conn: nat) {
    (e.Picks? && e.conn == conn) || e.Leaves? || e.Reopens?
  }

  lemma JoinLeavesPick(r: Room, q: JoinRequest, conn: nat, chara: Chara)
    requires Seated(r) && Holds(r, conn, chara)
    ensures Holds(Join(r, q), conn, chara)
  {
    PlayersFirst(r.clients);
    hide AllApart, Piped, CheckJoin, CleanName, LowestFree, SlotsTaken, Players;
  }

  lemma ReportLeavesPick(r: Room, loser: int, conn: nat, chara: Chara)
    requires Seated(r) && Holds(r, conn, chara)
    ensures Holds(Results(r, loser), conn, chara)
  {
    ResultsSeats(r, loser);
    PlayersFirst(r.clients);
    if |r.clients| > 1 { assert Apart(r.clients[0], r.clients[1]); }
    hide AllApart, PlayersLead, Piped;
  }

  lemma OtherLeavesPick(r: Room, e: Event, conn: nat, chara: Chara)
    requires Seated(r) && Holds(r, conn, chara) && !Disturbs(e, conn) && !e.Joins? && !e.Reports?
    ensures Holds(Apply(r, e), conn, chara)
  {
    if |r.clients| > 1 { assert Apart(r.clients[0], r.clients[1]); }
    hide AllApart, PlayersLead, Players, Piped, CharaConditionsValid;
  }

  lemma EventLeavesPick(r: Room, e: Event, conn: nat, chara: Chara)
    requires Seated(r) && Holds(r, conn, chara) && !Disturbs(e, conn)
    ensures Holds(Apply(r, e), conn, chara)
  {
    hide Seated, Holds, Join, Results;
    match e
    case Joins(q) => JoinLeavesPick(r, q, conn, chara);
    case Reports(loser) => ReportLeavesPick(r, loser, conn, chara);
    case _ => OtherLeavesPick(r, e, conn, chara);
  }

  /** In every run, whatever the others pick, ready and report and whoever joins, a pick
      is held from when it is made. */
  lemma {:induction false} PickIsHeld(config: Config, events: seq<Event>, k: nat, conn: nat, chara: Chara)
    requires Plausible(Start(config), events) && k < |events|
    requires events[k] == Picks(conn, chara) && CharaConditionsValid(chara)
    requires SitsAsPlayer(Run(Start(config), events[..k]).room, conn)
    requires forall j :: k < j < |events| ==> !Disturbs(events[j], conn)
    ensures Holds(Run(Start(config), events).room, conn, chara)
  {
    hide Apply, Holds, Plausible, Possible, Seated, CharaConditionsValid, SitsAsPlayer, Disturbs, MembersSeen;
    var n := |events| - 1;
    PrefixHolds(Start(config), events);
    var w := Run(Start(config), events[..n]);
    RunIsSeated(config, events[..n]);
    if k == n {
      PickIsTaken(w.room, conn, chara);
    } else {
      assert events[..n][..k] == events[..k];
      PickIsHeld(config, events[..n], k, conn, chara);
      EventLeavesPick(w.room, events[n], conn, chara);
    }
  }

  // --------------------------------------------- where picks and readies come from

  /** What a side holds after an event was picked just now, or held before on one of them. */
  lemma PicksCome(r: Room, e: Event, i: nat)
    requires i < 2
    ensures var c := SideAt(Apply(r, e), i).chara;
      || c == NO_CHARA || (e.Picks? && c == e.chara && CharaConditionsValid(c))
      || (!e.Reopens? && (c == r.sides.0.chara || c == r.sides.1.chara))
  {
    hide CharaConditionsValid, CheckJoin, NewMember, Inserted, Removed, Players, Find;
  }

  /** The pick of event `k`, and no handover since. */
  ghost predicate PickedAt(events: seq<Event>, k: nat, chara: Chara) {
    && k < |events| && events[k].Picks? && events[k].chara == chara && CharaConditionsValid(chara)
    && forall j :: k < j < |events| ==> !events[j].Reopens?
  }

  /** In every run whatever a side holds somebody validly picked since the lobby was handed
      out: no pick outlives a handover. */
  lemma {:induction false} PickHasOrigin(config: Config, events: seq<Event>, i: nat)
    requires i < 2 && SideAt(Run(Start(config), events).room, i).chara != NO_CHARA
    ensures exists k :: PickedAt(events, k, SideAt(Run(Start(config), events).room, i).chara)
    ensures var c := SideAt(Run(Start(config), events).room, i).chara;
      c.charaID < 44 && c.costume < 8 && c.color < 10 && c.ultraCombo < 3 && c.handicap == 0
  {
    if events != [] {
      var n := |events| - 1;
      var r, e := Run(Start(config), events[..n]).room, events[n];
      var c := SideAt(Apply(r, e), i).chara;
      PicksCome(r, e, i);
      hide Apply;
      if e.Picks? && c == e.chara && CharaConditionsValid(c) {
        assert PickedAt(events, n, c);
      } else {
        PickHasOrigin(config, events[..n], if c == r.sides.0.chara then 0 else 1);
        var k :| PickedAt(events[..n], k, c);
        assert PickedAt(events, k, c);
      }
    }
  }

  lemma ReadiesCome(r: Room, e: Event, i: nat)
    requires i < 2
    ensures var n := SideAt(Apply(r, e), i).ready;
      || n == -1 || (e.Readies? && e.on && n == e.message)
      || (!e.Reopens? && !e.Reports? && n == SideAt(r, i).ready)
  {
    hide CharaConditionsValid, CheckJoin, NewMember, Inserted, Removed, Players, Find;
  }

  ghost predicate ReadiedAt(events: seq<Event>, k: nat, message: int) {
    && k < |events| && events[k].Readies? && events[k].on && events[k].message == message
    && forall j :: k < j < |events| ==> !events[j].Reopens? && !events[j].Reports?
  }

  lemma StillReadied(events: seq<Event>, k: nat, message: int)
    requires events != [] && ReadiedAt(events[..|events| - 1], k, message)
    requires !events[|events| - 1].Reopens? && !events[|events| - 1].Reports?
    ensures ReadiedAt(events, k, message)
  {}

  /** And whoever is ready said so since the last result and the last handover. */
  lemma {:induction false} ReadyHasOrigin(config: Config, events: seq<Event>, i: nat)
    requires i < 2 && SideAt(Run(Start(config), events).room, i).ready != -1
    ensures exists k :: ReadiedAt(events, k, SideAt(Run(Start(config), events).room, i).ready)
  {
    if events != [] {
      var n := |events| - 1;
      var r, e := Run(Start(config), events[..n]).room, events[n];
      var message := SideAt(Run(Start(config), events).room, i).ready;
      ReadiesCome(r, e, i);
      if e.Readies? && e.on && message == e.message {
        assert ReadiedAt(events, n, message);
      } else {
        hide Apply, SideAt, ReadiedAt;
        ReadyHasOrigin(config, events[..n], i);
        var k :| ReadiedAt(events[..n], k, message);
        StillReadied(events, k, message);
      }
    }
  }

  /** A seated sender's ready is taken with its message number; it can be taken back until
      both sides are ready, and not from then on. Nothing else changes. */
  lemma ReadyIsTaken(r: Room, conn: nat, on: bool, message: nat)
    requires SeatOf(r, conn) != -1
    ensures var i, r' := SeatOf(r, conn), Apply(r, Readies(conn, on, message));
      && r'.clients == r.clients && SideAt(r', 1 - i) == SideAt(r, 1 - i)
      && SideAt(r', i).chara == SideAt(r, i).chara && SideAt(r', i).owner == SideAt(r, i).owner
      && SideAt(r', i).ready ==
         if on then message
         else if r.sides.0.ready != -1 && r.sides.1.ready != -1 then SideAt(r, i).ready
         else -1
  {}
}
