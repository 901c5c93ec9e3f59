/** Runs of one lobby's session server, and what every run keeps. */
module SessionRuns {
  import opened SessionSeats

  datatype Event =
    | Joins(request: JoinRequest)
    | Leaves(conn: nat)
    | Picks(conn: nat, chara: Chara)
    | Readies(conn: nat, on: bool, message: nat)
    | Reports(loser: int)
    | Drops
    | Reopens(secret: string, hash: string)

  function Apply(r: Room, e: Event): Room {
    match e
    case Joins(q) => Join(r, q)
    case Leaves(conn) => Leave(r, conn)
    case Picks(conn, chara) => SetChara(r, conn, chara)
    case Readies(conn, on, message) => SetReady(r, conn, on, message)
    case Reports(loser) => Results(r, loser)
    case Drops => Drop(r)
    case Reopens(secret, hash) => Reopen(r, secret, hash)
  }

  function ApplyAll(r: Room, events: seq<Event>): Room {
    if events == [] then r else Apply(ApplyAll(r, events[..|events| - 1]), events[|events| - 1])
  }

  /** Clients' messages, as opposed to what the server does by itself. */
  predicate IsMessage(e: Event) { e.Joins? || e.Picks? || e.Readies? || e.Reports? }

  // ---------------------------------------------------------------- seating

  lemma {:induction false} PlayersConcat(a: seq<Member>, b: seq<Member>)
    ensures Players(a + b) == Players(a) + Players(b)
  {
    if a == [] {
      assert a + b == b;
    } else {
      PlayersConcat(a[1..], b);
      assert (a + b)[1..] == a[1..] + b;
    }
  }

  /** In a seated room the players are exactly the first ones. */
  lemma {:induction false} PlayersFirst(clients: seq<Member>)
    requires forall i, j :: 0 <= i < j < |clients| && clients[i].spectator ==> clients[j].spectator
    ensures forall i :: 0 <= i < |clients| ==> (clients[i].spectator <==> i >= Players(clients))
  {
    if clients != [] {
      PlayersFirst(clients[1..]);
      if clients[0].spectator { NoPlayers(clients); }
      forall i | 0 < i < |clients| ensures clients[i].spectator <==> i >= Players(clients) {
        assert clients[i] == clients[1..][i - 1];
      }
    }
  }

  lemma {:induction false} NoPlayers(clients: seq<Member>)
    requires forall m :: m in clients ==> m.spectator
    ensures Players(clients) == 0
  {
    if clients != [] { NoPlayers(clients[1..]); }
  }

  lemma OneMoreCounts(a: seq<Member>, m: Member, b: seq<Member>)
    ensures Players(a + [m] + b) == Players(a + b) + if m.spectator then 0 else 1
  {
    assert Players([m]) == if m.spectator then 0 else 1;
    hide Players;
    PlayersConcat(a, b);
    PlayersConcat(a, [m]);
    PlayersConcat(a + [m], b);
  }

  lemma SplitBefore(c: seq<Member>, n: nat)
    requires n <= |c|
    ensures c == c[..n] + c[n..]
  {}

  lemma InsertCounts(c: seq<Member>, n: nat, m: Member)
    requires n <= |c|
    ensures Players(Inserted(c, n, m)) == Players(c) + if m.spectator then 0 else 1
  {
    hide Players;
    SplitBefore(c, n);
    OneMoreCounts(c[..n], m, c[n..]);
  }

  lemma SplitAt(c: seq<Member>, k: nat)
    requires k < |c|
    ensures c == c[..k] + [c[k]] + c[k + 1..]
  {}

  lemma RemoveCounts(c: seq<Member>, k: nat)
    requires k < |c|
    ensures Players(c) == Players(Removed(c, k)) + if c[k].spectator then 0 else 1
  {
    hide Players;
    SplitAt(c, k);
    OneMoreCounts(c[..k], c[k], c[k + 1..]);
  }

  lemma InsertKeeps(c: seq<Member>, n: nat, m: Member)
    requires n <= |c| && AllApart(c) && PlayersLead(c)
    requires forall x :: x in c ==> Apart(x, m) && Apart(m, x)
    requires forall i :: 0 <= i < n && c[i].spectator ==> m.spectator
    requires forall i :: n <= i < |c| && m.spectator ==> c[i].spectator
    ensures AllApart(Inserted(c, n, m)) && PlayersLead(Inserted(c, n, m))
    ensures forall x :: x in Inserted(c, n, m) ==> x in c || x == m
  {
    hide Apart;
    var d := Inserted(c, n, m);
    forall i, j | 0 <= i < j < |d| ensures Apart(d[i], d[j]) && (d[i].spectator ==> d[j].spectator) {
      if i != n { assert d[i] == c[if i < n then i else i - 1]; }
      if j != n { assert d[j] == c[if j < n then j else j - 1]; }
    }
  }

  lemma RemoveKeeps(c: seq<Member>, k: nat)
    requires k < |c| && AllApart(c) && PlayersLead(c)
    ensures AllApart(Removed(c, k)) && PlayersLead(Removed(c, k))
    ensures forall x :: x in Removed(c, k) ==> x in c
  {
    hide Apart;
    var d := Removed(c, k);
    forall i, j | 0 <= i < j < |d| ensures Apart(d[i], d[j]) && (d[i].spectator ==> d[j].spectator) {
      assert d[i] == c[if i < k then i else i + 1];
      assert d[j] == c[if j < k then j else j + 1];
    }
  }

  lemma SwapKeeps(c: seq<Member>)
    requires |c| >= 2 && !c[0].spectator && !c[1].spectator && AllApart(c) && PlayersLead(c)
    ensures AllApart([c[1], c[0]] + c[2..]) && PlayersLead([c[1], c[0]] + c[2..])
  {
    var d := [c[1], c[0]] + c[2..];
    assert Apart(c[0], c[1]) && Apart(c[1], c[0]);
    forall i, j | 0 <= i < j < |d| ensures Apart(d[i], d[j]) && (d[i].spectator ==> d[j].spectator) {
      hide Apart;
      assert d[i] == c[if i < 2 then 1 - i else i];
      assert d[j] == c[if j < 2 then 1 - j else j];
    }
  }

  lemma TwoCount(m: Member, n: Member)
    ensures Players([m, n]) == Players([n, m])
  {
    assert [m, n][1..] == [n] && [n, m][1..] == [m] && [m][1..] == [] && [n][1..] == [];
  }

  lemma SwapCounts(c: seq<Member>)
    requires |c| >= 2
    ensures Players([c[1], c[0]] + c[2..]) == Players(c)
  {
    hide Players;
    TwoCount(c[0], c[1]);
    PlayersConcat([c[0], c[1]], c[2..]);
    PlayersConcat([c[1], c[0]], c[2..]);
    assert c == [c[0], c[1]] + c[2..];
  }

  /** The pipe a new spectator gets is free and belongs to this lobby. */
  lemma FreshSlot(r: Room, q: JoinRequest)
    requires Seated(r) && CheckJoin(r, q) == JoinOk && q.spectator && r.config.spectatorBase != 0
    ensures var slot := NewMember(r, q).slot;
      0 <= slot < r.config.spectatorSlots && forall m :: m in r.clients ==> m.slot != slot
  {
    var taken := SlotsTaken(r.clients);
    var slot := LowestFree(taken, 0);
    LowestFreeIs(taken, 0);
    forall m | m in r.clients && m.slot >= 0 ensures m.spectator { assert Piped(m, r.config); }
    SlotsTakenSize(r.clients);
    SlotsTakenIs(r.clients, slot);
    assert forall m :: m in r.clients ==> m.slot != slot;
  }

  lemma JoinKeepsSeated(r: Room, q: JoinRequest)
    requires Seated(r) && forall m :: m in r.clients ==> m.conn != q.conn
    ensures Seated(Join(r, q))
  {
    if CheckJoin(r, q) == JoinOk {
      var m := NewMember(r, q);
      var n := if q.spectator then |r.clients| else Players(r.clients);
      PlayersFirst(r.clients);
      if m.slot >= 0 { FreshSlot(r, q); }
      assert Piped(m, r.config);
      forall x | x in r.clients ensures Apart(x, m) && Apart(m, x) { assert Piped(x, r.config); }
      InsertKeeps(r.clients, n, m);
      InsertCounts(r.clients, n, m);
      hide Apart, AllApart, PlayersLead, Players, Inserted, Piped;
    }
  }

  lemma LeaveKeepsSeated(r: Room, conn: nat)
    requires Seated(r)
    ensures Seated(Leave(r, conn))
  {
    var k := Find(r.clients, conn);
    if k < |r.clients| {
      hide Apart, AllApart, PlayersLead, Players, Removed, Piped;
      RemoveKeeps(r.clients, k);
      RemoveCounts(r.clients, k);
    }
  }

  /** With two players a report against seat 0 swaps the seats; anything else
      leaves everyone where they are. */
  lemma ResultsSeats(r: Room, loser: int)
    requires Seated(r)
    ensures Results(r, loser).clients ==
      if loser == 0 && Players(r.clients) == 2 then [r.clients[1], r.clients[0]] + r.clients[2..] else r.clients
  {
    PlayersFirst(r.clients);
  }

  lemma ResultsKeepSeated(r: Room, loser: int)
    requires Seated(r)
    ensures Seated(Results(r, loser))
  {
    ResultsSeats(r, loser);
    PlayersFirst(r.clients);
    if loser == 0 && Players(r.clients) == 2 {
      SwapKeeps(r.clients);
      SwapCounts(r.clients);
    }
  }

  /** Player `i` holds the same pick on side `j` as before on side `i`. */
  predicate PickFollows(r: Room, i: nat, r': Room, j: nat)
    requires i < 2 && j < 2
  {
    SideAt(r', j).chara == SideAt(r, i).chara && SideAt(r', j).owner == SideAt(r, i).owner
  }

  /** A result permutes the members, the loser going last among the players. */
  lemma ResultsPermute(r: Room, loser: int)
    requires Seated(r)
    ensures multiset(Results(r, loser).clients) == multiset(r.clients)
    ensures 0 <= loser < Players(r.clients) ==>
      Results(r, loser).clients[Players(r.clients) - 1] == r.clients[loser]
  {
    var c := r.clients;
    ResultsSeats(r, loser);
    hide Players, AllApart, PlayersLead, Results;
    if loser == 0 && Players(c) == 2 {
      assert c == [c[0]] + [c[1]] + c[2..];
      assert [c[1], c[0]] + c[2..] == [c[1]] + [c[0]] + c[2..];
    }
  }

  /** Each pick stays with its player, and everyone has to ready up again. */
  lemma ResultsCarryPicks(r: Room, loser: int, i: nat, j: nat)
    requires Seated(r) && i < Players(r.clients) && j < Players(r.clients)
    ensures j < |Results(r, loser).clients|
    ensures Results(r, loser).clients[j].conn == r.clients[i].conn ==> PickFollows(r, i, Results(r, loser), j)
    ensures Results(r, loser).sides.0.ready == -1 && Results(r, loser).sides.1.ready == -1
  {
    ResultsSeats(r, loser);
    assert i != j ==> r.clients[i].conn != r.clients[j].conn;
    hide Players, AllApart, PlayersLead;
  }

  // ------------------------------------------------------------------ picks

  /** The room, the last valid pick of each connection that sat as a player, the
      connections seen so far, and whether the last broadcast is still current:
      nothing but departures since the vacated seats were dropped. */
  datatype World = World(room: Room, picks: map<nat, Chara>, seen: set<nat>, settled: bool)

  function Start(config: Config): World { World(Opened(config), map[], {}, true) }

  predicate SitsAsPlayer(r: Room, conn: nat) {
    var i := SeatOf(r, conn);
    i != -1 && !r.clients[i].spectator
  }

  function Step(w: World, e: Event): World {
    World(Apply(w.room, e),
          if e.Picks? && CharaConditionsValid(e.chara) && SitsAsPlayer(w.room, e.conn)
          then w.picks[e.conn := e.chara] else w.picks,
          if e.Joins? then w.seen + {e.request.conn} else w.seen,
          e.Drops? || (w.settled && (e.Leaves? || e.Reopens?)))
  }

  function Run(w: World, events: seq<Event>): World {
    if events == [] then w else Step(Run(w, events[..|events| - 1]), events[|events| - 1])
  }

  /** A connection joins at most once. */
  predicate Possible(w: World, e: Event) { e.Joins? ==> e.request.conn !in w.seen }

  /** The main loop runs the departure callbacks between two steps, and every step
      ends by dropping the vacated seats. */
  predicate InLoop(w: World, e: Event) { e.Leaves? ==> w.settled }

  ghost predicate Plausible(w: World, events: seq<Event>) {
    forall k :: 0 <= k < |events| ==> Possible(Run(w, events[..k]), events[k])
  }

  ghost predicate FollowsLoop(w: World, events: seq<Event>) {
    forall k :: 0 <= k < |events| ==> InLoop(Run(w, events[..k]), events[k])
  }

  /** Side `i` holds nothing, or the last valid pick of whoever made it. */
  ghost predicate Current(w: World, i: nat)
    requires i < 2
  {
    var s := SideAt(w.room, i);
    s.chara.charaID == 0 || (s.owner in w.picks && s.chara == w.picks[s.owner])
  }

  ghost predicate SideOk(w: World, i: nat)
    requires i < 2
  {
    && (SideAt(w.room, i).owner == NO_OWNER || SideAt(w.room, i).owner in w.seen)
    && (w.settled || Matched(w.room, i) ==> Current(w, i))
  }

  ghost predicate PicksOk(w: World) {
    SideOk(w, 0) && SideOk(w, 1)
  }

  ghost predicate MembersSeen(w: World) { forall m :: m in w.room.clients ==> m.conn in w.seen }

  /** Picking, readying and dropping move nobody. */
  lemma OthersMoveNobody(r: Room, e: Event)
    requires e.Picks? || e.Readies? || e.Drops?
    ensures Apply(r, e).clients == r.clients && Apply(r, e).config == r.config
  {
    hide CharaConditionsValid;
  }

  lemma SeatedByMembers(r: Room, r': Room)
    requires Seated(r) && r'.clients == r.clients && r'.config == r.config
    ensures Seated(r')
  {
    hide AllApart, PlayersLead, Players, Piped;
  }

  lemma NobodyIsSeated(r: Room)
    ensures r.clients == [] ==> Seated(r)
  {}

  lemma EventKeepsSeated(r: Room, e: Event)
    requires Seated(r) && (e.Joins? ==> forall m :: m in r.clients ==> m.conn != e.request.conn)
    ensures Seated(Apply(r, e))
  {
    hide Seated, Join, Leave, Results;
    match e
    case Joins(q) => JoinKeepsSeated(r, q);
    case Leaves(conn) => LeaveKeepsSeated(r, conn);
    case Reports(loser) => ResultsKeepSeated(r, loser);
    case Reopens(secret, hash) => NobodyIsSeated(Apply(r, e));
    case _ =>
      OthersMoveNobody(r, e);
      SeatedByMembers(r, Apply(r, e));
  }

  lemma ResultsAddNobody(r: Room, loser: int)
    ensures Results(r, loser).config == r.config
    ensures forall m :: m in Results(r, loser).clients ==> m in r.clients
  {
    var c, n := r.clients, Players(r.clients);
    if 0 <= loser < n && n > 1 {
      var rest := Removed(c, loser);
      assert forall m :: m in rest ==> m in c;
      var d := Inserted(rest, n - 1, c[loser]);
      assert forall m :: m in d ==> m in rest || m == c[loser];
      assert Results(r, loser).clients == d;
    }
  }

  /** Members only ever come in through a join. */
  lemma OnlyJoinsAdd(r: Room, e: Event)
    requires !e.Reopens?
    ensures Apply(r, e).config == r.config
    ensures forall m :: m in Apply(r, e).clients ==>
      m in r.clients || (e.Joins? && CheckJoin(r, e.request) == JoinOk && m.conn == e.request.conn)
  {
    match e
    case Joins(q) => hide CheckJoin, CleanName, Players;
    case Leaves(conn) => hide Find;
    case Reports(loser) => ResultsAddNobody(r, loser);
    case _ =>
      OthersMoveNobody(r, e);
      hide Apply;
  }

  lemma StepKeepsSeated(w: World, e: Event)
    requires Seated(w.room) && MembersSeen(w) && Possible(w, e)
    ensures Seated(Step(w, e).room) && MembersSeen(Step(w, e))
  {
    EventKeepsSeated(w.room, e);
    hide Seated, Join, Leave, SetChara, SetReady, Results, Drop;
    if !e.Reopens? { OnlyJoinsAdd(w.room, e); }
  }

  /** A newcomer moves nobody who sits as a player, and no pick is his. */
  lemma JoinMatches(r: Room, q: JoinRequest, i: nat)
    requires Seated(r) && i < 2 && SideAt(r, i).owner != q.conn
    ensures Matched(Join(r, q), i) ==> Matched(r, i)
  {
    if CheckJoin(r, q) == JoinOk {
      hide CheckJoin, AllApart, Piped;
      PlayersFirst(r.clients);
    }
  }

  lemma JoinKeepsPicks(w: World, q: JoinRequest)
    requires Seated(w.room) && PicksOk(w) && q.conn !in w.seen
    ensures PicksOk(Step(w, Joins(q)))
  {
    JoinMatches(w.room, q, 0);
    JoinMatches(w.room, q, 1);
    assert Join(w.room, q).sides == w.room.sides;
    hide Seated, Join, Matched;
  }

  lemma PickKeepsPicks(w: World, conn: nat, chara: Chara)
    requires Seated(w.room) && MembersSeen(w) && PicksOk(w)
    ensures PicksOk(Step(w, Picks(conn, chara)))
  {
    if |w.room.clients| > 1 { assert Apart(w.room.clients[0], w.room.clients[1]); }
    hide CharaConditionsValid, AllApart, PlayersLead, Players, Piped;
  }

  lemma ReportKeepsPicks(w: World, loser: int)
    requires Seated(w.room) && PicksOk(w)
    ensures PicksOk(Step(w, Reports(loser)))
  {
    ResultsSeats(w.room, loser);
    PlayersFirst(w.room.clients);
    hide AllApart, PlayersLead, Piped;
  }

  /** Nothing else adds a pick, and departures wait until picks are settled. */
  lemma OtherKeepsPicks(w: World, e: Event)
    requires PicksOk(w) && InLoop(w, e) && (e.Leaves? || e.Readies? || e.Drops? || e.Reopens?)
    ensures PicksOk(Step(w, e))
  {
    hide Find;
  }

  lemma StepKeepsPicks(w: World, e: Event)
    requires Seated(w.room) && MembersSeen(w) && PicksOk(w) && Possible(w, e) && InLoop(w, e)
    ensures PicksOk(Step(w, e))
  {
    hide Seated, MembersSeen, PicksOk, Step;
    match e
    case Joins(q) => JoinKeepsPicks(w, q);
    case Picks(conn, chara) => PickKeepsPicks(w, conn, chara);
    case Reports(loser) => ReportKeepsPicks(w, loser);
    case _ => OtherKeepsPicks(w, e);
  }

  lemma PrefixHolds(w: World, events: seq<Event>)
    requires Plausible(w, events) && events != []
    ensures var n := |events| - 1;
      && Plausible(w, events[..n]) && Possible(Run(w, events[..n]), events[n])
      && (FollowsLoop(w, events) ==> FollowsLoop(w, events[..n]) && InLoop(Run(w, events[..n]), events[n]))
  {
    var n := |events| - 1;
    hide Run, Possible, InLoop;
    forall k | 0 <= k < n ensures events[..n][..k] == events[..k] && events[..n][k] == events[k] {}
  }

  /** Every reachable room is seated. */
  lemma {:induction false} RunIsSeated(config: Config, events: seq<Event>)
    requires Plausible(Start(config), events)
    ensures var w := Run(Start(config), events); Seated(w.room) && MembersSeen(w)
  {
    if events != [] {
      PrefixHolds(Start(config), events);
      hide Seated, MembersSeen, Step, Possible, Plausible;
      var n := |events| - 1;
      RunIsSeated(config, events[..n]);
      StepKeepsSeated(Run(Start(config), events[..n]), events[n]);
    }
  }

  lemma {:induction false} RunKeepsPicks(config: Config, events: seq<Event>)
    requires Plausible(Start(config), events) && FollowsLoop(Start(config), events)
    ensures PicksOk(Run(Start(config), events))
  {
    if events != [] {
      PrefixHolds(Start(config), events);
      hide Seated, PicksOk, Step, Possible, Plausible, InLoop, FollowsLoop, MembersSeen;
      var n := |events| - 1;
      RunKeepsPicks(config, events[..n]);
      RunIsSeated(config, events[..n]);
      StepKeepsPicks(Run(Start(config), events[..n]), events[n]);
    }
  }

  /** On side `i` nothing is held, or the last valid pick of the player who sits there. */
  ghost predicate PickIsCurrent(w: World, i: nat)
    requires i < 2
  {
    SideAt(w.room, i).chara.charaID != 0 ==>
      && i < |w.room.clients| && !w.room.clients[i].spectator
      && w.room.clients[i].conn in w.picks && SideAt(w.room, i).chara == w.picks[w.room.clients[i].conn]
  }

  /** What would go out now, after the vacated seats are dropped. */
  ghost predicate BroadcastOk(w: World, i: nat)
    requires i < 2
  {
    PickIsCurrent(Step(w, Drops), i)
  }

  lemma {:induction false} RunRooms(w: World, events: seq<Event>)
    ensures Run(w, events).room == ApplyAll(w.room, events)
  {
    if events != [] {
      hide Apply;
      RunRooms(w, events[..|events| - 1]);
    }
  }

  /** One turn of the main loop: departures and handovers, then the messages of one
      poll. A poll that comes to a missing message is cut short: the vacated seats are
      not dropped and nothing goes out. */
  datatype Turn = Turn(between: seq<Event>, messages: seq<Event>, cut: bool)

  ghost predicate IsTurn(t: Turn) {
    (forall e :: e in t.between ==> e.Leaves? || e.Reopens?) && (forall e :: e in t.messages ==> IsMessage(e))
  }

  function End(cut: bool): seq<Event> { if cut then [] else [Drops] }

  function EventsOf(turns: seq<Turn>): seq<Event> {
    if turns == [] then []
    else
      var t := turns[|turns| - 1];
      EventsOf(turns[..|turns| - 1]) + t.between + t.messages + End(t.cut)
  }

  /** A complete turn keeps to the order and ends settled again. */
  lemma TurnFollowsLoop(w: World, before: seq<Event>, t: Turn)
    requires FollowsLoop(w, before) && Run(w, before).settled && IsTurn(t) && !t.cut
    ensures FollowsLoop(w, before + t.between + t.messages + End(t.cut))
    ensures Run(w, before + t.between + t.messages + End(t.cut)).settled
  {
    hide FollowsLoop;
    BetweenFollowsLoop(w, before, t.between);
    MessagesFollowLoop(w, before + t.between, t.messages);
    ThenFollowsLoop(w, before + t.between + t.messages, Drops);
  }

  lemma ThenFollowsLoop(w: World, events: seq<Event>, e: Event)
    requires FollowsLoop(w, events) && InLoop(Run(w, events), e)
    ensures FollowsLoop(w, events + [e]) && Run(w, events + [e]) == Step(Run(w, events), e)
  {
    var more := events + [e];
    assert more[..|events|] == events;
    forall k | 0 <= k < |more| ensures InLoop(Run(w, more[..k]), more[k]) {
      if k < |events| { assert more[..k] == events[..k] && more[k] == events[k]; }
    }
  }

  lemma {:induction false} BetweenFollowsLoop(w: World, before: seq<Event>, between: seq<Event>)
    requires FollowsLoop(w, before) && Run(w, before).settled
    requires forall e :: e in between ==> e.Leaves? || e.Reopens?
    ensures FollowsLoop(w, before + between) && Run(w, before + between).settled
  {
    if between == [] {
      assert before + between == before;
    } else {
      var n := |between| - 1;
      assert before + between == before + between[..n] + [between[n]];
      hide Run, FollowsLoop, Apply;
      BetweenFollowsLoop(w, before, between[..n]);
      ThenFollowsLoop(w, before + between[..n], between[n]);
    }
  }

  lemma {:induction false} MessagesFollowLoop(w: World, before: seq<Event>, messages: seq<Event>)
    requires FollowsLoop(w, before)
    requires forall e :: e in messages ==> IsMessage(e)
    ensures FollowsLoop(w, before + messages)
  {
    if messages == [] {
      assert before + messages == before;
    } else {
      var n := |messages| - 1;
      assert before + messages == before + messages[..n] + [messages[n]];
      hide Run, FollowsLoop, Apply;
      assert IsMessage(messages[n]);
      MessagesFollowLoop(w, before, messages[..n]);
      ThenFollowsLoop(w, before + messages[..n], messages[n]);
    }
  }

  lemma DropBroadcasts(w: World, i: nat)
    requires PicksOk(w) && i < 2
    ensures BroadcastOk(w, i)
  {}

  /** In every run of the server loop, across joins, departures, results and
      handovers, every pick handed out belongs to the player on that side. */
  lemma BroadcastPicksAreCurrent(config: Config, events: seq<Event>, i: nat)
    requires Plausible(Start(config), events) && FollowsLoop(Start(config), events) && i < 2
    ensures BroadcastOk(Run(Start(config), events), i)
  {
    RunKeepsPicks(config, events);
    DropBroadcasts(Run(Start(config), events), i);
  }

  lemma OneStepMore(config: Config, events: seq<Event>, w: World, e: Event) returns (more: seq<Event>, w': World)
    requires Plausible(Start(config), events) && Run(Start(config), events) == w && Possible(w, e)
    ensures more == events + [e]
    ensures Plausible(Start(config), more) && Run(Start(config), more) == w' == Step(w, e)
  {
    more, w' := events + [e], Step(w, e);
    assert more[..|events|] == events;
    forall k | 0 <= k < |more| ensures Possible(Run(Start(config), more[..k]), more[k]) {
      if k < |events| { assert more[..k] == events[..k] && more[k] == events[k]; }
    }
  }

  // --------------------------------------------------------- turns cut short

  /** Turns the main loop can take; `lossy` when polls may come to a missing message. */
  ghost predicate Feasible(config: Config, lossy: bool, turns: seq<Turn>) {
    && (forall t :: t in turns ==> IsTurn(t) && (t.cut ==> lossy))
    && Plausible(Start(config), EventsOf(turns))
  }

  /** What the last turn hands out, if it hands out anything, is current. */
  ghost predicate ServesCurrent(config: Config, turns: seq<Turn>) {
    turns != [] && !turns[|turns| - 1].cut ==>
      forall i :: 0 <= i < 2 ==> PickIsCurrent(Run(Start(config), EventsOf(turns)), i)
  }

  lemma {:induction false} TurnsFollowLoop(w: World, turns: seq<Turn>)
    requires w.settled && forall t :: t in turns ==> IsTurn(t) && !t.cut
    ensures FollowsLoop(w, EventsOf(turns)) && Run(w, EventsOf(turns)).settled
  {
    if turns != [] {
      var n := |turns| - 1;
      TurnsFollowLoop(w, turns[..n]);
      TurnFollowsLoop(w, EventsOf(turns[..n]), turns[n]);
    }
  }

  lemma WholeTurnsServeCurrent(config: Config, turns: seq<Turn>)
    requires Feasible(config, false, turns)
    ensures ServesCurrent(config, turns)
  {
    if turns != [] {
      var events := EventsOf(turns);
      var n := |events| - 1;
      TurnsFollowLoop(Start(config), turns);
      assert events[n] == Drops;
      PrefixHolds(Start(config), events);
      assert Run(Start(config), events) == Step(Run(Start(config), events[..n]), Drops);
      hide Run, Plausible, FollowsLoop, EventsOf, IsTurn, PickIsCurrent;
      forall i | 0 <= i < 2 ensures PickIsCurrent(Run(Start(config), events), i) {
        BroadcastPicksAreCurrent(config, events[..n], i);
      }
    }
  }

  /** A newcomer named by one letter, with the secret and build of the lobby below. */
  function Asking(conn: nat, letter: char): JoinRequest { JoinRequest(conn, 0, "h", [letter], false, "s", 0, "", true) }

  function Newcomer(config: Config, conn: nat, letter: char): Member {
    Member(conn, [letter], false, -1, 0, "", config.relayPort, 0)
  }

  lemma NewcomerSits(r: Room, conn: nat, letter: char)
    requires r.config.secret == "s" && r.config.hash == "h" && 'a' <= letter <= 'c'
    requires |r.clients| < 2 && forall m :: m in r.clients ==> m.name != [letter] && !m.spectator
    ensures Join(r, Asking(conn, letter)) == r.(clients := r.clients + [Newcomer(r.config, conn, letter)])
  {
    assert Filtered([letter]) == [letter];
    assert Players(r.clients) == |r.clients|;
  }

  /** The run that goes wrong, event by event: the lobby is handed out, two players sit
      down, the second picks and the first leaves; a third joins, a late result turns
      the seats and the pick is replaced; the third leaves before the next drop. */
  function LateEvents(x: Chara, y: Chara): seq<Event> {
    [Reopens("s", "h"), Joins(Asking(1, 'a')), Joins(Asking(2, 'b')), Drops, Picks(2, x), Drops, Leaves(1),
     Joins(Asking(3, 'c')), Reports(0), Picks(2, y), Leaves(3), Drops]
  }

  /** The members, sides, picks and connections seen after `k` of those events. */
  function LateWorld(config: Config, x: Chara, y: Chara, k: nat): World {
    var a, b, c := Newcomer(config, 1, 'a'), Newcomer(config, 2, 'b'), Newcomer(config, 3, 'c');
    var open := config.(secret := "s", hash := "h");
    var first, second := Side(x, 2, -1), Side(y, 2, -1);
    match k
    case 0 => Start(config)
    case 1 => World(Room([], (EMPTY_SIDE, EMPTY_SIDE), open), map[], {}, true)
    case 2 => World(Room([a], (EMPTY_SIDE, EMPTY_SIDE), open), map[], {1}, false)
    case 3 => World(Room([a, b], (EMPTY_SIDE, EMPTY_SIDE), open), map[], {1, 2}, false)
    case 4 => World(Room([a, b], (EMPTY_SIDE, EMPTY_SIDE), open), map[], {1, 2}, true)
    case 5 => World(Room([a, b], (EMPTY_SIDE, first), open), map[2 := x], {1, 2}, false)
    case 6 => World(Room([a, b], (EMPTY_SIDE, first), open), map[2 := x], {1, 2}, true)
    case 7 => World(Room([b], (EMPTY_SIDE, first), open), map[2 := x], {1, 2}, true)
    case 8 => World(Room([b, c], (EMPTY_SIDE, first), open), map[2 := x], {1, 2, 3}, false)
    case 9 => World(Room([c, b], (first, EMPTY_SIDE), open), map[2 := x], {1, 2, 3}, false)
    case 10 => World(Room([c, b], (first, second), open), map[2 := y], {1, 2, 3}, false)
    case 11 => World(Room([b], (first, second), open), map[2 := y], {1, 2, 3}, false)
    case _ => World(Room([b], (first, EMPTY_SIDE), open), map[2 := y], {1, 2, 3}, true)
  }

  /** A newcomer in a run of the open lobby. */
  lemma JoinStep(w: World, conn: nat, letter: char)
    requires w.room.config.secret == "s" && w.room.config.hash == "h" && 'a' <= letter <= 'c'
    requires |w.room.clients| < 2 && forall m :: m in w.room.clients ==> m.name != [letter] && !m.spectator
    ensures Step(w, Joins(Asking(conn, letter)))
      == World(w.room.(clients := w.room.clients + [Newcomer(w.room.config, conn, letter)]),
               w.picks, w.seen + {conn}, false)
  {
    NewcomerSits(w.room, conn, letter);
    hide Join, Newcomer;
  }

  lemma LateJoin(config: Config, x: Chara, y: Chara, k: nat)
    requires k == 1 || k == 2 || k == 7
    ensures var w, e := LateWorld(config, x, y, k), LateEvents(x, y)[k];
      Possible(w, e) && Step(w, e) == LateWorld(config, x, y, k + 1)
  {
    hide Step;
    if k == 1 {
      JoinStep(LateWorld(config, x, y, 1), 1, 'a');
    } else if k == 2 {
      JoinStep(LateWorld(config, x, y, 2), 2, 'b');
    } else {
      JoinStep(LateWorld(config, x, y, 7), 3, 'c');
    }
  }

  lemma LateReport(config: Config, x: Chara, y: Chara)
    ensures Step(LateWorld(config, x, y, 8), Reports(0)) == LateWorld(config, x, y, 9)
  {
    var b, c := Newcomer(config, 2, 'b'), Newcomer(config, 3, 'c');
    assert [b, c][1..] == [c] && Players([c]) == 1 && Players([b, c]) == 2;
    assert Inserted(Removed([b, c], 0), 1, b) == [c, b];
    hide Players;
  }

  lemma LateMove(config: Config, x: Chara, y: Chara, k: nat)
    requires (k == 4 || k == 6 || k == 9 || k == 10) && CharaConditionsValid(x) && CharaConditionsValid(y)
    ensures Step(LateWorld(config, x, y, k), LateEvents(x, y)[k]) == LateWorld(config, x, y, k + 1)
  {
    hide CharaConditionsValid;
  }

  lemma LateDrop(config: Config, x: Chara, y: Chara, k: nat)
    requires (k == 0 || k == 3 || k == 5 || k == 11) && x.charaID != 0 && y.charaID != 0
    ensures Step(LateWorld(config, x, y, k), LateEvents(x, y)[k]) == LateWorld(config, x, y, k + 1)
  {}

  lemma LateStep(config: Config, x: Chara, y: Chara, k: nat)
    requires k < 12 && CharaConditionsValid(x) && CharaConditionsValid(y) && x.charaID != 0 && y.charaID != 0
    ensures var w, e := LateWorld(config, x, y, k), LateEvents(x, y)[k];
      Possible(w, e) && Step(w, e) == LateWorld(config, x, y, k + 1)
  {
    hide Step, LateWorld, CharaConditionsValid;
    if k == 1 || k == 2 || k == 7 {
      LateJoin(config, x, y, k);
    } else if k == 8 {
      LateReport(config, x, y);
    } else if k == 4 || k == 6 || k == 9 || k == 10 {
      LateMove(config, x, y, k);
    } else {
      LateDrop(config, x, y, k);
    }
  }

  lemma {:induction false} LateRun(config: Config, x: Chara, y: Chara, k: nat)
    requires k <= 12 && CharaConditionsValid(x) && CharaConditionsValid(y) && x.charaID != 0 && y.charaID != 0
    ensures Plausible(Start(config), LateEvents(x, y)[..k])
    ensures Run(Start(config), LateEvents(x, y)[..k]) == LateWorld(config, x, y, k)
  {
    var events := LateEvents(x, y);
    if k > 0 {
      LateRun(config, x, y, k - 1);
      LateStep(config, x, y, k - 1);
      hide LateEvents, LateWorld, Run, Plausible, CharaConditionsValid;
      assert events[..k] == events[..k - 1] + [events[k - 1]];
      var more, w := OneStepMore(config, events[..k - 1], LateWorld(config, x, y, k - 1), events[k - 1]);
    }
  }

  /** The same run as four turns, the third cut short. */
  function LateDeparture(x: Chara, y: Chara): seq<Turn> {
    [Turn([Reopens("s", "h")], [Joins(Asking(1, 'a')), Joins(Asking(2, 'b'))], false),
     Turn([], [Picks(2, x)], false),
     Turn([Leaves(1)], [Joins(Asking(3, 'c')), Reports(0), Picks(2, y)], true),
     Turn([Leaves(3)], [], false)]
  }

  lemma LateDepartureEvents(x: Chara, y: Chara)
    ensures EventsOf(LateDeparture(x, y)) == LateEvents(x, y)
  {
    hide Asking;
    var turns := LateDeparture(x, y);
    assert turns[..3][..2] == turns[..2] && turns[..2][..1] == turns[..1] && turns[..1][..0] == [];
    assert EventsOf(turns[..1]) == LateEvents(x, y)[..4];
    assert EventsOf(turns[..2]) == LateEvents(x, y)[..6];
    assert EventsOf(turns[..3]) == LateEvents(x, y)[..10];
  }

  /** In any lobby, after a turn cut short, a pick its player has replaced can be
      handed out. */
  lemma LateDepartureServesStalePick(config: Config, x: Chara, y: Chara)
    requires CharaConditionsValid(x) && CharaConditionsValid(y) && x.charaID != 0 && y.charaID != 0 && x != y
    ensures Feasible(config, true, LateDeparture(x, y)) && !ServesCurrent(config, LateDeparture(x, y))
  {
    LateRun(config, x, y, 12);
    LateDepartureEvents(x, y);
    LateEnd(config, x, y);
    hide Run, Plausible, CharaConditionsValid, EventsOf, LateWorld, PickIsCurrent, IsTurn, LateEvents;
  }

  /** In the end the first side holds the replaced pick of the player who sits there. */
  lemma LateEnd(config: Config, x: Chara, y: Chara)
    requires x.charaID != 0 && x != y
    ensures !PickIsCurrent(LateWorld(config, x, y, 12), 0) && LateEvents(x, y)[..12] == LateEvents(x, y)
    ensures !LateDeparture(x, y)[3].cut && |LateDeparture(x, y)| == 4
    ensures forall t :: t in LateDeparture(x, y) ==> IsTurn(t)
  {}

  /** Whatever the lobby, every pick handed out is current if and only if no poll
      ever comes to a missing message. */
  lemma CurrentIffNothingMissing(config: Config, lossy: bool)
    ensures (forall turns: seq<Turn> :: Feasible(config, lossy, turns) ==> ServesCurrent(config, turns)) <==> !lossy
  {
    if lossy {
      LateDepartureServesStalePick(config, Chara(1, 0, 0, 0, 0, 0, 0, 0), Chara(2, 0, 0, 0, 0, 0, 0, 0));
    } else {
      forall turns: seq<Turn> | Feasible(config, false, turns) ensures ServesCurrent(config, turns) {
        WholeTurnsServeCurrent(config, turns);
      }
    }
  }
}
