/** Two machines punching towards each other over a network that loses, repeats and
    reorders datagrams but forges none: what a proven match-start punch tells. */
module PunchProtocol {
  import opened Relay
  import opened HolePunch

  datatype Side = A | B

  function Other(s: Side): Side { if s == A then B else A }

  /** Where a datagram from one side to an address ends up, the addresses each side
      was offered for the other, and the token only the two of them know. */
  datatype Setup = Setup(route: (Side, Endpoint) -> Option<Side>, offersA: seq<Endpoint>, offersB: seq<Endpoint>,
                         token: string)

  function Offers(u: Setup, s: Side): seq<Endpoint> { if s == A then u.offersA else u.offersB }

  datatype Packet = Packet(sender: Side, to: Endpoint, data: string)

  /** One machine: its running punch with its deadline, whether it ever started one for
      a match, and whose probes have reached it. */
  datatype Node = Node(attempt: Option<Attempt>, until: nat, entered: bool, heard: set<Side>)

  datatype World = World(a: Node, b: Node, sent: set<Packet>)

  const QUIET_NODE := Node(None, 0, false, {})
  const BEGIN := World(QUIET_NODE, QUIET_NODE, {})

  function At(w: World, s: Side): Node { if s == A then w.a else w.b }

  function With(w: World, s: Side, n: Node): World { if s == A then w.(a := n) else w.(b := n) }

  /** Something read from the socket: a datagram of ours, seen as coming from some
      address, or anything else without the token. */
  datatype Delivery = Delivered(packet: Packet, from: Endpoint) | Stray(from: Endpoint, data: string)

  function DataOf(d: Delivery): string { if d.Delivered? then d.packet.data else d.data }

  datatype Event =
    | Begins(side: Side, matchStart: bool, until: nat)
    | Polls(side: Side, now: Clock, read: Option<Delivery>)
    | Keeps(side: Side, to: Endpoint, drained: seq<Delivery>)

  predicate IsProbe(token: string, data: string) { data == PlainProbe(token) || data == MatchProbe(token) }

  /** The network delivers what was sent, where its address leads, from an address
      that leads back. */
  ghost predicate Honest(u: Setup, w: World, s: Side, d: Delivery) {
    match d
    case Delivered(p, from) => p in w.sent && u.route(p.sender, p.to) == Some(s) && u.route(s, from) == Some(p.sender)
    case Stray(from, data) => !IsProbe(u.token, data) && data != Ack(u.token)
  }

  /** The loop takes another turn: neither deadline nor settle time has come. */
  predicate Punching(n: Node, now: Clock) {
    && n.attempt.Some? && Before(now.limit, n.until)
    && (n.attempt.value.settle == 0 || Before(now.pause, n.attempt.value.settle))
  }

  ghost predicate Possible(u: Setup, w: World, e: Event) {
    match e
    case Begins(s, matchStart, until) => true
    case Polls(s, now, read) => Punching(At(w, s), now) && (read.Some? ==> Honest(u, w, s, read.value))
    case Keeps(s, to, drained) =>
      to in Offers(u, s) && |drained| <= 8 && forall d :: d in drained ==> Honest(u, w, s, d)
  }

  function Packets(s: Side, sends: seq<Send>): set<Packet> {
    set x | x in sends && x.Forward? :: Packet(s, x.to, x.data)
  }

  function HeardFrom(u: Setup, d: Delivery): set<Side> {
    if d.Delivered? && IsProbe(u.token, d.packet.data) then {d.packet.sender} else {}
  }

  /** What the keepalive of the results screen does with what it drains. */
  function Drain(u: Setup, n: Node, drained: seq<Delivery>): (Node, seq<Send>) {
    if drained == [] then (n, [])
    else
      var before := Drain(u, n, drained[..|drained| - 1]);
      var d := drained[|drained| - 1];
      (before.0.(heard := before.0.heard + HeardFrom(u, d)), before.1 + KeepaliveReply(u.token, d.from, DataOf(d)))
  }

  function Turn(read: Option<Delivery>, now: Clock): Tick {
    Tick(now, if read.None? then Quiet else Got(read.value.from, DataOf(read.value)))
  }

  ghost function Step(u: Setup, w: World, e: Event): World
    requires Possible(u, w, e)
  {
    match e
    case Begins(s, matchStart, until) =>
      var n := At(w, s);
      With(w, s, n.(attempt := Some(NewAttempt(matchStart, u.token, Offers(u, s))), until := until,
                    entered := n.entered || matchStart))
    case Polls(s, now, read) =>
      var n := At(w, s);
      var p := Poll(n.attempt.value, Turn(read, now));
      var heard := if read.Some? then HeardFrom(u, read.value) else {};
      With(w, s, n.(attempt := Some(p.0), heard := n.heard + heard)).(sent := w.sent + Packets(s, p.1))
    case Keeps(s, to, drained) =>
      var d := Drain(u, At(w, s), drained);
      With(w, s, d.0).(sent := w.sent + {Packet(s, to, PlainProbe(u.token))} + Packets(s, d.1))
  }

  ghost predicate Reaches(u: Setup, events: seq<Event>, w: World) {
    if events == [] then w == BEGIN
    else
      var n := |events| - 1;
      exists before ::
        Reaches(u, events[..n], before) && Possible(u, before, events[n]) && w == Step(u, before, events[n])
  }

  // -------------------------------------------------------------- invariants

  /** One of the addresses `from` probes leads to `to`. */
  ghost predicate Leads(u: Setup, from: Side, to: Side) {
    exists c :: c in Offers(u, from) && u.route(from, c) == Some(to)
  }

  /** One of the addresses this side probes leads back to itself. */
  ghost predicate SelfLoop(u: Setup, s: Side) { Leads(u, s, s) }

  /** Some address leads from one side to the other. */
  ghost predicate Returns(u: Setup, from: Side, to: Side) {
    exists f :: u.route(from, f) == Some(to)
  }

  ghost predicate PacketOk(u: Setup, w: World, p: Packet) {
    if IsProbe(u.token, p.data) then
      p.to in Offers(u, p.sender) && (p.data == MatchProbe(u.token) ==> At(w, p.sender).entered)
    else
      p.data == Ack(u.token) && u.route(p.sender, p.to).Some? && u.route(p.sender, p.to).value in At(w, p.sender).heard
  }

  ghost predicate HeardOk(u: Setup, n: Node, s: Side) {
    forall t :: t in n.heard ==> Leads(u, t, s)
  }

  /** The machine behind this address has received a probe of ours and can answer. */
  ghost predicate Answers(u: Setup, w: World, s: Side, e: Endpoint) {
    var there := u.route(s, e);
    there.Some? && s in At(w, there.value).heard && Returns(u, there.value, s)
  }

  /** A marked probe came from the other side in its punch, or from this side itself. */
  ghost predicate MarkReached(u: Setup, w: World, s: Side) {
    SelfLoop(u, s) || (Leads(u, Other(s), s) && At(w, Other(s)).entered)
  }

  ghost predicate AttemptOk(u: Setup, w: World, s: Side, a: Attempt) {
    && a.token == u.token && a.candidates == Offers(u, s) && (a.matchStart ==> At(w, s).entered)
    && (a.gotAck ==> a.chosen.Some? && Answers(u, w, s, a.chosen.value))
    && (a.matchStart && a.ackedPeer ==> MarkReached(u, w, s))
  }

  ghost predicate NodeOk(u: Setup, w: World, s: Side) {
    var n := At(w, s);
    HeardOk(u, n, s) && (n.attempt.Some? ==> AttemptOk(u, w, s, n.attempt.value))
  }

  ghost predicate Sound(u: Setup, w: World) {
    NodeOk(u, w, A) && NodeOk(u, w, B) && forall p :: p in w.sent ==> PacketOk(u, w, p)
  }

  /** A probe that arrives comes from a machine whose probing leads here. */
  lemma ProbeOrigin(u: Setup, w: World, s: Side, d: Delivery)
    requires Sound(u, w) && Honest(u, w, s, d) && IsProbe(u.token, DataOf(d))
    ensures d.Delivered? && Leads(u, d.packet.sender, s)
    ensures DataOf(d) == MatchProbe(u.token) ==> MarkReached(u, w, s)
  {
    assert PacketOk(u, w, d.packet);
    hide PlainProbe, MatchProbe, Ack, IsProbe, NodeOk;
  }

  /** An ack that arrives comes from a machine a probe of ours has reached. */
  lemma AckOrigin(u: Setup, w: World, s: Side, d: Delivery)
    requires Sound(u, w) && Honest(u, w, s, d) && DataOf(d) == Ack(u.token)
    ensures Answers(u, w, s, d.from)
  {
    KindsDiffer(u.token);
    assert PacketOk(u, w, d.packet);
    hide PlainProbe, MatchProbe, Ack, NodeOk;
  }

  /** A probe of its own to a candidate, or the answer to the probe just read. */
  predicate FromPoll(a: Attempt, t: Tick, x: Send) {
    && x.Forward?
    && ((x.data == OwnProbe(a) && x.to in a.candidates)
        || (x.data == Ack(a.token) && t.read.Got? && x.to == t.read.from && IsProbe(a.token, t.read.data)))
  }

  /** What one turn of the loop sends and learns. */
  lemma PollSends(a: Attempt, t: Tick)
    ensures var r := Poll(a, t);
      && (forall x :: x in r.1 ==> FromPoll(a, t, x))
      && (r.0.gotAck && !(a.gotAck && r.0.chosen == a.chosen) ==>
           t.read.Got? && t.read.data == Ack(a.token) && r.0.chosen == Some(t.read.from))
      && (r.0.ackedPeer && !a.ackedPeer && a.matchStart ==> t.read.Got? && t.read.data == MatchProbe(a.token))
  {
    KindsDiffer(a.token);
    hide PlainProbe, MatchProbe, Ack, Before, Later;
  }

  /** Nothing is ever unlearnt. */
  ghost predicate Grown(n: Node, n': Node) { (n.entered ==> n'.entered) && n.heard <= n'.heard }

  lemma PacketsStayOk(u: Setup, w: World, w': World)
    requires forall p :: p in w.sent ==> PacketOk(u, w, p)
    requires Grown(w.a, w'.a) && Grown(w.b, w'.b)
    ensures forall p :: p in w.sent ==> PacketOk(u, w', p)
  {
    hide IsProbe, PlainProbe, MatchProbe, Ack;
    forall p | p in w.sent ensures PacketOk(u, w', p) { assert PacketOk(u, w, p); }
  }

  /** Everything a punch sends is accounted for. */
  lemma PollPacketsOk(u: Setup, w: World, s: Side, now: Clock, read: Option<Delivery>)
    requires Sound(u, w) && Possible(u, w, Polls(s, now, read))
    ensures var w' := Step(u, w, Polls(s, now, read));
      forall p :: p in w'.sent && p !in w.sent ==> PacketOk(u, w', p)
  {
    var w' := Step(u, w, Polls(s, now, read));
    var a := At(w, s).attempt.value;
    PollSends(a, Turn(read, now));
    KindsDiffer(u.token);
    hide PlainProbe, MatchProbe, Ack, Poll, SelfLoop, PacketOk;
    forall p | p in w'.sent && p !in w.sent ensures PacketOk(u, w', p) {
      var x: Send :| x in Poll(a, Turn(read, now)).1 && x.Forward? && p == Packet(s, x.to, x.data);
      assert FromPoll(a, Turn(read, now), x);
      PollPacketOk(u, w, w', s, now, read, x);
    }
  }

  lemma PollPacketOk(u: Setup, w: World, w': World, s: Side, now: Clock, read: Option<Delivery>, x: Send)
    requires NodeOk(u, w, s) && Possible(u, w, Polls(s, now, read)) && Grown(At(w, s), At(w', s))
    requires read.Some? ==> HeardFrom(u, read.value) <= At(w', s).heard
    requires FromPoll(At(w, s).attempt.value, Turn(read, now), x)
    ensures PacketOk(u, w', Packet(s, x.to, x.data))
  {
    KindsDiffer(u.token);
    hide PlainProbe, MatchProbe, Ack, SelfLoop;
  }

  /** A machine whose punch did not move stays as sound as it was. */
  lemma NodeStaysOk(u: Setup, w: World, w': World, s: Side)
    requires NodeOk(u, w, s) && Grown(w.a, w'.a) && Grown(w.b, w'.b)
    requires At(w', s).attempt == At(w, s).attempt && HeardOk(u, At(w', s), s)
    ensures NodeOk(u, w', s)
  {
    hide Leads, Returns;
  }

  lemma PolledAttemptOk(u: Setup, w: World, w': World, s: Side, a: Attempt, t: Tick)
    requires AttemptOk(u, w, s, a) && Grown(w.a, w'.a) && Grown(w.b, w'.b)
    requires t.read.Got? && t.read.data == Ack(u.token) ==> Answers(u, w, s, t.read.from)
    requires t.read.Got? && t.read.data == MatchProbe(u.token) ==> MarkReached(u, w, s)
    ensures AttemptOk(u, w', s, Poll(a, t).0)
  {
    PollSends(a, t);
    hide Leads, Returns, Poll, PlainProbe, MatchProbe, Ack, FromPoll;
  }

  lemma PolledNodeOk(u: Setup, w: World, s: Side, now: Clock, read: Option<Delivery>)
    requires Sound(u, w) && Possible(u, w, Polls(s, now, read))
    ensures NodeOk(u, Step(u, w, Polls(s, now, read)), s)
  {
    var w' := Step(u, w, Polls(s, now, read));
    var a, t := At(w, s).attempt.value, Turn(read, now);
    KindsDiffer(u.token);
    assert NodeOk(u, w, s);
    if read.Some? {
      if IsProbe(u.token, DataOf(read.value)) { ProbeOrigin(u, w, s, read.value); }
      if DataOf(read.value) == Ack(u.token) { AckOrigin(u, w, s, read.value); }
    }
    hide PlainProbe, MatchProbe, Ack, Poll, Leads, Returns, Packets, Answers, MarkReached, AttemptOk, Honest, Sound;
    PolledAttemptOk(u, w, w', s, a, t);
  }

  lemma PollKeepsSound(u: Setup, w: World, s: Side, now: Clock, read: Option<Delivery>)
    requires Sound(u, w) && Possible(u, w, Polls(s, now, read))
    ensures Sound(u, Step(u, w, Polls(s, now, read)))
  {
    var w' := Step(u, w, Polls(s, now, read));
    PacketsStayOk(u, w, w');
    PollPacketsOk(u, w, s, now, read);
    PolledNodeOk(u, w, s, now, read);
    NodeStaysOk(u, w, w', Other(s));
    hide Poll, HeardOk, AttemptOk, PacketOk, Packets, Honest, Punching;
  }

  predicate FromDrain(u: Setup, d: Delivery, x: Send) {
    x == Forward(d.from, Ack(u.token)) && IsProbe(u.token, DataOf(d))
  }

  lemma {:induction false} DrainSends(u: Setup, n: Node, drained: seq<Delivery>)
    ensures var r := Drain(u, n, drained);
      && r.0.attempt == n.attempt && r.0.entered == n.entered && n.heard <= r.0.heard
      && (forall s :: s in r.0.heard && s !in n.heard ==>
           exists d :: d in drained && d.Delivered? && IsProbe(u.token, d.packet.data) && d.packet.sender == s)
      && (forall x :: x in r.1 ==> exists d :: d in drained && FromDrain(u, d, x) && HeardFrom(u, d) <= r.0.heard)
  {
    if drained != [] { DrainSends(u, n, drained[..|drained| - 1]); }
  }

  lemma DrainHeard(u: Setup, w: World, s: Side, drained: seq<Delivery>)
    requires Sound(u, w) && forall d :: d in drained ==> Honest(u, w, s, d)
    ensures HeardOk(u, Drain(u, At(w, s), drained).0, s)
  {
    DrainSends(u, At(w, s), drained);
    assert NodeOk(u, w, s);
    forall d | d in drained && IsProbe(u.token, DataOf(d)) ensures d.Delivered? && Leads(u, d.packet.sender, s) {
      ProbeOrigin(u, w, s, d);
    }
    hide Sound, AttemptOk, Honest, PlainProbe, MatchProbe, Ack, Drain, Leads;
  }

  lemma DrainPacketOk(u: Setup, w: World, w': World, s: Side, d: Delivery, x: Send)
    requires Honest(u, w, s, d) && FromDrain(u, d, x) && HeardFrom(u, d) <= At(w', s).heard
    ensures x.Forward? && PacketOk(u, w', Packet(s, x.to, x.data))
  {
    KindsDiffer(u.token);
    hide PlainProbe, MatchProbe, Ack;
  }

  lemma KeepPacketsOk(u: Setup, w: World, s: Side, to: Endpoint, drained: seq<Delivery>)
    requires Possible(u, w, Keeps(s, to, drained))
    ensures var w' := Step(u, w, Keeps(s, to, drained));
      forall p :: p in w'.sent && p !in w.sent ==> PacketOk(u, w', p)
  {
    var w' := Step(u, w, Keeps(s, to, drained));
    DrainSends(u, At(w, s), drained);
    assert PacketOk(u, w', Packet(s, to, PlainProbe(u.token))) by { KindsDiffer(u.token); }
    hide PlainProbe, MatchProbe, Ack, Drain, PacketOk, Honest;
    forall p | p in w'.sent && p !in w.sent ensures PacketOk(u, w', p) {
      if p != Packet(s, to, PlainProbe(u.token)) {
        var x: Send :| x in Drain(u, At(w, s), drained).1 && x.Forward? && p == Packet(s, x.to, x.data);
        var d :| d in drained && FromDrain(u, d, x) && HeardFrom(u, d) <= At(w', s).heard;
        DrainPacketOk(u, w, w', s, d, x);
      }
    }
  }

  lemma KeepKeepsSound(u: Setup, w: World, s: Side, to: Endpoint, drained: seq<Delivery>)
    requires Sound(u, w) && Possible(u, w, Keeps(s, to, drained))
    ensures Sound(u, Step(u, w, Keeps(s, to, drained)))
  {
    var w' := Step(u, w, Keeps(s, to, drained));
    DrainSends(u, At(w, s), drained);
    DrainHeard(u, w, s, drained);
    PacketsStayOk(u, w, w');
    KeepPacketsOk(u, w, s, to, drained);
    hide Drain, AttemptOk, PacketOk, Packets, Honest, Leads, HeardOk, FromDrain;
    NodeStaysOk(u, w, w', s);
    NodeStaysOk(u, w, w', Other(s));
  }

  lemma BeginKeepsSound(u: Setup, w: World, s: Side, matchStart: bool, until: nat)
    requires Sound(u, w)
    ensures Sound(u, Step(u, w, Begins(s, matchStart, until)))
  {
    var w' := Step(u, w, Begins(s, matchStart, until));
    assert NodeOk(u, w, s);
    PacketsStayOk(u, w, w');
    hide PacketOk, HeardOk;
    NodeStaysOk(u, w, w', Other(s));
  }

  lemma StepKeepsSound(u: Setup, w: World, e: Event)
    requires Sound(u, w) && Possible(u, w, e)
    ensures Sound(u, Step(u, w, e))
  {
    match e
    case Begins(s, matchStart, until) => BeginKeepsSound(u, w, s, matchStart, until);
    case Polls(s, now, read) => PollKeepsSound(u, w, s, now, read);
    case Keeps(s, to, drained) => KeepKeepsSound(u, w, s, to, drained);
  }

  lemma {:induction false} ReachableIsSound(u: Setup, events: seq<Event>, w: World)
    requires Reaches(u, events, w)
    ensures Sound(u, w)
  {
    if events != [] {
      hide Step, Sound, Possible;
      var n := |events| - 1;
      var before :|
        Reaches(u, events[..n], before) && Possible(u, before, events[n]) && w == Step(u, before, events[n]);
      ReachableIsSound(u, events[..n], before);
      StepKeepsSound(u, before, events[n]);
    } else {
      assert Sound(u, BEGIN);
    }
  }

  /** This side's punch for a match has succeeded. */
  ghost predicate ProvenAtMatchStart(w: World, s: Side) {
    At(w, s).attempt.Some? && At(w, s).attempt.value.matchStart && Proven(At(w, s).attempt.value)
  }

  /** The other machine has started its own match punch and one of our probes reached it. */
  ghost predicate PeerIsThere(w: World, s: Side) {
    At(w, Other(s)).entered && s in At(w, Other(s)).heard
  }

  /** A success at match start is never one-sided, unless this side was given an
      address that leads back to itself. */
  lemma ProvenMeansPeerIsThere(u: Setup, events: seq<Event>, w: World, s: Side)
    requires Reaches(u, events, w) && ProvenAtMatchStart(w, s) && !SelfLoop(u, s)
    ensures PeerIsThere(w, s)
  {
    ReachableIsSound(u, events, w);
    assert NodeOk(u, w, s);
    hide Reaches, Leads;
    assert Leads(u, s, s) == SelfLoop(u, s);
  }

  lemma OneMore(u: Setup, events: seq<Event>, w: World, e: Event) returns (more: seq<Event>, w': World)
    requires Reaches(u, events, w) && Possible(u, w, e)
    ensures Reaches(u, more, w') && w' == Step(u, w, e)
  {
    more, w' := events + [e], Step(u, w, e);
    assert more[..|events|] == events;
  }

  // ----------------------------------------------------- runs that go wrong

  const LONG := 10000

  /** A machine sits in the first moments of its punch. */
  ghost predicate Early(n: Node) {
    n.until == LONG && n.attempt.Some? && (n.attempt.value.settle == 0 || n.attempt.value.settle == SETTLE_MS)
  }

  lemma BeginMore(u: Setup, events: seq<Event>, w: World, s: Side) returns (more: seq<Event>, w': World)
    requires Reaches(u, events, w)
    ensures Reaches(u, more, w') && Early(At(w', s)) && w'.sent == w.sent && At(w', Other(s)) == At(w, Other(s))
    ensures At(w', s).attempt == Some(NewAttempt(true, u.token, Offers(u, s)))
  {
    hide Reaches;
    more, w' := OneMore(u, events, w, Begins(s, true, LONG));
  }

  lemma PollIsPossible(u: Setup, w: World, s: Side, read: Option<Delivery>)
    requires Early(At(w, s)) && (read.Some? ==> Honest(u, w, s, read.value))
    ensures Possible(u, w, Polls(s, Instant(0), read))
  {
    hide Honest;
  }

  /** One turn of a punch, all at the same instant. */
  lemma PollMore(u: Setup, events: seq<Event>, w: World, s: Side, read: Option<Delivery>)
    returns (more: seq<Event>, w': World)
    requires Reaches(u, events, w) && Early(At(w, s)) && (read.Some? ==> Honest(u, w, s, read.value))
    ensures Reaches(u, more, w')
    ensures var p := Poll(At(w, s).attempt.value, Turn(read, Instant(0)));
      && At(w', s).attempt == Some(p.0) && At(w', s).until == LONG && At(w', Other(s)) == At(w, Other(s))
      && (forall x :: x in w.sent ==> x in w'.sent)
      && (forall x :: x in p.1 && x.Forward? ==> Packet(s, x.to, x.data) in w'.sent)
  {
    hide Poll, Reaches, Honest;
    PollIsPossible(u, w, s, read);
    hide Possible, Early;
    more, w' := OneMore(u, events, w, Polls(s, Instant(0), read));
  }

  /** After the first round of probes. */
  function Probing(token: string, candidates: seq<Endpoint>): Attempt {
    NewAttempt(true, token, candidates).(nextSend := RESEND_MS)
  }

  lemma FirstRound(token: string, candidates: seq<Endpoint>)
    ensures var p := Poll(NewAttempt(true, token, candidates), Tick(Instant(0), Quiet));
      && p.0 == Probing(token, candidates) && forall c :: c in candidates ==> Forward(c, MatchProbe(token)) in p.1
  {
    hide MatchProbe;
    forall c | c in candidates ensures Forward(c, MatchProbe(token)) in ToAll(candidates, MatchProbe(token)) {
      var i :| 0 <= i < |candidates| && candidates[i] == c;
      assert ToAll(candidates, MatchProbe(token))[i] == Forward(c, MatchProbe(token));
    }
  }

  lemma ProbeIsAnswered(token: string, candidates: seq<Endpoint>, from: Endpoint)
    ensures var a := Probing(token, candidates); var p := Poll(a, Tick(Instant(0), Got(from, MatchProbe(a.token))));
      p.0 == a.(ackedPeer := true) && p.1 == [Forward(from, Ack(a.token))]
  {
    var a := Probing(token, candidates);
    KindsDiffer(token);
    hide MatchProbe, Ack, PlainProbe;
    assert Before(0, a.nextSend);
    assert Probe(a, Instant(0)) == (a, []);
    assert Hear(a, from, MatchProbe(a.token), Instant(0)).1 == [Forward(from, Ack(a.token))];
  }

  /** A match-start punch proven a moment ago. */
  predicate JustProven(u: Setup, s: Side, a: Attempt) {
    && Proven(a) && a.which && a.matchStart && a.settle == SETTLE_MS && a.nextSend == RESEND_MS
    && a.token == u.token && a.candidates == Offers(u, s)
  }

  lemma AckProves(u: Setup, s: Side, a: Attempt, from: Endpoint)
    requires a == Probing(u.token, Offers(u, s)).(ackedPeer := true) && from in Offers(u, s)
    ensures JustProven(u, s, Poll(a, Tick(Instant(0), Got(from, Ack(u.token)))).0)
  {
    KindsDiffer(a.token);
    hide MatchProbe, Ack, PlainProbe;
  }

  lemma LaterAckMoves(u: Setup, s: Side, a: Attempt, from: Endpoint)
    requires JustProven(u, s, a)
    ensures var a' := Poll(a, Tick(Instant(0), Got(from, Ack(u.token)))).0;
      JustProven(u, s, a') && a'.chosen == Some(from)
  {
    KindsDiffer(a.token);
    hide MatchProbe, Ack, PlainProbe;
  }

  /** A reachable success of `s`, its first probes out. */
  ghost predicate Succeeded(u: Setup, events: seq<Event>, w: World, s: Side) {
    && Reaches(u, events, w) && At(w, s).until == LONG
    && At(w, s).attempt.Some? && JustProven(u, s, At(w, s).attempt.value)
  }

  ghost predicate ProbedAll(u: Setup, w: World, s: Side) {
    forall c :: c in Offers(u, s) ==> Packet(s, c, MatchProbe(u.token)) in w.sent
  }

  lemma FirstRoundMore(u: Setup, events: seq<Event>, w: World, s: Side) returns (more: seq<Event>, w': World)
    requires Reaches(u, events, w) && Early(At(w, s))
    requires At(w, s).attempt == Some(NewAttempt(true, u.token, Offers(u, s)))
    ensures Reaches(u, more, w') && Early(At(w', s)) && ProbedAll(u, w', s)
    ensures At(w', s).attempt == Some(Probing(u.token, Offers(u, s))) && At(w', Other(s)) == At(w, Other(s))
    ensures forall x :: x in w.sent ==> x in w'.sent
  {
    hide Reaches, MatchProbe;
    more, w' := PollMore(u, events, w, s, None);
    hide Poll;
    FirstRound(u.token, Offers(u, s));
  }

  /** A marked probe is heard and answered. */
  lemma AnswerMore(u: Setup, events: seq<Event>, w: World, s: Side, probe: Packet, from: Endpoint)
    returns (more: seq<Event>, w': World)
    requires Reaches(u, events, w) && Early(At(w, s)) && Honest(u, w, s, Delivered(probe, from))
    requires At(w, s).attempt == Some(Probing(u.token, Offers(u, s))) && probe.data == MatchProbe(u.token)
    ensures Reaches(u, more, w') && Early(At(w', s)) && At(w', Other(s)) == At(w, Other(s))
    ensures At(w', s).attempt == Some(Probing(u.token, Offers(u, s)).(ackedPeer := true))
    ensures Packet(s, from, Ack(u.token)) in w'.sent && forall x :: x in w.sent ==> x in w'.sent
  {
    hide Reaches, MatchProbe, Ack, PlainProbe, Honest;
    more, w' := PollMore(u, events, w, s, Some(Delivered(probe, from)));
    hide Poll;
    ProbeIsAnswered(u.token, Offers(u, s), from);
    assert Forward(from, Ack(u.token)) in [Forward(from, Ack(u.token))];
  }

  lemma ProveMore(u: Setup, events: seq<Event>, w: World, s: Side, ack: Packet, from: Endpoint)
    returns (more: seq<Event>, w': World)
    requires Reaches(u, events, w) && Early(At(w, s)) && Honest(u, w, s, Delivered(ack, from)) && from in Offers(u, s)
    requires At(w, s).attempt == Some(Probing(u.token, Offers(u, s)).(ackedPeer := true)) && ack.data == Ack(u.token)
    ensures Succeeded(u, more, w', s) && At(w', Other(s)) == At(w, Other(s))
    ensures forall x :: x in w.sent ==> x in w'.sent
  {
    hide Reaches, MatchProbe, Ack, PlainProbe, Honest;
    more, w' := PollMore(u, events, w, s, Some(Delivered(ack, from)));
    hide Poll;
    AckProves(u, s, At(w, s).attempt.value, from);
  }

  /** With an address that leads back home the punch can succeed all alone. */
  lemma SucceedAlone(u: Setup, s: Side) returns (events: seq<Event>, w: World)
    requires SelfLoop(u, s)
    ensures Succeeded(u, events, w, s) && ProbedAll(u, w, s) && At(w, Other(s)) == QUIET_NODE
    ensures exists c :: Packet(s, c, Ack(u.token)) in w.sent && u.route(s, c) == Some(s)
  {
    var c :| c in Offers(u, s) && u.route(s, c) == Some(s);
    hide MatchProbe, Ack, Reaches, Early, Probing;
    events, w := BeginMore(u, [], BEGIN, s) by { assert Reaches(u, [], BEGIN); }
    events, w := FirstRoundMore(u, events, w, s);
    events, w := AnswerMore(u, events, w, s, Packet(s, c, MatchProbe(u.token)), c);
    events, w := ProveMore(u, events, w, s, Packet(s, c, Ack(u.token)), c);
  }

  /** With addresses that lead to one another two punches can succeed. */
  lemma SucceedTogether(u: Setup, s: Side) returns (events: seq<Event>, w: World)
    requires Leads(u, s, Other(s)) && Leads(u, Other(s), s)
    ensures Succeeded(u, events, w, s) && ProbedAll(u, w, s)
  {
    var o := Other(s);
    var c :| c in Offers(u, s) && u.route(s, c) == Some(o);
    var d :| d in Offers(u, o) && u.route(o, d) == Some(s);
    hide MatchProbe, Ack, Reaches, Early, Probing;
    events, w := BeginMore(u, [], BEGIN, s) by { assert Reaches(u, [], BEGIN); }
    events, w := BeginMore(u, events, w, o);
    events, w := FirstRoundMore(u, events, w, s);
    events, w := FirstRoundMore(u, events, w, o);
    events, w := AnswerMore(u, events, w, o, Packet(s, c, MatchProbe(u.token)), d);
    events, w := AnswerMore(u, events, w, s, Packet(o, d, MatchProbe(u.token)), c);
    events, w := ProveMore(u, events, w, s, Packet(o, d, Ack(u.token)), c);
  }

  /** An ack delivered once more, from elsewhere, moves a success there. */
  lemma AckAgain(u: Setup, events: seq<Event>, w: World, s: Side, ack: Packet, from: Endpoint)
    returns (more: seq<Event>, w': World)
    requires Succeeded(u, events, w, s) && Honest(u, w, s, Delivered(ack, from)) && ack.data == Ack(u.token)
    ensures Reaches(u, more, w') && ProvenAtMatchStart(w', s) && At(w', s).attempt.value.chosen == Some(from)
  {
    hide Reaches, MatchProbe, Ack, PlainProbe, Honest;
    more, w' := PollMore(u, events, w, s, Some(Delivered(ack, from)));
    hide Poll;
    LaterAckMoves(u, s, At(w, s).attempt.value, from);
  }

  /** The other side answers to any address that leads back. */
  lemma PeerAnswers(u: Setup, events: seq<Event>, w: World, s: Side, back: Endpoint)
    returns (more: seq<Event>, w': World)
    requires Succeeded(u, events, w, s) && ProbedAll(u, w, s)
    requires Leads(u, s, Other(s)) && u.route(Other(s), back) == Some(s)
    ensures Succeeded(u, more, w', s) && Packet(Other(s), back, Ack(u.token)) in w'.sent
  {
    var o := Other(s);
    var c :| c in Offers(u, s) && u.route(s, c) == Some(o);
    hide MatchProbe, Ack, Reaches, Early, Probing, JustProven;
    more, w' := BeginMore(u, events, w, o);
    more, w' := FirstRoundMore(u, more, w', o);
    more, w' := AnswerMore(u, more, w', o, Packet(s, c, MatchProbe(u.token)), back);
  }

  // ---------------------------------------------------- what a success tells

  /** With an address that leads back to this side a success can be one-sided. */
  lemma SelfLoopFoolsThePunch(u: Setup, s: Side) returns (events: seq<Event>, w: World)
    requires SelfLoop(u, s)
    ensures Reaches(u, events, w) && ProvenAtMatchStart(w, s) && !PeerIsThere(w, s)
  {
    hide Reaches, SelfLoop;
    events, w := SucceedAlone(u, s);
  }

  /** Exactly when a match-start success is worth anything: no address on offer may
      lead back home. */
  lemma MutualIffNoSelfLoop(u: Setup, s: Side)
    ensures (forall events: seq<Event>, w: World ::
               Reaches(u, events, w) && ProvenAtMatchStart(w, s) ==> PeerIsThere(w, s))
      <==> !SelfLoop(u, s)
  {
    hide Reaches;
    if SelfLoop(u, s) {
      var events, w := SelfLoopFoolsThePunch(u, s);
    } else {
      forall events: seq<Event>, w: World | Reaches(u, events, w) && ProvenAtMatchStart(w, s)
        ensures PeerIsThere(w, s)
      {
        ProvenMeansPeerIsThere(u, events, w, s);
      }
    }
  }

  /** The two sides can hear one another well enough for a match-start success whose
      acks come from the other side. */
  ghost predicate Connected(u: Setup, s: Side) {
    Leads(u, s, Other(s)) && Returns(u, Other(s), s) && (SelfLoop(u, s) || Leads(u, Other(s), s))
  }

  /** An address on no offered host leads to a machine that can ack our probes. */
  ghost predicate StrayReturn(u: Setup, s: Side) {
    exists e: Endpoint :: !Offered(Offers(u, s), e.ip) && StrayFrom(u, s, u.route(s, e))
  }

  ghost predicate StrayFrom(u: Setup, s: Side, there: Option<Side>) {
    (there == Some(s) && SelfLoop(u, s)) || (there == Some(Other(s)) && Connected(u, s))
  }

  /** The endpoint a punch has settled on lies on a host the peer offered. */
  ghost predicate EndsOnOffered(u: Setup, w: World, s: Side) {
    && At(w, s).attempt.Some? && At(w, s).attempt.value.chosen.Some?
    && Offered(Offers(u, s), At(w, s).attempt.value.chosen.value.ip)
  }

  lemma SuccessHasOrigin(u: Setup, events: seq<Event>, w: World, s: Side)
    requires Reaches(u, events, w) && ProvenAtMatchStart(w, s)
    ensures At(w, s).attempt.value.chosen.Some? && StrayFrom(u, s, u.route(s, At(w, s).attempt.value.chosen.value))
  {
    ReachableIsSound(u, events, w);
    assert NodeOk(u, w, A) && NodeOk(u, w, B);
    hide Reaches, Sound, Leads, Returns;
    var there := u.route(s, At(w, s).attempt.value.chosen.value);
    assert Leads(u, s, s) == SelfLoop(u, s);
    assert s in At(w, there.value).heard && Leads(u, s, there.value);
  }

  lemma StrayReturnMisleads(u: Setup, s: Side) returns (events: seq<Event>, w: World)
    requires StrayReturn(u, s)
    ensures Reaches(u, events, w) && ProvenAtMatchStart(w, s) && !EndsOnOffered(u, w, s)
  {
    var e: Endpoint :| !Offered(Offers(u, s), e.ip) && StrayFrom(u, s, u.route(s, e));
    hide Reaches, Leads, Ack, Offered, JustProven;
    var ack: Packet;
    if u.route(s, e) == Some(s) && SelfLoop(u, s) {
      events, w := SucceedAlone(u, s);
      var c :| Packet(s, c, Ack(u.token)) in w.sent && u.route(s, c) == Some(s);
      ack := Packet(s, c, Ack(u.token));
    } else {
      if SelfLoop(u, s) { events, w := SucceedAlone(u, s); } else { events, w := SucceedTogether(u, s); }
      var back :| u.route(Other(s), back) == Some(s);
      events, w := PeerAnswers(u, events, w, s, back);
      ack := Packet(Other(s), back, Ack(u.token));
    }
    events, w := AckAgain(u, events, w, s, ack, e);
  }

  /** Exactly when every match-start success ends on an offered host: no other address
      may lead to a machine that can ack our probes. */
  lemma EndsOnOfferedIffNoStrayReturn(u: Setup, s: Side)
    ensures (forall events: seq<Event>, w: World ::
               Reaches(u, events, w) && ProvenAtMatchStart(w, s) ==> EndsOnOffered(u, w, s))
      <==> !StrayReturn(u, s)
  {
    hide Reaches, StrayFrom;
    if StrayReturn(u, s) {
      var events, w := StrayReturnMisleads(u, s);
    } else {
      forall events: seq<Event>, w: World | Reaches(u, events, w) && ProvenAtMatchStart(w, s)
        ensures EndsOnOffered(u, w, s)
      {
        SuccessHasOrigin(u, events, w, s);
      }
    }
  }

  /** All a match-start success is taken to mean, and exactly when it does. */
  lemma SuccessMeansAllIff(u: Setup, s: Side)
    ensures (forall events: seq<Event>, w: World :: Reaches(u, events, w) && ProvenAtMatchStart(w, s)
              ==> PeerIsThere(w, s) && EndsOnOffered(u, w, s))
      <==> !SelfLoop(u, s) && !StrayReturn(u, s)
  {
    hide Reaches, StrayReturn, SelfLoop, PeerIsThere, EndsOnOffered, ProvenAtMatchStart;
    MutualIffNoSelfLoop(u, s);
    EndsOnOfferedIffNoStrayReturn(u, s);
  }
}
