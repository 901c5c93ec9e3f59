/** The hole punch: probing every address the peer offered until both directions
    are proven. */
module HolePunch {
  import opened Relay

  const PUNCH_MAGIC := "SF4EPUNCH1"
  const RESEND_MS := 50
  const SETTLE_MS := 150
  const LOBBY_SETTLE_MS := 1200

  function PlainProbe(token: string): string { PUNCH_MAGIC + token }
  function MatchProbe(token: string): string { PUNCH_MAGIC + "M" + token }
  function Ack(token: string): string { PUNCH_MAGIC + "A" + token }

  /** The three kinds of datagram cannot be mistaken for one another. */
  lemma KindsDiffer(token: string)
    ensures PlainProbe(token) != MatchProbe(token) && PlainProbe(token) != Ack(token) && MatchProbe(token) != Ack(token)
  {
    assert |PlainProbe(token)| == 10 + |token| && |MatchProbe(token)| == |Ack(token)| == 11 + |token|;
    assert MatchProbe(token)[10] == 'M' && Ack(token)[10] == 'A';
  }

  // 32-bit tick counts: they wrap, and are compared by signed difference.

  function Later(now: nat, ms: nat): nat { (now + ms) % 0x1_0000_0000 }
  function Since(now: nat, mark: nat): int {
    var d := (now - mark) % 0x1_0000_0000;
    if d >= 0x8000_0000 then d - 0x1_0000_0000 else d
  }
  predicate Before(now: nat, mark: nat) { Since(now, mark) < 0 }

  /** One turn of the loop reads the clock again and again: for the deadline, for the
      settle time, for whether probes are due, for the next round, for the mark the round
      trip is measured from, when something is heard, and when the path is proven. */
  datatype Clock = Clock(limit: nat, pause: nat, due: nat, resend: nat, probed: nat, heard: nat, proven: nat)

  /** All of them within one tick. */
  function Instant(now: nat): Clock { Clock(now, now, now, now, now, now, now) }

  datatype Option<T> = None | Some(value: T)

  /** One call's variables: `settle` is 0 until the path is proven. */
  datatype Attempt = Attempt(
    matchStart: bool, token: string, candidates: seq<Endpoint>,
    gotAck: bool, ackedPeer: bool, which: bool, chosen: Option<Endpoint>,
    settle: nat, nextSend: nat, lastProbeAt: nat, rtt: int)

  function NewAttempt(matchStart: bool, token: string, candidates: seq<Endpoint>): Attempt {
    Attempt(matchStart, token, candidates, false, false, false, None, 0, 0, 0, -1)
  }

  predicate Offered(candidates: seq<Endpoint>, host: nat) { exists c :: c in candidates && c.ip == host }

  predicate Proven(a: Attempt) { a.gotAck && (a.ackedPeer || !a.matchStart) }

  function OwnProbe(a: Attempt): string { if a.matchStart then MatchProbe(a.token) else PlainProbe(a.token) }

  function ToAll(to: seq<Endpoint>, data: string): seq<Send> {
    seq(|to|, i requires 0 <= i < |to| => Forward(to[i], data))
  }

  /** A round of probes when one is due. */
  function Probe(a: Attempt, now: Clock): (Attempt, seq<Send>) {
    if Before(now.due, a.nextSend) then (a, [])
    else (a.(nextSend := Later(now.resend, RESEND_MS), lastProbeAt := now.probed), ToAll(a.candidates, OwnProbe(a)))
  }

  function Settled(a: Attempt, now: nat): Attempt {
    if a.settle == 0 && Proven(a)
    then a.(settle := Later(now, if a.ackedPeer then SETTLE_MS else LOBBY_SETTLE_MS)) else a
  }

  /** A datagram arrives. */
  function Hear(a: Attempt, from: Endpoint, data: string, now: Clock): (r: (Attempt, seq<Send>))
    ensures r.0.candidates == a.candidates && r.0.token == a.token && r.0.matchStart == a.matchStart
  {
    if data == PlainProbe(a.token) || data == MatchProbe(a.token) then
      var a' :=
        if data == MatchProbe(a.token) || !a.matchStart then
          a.(settle := if !a.ackedPeer && a.settle != 0 then Later(now.heard, SETTLE_MS) else a.settle,
             ackedPeer := true)
        else a;
      (Settled(a', now.proven), [Forward(from, Ack(a.token))])
    else if data == Ack(a.token) then
      var which := a.which || Offered(a.candidates, from.ip);
      if !which then (a, [])
      else
        var rtt := if a.gotAck then a.rtt else Since(now.heard, a.lastProbeAt);
        (Settled(a.(which := true, chosen := Some(from), rtt := rtt, gotAck := true), now.proven), [])
    else (a, [])
  }

  datatype Read = Quiet | Failed | Got(from: Endpoint, data: string)

  /** One turn of the polling loop: the clock's readings, and what the socket gives. */
  datatype Tick = Tick(now: Clock, read: Read)

  function Poll(a: Attempt, t: Tick): (r: (Attempt, seq<Send>))
    ensures r.0.candidates == a.candidates && r.0.token == a.token && r.0.matchStart == a.matchStart
  {
    var p := Probe(a, t.now);
    if t.read.Got? then
      var h := Hear(p.0, t.read.from, t.read.data, t.now);
      (h.0, p.1 + h.1)
    else p
  }

  datatype Ending = Ending(attempt: Attempt, sends: seq<Send>, failed: bool)

  /** The loop ends before its next turn. */
  predicate Over(a: Attempt, ticks: seq<Tick>, deadline: nat) {
    ticks == [] || !Before(ticks[0].now.limit, deadline) || (a.settle != 0 && !Before(ticks[0].now.pause, a.settle))
  }

  /** The loop from here on, until the deadline, the settle time or a dead socket. */
  function Looped(a: Attempt, ticks: seq<Tick>, deadline: nat): Ending
    decreases |ticks|
  {
    if Over(a, ticks, deadline) then Ending(a, [], false)
    else
      var p := Poll(a, ticks[0]);
      if ticks[0].read.Failed? then Ending(p.0, p.1, true)
      else
        var rest := Looped(p.0, ticks[1..], deadline);
        Ending(rest.attempt, p.1 + rest.sends, rest.failed)
  }

  /** The addresses worth probing: given, with a port, and well formed. `parse` gives
      the address a text stands for, or -1. */
  function Usable(parse: string -> int, ips: seq<string>, ports: seq<nat>): (cs: seq<Endpoint>)
    requires |ips| == |ports|
  {
    if ips == [] then []
    else
      var n := |ips| - 1;
      Usable(parse, ips[..n], ports[..n])
        + if ips[n] == "" || ports[n] == 0 || parse(ips[n]) < 0 then [] else [Endpoint(parse(ips[n]), ports[n])]
  }

  /** Worth probing: given, with a port, and well formed. */
  predicate WorthProbing(parse: string -> int, ips: seq<string>, ports: seq<nat>, i: nat)
    requires |ips| == |ports|
  {
    i < |ips| && ips[i] != "" && ports[i] != 0 && parse(ips[i]) >= 0
  }

  /** The candidates are all the addresses worth probing and no others, in the order
      given, each at its place in `places`. */
  lemma {:induction false} UsableAre(parse: string -> int, ips: seq<string>, ports: seq<nat>) returns (places: seq<nat>)
    requires |ips| == |ports|
    ensures var cs := Usable(parse, ips, ports); |places| == |cs| && forall c :: 0 <= c < |cs| ==>
      WorthProbing(parse, ips, ports, places[c]) && cs[c] == Endpoint(parse(ips[places[c]]), ports[places[c]])
    ensures forall c, d :: 0 <= c < d < |places| ==> places[c] < places[d]
    ensures forall i: nat :: WorthProbing(parse, ips, ports, i) ==> i in places
  {
    places := [];
    if ips != [] {
      var n := |ips| - 1;
      var before := UsableAre(parse, ips[..n], ports[..n]);
      forall i: nat | i < n
        ensures WorthProbing(parse, ips, ports, i) <==> WorthProbing(parse, ips[..n], ports[..n], i) {}
      places := before + if WorthProbing(parse, ips, ports, n) then [n] else [];
    }
  }

  // ------------------------------------------------------------- the methods

  method Candidates(parse: string -> int, ips: seq<string>, ports: seq<nat>) returns (candidates: seq<Endpoint>)
    requires |ips| == |ports|
    ensures candidates == Usable(parse, ips, ports)
  {
    candidates := [];
    var i := 0;
    while i < |ips|
      invariant 0 <= i <= |ips|
      invariant candidates == Usable(parse, ips[..i], ports[..i])
    {
      assert ips[..i + 1][..i] == ips[..i] && ports[..i + 1][..i] == ports[..i];
      if ips[i] != "" && ports[i] != 0 && parse(ips[i]) >= 0 {
        candidates := candidates + [Endpoint(parse(ips[i]), ports[i])];
      }
      i := i + 1;
    }
    assert ips[..i] == ips && ports[..i] == ports;
  }

  /** One datagram: answer a probe, take note of an ack, ignore the rest. */
  method OnDatagram(a: Attempt, from: Endpoint, data: string, now: Clock) returns (r: Attempt, replies: seq<Send>)
    ensures (r, replies) == Hear(a, from, data, now)
  {
    KindsDiffer(a.token);
    hide PlainProbe, MatchProbe, Ack;
    r, replies := a, [];
    var isPlain, isMarked := data == PlainProbe(a.token), data == MatchProbe(a.token);
    if isPlain || isMarked {
      replies := [Forward(from, Ack(a.token))];
      if isMarked || !a.matchStart {
        if !r.ackedPeer && r.settle != 0 { r := r.(settle := Later(now.heard, SETTLE_MS)); }
        r := r.(ackedPeer := true);
      }
    } else if data == Ack(a.token) {
      var i := 0;
      while i < |a.candidates|
        invariant 0 <= i <= |a.candidates|
        invariant r == a.(which := a.which || exists k :: 0 <= k < i && a.candidates[k].ip == from.ip)
      {
        if from.ip == a.candidates[i].ip { r := r.(which := true); }
        i := i + 1;
      }
      assert Offered(a.candidates, from.ip) <==> exists k :: 0 <= k < i && a.candidates[k].ip == from.ip;
      if !r.which { return; }
      r := r.(chosen := Some(from));
      if !r.gotAck { r := r.(rtt := Since(now.heard, r.lastProbeAt)); }
      r := r.(gotAck := true);
    } else {
      return;
    }
    if r.settle == 0 && r.gotAck && (r.ackedPeer || !r.matchStart) {
      r := r.(settle := Later(now.proven, if r.ackedPeer then SETTLE_MS else LOBBY_SETTLE_MS));
    }
  }

  /** Sends what is due and takes what the socket has. */
  method PollOnce(a: Attempt, t: Tick) returns (r: Attempt, sends: seq<Send>)
    ensures (r, sends) == Poll(a, t)
  {
    hide Hear, OwnProbe, Later;
    r, sends := a, [];
    if !Before(t.now.due, a.nextSend) {
      sends := ToAll(a.candidates, OwnProbe(a));
      r := r.(nextSend := Later(t.now.resend, RESEND_MS), lastProbeAt := t.now.probed);
    }
    if t.read.Got? {
      var replies;
      r, replies := OnDatagram(r, t.read.from, t.read.data, t.now);
      sends := sends + replies;
    }
  }

  function Prefixed(sends: seq<Send>, e: Ending): Ending { Ending(e.attempt, sends + e.sends, e.failed) }

  lemma LoopedStep(a: Attempt, ticks: seq<Tick>, k: nat, deadline: nat, sends: seq<Send>)
    requires k < |ticks| && Before(ticks[k].now.limit, deadline)
    requires a.settle == 0 || Before(ticks[k].now.pause, a.settle)
    ensures var p := Poll(a, ticks[k]);
      Prefixed(sends, Looped(a, ticks[k..], deadline)) ==
      if ticks[k].read.Failed? then Ending(p.0, sends + p.1, true)
      else Prefixed(sends + p.1, Looped(p.0, ticks[k + 1..], deadline))
  {
    hide Poll, Before;
    var p := Poll(a, ticks[k]);
    assert ticks[k..][1..] == ticks[k + 1..];
    var rest := Looped(p.0, ticks[k + 1..], deadline).sends;
    assert sends + (p.1 + rest) == sends + p.1 + rest;
  }

  method Loop(begin: Attempt, ticks: seq<Tick>, deadline: nat) returns (end: Attempt, sends: seq<Send>, failed: bool)
    ensures Ending(end, sends, failed) == Looped(begin, ticks, deadline)
  {
    end, sends, failed := begin, [], false;
    assert ticks[0..] == ticks;
    var k := 0;
    hide Poll, Before, Looped;
    while k < |ticks| && Before(ticks[k].now.limit, deadline)
      invariant 0 <= k <= |ticks| && !failed
      invariant Prefixed(sends, Looped(end, ticks[k..], deadline)) == Looped(begin, ticks, deadline)
    {
      if end.settle != 0 && !Before(ticks[k].now.pause, end.settle) { break; }
      LoopedStep(end, ticks, k, deadline, sends);
      var more;
      end, more := PollOnce(end, ticks[k]);
      sends := sends + more;
      if ticks[k].read.Failed? { return end, sends, true; }
      k := k + 1;
    }
    LoopedEnds(end, ticks[k..], deadline);
  }

  lemma LoopedEnds(a: Attempt, ticks: seq<Tick>, deadline: nat)
    ensures Over(a, ticks, deadline) ==> Looped(a, ticks, deadline) == Ending(a, [], false)
  {}

  /** A datagram as it is heard. */
  datatype Heard = Heard(from: Endpoint, data: string, now: Clock)

  /** The keepalive answers plain probes only. */
  function KeepaliveReply(token: string, from: Endpoint, data: string): seq<Send> {
    if data == PlainProbe(token) then [Forward(from, Ack(token))] else []
  }

  function KeepaliveReplies(token: string, queue: seq<Heard>): seq<Send> {
    if queue == [] then []
    else
      var last := queue[|queue| - 1];
      KeepaliveReplies(token, queue[..|queue| - 1]) + KeepaliveReply(token, last.from, last.data)
  }

  /** A keepalive answers each plain probe once, in order, and nothing else: no probe of
      a punch at match start, no ack. */
  lemma {:induction false} KeepaliveAnswers(token: string, queue: seq<Heard>) returns (places: seq<nat>)
    ensures var r := KeepaliveReplies(token, queue); |places| == |r| && forall c :: 0 <= c < |r| ==>
      && places[c] < |queue| && queue[places[c]].data == PlainProbe(token)
      && r[c] == Forward(queue[places[c]].from, Ack(token))
    ensures forall c, d :: 0 <= c < d < |places| ==> places[c] < places[d]
    ensures forall k :: 0 <= k < |queue| ==> (k in places <==> queue[k].data == PlainProbe(token))
  {
    hide PlainProbe, Ack;
    places := [];
    if queue != [] {
      var n := |queue| - 1;
      var before := KeepaliveAnswers(token, queue[..n]);
      places := before + if queue[n].data == PlainProbe(token) then [n] else [];
    }
  }

  /** One plain probe to the peer, then at most eight datagrams of what is queued, up
      to an empty one. */
  method Keepalive(open: bool, parse: string -> int, ip: string, port: nat, token: string, queue: seq<Heard>)
    returns (taken: nat, sends: seq<Send>)
    ensures !open || port == 0 || ip == "" || parse(ip) < 0 ==> taken == 0 && sends == []
    ensures open && port != 0 && ip != "" && parse(ip) >= 0 ==>
      && taken <= 8 && taken <= |queue| && (forall k :: 0 <= k < taken ==> queue[k].data != "")
      && (taken == 8 || taken == |queue| || queue[taken].data == "")
      && sends == [Forward(Endpoint(parse(ip), port), PlainProbe(token))] + KeepaliveReplies(token, queue[..taken])
  {
    sends, taken := [], 0;
    if !open || port == 0 || ip == "" || parse(ip) < 0 { return; }
    hide PlainProbe, Ack;
    var peer := Endpoint(parse(ip), port);
    sends := [Forward(peer, PlainProbe(token))];
    while taken < 8 && taken < |queue| && queue[taken].data != ""
      invariant taken <= 8 && taken <= |queue| && forall k :: 0 <= k < taken ==> queue[k].data != ""
      invariant sends == [Forward(peer, PlainProbe(token))] + KeepaliveReplies(token, queue[..taken])
    {
      assert queue[..taken + 1][..taken] == queue[..taken];
      if queue[taken].data == PlainProbe(token) { sends := sends + [Forward(queue[taken].from, Ack(token))]; }
      taken := taken + 1;
    }
  }

  // ------------------------------------------------------- the chosen address

  function HearAll(a: Attempt, inputs: seq<Heard>): (r: Attempt)
    ensures r.candidates == a.candidates && r.token == a.token && r.matchStart == a.matchStart
  {
    if inputs == [] then a
    else
      var last := inputs[|inputs| - 1];
      Hear(HearAll(a, inputs[..|inputs| - 1]), last.from, last.data, last.now).0
  }

  /** The senders of the acks among the inputs. */
  function Ackers(inputs: seq<Heard>, token: string): seq<Endpoint> {
    if inputs == [] then []
    else
      var last := inputs[|inputs| - 1];
      Ackers(inputs[..|inputs| - 1], token) + if last.data == Ack(token) then [last.from] else []
  }

  ghost predicate AnyOffered(candidates: seq<Endpoint>, from: seq<Endpoint>) {
    exists e :: e in from && Offered(candidates, e.ip)
  }

  lemma HearNotes(a: Attempt, h: Heard)
    ensures var r := Hear(a, h.from, h.data, h.now).0;
      if h.data == Ack(a.token) && (a.which || Offered(a.candidates, h.from.ip)) then
        r.which && r.gotAck && r.chosen == Some(h.from)
      else
        r.which == a.which && r.gotAck == a.gotAck && r.chosen == a.chosen
    ensures Hear(a, h.from, h.data, h.now).0.ackedPeer == (a.ackedPeer || Counts(a.matchStart, a.token, h.data))
  {
    KindsDiffer(a.token);
    hide PlainProbe, MatchProbe, Ack, Later;
  }

  /** An attempt has its ack once one came from an offered host; but the address it
      settles on is wherever the last ack came from. */
  lemma {:induction false} ChosenIsLastAcker(matchStart: bool, token: string, candidates: seq<Endpoint>,
                                             inputs: seq<Heard>)
    ensures var a := HearAll(NewAttempt(matchStart, token, candidates), inputs); var acks := Ackers(inputs, token);
      && (a.gotAck <==> AnyOffered(candidates, acks)) && a.which == a.gotAck
      && (a.gotAck ==> acks != [] && a.chosen == Some(acks[|acks| - 1]))
  {
    if inputs != [] {
      var init, last := inputs[..|inputs| - 1], inputs[|inputs| - 1];
      ChosenIsLastAcker(matchStart, token, candidates, init);
      HearNotes(HearAll(NewAttempt(matchStart, token, candidates), init), last);
      var acks := Ackers(init, token);
      hide Hear, Offered, Ack;
      if last.data == Ack(token) {
        assert last.from in acks + [last.from];
        assert forall e :: e in acks + [last.from] <==> e in acks || e == last.from;
      }
    }
  }

  /** A datagram that counts as word from the peer: at match start a marked probe only. */
  predicate Counts(matchStart: bool, token: string, data: string) {
    data == MatchProbe(token) || (!matchStart && data == PlainProbe(token))
  }

  ghost predicate AnyCounts(matchStart: bool, token: string, inputs: seq<Heard>) {
    exists h :: h in inputs && Counts(matchStart, token, h.data)
  }

  lemma {:induction false} AckedPeerIff(matchStart: bool, token: string, candidates: seq<Endpoint>, inputs: seq<Heard>)
    ensures HearAll(NewAttempt(matchStart, token, candidates), inputs).ackedPeer
      <==> AnyCounts(matchStart, token, inputs)
  {
    if inputs != [] {
      var init, last := inputs[..|inputs| - 1], inputs[|inputs| - 1];
      AckedPeerIff(matchStart, token, candidates, init);
      HearNotes(HearAll(NewAttempt(matchStart, token, candidates), init), last);
      hide Hear, Counts;
      assert forall h :: h in inputs <==> h in init || h == last;
    }
  }

  // ------------------------------------------------- what a call goes on

  function Taken(t: Tick): seq<Heard> {
    if t.read.Got? then [Heard(t.read.from, t.read.data, t.now)] else []
  }

  /** The datagrams the loop takes before it ends. */
  function Consumed(a: Attempt, ticks: seq<Tick>, deadline: nat): seq<Heard>
    decreases |ticks|
  {
    if Over(a, ticks, deadline) then []
    else Taken(ticks[0]) + if ticks[0].read.Failed? then [] else Consumed(Poll(a, ticks[0]).0, ticks[1..], deadline)
  }

  /** Equal but for the probe timer and the round trip time. */
  predicate SameProof(a: Attempt, b: Attempt) {
    a.(nextSend := b.nextSend, lastProbeAt := b.lastProbeAt, rtt := b.rtt) == b
  }

  lemma HearSame(a: Attempt, b: Attempt, h: Heard)
    requires SameProof(a, b)
    ensures SameProof(Hear(a, h.from, h.data, h.now).0, Hear(b, h.from, h.data, h.now).0)
  {
    hide PlainProbe, MatchProbe, Ack, Later, Before;
  }

  lemma PollSame(begin: Attempt, past: seq<Heard>, a: Attempt, t: Tick)
    requires SameProof(a, HearAll(begin, past))
    ensures SameProof(Poll(a, t).0, HearAll(begin, past + Taken(t)))
  {
    var p := Probe(a, t.now).0;
    assert SameProof(p, HearAll(begin, past));
    hide Hear, Probe, SameProof;
    if t.read.Got? {
      HearSame(p, HearAll(begin, past), Taken(t)[0]);
      assert (past + Taken(t))[..|past|] == past;
    } else {
      assert past + Taken(t) == past;
    }
  }

  /** Probing and waiting decide nothing: what an attempt has proven is what it heard. */
  lemma {:induction false} LoopedHears(begin: Attempt, past: seq<Heard>, a: Attempt, ticks: seq<Tick>, deadline: nat)
    requires SameProof(a, HearAll(begin, past))
    ensures SameProof(Looped(a, ticks, deadline).attempt, HearAll(begin, past + Consumed(a, ticks, deadline)))
    decreases |ticks|
  {
    hide SameProof, HearAll, Poll, Over, Taken;
    if Over(a, ticks, deadline) {
      assert past + Consumed(a, ticks, deadline) == past;
    } else {
      assert ticks != [] by { OverEmpty(a, ticks, deadline); }
      PollSame(begin, past, a, ticks[0]);
      if ticks[0].read.Failed? {
        assert Taken(ticks[0]) + [] == Taken(ticks[0]);
      } else {
        var next := Poll(a, ticks[0]).0;
        LoopedHears(begin, past + Taken(ticks[0]), next, ticks[1..], deadline);
        assert past + Consumed(a, ticks, deadline) == past + Taken(ticks[0]) + Consumed(next, ticks[1..], deadline);
      }
    }
  }

  lemma OverEmpty(a: Attempt, ticks: seq<Tick>, deadline: nat)
    ensures ticks == [] ==> Over(a, ticks, deadline)
  {}

  lemma SameProven(a: Attempt, b: Attempt)
    ensures SameProof(a, b) ==> Proven(a) == Proven(b) && a.chosen == b.chosen
  {}

  /** What the call has to go on: the addresses worth probing and the datagrams it takes. */
  function Evidence(candidates: seq<Endpoint>, token: string, matchStart: bool, ticks: seq<Tick>,
                    deadline: nat): seq<Heard> {
    Consumed(NewAttempt(matchStart, token, candidates), ticks, deadline)
  }

  /** Some ack came from an offered host and, at match start, some marked probe came. */
  ghost predicate Convincing(candidates: seq<Endpoint>, token: string, matchStart: bool, took: seq<Heard>) {
    AnyOffered(candidates, Ackers(took, token)) && (matchStart ==> AnyCounts(true, token, took))
  }

  lemma HeardProves(matchStart: bool, token: string, candidates: seq<Endpoint>, inputs: seq<Heard>)
    ensures var a := HearAll(NewAttempt(matchStart, token, candidates), inputs); var acks := Ackers(inputs, token);
      && (Proven(a) <==> Convincing(candidates, token, matchStart, inputs))
      && (Proven(a) ==> acks != [] && a.chosen == Some(acks[|acks| - 1]))
  {
    ChosenIsLastAcker(matchStart, token, candidates, inputs);
    AckedPeerIff(matchStart, token, candidates, inputs);
    hide HearAll, Ackers, AnyOffered, AnyCounts;
  }

  /** What a call ends with, told by the datagrams alone: the path is proven exactly
      when they are convincing, and the endpoint is the last acker. */
  lemma ProvenIff(matchStart: bool, token: string, candidates: seq<Endpoint>, ticks: seq<Tick>, deadline: nat)
    ensures var end := Looped(NewAttempt(matchStart, token, candidates), ticks, deadline).attempt;
      var took := Evidence(candidates, token, matchStart, ticks, deadline); var acks := Ackers(took, token);
      && (Proven(end) <==> Convincing(candidates, token, matchStart, took))
      && (Proven(end) ==> acks != [] && end.chosen == Some(acks[|acks| - 1]))
  {
    var a := NewAttempt(matchStart, token, candidates);
    assert HearAll(a, []) == a && SameProof(a, a);
    var took := Evidence(candidates, token, matchStart, ticks, deadline);
    hide Looped, Consumed, HearAll, Ackers, SameProof, Convincing, Proven, NewAttempt;
    assert [] + took == took;
    LoopedHears(a, [], a, ticks, deadline);
    SameProven(Looped(a, ticks, deadline).attempt, HearAll(a, took));
    HeardProves(matchStart, token, candidates, took);
  }

  // ------------------------------------------------------ which host it ends on

  /** Everything read comes from addresses of this kind. */
  ghost predicate ReadFrom(ticks: seq<Tick>, source: Endpoint -> bool) {
    forall t :: t in ticks && t.read.Got? ==> source(t.read.from)
  }

  /** The turns last past the deadline. */
  ghost predicate Lasting(ticks: seq<Tick>, deadline: nat) {
    exists k :: 0 <= k < |ticks| && !Before(ticks[k].now.limit, deadline)
  }

  lemma {:induction false} ConsumedFrom(a: Attempt, ticks: seq<Tick>, deadline: nat, source: Endpoint -> bool)
    requires ReadFrom(ticks, source)
    ensures forall h :: h in Consumed(a, ticks, deadline) ==> source(h.from)
    decreases |ticks|
  {
    if !Over(a, ticks, deadline) && !ticks[0].read.Failed? {
      hide Poll, Before;
      ConsumedFrom(Poll(a, ticks[0]).0, ticks[1..], deadline, source);
    }
  }

  lemma {:induction false} AckersFrom(inputs: seq<Heard>, token: string, source: Endpoint -> bool)
    requires forall h :: h in inputs ==> source(h.from)
    ensures forall e :: e in Ackers(inputs, token) ==> source(e)
  {
    if inputs != [] {
      hide Ack;
      AckersFrom(inputs[..|inputs| - 1], token, source);
    }
  }

  /** Within one instant: a marked probe and an ack from one address, an ack from
      another; then the deadline. */
  function RedirectTicks(token: string, good: Endpoint, stray: Endpoint, deadline: nat): seq<Tick> {
    var now := Instant(Later(deadline, 0xffff_ffff));
    [Tick(now, Got(good, MatchProbe(token))), Tick(now, Got(good, Ack(token))), Tick(now, Got(stray, Ack(token))),
     Tick(Instant(deadline), Quiet)]
  }

  lemma JustBefore(deadline: nat)
    ensures var now := Later(deadline, 0xffff_ffff);
      Before(now, deadline) && Before(now, Later(now, SETTLE_MS)) && !Before(deadline, deadline)
  {
    var now := Later(deadline, 0xffff_ffff);
    var k := (deadline + 0xffff_ffff) / 0x1_0000_0000;
    assert now - deadline == 0xffff_ffff - k * 0x1_0000_0000;
    SameModulo(0xffff_ffff, -k);
    var j := (now + SETTLE_MS) / 0x1_0000_0000;
    assert now - Later(now, SETTLE_MS) == j * 0x1_0000_0000 - SETTLE_MS;
    SameModulo(-SETTLE_MS, j);
    assert (-SETTLE_MS) % 0x1_0000_0000 == 0x1_0000_0000 - SETTLE_MS;
  }

  lemma SameModulo(x: int, k: int)
    ensures (x + k * 0x1_0000_0000) % 0x1_0000_0000 == x % 0x1_0000_0000
  {}

  /** Once a first ack from an offered host is in, an ack from anywhere else moves the
      endpoint there, with everything proven, at match start as in the lobby. */
  lemma LateAckRedirects(matchStart: bool, token: string, candidates: seq<Endpoint>, good: Endpoint, stray: Endpoint,
                         deadline: nat)
    requires Offered(candidates, good.ip)
    ensures var a, ticks := NewAttempt(matchStart, token, candidates), RedirectTicks(token, good, stray, deadline);
      var end := Looped(a, ticks, deadline).attempt;
      Proven(end) && end.chosen == Some(stray)
  {
    var a, ticks := NewAttempt(matchStart, token, candidates), RedirectTicks(token, good, stray, deadline);
    RedirectConsumed(a, good, stray, deadline);
    ProvenIff(matchStart, token, candidates, ticks, deadline);
    RedirectConvinces(matchStart, token, candidates, good, stray, Instant(Later(deadline, 0xffff_ffff)));
    hide Looped, Consumed, RedirectTicks, Convincing, Ackers, Proven, NewAttempt;
  }

  function RedirectHeard(token: string, good: Endpoint, stray: Endpoint, now: Clock): seq<Heard> {
    [Heard(good, MatchProbe(token), now), Heard(good, Ack(token), now), Heard(stray, Ack(token), now)]
  }

  lemma RedirectConvinces(matchStart: bool, token: string, candidates: seq<Endpoint>, good: Endpoint, stray: Endpoint,
                          now: Clock)
    requires Offered(candidates, good.ip)
    ensures Ackers(RedirectHeard(token, good, stray, now), token) == [good, stray]
    ensures Convincing(candidates, token, matchStart, RedirectHeard(token, good, stray, now))
  {
    var took := RedirectHeard(token, good, stray, now);
    KindsDiffer(token);
    hide MatchProbe, Ack, Offered;
    assert took[..2][..1] == took[..1] && took[..1][..0] == [];
    assert Ackers(took[..1], token) == [];
    assert Ackers(took[..2], token) == [good];
    assert good in [good, stray] && took[0] in took && Counts(true, token, took[0].data);
  }

  /** The settle time is not set, or set in this very instant. */
  predicate Fresh(a: Attempt, now: nat) { a.settle == 0 || a.settle == Later(now, SETTLE_MS) }

  /** Within the instant a marked probe, or an ack after one, leaves it so. */
  lemma PollStaysFresh(a: Attempt, from: Endpoint, data: string, now: nat)
    requires Fresh(a, now) && (data == MatchProbe(a.token) || (data == Ack(a.token) && a.ackedPeer))
    ensures var r := Poll(a, Tick(Instant(now), Got(from, data))).0; Fresh(r, now) && r.ackedPeer
  {
    KindsDiffer(a.token);
    hide PlainProbe, MatchProbe, Ack, Before, Later;
  }

  lemma ConsumedStep(a: Attempt, ticks: seq<Tick>, deadline: nat)
    requires ticks != [] && Fresh(a, Later(deadline, 0xffff_ffff))
    ensures ticks[0].read.Got? && ticks[0].now == Instant(Later(deadline, 0xffff_ffff)) ==>
      Consumed(a, ticks, deadline) == Taken(ticks[0]) + Consumed(Poll(a, ticks[0]).0, ticks[1..], deadline)
    ensures ticks[0].now == Instant(deadline) ==> Consumed(a, ticks, deadline) == []
  {
    JustBefore(deadline);
    hide Poll, Before, Later;
  }

  lemma RedirectConsumed(a: Attempt, good: Endpoint, stray: Endpoint, deadline: nat)
    requires a == NewAttempt(a.matchStart, a.token, a.candidates)
    ensures Consumed(a, RedirectTicks(a.token, good, stray, deadline), deadline)
      == RedirectHeard(a.token, good, stray, Instant(Later(deadline, 0xffff_ffff)))
  {
    hide Poll, Before, Later, MatchProbe, Ack, Consumed;
    var ticks, now := RedirectTicks(a.token, good, stray, deadline), Later(deadline, 0xffff_ffff);
    var b := Poll(a, ticks[0]).0;
    var c := Poll(b, ticks[1]).0;
    var d := Poll(c, ticks[2]).0;
    PollStaysFresh(a, good, MatchProbe(a.token), now);
    PollStaysFresh(b, good, Ack(a.token), now);
    PollStaysFresh(c, stray, Ack(a.token), now);
    assert ticks[2..][1..] == ticks[3..] && ticks[1..][1..] == ticks[2..];
    ConsumedStep(a, ticks, deadline);
    ConsumedStep(b, ticks[1..], deadline);
    ConsumedStep(c, ticks[2..], deadline);
    ConsumedStep(d, ticks[3..], deadline);
  }

  /** Two addresses that reach us, one on an offered host and one not. */
  ghost predicate MixedSources(candidates: seq<Endpoint>, source: Endpoint -> bool) {
    exists good: Endpoint, stray: Endpoint ::
      source(good) && Offered(candidates, good.ip) && source(stray) && !Offered(candidates, stray.ip)
  }

  /** The call's success ends on an offered host. */
  ghost predicate EndsOnOffered(candidates: seq<Endpoint>, end: Attempt) {
    Proven(end) ==> end.chosen.Some? && Offered(candidates, end.chosen.value.ip)
  }

  lemma SameKindEndsOnOffered(matchStart: bool, token: string, candidates: seq<Endpoint>, ticks: seq<Tick>,
                              deadline: nat, source: Endpoint -> bool)
    requires ReadFrom(ticks, source) && !MixedSources(candidates, source)
    ensures EndsOnOffered(candidates, Looped(NewAttempt(matchStart, token, candidates), ticks, deadline).attempt)
  {
    var a := NewAttempt(matchStart, token, candidates);
    var took := Evidence(candidates, token, matchStart, ticks, deadline);
    ProvenIff(matchStart, token, candidates, ticks, deadline);
    ConsumedFrom(a, ticks, deadline, source);
    AckersFrom(took, token, source);
    hide Looped, Consumed, Ackers, Offered, NewAttempt, Proven, ReadFrom;
  }

  /** Given the addresses from which datagrams can reach us, every successful call ends
      on an offered host exactly when these are not of both kinds. */
  lemma ChosenOfferedIff(matchStart: bool, token: string, candidates: seq<Endpoint>, deadline: nat,
                         source: Endpoint -> bool)
    ensures (forall ticks: seq<Tick> :: Lasting(ticks, deadline) && ReadFrom(ticks, source) ==>
              EndsOnOffered(candidates, Looped(NewAttempt(matchStart, token, candidates), ticks, deadline).attempt))
      <==> !MixedSources(candidates, source)
  {
    if MixedSources(candidates, source) {
      var good: Endpoint, stray: Endpoint :|
        source(good) && Offered(candidates, good.ip) && source(stray) && !Offered(candidates, stray.ip);
      var ticks := RedirectTicks(token, good, stray, deadline);
      LateAckRedirects(matchStart, token, candidates, good, stray, deadline);
      JustBefore(deadline);
      hide Looped, Proven, Offered, Before;
      assert Lasting(ticks, deadline) by { assert !Before(ticks[3].now.limit, deadline); }
      assert ReadFrom(ticks, source);
    } else {
      hide Looped, NewAttempt, EndsOnOffered, MixedSources, Lasting;
      forall ticks: seq<Tick> | Lasting(ticks, deadline) && ReadFrom(ticks, source)
        ensures EndsOnOffered(candidates, Looped(NewAttempt(matchStart, token, candidates), ticks, deadline).attempt)
      {
        SameKindEndsOnOffered(matchStart, token, candidates, ticks, deadline, source);
      }
    }
  }

  // ---------------------------------------------------------- the whole call

  function Outcome(open: bool, candidates: seq<Endpoint>, token: string, matchStart: bool, ticks: seq<Tick>,
                   deadline: nat): Ending {
    if !open || candidates == [] then Ending(NewAttempt(matchStart, token, []), [], true)
    else Looped(NewAttempt(matchStart, token, candidates), ticks, deadline)
  }

  /** The whole call over the turns its loop takes; they last past the deadline. It
      fails without an open socket or an address worth probing, or when the socket dies. */
  method Punch(open: bool, parse: string -> int, ips: seq<string>, ports: seq<nat>, token: string, start: nat,
               timeoutMs: nat, matchStart: bool, ticks: seq<Tick>)
    returns (proven: bool, end: Attempt, sends: seq<Send>, failed: bool)
    requires |ips| == |ports|
    requires Lasting(ticks, Later(start, timeoutMs))
    ensures Ending(end, sends, failed)
      == Outcome(open, Usable(parse, ips, ports), token, matchStart, ticks, Later(start, timeoutMs))
    ensures !open || (forall i: nat :: !WorthProbing(parse, ips, ports, i)) ==> failed && !proven && sends == []
    ensures proven == (!failed && Convincing(Usable(parse, ips, ports), token, matchStart,
      Evidence(Usable(parse, ips, ports), token, matchStart, ticks, Later(start, timeoutMs))))
  {
    if !open { return false, NewAttempt(matchStart, token, []), [], true; }
    var candidates := Candidates(parse, ips, ports);
    ghost var places := UsableAre(parse, ips, ports);
    if candidates == [] { return false, NewAttempt(matchStart, token, []), [], true; }
    assert WorthProbing(parse, ips, ports, places[0]);
    end, sends, failed := Loop(NewAttempt(matchStart, token, candidates), ticks, Later(start, timeoutMs));
    proven := !failed && Proven(end);
    ProvenIff(matchStart, token, candidates, ticks, Later(start, timeoutMs));
  }

  // ------------------------------------------------------------------ timing

  /** When the path is first proven the loop has 150 ms left, 1200 in the lobby while the
      peer has not been heard; once he is, 150 from then. The round trip is measured by the
      first ack. */
  lemma HearTimes(a: Attempt, from: Endpoint, data: string, now: Clock)
    requires (now.heard + 150) % 0x1_0000_0000 != 0
    ensures var r := Hear(a, from, data, now).0;
      && (a.settle == 0 && !Proven(a) && Proven(r) ==>
            r.settle == (now.proven + if r.ackedPeer then 150 else 1200) % 0x1_0000_0000)
      && (a.settle == 0 && !Proven(r) ==> r.settle == 0)
      && (a.settle != 0 ==>
            r.settle == if r.ackedPeer && !a.ackedPeer then (now.heard + 150) % 0x1_0000_0000 else a.settle)
      && r.rtt == (if r.gotAck && !a.gotAck then Since(now.heard, a.lastProbeAt) else a.rtt)
  {
    KindsDiffer(a.token);
    hide PlainProbe, MatchProbe, Ack, Offered, Since;
  }

  /** A turn of the loop probes every candidate exactly if the last round was 50 ms ago, and
      besides only answers what it took. */
  lemma PollProbes(a: Attempt, t: Tick)
    ensures var (r, sends) := Poll(a, t);
      if Since(t.now.due, a.nextSend) < 0 then
        && r.nextSend == a.nextSend && r.lastProbeAt == a.lastProbeAt
        && |sends| <= 1 && forall s :: s in sends ==> t.read.Got? && s == Forward(t.read.from, Ack(a.token))
      else
        && r.nextSend == (t.now.resend + 50) % 0x1_0000_0000 && r.lastProbeAt == t.now.probed
        && |a.candidates| <= |sends| <= |a.candidates| + 1
        && (forall i :: 0 <= i < |a.candidates| ==> sends[i] == Forward(a.candidates[i], OwnProbe(a)))
        && (|sends| > |a.candidates| ==> t.read.Got? && sends[|a.candidates|] == Forward(t.read.from, Ack(a.token)))
  {
    hide PlainProbe, MatchProbe, Ack, Offered, Since;
  }

  /** The loop goes on exactly while there are turns left, the deadline is still to come,
      and so is the settle time if the path is proven. */
  lemma LoopEndsWhenDue(a: Attempt, ticks: seq<Tick>, deadline: nat)
    ensures var on := ticks != [] && Since(ticks[0].now.limit, deadline) < 0
                      && (a.settle == 0 || Since(ticks[0].now.pause, a.settle) < 0);
      if on then
        var (a', sends) := Poll(a, ticks[0]);
        && sends <= Looped(a, ticks, deadline).sends
        && (!ticks[0].read.Failed? ==> Looped(a, ticks, deadline).attempt == Looped(a', ticks[1..], deadline).attempt)
      else Looped(a, ticks, deadline) == Ending(a, [], false)
  {
    hide Poll, Since;
  }
}
