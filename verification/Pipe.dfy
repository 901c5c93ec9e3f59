/** A spectator's pipe: the host talks to one port, the spectator to the other,
    and each side's datagrams go to the last address learned on the other side. */
module Pipe {
  import opened Relay

  datatype Tube = Tube(allowed: seq<nat>, host: Slot, spec: Slot)

  const IDLE_TUBE := Tube([], FREE_SLOT, FREE_SLOT)

  function ClearTube(p: Tube): Tube { p.(host := p.host.(used := false), spec := p.spec.(used := false)) }

  function Sender(p: Tube, fromHost: bool): Slot { if fromHost then p.host else p.spec }

  function WithSender(p: Tube, fromHost: bool, slot: Slot): Tube {
    if fromHost then p.(host := slot) else p.(spec := slot)
  }

  predicate Admits(p: Tube, fromHost: bool, d: Datagram) {
    (Sender(p, fromHost).used && Sender(p, fromHost).addr == d.from) || d.from.ip in p.allowed
  }

  function Take(p: Tube, fromHost: bool, d: Datagram, now: nat): (Tube, seq<Send>) {
    if !Admits(p, fromHost, d) then (p, [])
    else
      var receiver := Sender(p, !fromHost);
      (WithSender(p, fromHost, Slot(true, d.from, now)), if receiver.used then [Forward(receiver.addr, d.data)] else [])
  }

  function TakeAll(p: Tube, fromHost: bool, inbox: seq<Datagram>, now: nat): (Tube, seq<Send>) {
    if inbox == [] then (p, [])
    else
      var n := |inbox| - 1;
      var before := TakeAll(p, fromHost, inbox[..n], now);
      var last := Take(before.0, fromHost, inbox[n], now);
      (last.0, before.1 + last.1)
  }

  function Quiet(slot: Slot, now: nat): Slot {
    if slot.used && Elapsed(now, slot.lastSeen) > RELAY_ENDPOINT_TIMEOUT_MS then slot.(used := false) else slot
  }

  function PumpTube(p: Tube, hostIn: seq<Datagram>, specIn: seq<Datagram>, now: nat): (Tube, seq<Send>) {
    var a := TakeAll(p, true, hostIn, now);
    var b := TakeAll(a.0, false, specIn, now);
    (b.0.(host := Quiet(b.0.host, now), spec := Quiet(b.0.spec, now)), a.1 + b.1)
  }

  function Reassign(p: Tube, members: seq<nat>): Tube {
    if members == p.allowed then p
    else Tube(members, p.host.(used := false), p.spec.(used := false))
  }

  class Pipe {
    var allowed: seq<nat>
    var host: Slot
    var spec: Slot

    ghost function View(): Tube
      reads this
    {
      Tube(allowed, host, spec)
    }

    constructor ()
      ensures View() == IDLE_TUBE
    {
      allowed, host, spec := [], FREE_SLOT, FREE_SLOT;
    }

    method SetAllowed(members: seq<nat>)
      modifies this
      ensures View() == Reassign(old(View()), members)
    {
      if members != allowed {
        allowed := members;
        host, spec := host.(used := false), spec.(used := false);
      }
    }

    method Forget()
      modifies this`host, this`spec
      ensures View() == ClearTube(old(View()))
    {
      host, spec := host.(used := false), spec.(used := false);
    }

    method IsMember(from: Endpoint) returns (yes: bool)
      ensures yes <==> from.ip in allowed
    {
      yes := false;
      var i := 0;
      while i < |allowed| && !yes
        invariant 0 <= i <= |allowed|
        invariant yes <==> from.ip in allowed[..i]
      {
        if allowed[i] == from.ip { yes := true; }
        i := i + 1;
      }
    }

    method PumpSide(fromHost: bool, inbox: seq<Datagram>, now: nat) returns (taken: nat, sends: seq<Send>)
      modifies this`host, this`spec
      ensures taken <= |inbox| && (View(), sends) == TakeAll(old(View()), fromHost, inbox[..taken], now)
      ensures forall k :: 0 <= k < taken ==> inbox[k].data != []
      ensures taken == |inbox| || inbox[taken].data == []
    {
      taken, sends := 0, [];
      while taken < |inbox| && inbox[taken].data != []
        invariant 0 <= taken <= |inbox|
        invariant (View(), sends) == TakeAll(old(View()), fromHost, inbox[..taken], now)
        invariant forall k :: 0 <= k < taken ==> inbox[k].data != []
      {
        var d := inbox[taken];
        assert inbox[..taken + 1][..taken] == inbox[..taken] && sends + [] == sends;
        taken := taken + 1;
        var sender, receiver := if fromHost then host else spec, if fromHost then spec else host;
        if !sender.used || sender.addr != d.from {
          var member := IsMember(d.from);
          if !member { continue; }
          sender := sender.(used := true, addr := d.from);
        }
        sender := sender.(lastSeen := now);
        if fromHost { host := sender; } else { spec := sender; }
        if receiver.used { sends := sends + [Forward(receiver.addr, d.data)]; }
      }
    }

    method PumpBoth(hostIn: seq<Datagram>, specIn: seq<Datagram>, now: nat)
      returns (h: nat, s: nat, sends: seq<Send>)
      modifies this`host, this`spec
      ensures h <= |hostIn| && s <= |specIn|
      ensures (View(), sends) == PumpTube(old(View()), hostIn[..h], specIn[..s], now)
    {
      var first, second;
      h, first := PumpSide(true, hostIn, now);
      s, second := PumpSide(false, specIn, now);
      sends := first + second;
      if host.used && Elapsed(now, host.lastSeen) > RELAY_ENDPOINT_TIMEOUT_MS { host := host.(used := false); }
      if spec.used && Elapsed(now, spec.lastSeen) > RELAY_ENDPOINT_TIMEOUT_MS { spec := spec.(used := false); }
    }
  }

  /** Both learned endpoints belong to current members. */
  ghost predicate MembersOnly(p: Tube) {
    (p.host.used ==> p.host.addr.ip in p.allowed) && (p.spec.used ==> p.spec.addr.ip in p.allowed)
  }

  /** A datagram from outside the lobby changes nothing and goes nowhere; one from
      a member goes at most to what the other side last learned. */
  lemma TakeIsGuarded(p: Tube, fromHost: bool, d: Datagram, now: nat)
    requires MembersOnly(p)
    ensures var r := Take(p, fromHost, d, now);
      && MembersOnly(r.0) && r.0.allowed == p.allowed && Sender(r.0, !fromHost) == Sender(p, !fromHost)
      && (d.from.ip !in p.allowed ==> r == (p, []))
      && (forall sent :: sent in r.1 ==> sent == Forward(Sender(p, !fromHost).addr, d.data) && sent.to.ip in p.allowed)
  {}

  /** So with members on both sides the traffic of everyone else might as well not
      have been sent. */
  function FromMembers(inbox: seq<Datagram>, allowed: seq<nat>): seq<Datagram> {
    if inbox == [] then []
    else
      var n := |inbox| - 1;
      FromMembers(inbox[..n], allowed) + if inbox[n].from.ip in allowed then [inbox[n]] else []
  }

  lemma {:induction false} OutsidersAreNoise(p: Tube, fromHost: bool, inbox: seq<Datagram>, now: nat)
    requires MembersOnly(p)
    ensures TakeAll(p, fromHost, inbox, now) == TakeAll(p, fromHost, FromMembers(inbox, p.allowed), now)
    ensures MembersOnly(TakeAll(p, fromHost, inbox, now).0)
    ensures TakeAll(p, fromHost, inbox, now).0.allowed == p.allowed
  {
    if inbox != [] {
      var n := |inbox| - 1;
      OutsidersAreNoise(p, fromHost, inbox[..n], now);
      var kept := FromMembers(inbox[..n], p.allowed);
      TakeIsGuarded(TakeAll(p, fromHost, inbox[..n], now).0, fromHost, inbox[n], now);
      var after := TakeAll(p, fromHost, kept, now);
      assert (kept + [inbox[n]])[..|kept|] == kept && kept + [] == kept && after.1 + [] == after.1;
    }
  }

  datatype TubeOp =
    | Assigns(members: seq<nat>)
    | Resets
    | PumpsTube(hostIn: seq<Datagram>, specIn: seq<Datagram>, now: nat)

  function ApplyTube(p: Tube, op: TubeOp): Tube {
    match op
    case Assigns(members) => Reassign(p, members)
    case Resets => ClearTube(p)
    case PumpsTube(hostIn, specIn, now) => PumpTube(p, hostIn, specIn, now).0
  }

  function RunTube(ops: seq<TubeOp>): Tube {
    if ops == [] then IDLE_TUBE else ApplyTube(RunTube(ops[..|ops| - 1]), ops[|ops| - 1])
  }

  lemma ApplyKeepsMembersOnly(p: Tube, op: TubeOp)
    requires MembersOnly(p)
    ensures MembersOnly(ApplyTube(p, op))
  {
    if op.PumpsTube? {
      OutsidersAreNoise(p, true, op.hostIn, op.now);
      OutsidersAreNoise(TakeAll(p, true, op.hostIn, op.now).0, false, op.specIn, op.now);
      hide TakeAll;
    }
  }

  /** Whatever a side sends, a pipe passes it on to members only. */
  lemma {:induction false} TakenGoesToMembers(p: Tube, fromHost: bool, inbox: seq<Datagram>, now: nat)
    requires MembersOnly(p)
    ensures forall sent :: sent in TakeAll(p, fromHost, inbox, now).1 ==> sent.Forward? && sent.to.ip in p.allowed
  {
    if inbox != [] {
      var n := |inbox| - 1;
      TakenGoesToMembers(p, fromHost, inbox[..n], now);
      OutsidersAreNoise(p, fromHost, inbox[..n], now);
      TakeIsGuarded(TakeAll(p, fromHost, inbox[..n], now).0, fromHost, inbox[n], now);
      hide Take, MembersOnly;
    }
  }

  /** So does a whole pump, whichever members they are then. */
  lemma PumpServesMembers(p: Tube, hostIn: seq<Datagram>, specIn: seq<Datagram>, now: nat)
    requires MembersOnly(p)
    ensures forall sent :: sent in PumpTube(p, hostIn, specIn, now).1 ==> sent.Forward? && sent.to.ip in p.allowed
  {
    var a := TakeAll(p, true, hostIn, now);
    OutsidersAreNoise(p, true, hostIn, now);
    TakenGoesToMembers(p, true, hostIn, now);
    TakenGoesToMembers(a.0, false, specIn, now);
    hide TakeAll, MembersOnly;
  }

  /** Along every run a pipe only holds endpoints of the current members. */
  lemma {:induction false} RunKeepsMembersOnly(ops: seq<TubeOp>)
    ensures MembersOnly(RunTube(ops))
    ensures ops != [] && ops[|ops| - 1].PumpsTube? ==>
      var p := RunTube(ops);
      && (p.host.used ==> Elapsed(ops[|ops| - 1].now, p.host.lastSeen) <= RELAY_ENDPOINT_TIMEOUT_MS)
      && (p.spec.used ==> Elapsed(ops[|ops| - 1].now, p.spec.lastSeen) <= RELAY_ENDPOINT_TIMEOUT_MS)
  {
    if ops != [] {
      var n := |ops| - 1;
      RunKeepsMembersOnly(ops[..n]);
      var p := RunTube(ops[..n]);
      match ops[n]
      case PumpsTube(hostIn, specIn, now) =>
        OutsidersAreNoise(p, true, hostIn, now);
        OutsidersAreNoise(TakeAll(p, true, hostIn, now).0, false, specIn, now);
      case _ =>
    }
  }

  /** All of these passed on to an endpoint, in order. */
  function PassedOn(inbox: seq<Datagram>, to: Slot): seq<Send> {
    if to.used then seq(|inbox|, i requires 0 <= i < |inbox| => Forward(to.addr, inbox[i].data)) else []
  }

  /** A side belongs to the last member who spoke on it, or to whoever it was. */
  function LastSpeaker(inbox: seq<Datagram>, was: Slot, now: nat): Slot {
    if inbox == [] then was else Slot(true, inbox[|inbox| - 1].from, now)
  }

  /** One side's traffic: every member's datagram goes to what the other side has learned,
      in order, and the side is the last member's. */
  lemma {:induction false} SideDelivers(p: Tube, fromHost: bool, inbox: seq<Datagram>, now: nat)
    requires MembersOnly(p)
    ensures var mine, r := FromMembers(inbox, p.allowed), TakeAll(p, fromHost, inbox, now);
      && r.1 == PassedOn(mine, Sender(p, !fromHost))
      && Sender(r.0, fromHost) == LastSpeaker(mine, Sender(p, fromHost), now)
      && Sender(r.0, !fromHost) == Sender(p, !fromHost) && r.0.allowed == p.allowed && MembersOnly(r.0)
  {
    if inbox != [] {
      var n := |inbox| - 1;
      SideDelivers(p, fromHost, inbox[..n], now);
      TakeIsGuarded(TakeAll(p, fromHost, inbox[..n], now).0, fromHost, inbox[n], now);
    }
  }

  /** A whole pump: the host's datagrams go where the spectator last spoke from, then the
      spectator's to where the host just did; who spoke now is known afterwards. */
  lemma PumpDelivers(p: Tube, hostIn: seq<Datagram>, specIn: seq<Datagram>, now: nat)
    requires MembersOnly(p)
    ensures var hosts, specs := FromMembers(hostIn, p.allowed), FromMembers(specIn, p.allowed);
      var r := PumpTube(p, hostIn, specIn, now);
      && r.1 == PassedOn(hosts, p.spec) + PassedOn(specs, LastSpeaker(hosts, p.host, now))
      && (hosts != [] ==> r.0.host == Slot(true, hosts[|hosts| - 1].from, now))
      && (specs != [] ==> r.0.spec == Slot(true, specs[|specs| - 1].from, now))
  {
    SideDelivers(p, true, hostIn, now);
    SideDelivers(TakeAll(p, true, hostIn, now).0, false, specIn, now);
    hide TakeAll, MembersOnly, FromMembers, PassedOn;
  }
}
