/** The matchmaker's rate limit, one bucket per source address. A token is 200
    units, so a bucket gains one unit a millisecond and the sums are exact. */
module TokenBucket {

  const TOKEN := 200
  const BURST := 20 * TOKEN
  const MAX_BUCKETS := 50000

  /** `last` is 0 until the first datagram. */
  datatype Bucket = Bucket(tokens: int, last: nat)

  const FULL := Bucket(BURST, 0)

  type Buckets = map<nat, Bucket>

  function Refilled(b: Bucket, now: nat): int {
    if b.last == 0 then b.tokens
    else if b.tokens + (now - b.last) > BURST then BURST else b.tokens + (now - b.last)
  }

  /** The table as a datagram finds it: too large a table is thrown away first. */
  function Trimmed(bs: Buckets): Buckets { if |bs| > MAX_BUCKETS then map[] else bs }

  function BucketOf(bs: Buckets, ip: nat): Bucket { if ip in bs then bs[ip] else FULL }

  function Admits(bs: Buckets, ip: nat, now: nat): bool { Refilled(BucketOf(Trimmed(bs), ip), now) >= TOKEN }

  function After(bs: Buckets, ip: nat, now: nat): Buckets {
    var tokens := Refilled(BucketOf(Trimmed(bs), ip), now);
    Trimmed(bs)[ip := Bucket(if tokens < TOKEN then tokens else tokens - TOKEN, now)]
  }

  class Limiter {
    var buckets: Buckets

    constructor ()
      ensures buckets == map[]
    {
      buckets := map[];
    }

    method AllowMatchmaker(ip: nat, now: nat) returns (allowed: bool)
      modifies this
      ensures allowed == Admits(old(buckets), ip, now)
      ensures buckets == After(old(buckets), ip, now)
    {
      if |buckets| > MAX_BUCKETS { buckets := map[]; }
      var b := if ip in buckets then buckets[ip] else FULL;
      if b.last != 0 {
        b := b.(tokens := b.tokens + (now - b.last));
        if b.tokens > BURST { b := b.(tokens := BURST); }
      }
      b := b.(last := now);
      allowed := b.tokens >= TOKEN;
      if allowed { b := b.(tokens := b.tokens - TOKEN); }
      buckets := buckets[ip := b];
    }
  }

  // ------------------------------------------------------------------- runs

  datatype Datagram = Datagram(ip: nat, now: nat)

  function Run(bs: Buckets, ds: seq<Datagram>): Buckets {
    if ds == [] then bs
    else
      var d := ds[|ds| - 1];
      After(Run(bs, ds[..|ds| - 1]), d.ip, d.now)
  }

  /** How many of one address's datagrams get through. */
  function Admitted(bs: Buckets, ds: seq<Datagram>, ip: nat): nat {
    if ds == [] then 0
    else
      var before, d := ds[..|ds| - 1], ds[|ds| - 1];
      Admitted(bs, before, ip) + if d.ip == ip && Admits(Run(bs, before), ip, d.now) then 1 else 0
  }

  /** The clock does not run backwards. */
  ghost predicate Ordered(ds: seq<Datagram>) {
    forall i, j :: 0 <= i < j < |ds| ==> ds[i].now <= ds[j].now
  }

  /** How many datagrams found the table too large and cleared it. */
  function Clearings(bs: Buckets, ds: seq<Datagram>): nat {
    if ds == [] then 0
    else Clearings(bs, ds[..|ds| - 1]) + if |Run(bs, ds[..|ds| - 1])| > 50000 then 1 else 0
  }

  /** No bucket is overdrawn, over its cap, or from the future. */
  ghost predicate Sane(bs: Buckets, now: nat) {
    forall ip :: ip in bs ==> 0 <= bs[ip].tokens <= BURST && bs[ip].last <= now
  }

  /** All of them at times in this stretch. */
  ghost predicate Within(ds: seq<Datagram>, start: nat, end: nat) {
    forall d :: d in ds ==> start <= d.now <= end
  }

  lemma OrderedPrefix(ds: seq<Datagram>)
    requires Ordered(ds) && ds != []
    ensures var n := |ds| - 1; Ordered(ds[..n]) && forall i :: 0 <= i < n ==> ds[..n][i].now <= ds[n].now
  {}

  lemma {:induction false} RunIsSane(bs: Buckets, ds: seq<Datagram>, start: nat, end: nat)
    requires Sane(bs, start) && Ordered(ds) && Within(ds, start, end) && start <= end
    ensures Sane(Run(bs, ds), end)
  {
    if ds != [] {
      OrderedPrefix(ds);
      RunIsSane(bs, ds[..|ds| - 1], start, ds[|ds| - 1].now);
    }
  }

  /** What one address has spent by `end` is covered by a full bucket for every
      clearing, one more for the bucket it now has, and the refill since `start`. */
  ghost predicate Covered(bs: Buckets, ip: nat, spent: int, clearings: nat, start: nat, end: nat) {
    || (ip in bs && start <= bs[ip].last <= end
        && spent + bs[ip].tokens <= (1 + clearings) * BURST + (bs[ip].last - start))
    || spent <= clearings * BURST + (end - start)
  }

  lemma CoveredStep(bs: Buckets, ip: nat, spent: int, clearings: nat, start: nat, d: Datagram)
    requires Sane(bs, d.now) && start <= d.now && Covered(bs, ip, spent, clearings, start, d.now)
    ensures var paid := if d.ip == ip && Admits(bs, ip, d.now) then TOKEN else 0;
      Covered(After(bs, d.ip, d.now), ip, spent + paid,
              clearings + if |bs| > MAX_BUCKETS then 1 else 0, start, d.now)
  {
    assert (2 + clearings) * BURST == (1 + clearings) * BURST + BURST;
  }

  lemma CoveredLater(bs: Buckets, ip: nat, spent: int, clearings: nat, start: nat, now: nat, end: nat)
    ensures Covered(bs, ip, spent, clearings, start, now) && now <= end
      ==> Covered(bs, ip, spent, clearings, start, end)
  {}

  lemma LastOf(bs: Buckets, ds: seq<Datagram>, ip: nat, start: nat, end: nat)
    requires Ordered(ds) && Within(ds, start, end) && ds != []
    ensures var n := |ds| - 1; var init, d := ds[..n], ds[n];
      && Ordered(init) && Within(init, start, d.now) && start <= d.now <= end
      && Run(bs, ds) == After(Run(bs, init), d.ip, d.now)
      && TOKEN * Admitted(bs, ds, ip)
         == TOKEN * Admitted(bs, init, ip) + (if d.ip == ip && Admits(Run(bs, init), ip, d.now) then TOKEN else 0)
      && Clearings(bs, ds) == Clearings(bs, init) + (if |Run(bs, init)| > MAX_BUCKETS then 1 else 0)
  {
    OrderedPrefix(ds);
    hide After, Admits;
  }

  lemma CoveredOnce(bs: Buckets, ds: seq<Datagram>, ip: nat, start: nat, end: nat)
    requires Ordered(ds) && Within(ds, start, end) && ds != []
    requires var init, d := ds[..|ds| - 1], ds[|ds| - 1];
      Sane(Run(bs, init), d.now) && start <= d.now
      && Covered(Run(bs, init), ip, TOKEN * Admitted(bs, init, ip), Clearings(bs, init), start, d.now)
    ensures Covered(Run(bs, ds), ip, TOKEN * Admitted(bs, ds, ip), Clearings(bs, ds), start, end)
  {
    hide Covered, After, Admits, Ordered, Sane, Run, Admitted, Clearings, Within;
    LastOf(bs, ds, ip, start, end);
    var init, d := ds[..|ds| - 1], ds[|ds| - 1];
    CoveredStep(Run(bs, init), ip, TOKEN * Admitted(bs, init, ip), Clearings(bs, init), start, d);
    CoveredLater(Run(bs, ds), ip, TOKEN * Admitted(bs, ds, ip), Clearings(bs, ds), start, d.now, end);
  }

  lemma {:induction false} SpentIsCovered(bs: Buckets, ds: seq<Datagram>, ip: nat, start: nat, end: nat)
    requires Sane(bs, start) && Ordered(ds) && Within(ds, start, end) && start <= end
    ensures Covered(Run(bs, ds), ip, TOKEN * Admitted(bs, ds, ip), Clearings(bs, ds), start, end)
  {
    if ds != [] {
      hide Covered, After, Admits, Ordered, Sane, Run, Admitted, Clearings, Within;
      var n := |ds| - 1;
      var init, d := ds[..n], ds[n];
      LastOf(bs, ds, ip, start, end);
      SpentIsCovered(bs, init, ip, start, d.now);
      RunIsSane(bs, init, start, d.now);
      CoveredOnce(bs, ds, ip, start, end);
    } else {
      hide Admits, After, Ordered, Sane, Within;
    }
  }

  /** Any stretch of a run, T milliseconds long, lets at most 20 + T/200 of one
      address's datagrams through, whatever the others send, and 20 more for every
      time the table is cleared in between. */
  lemma WindowBound(before: seq<Datagram>, window: seq<Datagram>, ip: nat, start: nat, length: nat)
    requires Ordered(before + window)
    requires Within(before, 0, start) && Within(window, start, start + length)
    ensures var bs := Run(map[], before);
      200 * Admitted(bs, window, ip) <= (1 + Clearings(bs, window)) * (20 * 200) + length
  {
    WindowIsCovered(before, window, ip, start, length);
    hide Run, Admitted, Clearings, Ordered, Within;
  }

  lemma WindowIsCovered(before: seq<Datagram>, window: seq<Datagram>, ip: nat, start: nat, length: nat)
    requires Ordered(before + window)
    requires Within(before, 0, start) && Within(window, start, start + length)
    ensures var bs := Run(map[], before);
      TOKEN * Admitted(bs, window, ip) <= (1 + Clearings(bs, window)) * BURST + length
  {
    var bs := Run(map[], before);
    OrderedParts(before, window);
    RunIsSane(map[], before, 0, start);
    SpentIsCovered(bs, window, ip, start, start + length);
    RunIsSane(bs, window, start, start + length);
    hide *;
    CoveredBounds(Run(bs, window), ip, TOKEN * Admitted(bs, window, ip), Clearings(bs, window), start, start + length);
  }

  lemma CoveredBounds(bs: Buckets, ip: nat, spent: int, clearings: nat, start: nat, end: nat)
    requires Sane(bs, end) && Covered(bs, ip, spent, clearings, start, end)
    ensures spent <= (1 + clearings) * BURST + (end - start)
  {}

  lemma OrderedParts(a: seq<Datagram>, b: seq<Datagram>)
    requires Ordered(a + b)
    ensures Ordered(a) && Ordered(b)
  {
    forall i, j | 0 <= i < j < |a| ensures a[i].now <= a[j].now { assert (a + b)[i] == a[i] && (a + b)[j] == a[j]; }
    forall i, j | 0 <= i < j < |b| ensures b[i].now <= b[j].now {
      assert (a + b)[|a| + i] == b[i] && (a + b)[|a| + j] == b[j];
    }
  }

  /** One address keeps 200 ms between its datagrams. */
  ghost predicate SpacedOut(ds: seq<Datagram>, ip: nat) {
    forall i, j :: 0 <= i < j < |ds| && ds[i].ip == ip && ds[j].ip == ip ==> ds[j].now >= ds[i].now + 200
  }

  /** Then its bucket can always pay for the next one. */
  ghost predicate CanPay(bs: Buckets, ip: nat, ds: seq<Datagram>) {
    ip in bs ==>
      && bs[ip].tokens >= 0 && (bs[ip].last == 0 ==> bs[ip].tokens >= TOKEN)
      && exists i :: 0 <= i < |ds| && ds[i].ip == ip && ds[i].now == bs[ip].last
  }

  lemma PayStep(bs: Buckets, ip: nat, ds: seq<Datagram>, d: Datagram)
    requires Ordered(ds + [d]) && SpacedOut(ds + [d], ip) && CanPay(bs, ip, ds)
    ensures CanPay(After(bs, d.ip, d.now), ip, ds + [d])
    ensures d.ip == ip ==> Admits(bs, ip, d.now)
  {
    var all, n := ds + [d], |ds|;
    assert all[n] == d;
    if ip in bs {
      var i :| 0 <= i < n && ds[i].ip == ip && ds[i].now == bs[ip].last;
      assert all[i] == ds[i];
    }
    hide Ordered, SpacedOut;
  }

  /** Whoever keeps 200 ms apart is never refused, even across clearings of the table. */
  lemma {:induction false} SpacedIsNeverRefused(ds: seq<Datagram>, ip: nat)
    requires Ordered(ds) && SpacedOut(ds, ip)
    ensures CanPay(Run(map[], ds), ip, ds)
    ensures forall k :: 0 <= k < |ds| && ds[k].ip == ip ==> Admits(Run(map[], ds[..k]), ip, ds[k].now)
  {
    if ds != [] {
      var n := |ds| - 1;
      var init := ds[..n];
      OrderedPrefix(ds);
      SpacedPrefix(ds, ip);
      SpacedIsNeverRefused(init, ip);
      assert init + [ds[n]] == ds;
      PayStep(Run(map[], init), ip, init, ds[n]);
      forall k | 0 <= k < n ensures init[..k] == ds[..k] && init[k] == ds[k] {}
      hide CanPay, After, Admits, Ordered, SpacedOut;
    }
  }

  lemma SpacedPrefix(ds: seq<Datagram>, ip: nat)
    requires SpacedOut(ds, ip) && ds != []
    ensures SpacedOut(ds[..|ds| - 1], ip)
  {}

  /** Clearing the table forgives everyone: the datagram that triggers it gets through. */
  lemma ClearingForgives(bs: Buckets, ip: nat, now: nat)
    requires |bs| > 50000
    ensures Admits(bs, ip, now) && After(bs, ip, now) == map[ip := Bucket(BURST - TOKEN, now)]
  {}

  /** How many datagrams of one address there are. */
  function CountOf(ds: seq<Datagram>, ip: nat): nat {
    if ds == [] then 0
    else CountOf(ds[..|ds| - 1], ip) + if ds[|ds| - 1].ip == ip then 1 else 0
  }

  /** The bucket of an address that has sent `n` datagrams, all let through. */
  ghost predicate Funded(bs: Buckets, ip: nat, n: nat) {
    ip in bs ==> bs[ip].tokens >= (20 - n) * 200
  }

  lemma FundedStep(bs: Buckets, ip: nat, n: nat, d: Datagram)
    requires Sane(bs, d.now) && Funded(bs, ip, n)
    ensures d.ip == ip && n < 20 ==> Admits(bs, ip, d.now)
    ensures Funded(After(bs, d.ip, d.now), ip, n + if d.ip == ip then 1 else 0)
  {}

  lemma {:induction false} StaysFunded(ds: seq<Datagram>, ip: nat, end: nat)
    requires Ordered(ds) && Within(ds, 0, end)
    ensures Funded(Run(map[], ds), ip, CountOf(ds, ip)) && Sane(Run(map[], ds), end)
  {
    RunIsSane(map[], ds, 0, end);
    if ds != [] {
      var n := |ds| - 1;
      var init := ds[..n];
      OrderedPrefix(ds);
      hide After, Admits, Funded, Sane, Ordered, Within;
      StaysFunded(init, ip, ds[n].now);
      FundedStep(Run(map[], init), ip, CountOf(init, ip), ds[n]);
    }
  }

  /** And so is the bound reached: the first twenty datagrams of an address always get
      through, however close together and whatever the others send. */
  lemma FirstTwentyPass(ds: seq<Datagram>, ip: nat, k: nat)
    requires Ordered(ds) && k < |ds| && ds[k].ip == ip && CountOf(ds[..k], ip) < 20
    ensures Admits(Run(map[], ds[..k]), ip, ds[k].now)
  {
    hide Admits, Run, Funded, Sane;
    var init := ds[..k];
    assert Ordered(init) && Within(init, 0, ds[k].now);
    StaysFunded(init, ip, ds[k].now);
    FundedStep(Run(map[], init), ip, CountOf(init, ip), ds[k]);
  }
}
