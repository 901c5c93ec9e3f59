/** When a stalled input stream is sent again: with backoff, and never more than
    four times in a second. */
module InputRepair {

  const WORD := 0x1_0000_0000

  /** Times are 32-bit millisecond counts; `history` is a ring of the last four repairs. */
  datatype State = State(enabled: bool, newest: int, acknowledged: int, lastSend: nat, retry: nat,
                         history: seq<nat>, repairs: nat)

  const FRESH := State(false, -1, -1, 0, 33, [0, 0, 0, 0], 0)

  predicate Ring(s: State) { |s.history| == 4 }

  /** A 32-bit reading of a growing number. */
  function Wrap(n: int): nat { n % WORD }

  /** Unsigned 32-bit difference. */
  function Since(now: int, mark: int): nat { Wrap(now - mark) }

  /** The ring entry for a repair count. */
  function Place(n: nat): (place: nat)
    ensures place < 4
  {
    n % 4
  }

  function Sent(s: State, now: nat, frame: int): State {
    (if frame > s.newest then s.(newest := frame, retry := 33) else s).(lastSend := now)
  }

  function Acked(s: State, frame: int): State {
    if s.acknowledged < frame <= s.newest then s.(acknowledged := frame, retry := 33) else s
  }

  /** Something is unacknowledged, nothing was sent for the retry time, and the
      repair four back is a second ago. */
  predicate Due(s: State, now: nat, idle: bool)
    requires Ring(s)
  {
    && s.enabled && idle && s.newest > s.acknowledged
    && Since(now, s.lastSend) >= s.retry
    && (s.repairs < 4 || Since(now, s.history[Place(s.repairs)]) >= 1000)
  }

  function Repaired(s: State, now: nat): State
    requires Ring(s)
  {
    s.(history := s.history[Place(s.repairs) := now], repairs := Wrap(s.repairs + 1), lastSend := now,
       retry := if s.retry < 100 then s.retry * 2 else 200)
  }

  function Tried(s: State, now: nat, idle: bool): State
    requires Ring(s)
  {
    if Due(s, now, idle) then Repaired(s, now) else s
  }

  class InputRepair {
    var enabled: bool
    var newest: int
    var acknowledged: int
    var lastSendMs: nat
    var retryMs: nat
    var history: array<nat>
    var repairs: nat

    ghost predicate Valid()
      reads this
    {
      history.Length == 4
    }

    ghost function View(): State
      requires Valid()
      reads this, history
    {
      State(enabled, newest, acknowledged, lastSendMs, retryMs, history[..], repairs)
    }

    constructor ()
      ensures Valid() && fresh(history) && View() == FRESH
    {
      enabled, newest, acknowledged := false, -1, -1;
      lastSendMs, retryMs, repairs := 0, 33, 0;
      history := new nat[4](_ => 0);
      new;
      assert history[..] == [0, 0, 0, 0];
    }

    method SetEnabled(on: bool)
      requires Valid()
      modifies this`enabled
      ensures Valid() && View() == old(View()).(enabled := on)
    {
      enabled := on;
    }

    method OnInputSent(nowMs: nat, newestFrame: int)
      requires Valid()
      modifies this`newest, this`retryMs, this`lastSendMs
      ensures Valid() && View() == Sent(old(View()), nowMs, newestFrame)
    {
      if newestFrame > newest {
        newest := newestFrame;
        retryMs := 33;
      }
      lastSendMs := nowMs;
    }

    method OnAck(frame: int)
      requires Valid()
      modifies this`acknowledged, this`retryMs
      ensures Valid() && View() == Acked(old(View()), frame)
    {
      if frame > acknowledged && frame <= newest {
        acknowledged := frame;
        retryMs := 33;
      }
    }

    method TryRepair(nowMs: nat, transportIdle: bool) returns (repair: bool)
      requires Valid()
      modifies this`lastSendMs, this`retryMs, this`repairs, history
      ensures Valid() && history == old(history)
      ensures repair == Due(old(View()), nowMs, transportIdle)
      ensures View() == Tried(old(View()), nowMs, transportIdle)
    {
      if !enabled || !transportIdle || newest <= acknowledged || Since(nowMs, lastSendMs) < retryMs { return false; }
      var slot := Place(repairs);
      if repairs >= 4 && Since(nowMs, history[slot]) < 1000 { return false; }
      history[slot] := nowMs;
      repairs := Wrap(repairs + 1);
      lastSendMs := nowMs;
      retryMs := if retryMs < 100 then retryMs * 2 else 200;
      return true;
    }
  }

  // ------------------------------------------------------------------- runs

  /** The host's calls, each some milliseconds after the one before. */
  datatype Event =
    | Enables(wait: nat, on: bool)
    | Sends(wait: nat, frame: int)
    | Acks(wait: nat, frame: int)
    | Tries(wait: nat, idle: bool)

  /** The object with the true time, unbounded, of now, of the last send and of every
      repair. */
  datatype World = World(s: State, now: nat, lastSend: nat, repairs: seq<nat>)

  function Begin(start: nat): World { World(FRESH, start, start, []) }

  function Step(w: World, e: Event): (r: World)
    requires Ring(w.s)
    ensures Ring(r.s)
  {
    var now := w.now + e.wait;
    var clock := Wrap(now);
    match e
    case Enables(_, on) => w.(now := now, s := w.s.(enabled := on))
    case Sends(_, frame) => w.(now := now, s := Sent(w.s, clock, frame), lastSend := now)
    case Acks(_, frame) => w.(now := now, s := Acked(w.s, frame))
    case Tries(_, idle) =>
      if Due(w.s, clock, idle) then World(Repaired(w.s, clock), now, now, w.repairs + [now]) else w.(now := now)
  }

  function Run(start: nat, events: seq<Event>): (r: World)
    ensures Ring(r.s)
  {
    if events == [] then Begin(start) else Step(Run(start, events[..|events| - 1]), events[|events| - 1])
  }

  /** The spacing promised: 33 ms between repairs, a second across five, except where
      the 32-bit repair count has just wrapped and the ring is taken for empty. */
  ghost predicate Spaced(times: seq<nat>) {
    && (forall n :: 1 <= n < |times| ==> times[n] >= times[n - 1] + 33)
    && (forall n :: 4 <= n < |times| && Wrap(n) >= 4 ==> times[n] >= times[n - 4] + 1000)
  }

  /** The ring holds the clock readings of the last four repairs. */
  ghost predicate Remembers(history: seq<nat>, times: seq<nat>)
    requires |history| == 4
  {
    forall i :: 0 <= i < |times| && i >= |times| - 4 ==> history[Place(i)] == Wrap(times[i])
  }

  lemma RememberMore(history: seq<nat>, times: seq<nat>, now: nat)
    requires |history| == 4 && Remembers(history, times)
    ensures Remembers(history[Place(|times|) := Wrap(now)], times + [now])
  {
    var n, more := |times|, times + [now];
    forall i | 0 <= i <= n && i >= n - 3 ensures history[Place(n) := Wrap(now)][Place(i)] == Wrap(more[i]) {
      if i < n { assert Place(i) != Place(n) && more[i] == times[i]; }
    }
  }

  predicate Backoff(retry: nat) { retry == 33 || retry == 66 || retry == 132 || retry == 200 }

  ghost predicate Faithful(w: World) {
    && Ring(w.s)
    && w.s.repairs == Wrap(|w.repairs|)
    && Remembers(w.s.history, w.repairs)
    && (forall i :: 0 <= i < |w.repairs| ==> w.repairs[i] <= w.lastSend)
    && w.lastSend <= w.now
    && (w.s.newest >= 0 ==> w.s.lastSend == Wrap(w.lastSend))
    && -1 <= w.s.acknowledged <= w.s.newest
    && Backoff(w.s.retry)
    && Spaced(w.repairs)
  }

  /** A wrapped difference never overstates the true one. */
  lemma SinceBounds(now: nat, mark: nat)
    requires mark <= now
    ensures Since(Wrap(now), Wrap(mark)) <= now - mark
    ensures now - mark < WORD ==> Since(Wrap(now), Wrap(mark)) == now - mark
  {
    var q, r := now / WORD, mark / WORD;
    assert now % WORD - mark % WORD == (now - mark) - (q - r) * WORD;
    SameResidue(now - mark, -(q - r));
  }

  lemma SameResidue(x: nat, k: int)
    ensures (x + k * WORD) % WORD == x % WORD <= x
  {}

  lemma SlotOf(n: nat)
    ensures Place(Wrap(n)) == Place(n)
  {
    var k := 0x4000_0000 * (n / WORD);
    assert n % WORD == n - 4 * k;
    SameRemainder(n, k);
  }

  lemma SameRemainder(n: int, k: int)
    ensures (n - 4 * k) % 4 == n % 4
  {}

  /** The wrapped comparison with the ring's oldest entry is safe. */
  lemma OldestIsSafe(s: State, times: seq<nat>, now: nat)
    requires Ring(s) && Remembers(s.history, times) && s.repairs == Wrap(|times|) && s.repairs >= 4
    requires times[|times| - 4] <= now
    ensures s.history[Place(s.repairs)] == Wrap(times[|times| - 4])
    ensures Since(Wrap(now), s.history[Place(s.repairs)]) <= now - times[|times| - 4]
    ensures now - times[|times| - 4] < WORD
      ==> Since(Wrap(now), s.history[Place(s.repairs)]) == now - times[|times| - 4]
  {
    var n := |times|;
    SlotOf(n);
    SameRemainder(n, 1);
    assert s.history[Place(n - 4)] == Wrap(times[n - 4]);
    SinceBounds(now, times[n - 4]);
  }

  lemma SpaceMore(times: seq<nat>, now: nat)
    requires Spaced(times)
    requires |times| >= 1 ==> now >= times[|times| - 1] + 33
    requires |times| >= 4 && Wrap(|times|) >= 4 ==> now >= times[|times| - 4] + 1000
    ensures Spaced(times + [now])
  {
    hide Wrap;
  }

  lemma RepairKeepsFaithful(w: World, wait: nat, idle: bool)
    requires Faithful(w) && Due(w.s, Wrap(w.now + wait), idle)
    ensures Faithful(Step(w, Tries(wait, idle)))
  {
    hide Remembers, Since, Wrap, Place, Spaced;
    var now, n := w.now + wait, |w.repairs|;
    SlotOf(n);
    NextCount(n);
    RememberMore(w.s.history, w.repairs, now);
    SinceBounds(now, w.lastSend);
    if w.s.repairs >= 4 { OldestIsSafe(w.s, w.repairs, now); }
    SpaceMore(w.repairs, now);
  }

  lemma NextCount(n: nat)
    ensures Wrap(Wrap(n) + 1) == Wrap(n + 1) && Wrap(n) <= n && (n < WORD ==> Wrap(n) == n)
  {}

  /** What is sent is noted with its time; newer input starts the backoff over. */
  lemma SendKeepsFaithful(w: World, wait: nat, frame: int)
    requires Faithful(w)
    ensures Faithful(Step(w, Sends(wait, frame)))
  {
    hide Remembers, Spaced, Wrap;
  }

  lemma AckKeepsFaithful(w: World, wait: nat, frame: int)
    requires Faithful(w)
    ensures Faithful(Step(w, Acks(wait, frame)))
  {
    hide Remembers, Spaced, Wrap;
  }

  /** Time passes; nothing is sent. */
  lemma WaitKeepsFaithful(w: World, e: Event)
    requires Faithful(w) && (e.Enables? || (e.Tries? && !Due(w.s, Wrap(w.now + e.wait), e.idle)))
    ensures Faithful(Step(w, e))
  {
    hide Remembers, Spaced, Wrap, Due, Backoff;
  }

  lemma StepKeepsFaithful(w: World, e: Event)
    requires Faithful(w)
    ensures Faithful(Step(w, e))
  {
    assert Ring(w.s);
    hide Faithful, Step, Due;
    match e
    case Sends(wait, frame) => SendKeepsFaithful(w, wait, frame);
    case Acks(wait, frame) => AckKeepsFaithful(w, wait, frame);
    case Enables(wait, on) => WaitKeepsFaithful(w, e);
    case Tries(wait, idle) =>
      if Due(w.s, Wrap(w.now + wait), idle) { RepairKeepsFaithful(w, wait, idle); } else { WaitKeepsFaithful(w, e); }
  }

  /** Every run: at most four repairs in any second, 33 ms apart at least, backoff
      within its four steps, and never an acknowledgment of what was not sent. */
  lemma {:induction false} RunIsFaithful(start: nat, events: seq<Event>)
    ensures Faithful(Run(start, events))
  {
    if events == [] {
      hide Step;
    } else {
      hide Faithful, Step;
      var n := |events| - 1;
      RunIsFaithful(start, events[..n]);
      StepKeepsFaithful(Run(start, events[..n]), events[n]);
    }
  }

  /** While at most 2^32 repairs have been made the budget has no exception. */
  lemma FiveRepairsTakeASecond(start: nat, events: seq<Event>, n: nat)
    requires n + 4 < |Run(start, events).repairs| <= WORD
    ensures Run(start, events).repairs[n + 4] >= Run(start, events).repairs[n] + 1000
  {
    RunIsFaithful(start, events);
    var times := Run(start, events).repairs;
    assert Wrap(n + 4) >= 4;
    assert times[n + 4] >= times[n + 4 - 4] + 1000;
  }

  /** Nothing is due within 32 ms of a send. */
  lemma HealthyStreamNeedsNone(start: nat, events: seq<Event>, wait: nat, idle: bool)
    requires var w := Run(start, events); w.now + wait - w.lastSend <= 32
    ensures !Due(Run(start, events).s, Wrap(Run(start, events).now + wait), idle)
  {
    RunIsFaithful(start, events);
    NothingDueSoon(Run(start, events), wait, idle);
    hide Run, Due, Faithful;
  }

  lemma NothingDueSoon(w: World, wait: nat, idle: bool)
    requires Faithful(w) && w.now + wait - w.lastSend <= 32
    ensures !Due(w.s, Wrap(w.now + wait), idle)
  {
    hide Remembers, Since, Wrap, Place, Spaced;
    SinceBounds(w.now + wait, w.lastSend);
  }

  /** Before anything was sent there is nothing to repair; from then on every try comes at
      most 32 ms after a send. */
  ghost predicate Healthy(start: nat, events: seq<Event>) {
    forall k :: 0 <= k < |events| && events[k].Tries? ==> TriedSoon(Run(start, events[..k]), events[k])
  }

  ghost predicate TriedSoon(w: World, e: Event) {
    w.s.newest >= 0 ==> w.now + e.wait - w.lastSend <= 32
  }

  /** A stream sent at least every 32 ms is never repaired. */
  lemma {:induction false} HealthyRunIsNeverRepaired(start: nat, events: seq<Event>)
    requires Healthy(start, events)
    ensures Run(start, events).repairs == []
  {
    if events != [] {
      hide Run, Faithful, Due, Healthy, TriedSoon, Step;
      var n := |events| - 1;
      var w, e := Run(start, events[..n]), events[n];
      HealthyPrefix(start, events);
      HealthyRunIsNeverRepaired(start, events[..n]);
      RunIsFaithful(start, events[..n]);
      if e.Tries? { NoRepairSoon(w, e); }
      OnlyDueTriesRepair(w, e);
      LastStep(start, events);
    }
  }

  lemma HealthyPrefix(start: nat, events: seq<Event>)
    requires Healthy(start, events) && events != []
    ensures var n := |events| - 1;
      Healthy(start, events[..n]) && (events[n].Tries? ==> TriedSoon(Run(start, events[..n]), events[n]))
  {
    hide Run, TriedSoon;
    var n := |events| - 1;
    forall k | 0 <= k < n ensures events[..n][..k] == events[..k] && events[..n][k] == events[k] {}
  }

  lemma LastStep(start: nat, events: seq<Event>)
    requires events != []
    ensures Run(start, events) == Step(Run(start, events[..|events| - 1]), events[|events| - 1])
  {
    hide Step;
  }

  lemma OnlyDueTriesRepair(w: World, e: Event)
    requires Ring(w.s) && (e.Tries? ==> !Due(w.s, Wrap(w.now + e.wait), e.idle))
    ensures Step(w, e).repairs == w.repairs
  {
    hide Due;
  }

  lemma NoRepairSoon(w: World, e: Event)
    requires Faithful(w) && e.Tries? && TriedSoon(w, e)
    ensures !Due(w.s, Wrap(w.now + e.wait), e.idle)
  {
    if w.s.newest >= 0 { NothingDueSoon(w, e.wait, e.idle); }
    hide Remembers, Since, Wrap, Place, Spaced, Backoff;
  }

  ghost predicate MayRepair(w: World, wait: nat) {
    var n, now := |w.repairs|, w.now + wait;
    && w.s.enabled && w.s.newest > w.s.acknowledged
    && w.s.retry <= now - w.lastSend < WORD
    && (Wrap(n) >= 4 && n >= 4 ==> 1000 <= now - w.repairs[n - 4] < WORD)
  }

  lemma DueWhenStalled(w: World, wait: nat)
    requires Faithful(w) && MayRepair(w, wait)
    ensures Due(w.s, Wrap(w.now + wait), true)
  {
    hide Remembers, Since, Wrap, Place, Spaced, Backoff;
    var n := |w.repairs|;
    NextCount(n);
    SinceBounds(w.now + wait, w.lastSend);
    if Wrap(n) >= 4 { OldestIsSafe(w.s, w.repairs, w.now + wait); }
  }

  /** A stalled stream is repaired as soon as it may be: unacknowledged input, an idle
      transport, the retry time passed, and the fourth repair back a second ago. */
  lemma StalledStreamIsRepaired(start: nat, events: seq<Event>, wait: nat)
    requires MayRepair(Run(start, events), wait)
    ensures var w := Run(start, events); var w' := Run(start, events + [Tries(wait, true)]);
      && w'.repairs == w.repairs + [w.now + wait] && w'.now == w'.lastSend == w.now + wait
      && w'.s.enabled && w'.s.newest == w.s.newest && w'.s.acknowledged == w.s.acknowledged
  {
    var more := events + [Tries(wait, true)];
    assert more[..|more| - 1] == events;
    RunIsFaithful(start, events);
    DueWhenStalled(Run(start, events), wait);
    assert Run(start, more) == Step(Run(start, events), Tries(wait, true));
    hide Run, Faithful, Due, MayRepair, Wrap, Place;
  }

  lemma RetryIsShort(start: nat, events: seq<Event>)
    ensures Run(start, events).s.retry <= 200
  {
    RunIsFaithful(start, events);
    hide Run, Remembers, Spaced;
  }

  /** Input is waiting and the last thing sent was sent just now. */
  predicate Stalling(w: World) {
    w.s.enabled && w.s.newest == 0 && w.s.acknowledged == -1 && w.now == w.lastSend
  }

  /** A stream that stalls for good, repaired every second. */
  function Stalled(k: nat): seq<Event> {
    if k == 0 then [Enables(0, true), Sends(0, 0)] else Stalled(k - 1) + [Tries(1000, true)]
  }

  lemma StalledStart(start: nat)
    ensures Stalling(Run(start, Stalled(0))) && Run(start, Stalled(0)).repairs == []
    ensures Run(start, Stalled(0)).now == start
  {
    var events := Stalled(0);
    assert events[..1] == [Enables(0, true)] && events[..1][..0] == [];
    assert Run(start, events) == Step(Run(start, events[..1]), Sends(0, 0));
    assert Run(start, events[..1]) == Step(Begin(start), Enables(0, true));
  }

  ghost predicate Paced(start: nat, w: World, k: nat) {
    && Stalling(w) && |w.repairs| == k && w.now == start + 1000 * k
    && forall i :: 0 <= i < k ==> w.repairs[i] == start + 1000 * (i + 1)
  }

  lemma PaceStep(start: nat, events: seq<Event>, k: nat)
    requires Paced(start, Run(start, events), k)
    ensures Paced(start, Run(start, events + [Tries(1000, true)]), k + 1)
  {
    hide Run, Wrap;
    RetryIsShort(start, events);
    var w := Run(start, events);
    assert k >= 4 ==> w.repairs[k - 4] == start + 1000 * (k - 3);
    StalledStreamIsRepaired(start, events, 1000);
  }

  lemma {:induction false} StalledRun(start: nat, k: nat)
    ensures Paced(start, Run(start, Stalled(k)), k)
  {
    if k == 0 {
      StalledStart(start);
    } else {
      hide Run, Paced;
      StalledRun(start, k - 1);
      PaceStep(start, Stalled(k - 1), k - 1);
    }
  }

  /** A second apart up to three short of the wrap, from then on 200 ms apart. */
  ghost predicate Hurried(start: nat, w: World, j: nat) {
    var n := WORD - 3;
    && Stalling(w) && |w.repairs| == n + j && w.now == start + 1000 * n + 200 * j && w.repairs[n + j - 1] == w.now
    && forall i :: 0 <= i < n ==> w.repairs[i] == start + 1000 * (i + 1)
  }

  /** The fourth repair back is still long ago, and at the wrap nobody asks. */
  lemma HurryStep(start: nat, events: seq<Event>, j: nat)
    requires j < 4 && Hurried(start, Run(start, events), j)
    ensures Hurried(start, Run(start, events + [Tries(200, true)]), j + 1)
  {
    var w, n := Run(start, events), WORD - 3 + j;
    assert j == 3 ==> Wrap(n) == 0;
    hide Run, Wrap;
    assert w.repairs[n - 4] == start + 1000 * (n - 3);
    RetryIsShort(start, events);
    StalledStreamIsRepaired(start, events, 200);
  }

  /** The repair that makes the count wrap is not held back: with the four before it,
      it can fall within 800 ms. */
  lemma BudgetLapsesAtTheWrap(start: nat) returns (events: seq<Event>)
    ensures |Run(start, events).repairs| == WORD + 1
    ensures Run(start, events).repairs[WORD] == Run(start, events).repairs[WORD - 4] + 800
  {
    events := Stalled(WORD - 3);
    StalledRun(start, WORD - 3);
    assert Hurried(start, Run(start, events), 0) by { hide Run; }
    for j := 0 to 4
      invariant Hurried(start, Run(start, events), j)
    {
      hide Run, Hurried;
      HurryStep(start, events, j);
      events := events + [Tries(200, true)];
    }
    hide Run;
  }

  /** Any five consecutive repairs take a second. */
  ghost predicate WithinBudget(times: seq<nat>) {
    forall n :: 4 <= n < |times| ==> times[n] >= times[n - 4] + 1000
  }

  /** The budget is kept for as many repairs as the counter can tell apart, and not
      for one more. */
  lemma BudgetIffCountFits(k: nat)
    ensures (forall start: nat, events: seq<Event> ::
               |Run(start, events).repairs| <= k ==> WithinBudget(Run(start, events).repairs))
      <==> k <= WORD
  {
    if k <= WORD {
      forall start: nat, events: seq<Event> | |Run(start, events).repairs| <= k
        ensures WithinBudget(Run(start, events).repairs)
      {
        var times := Run(start, events).repairs;
        forall n | 4 <= n < |times| ensures times[n] >= times[n - 4] + 1000 {
          FiveRepairsTakeASecond(start, events, n - 4);
        }
      }
    } else {
      hide Run;
      var events := BudgetLapsesAtTheWrap(0);
      assert !WithinBudget(Run(0, events).repairs);
    }
  }

  // ---------------------------------------------------------------- backoff

  /** New input went out, or some of it was acknowledged. */
  predicate Progress(s: State, e: Event) {
    (e.Sends? && e.frame > s.newest) || (e.Acks? && s.acknowledged < e.frame <= s.newest)
  }

  /** The repairs made since there last was progress. */
  function Streak(start: nat, events: seq<Event>): nat {
    if events == [] then 0
    else
      var n := |events| - 1;
      var before := Run(start, events[..n]);
      if Progress(before.s, events[n]) then 0
      else Streak(start, events[..n]) + if |Run(start, events).repairs| > |before.repairs| then 1 else 0
  }

  function Wait(streak: nat): nat {
    if streak == 0 then 33 else if streak == 1 then 66 else if streak == 2 then 132 else 200
  }

  lemma StepBacksOff(w: World, e: Event, streak: nat)
    requires Ring(w.s) && w.s.retry == Wait(streak)
    ensures var w' := Step(w, e);
      && |w'.repairs| >= |w.repairs|
      && w'.s.retry == if Progress(w.s, e) then 33 else Wait(streak + if |w'.repairs| > |w.repairs| then 1 else 0)
  {
    hide Due;
  }

  /** In every run the wait before the next repair is 33 ms after progress and doubles with
      each repair without any, to 66, 132 and then 200. */
  lemma {:induction false} RetryBacksOff(start: nat, events: seq<Event>)
    ensures Run(start, events).s.retry == Wait(Streak(start, events))
  {
    if events != [] {
      hide Step, Progress;
      var n := |events| - 1;
      RetryBacksOff(start, events[..n]);
      StepBacksOff(Run(start, events[..n]), events[n], Streak(start, events[..n]));
    }
  }

  // ------------------------------------------------------- what is outstanding

  ghost predicate SentAt(events: seq<Event>, k: nat, frame: int) {
    k < |events| && events[k].Sends? && events[k].frame == frame
  }

  /** An acknowledgment of something that had been sent by then. */
  ghost predicate AckedAt(start: nat, events: seq<Event>, k: nat, frame: int) {
    k < |events| && events[k].Acks? && events[k].frame == frame && frame <= Run(start, events[..k]).s.newest
  }

  lemma {:induction false} NewestIs(start: nat, events: seq<Event>)
    ensures var newest := Run(start, events).s.newest;
      && (forall k: nat, frame :: SentAt(events, k, frame) ==> frame <= newest)
      && (newest == -1 || exists k: nat :: SentAt(events, k, newest))
  {
    if events != [] {
      hide Due;
      var n := |events| - 1;
      NewestIs(start, events[..n]);
      var before, newest := Run(start, events[..n]).s.newest, Run(start, events).s.newest;
      forall k: nat, frame | SentAt(events, k, frame) ensures frame <= newest {
        if k < n { assert SentAt(events[..n], k, frame); }
      }
      if newest != before {
        assert SentAt(events, n, newest);
      } else if newest != -1 {
        var k: nat :| SentAt(events[..n], k, newest);
        assert SentAt(events, k, newest);
      }
    }
  }

  lemma {:induction false} AcknowledgedIs(start: nat, events: seq<Event>)
    ensures var acknowledged := Run(start, events).s.acknowledged;
      && (forall k: nat, frame :: AckedAt(start, events, k, frame) ==> frame <= acknowledged)
      && (acknowledged == -1 || exists k: nat :: AckedAt(start, events, k, acknowledged))
  {
    if events != [] {
      hide Due;
      var n := |events| - 1;
      AcknowledgedIs(start, events[..n]);
      var before, acknowledged := Run(start, events[..n]).s.acknowledged, Run(start, events).s.acknowledged;
      forall k: nat, frame | AckedAt(start, events, k, frame) ensures frame <= acknowledged {
        if k < n { assert events[..n][..k] == events[..k] && AckedAt(start, events[..n], k, frame); }
      }
      if acknowledged != before {
        assert AckedAt(start, events, n, acknowledged);
      } else if acknowledged != -1 {
        var k: nat :| AckedAt(start, events[..n], k, acknowledged);
        assert events[..n][..k] == events[..k] && AckedAt(start, events, k, acknowledged);
      }
    }
  }

  /** In every run nothing is repaired once the newest input sent has been acknowledged. */
  lemma NothingOutstanding(start: nat, events: seq<Event>, k: nat, wait: nat, idle: bool)
    requires AckedAt(start, events, k, Run(start, events).s.newest)
    ensures !Due(Run(start, events).s, Wrap(Run(start, events).now + wait), idle)
  {
    AcknowledgedIs(start, events);
    hide Run, AckedAt, Since, Wrap;
  }

  /** The last word on whether repairs are wanted; at first they are not. */
  function Wanted(events: seq<Event>): bool {
    if events == [] then false
    else
      var e := events[|events| - 1];
      if e.Enables? then e.on else Wanted(events[..|events| - 1])
  }

  lemma {:induction false} EnabledIs(start: nat, events: seq<Event>)
    ensures Run(start, events).s.enabled == Wanted(events)
  {
    if events != [] {
      hide Due;
      EnabledIs(start, events[..|events| - 1]);
    }
  }

  /** In every run a repair is only ever made while repairs are wanted and the transport is
      idle. */
  lemma RepairIsWanted(start: nat, events: seq<Event>, wait: nat, idle: bool)
    requires Due(Run(start, events).s, Wrap(Run(start, events).now + wait), idle)
    ensures Wanted(events) && idle
  {
    EnabledIs(start, events);
    hide Run;
  }
}
