/** Whole runs of the rollback session: game steps, saves, loads and frees in
    any order GGPO may ask for them. */
module RollbackRuns {
  import opened BattleState
  import opened MementoKeys
  import opened SaveStates

  datatype Event =
    | Advance(input: Input, ops: seq<KeyOp>, next: Game, queued: map<Address, seq<Sound>>)
    | Save(record: seq<KeyOp>)
    | Load(slot: nat)
    | Free(slot: nat)

  function Apply(e: Engine, st: State, ev: Event): State {
    match ev
    case Advance(input, ops, next, queued) => st.(heap := DoAll(st.heap, ops), game := next, queued := queued)
    case Save(record) =>
      var i := FirstUnused(st.slots);
      if i < |st.slots| then SaveSpec(st.(heap := DoAll(st.heap, record)), i) else st
    case Load(i) => if i < |st.slots| then LoadSpec(e, st, i) else st
    case Free(i) => if i < |st.slots| then FreeSpec(st, i) else st
  }

  /** What the engine and GGPO are held to: fresh buffers are fresh, and only
      states in use are loaded. Game steps are otherwise arbitrary. */
  predicate Enabled(st: State, ev: Event) {
    match ev
    case Advance(input, ops, next, queued) => CanDoAll(st.heap, ops)
    case Save(record) => CanDoAll(st.heap, record)
    case Load(i) => i < |st.slots| ==> st.slots[i].used
    case Free(i) => true
  }

  function Run(e: Engine, st: State, evs: seq<Event>): State {
    if evs == [] then st else Apply(e, Run(e, st, evs[..|evs| - 1]), evs[|evs| - 1])
  }

  predicate EnabledRun(e: Engine, st: State, evs: seq<Event>) {
    evs == [] || (EnabledRun(e, st, evs[..|evs| - 1]) && Enabled(Run(e, st, evs[..|evs| - 1]), evs[|evs| - 1]))
  }

  lemma ApplyKeepsOk(e: Engine, st: State, ev: Event)
    requires Ok(st) && Enabled(st, ev)
    ensures Ok(Apply(e, st, ev)) && |Apply(e, st, ev).slots| == |st.slots|
    ensures forall d :: 0 <= d < |st.slots| && st.slots[d].used && ev != Free(d) ==>
      Intact(st, Apply(e, st, ev), d)
  {
    var st' := Apply(e, st, ev);
    AllIntact(st);
    match ev {
      case Advance(input, ops, next, queued) =>
        DoAllKeepsOk(st, ops);
        var mid := st.(heap := DoAll(st.heap, ops));
        forall d | 0 <= d < |st.slots| ensures Intact(st, st', d) { assert Intact(st, mid, d); }
      case Save(record) =>
        var i := FirstUnused(st.slots);
        if i < |st.slots| {
          DoAllKeepsOk(st, record);
          var mid := st.(heap := DoAll(st.heap, record));
          assert SlotOk(st.heap, st.slots[i]);
          SaveKeepsOk(mid, i);
          forall d | 0 <= d < |st.slots| && st.slots[d].used ensures Intact(st, st', d) {
            assert Intact(st, mid, d) && Intact(mid, st', d);
          }
        }
      case Load(i) => if i < |st.slots| { LoadKeepsOk(e, st, i); }
      case Free(i) => if i < |st.slots| { FreeKeepsOk(st, i); }
    }
  }

  /** Along every run nothing is owned twice, leaked, or released twice. */
  lemma {:induction false} RunKeepsOk(e: Engine, st: State, evs: seq<Event>)
    requires Ok(st) && EnabledRun(e, st, evs)
    ensures Ok(Run(e, st, evs)) && |Run(e, st, evs).slots| == |st.slots|
  {
    if evs != [] {
      RunKeepsOk(e, st, evs[..|evs| - 1]);
      ApplyKeepsOk(e, Run(e, st, evs[..|evs| - 1]), evs[|evs| - 1]);
    }
  }

  /** A slot in use keeps its records and its buffers' contents until freed. */
  lemma {:induction false} SlotSurvives(e: Engine, st: State, evs: seq<Event>, d: nat)
    requires Ok(st) && d < |st.slots| && st.slots[d].used && EnabledRun(e, st, evs)
    requires Free(d) !in evs
    ensures Ok(Run(e, st, evs)) && |Run(e, st, evs).slots| == |st.slots|
    ensures Intact(st, Run(e, st, evs), d)
  {
    if evs == [] {
      AllIntact(st);
    } else {
      var mid := Run(e, st, evs[..|evs| - 1]);
      SlotSurvives(e, st, evs[..|evs| - 1], d);
      ApplyKeepsOk(e, mid, evs[|evs| - 1]);
      assert Intact(st, mid, d) && Intact(mid, Run(e, st, evs), d);
    }
  }

  /** A save fills the first unused slot with the game and the installed keys. */
  lemma SaveFills(e: Engine, st: State, record: seq<KeyOp>)
    requires Ok(st) && FirstUnused(st.slots) < |st.slots| && Enabled(st, Save(record))
    ensures var d, st' := FirstUnused(st.slots), Apply(e, st, Save(record));
      && Ok(st') && |st'.slots| == |st.slots| && st'.slots[d].used
      && Image(st'.slots[d].keys, st'.heap.bufs) == Installed(DoAll(st.heap, record))
      && st'.slots[d].globals == st.game.globals
      && st'.slots[d].sounds == st.game.sounds
      && st'.game == st.game
  {
    var d, mid := FirstUnused(st.slots), st.(heap := DoAll(st.heap, record));
    DoAllKeepsOk(st, record);
    assert SlotOk(st.heap, st.slots[d]) && HeapOk(mid.heap);
    assert map[] + st.game.sounds == st.game.sounds;
    hide Ok, HeapOk, DoAll, CanDoAll, Image, Installed, FirstUnused, ZeroAll;
    SaveKeepsOk(mid, d);
    InstalledIsImage(mid.heap);
  }

  /** The save/load round trip. After `Save` fills slot `d`, any run that does
      not free `d` — game steps, other saves, loads of anything, other frees —
      ends in a state from which loading `d` restores exactly the game that was
      saved, and changes no key, no buffer and no slot. */
  lemma LoadRestoresSave(e: Engine, st: State, record: seq<KeyOp>, evs: seq<Event>)
    requires Ok(st) && FirstUnused(st.slots) < |st.slots| && Enabled(st, Save(record))
    requires Captures(e, Installed(DoAll(st.heap, record)), st.game.world)
    requires EnabledRun(e, Apply(e, st, Save(record)), evs)
    requires Free(FirstUnused(st.slots)) !in evs
    ensures var d := FirstUnused(st.slots);
      var before := Run(e, Apply(e, st, Save(record)), evs);
      && |before.slots| == |st.slots| && before.slots[d].used
      && var after := Apply(e, before, Load(d));
      && after.game.world == st.game.world
      && after.game.globals == st.game.globals
      && after.game.sounds.Keys == before.game.sounds.Keys
      && (forall a :: a in before.game.sounds ==>
            after.game.sounds[a] == if a in st.game.sounds then st.game.sounds[a] else before.game.sounds[a])
      && (if e.pureSounds then forall m :: m in after.queued ==> after.queued[m] == []
          else after.queued == before.queued)
      && after.heap == before.heap && after.slots == before.slots
  {
    var d := FirstUnused(st.slots);
    var st1 := Apply(e, st, Save(record));
    var before := Run(e, st1, evs);
    SaveFills(e, st, record);
    hide Ok, Enabled, EnabledRun, FirstUnused, Run, DoAll, Captures, Installed, Image;
    SlotSurvives(e, st1, evs, d);
    ImageFrame(st1.slots[d].keys, st1.heap.bufs, before.heap.bufs);
    LoadGives(e, before, d, Image(st1.slots[d].keys, st1.heap.bufs), st.game);
    hide Apply;
  }

  /** What a load makes of a slot that holds the game `g`. */
  lemma LoadGives(e: Engine, before: State, d: nat, image: map<Address, (Key, Bytes)>, g: Game)
    requires d < |before.slots| && Image(before.slots[d].keys, before.heap.bufs) == image && Captures(e, image, g.world)
    requires before.slots[d].globals == g.globals && before.slots[d].sounds == g.sounds
    ensures var after := Apply(e, before, Load(d));
      && after.game.world == g.world && after.game.globals == g.globals
      && after.game.sounds.Keys == before.game.sounds.Keys
      && (forall a :: a in before.game.sounds ==>
            after.game.sounds[a] == if a in g.sounds then g.sounds[a] else before.game.sounds[a])
      && (if e.pureSounds then forall m :: m in after.queued ==> after.queued[m] == []
          else after.queued == before.queued)
      && after.heap == before.heap && after.slots == before.slots
  {
    assert e.restore(before.game.world, image) == g.world;
    hide Image, Captures;
  }

  // ---------------------------------------------------- rollback transparency

  /** The timeline so far, and the timeline each slot was saved on. */
  datatype Ledger = Ledger(timeline: seq<Input>, held: map<nat, seq<Input>>)

  function Note(l: Ledger, st: State, ev: Event): Ledger {
    match ev
    case Advance(input, ops, next, queued) => l.(timeline := l.timeline + [input])
    case Save(record) =>
      var i := FirstUnused(st.slots);
      if i < |st.slots| then l.(held := l.held[i := l.timeline]) else l
    case Load(i) => if i < |st.slots| && i in l.held then l.(timeline := l.held[i]) else l
    case Free(i) => l.(held := l.held - {i})
  }

  function Notes(e: Engine, l: Ledger, st: State, evs: seq<Event>): Ledger {
    if evs == [] then l
    else Note(Notes(e, l, st, evs[..|evs| - 1]), Run(e, st, evs[..|evs| - 1]), evs[|evs| - 1])
  }

  /** No rollback at all: the same inputs once, in order. */
  function Straight(e: Engine, g: Game, inputs: seq<Input>): Game {
    if inputs == [] then g else e.step(Straight(e, g, inputs[..|inputs| - 1]), inputs[|inputs| - 1])
  }

  /** `g` is the game `h` but for the metadata of sound adapters `h` does not have,
      which a load leaves alone; with `fixed` adapters it is `h`. */
  ghost predicate Agrees(fixed: bool, g: Game, h: Game) {
    && g.world == h.world && g.globals == h.globals
    && (forall a :: a in h.sounds ==> a in g.sounds && g.sounds[a] == h.sounds[a])
    && (fixed ==> g.sounds.Keys == h.sounds.Keys)
  }

  /** A step makes nothing of the metadata of adapters that are not there yet. */
  ghost predicate IgnoresStrayAdapters(e: Engine) {
    forall g: Game, h: Game, input: Input :: Agrees(false, g, h) ==> Agrees(false, e.step(g, input), e.step(h, input))
  }

  /** Frames are simulated by the deterministic step, which takes no adapter away (and
      with `fixed` adds none), and a save records the state the game is in. */
  ghost predicate Faithful(e: Engine, fixed: bool, st: State, ev: Event) {
    && Enabled(st, ev)
    && match ev
       case Advance(input, ops, next, queued) =>
         && next == e.step(st.game, input) && st.game.sounds.Keys <= next.sounds.Keys
         && (fixed ==> next.sounds.Keys == st.game.sounds.Keys)
       case Save(record) => Captures(e, Installed(DoAll(st.heap, record)), st.game.world)
       case Load(i) => true
       case Free(i) => true
  }

  ghost predicate FaithfulRun(e: Engine, fixed: bool, st: State, evs: seq<Event>) {
    evs == []
    || (FaithfulRun(e, fixed, st, evs[..|evs| - 1])
        && Faithful(e, fixed, Run(e, st, evs[..|evs| - 1]), evs[|evs| - 1]))
  }

  /** A slot holds a game that agrees with `g`, over adapters that are still there. */
  ghost predicate Holds(e: Engine, fixed: bool, st: State, i: nat, g: Game)
    requires i < |st.slots|
  {
    var slot := st.slots[i];
    && Captures(e, Image(slot.keys, st.heap.bufs), g.world)
    && Agrees(fixed, Game(g.world, slot.globals, slot.sounds), g)
    && slot.sounds.Keys <= st.game.sounds.Keys && (fixed ==> slot.sounds.Keys == st.game.sounds.Keys)
  }

  ghost predicate OnTimeline(e: Engine, fixed: bool, g0: Game, st: State, l: Ledger) {
    && Ok(st)
    && Agrees(fixed, st.game, Straight(e, g0, l.timeline))
    && (forall i :: 0 <= i < |st.slots| && st.slots[i].used ==>
         i in l.held && Holds(e, fixed, st, i, Straight(e, g0, l.held[i])))
  }

  lemma HoldsSurvives(e: Engine, fixed: bool, st: State, st': State, i: nat, g: Game)
    requires i < |st.slots| && i < |st'.slots| && Intact(st, st', i) && Holds(e, fixed, st, i, g)
    requires st.game.sounds.Keys <= st'.game.sounds.Keys
    requires fixed ==> st'.game.sounds.Keys == st.game.sounds.Keys
    ensures Holds(e, fixed, st', i, g)
  {
    ImageFrame(st.slots[i].keys, st.heap.bufs, st'.heap.bufs);
    hide Captures, Image;
  }

  lemma NoteKeeps(l: Ledger, st: State, ev: Event, i: nat)
    requires i < |st.slots| && st.slots[i].used && ev != Free(i) && i in l.held
    ensures i in Note(l, st, ev).held && Note(l, st, ev).held[i] == l.held[i]
  {
  }

  /** No event takes an adapter away, and with `fixed` none adds any. */
  lemma AdaptersStay(e: Engine, fixed: bool, st: State, ev: Event)
    requires Faithful(e, fixed, st, ev)
    ensures st.game.sounds.Keys <= Apply(e, st, ev).game.sounds.Keys
    ensures fixed ==> Apply(e, st, ev).game.sounds.Keys == st.game.sounds.Keys
  {
    hide Captures, Installed, DoAll, CanDoAll, Image;
  }

  /** The slots other than the one an event fills or frees. */
  lemma OthersStayOnTimeline(e: Engine, fixed: bool, g0: Game, st: State, l: Ledger, ev: Event, i: nat)
    requires OnTimeline(e, fixed, g0, st, l) && Faithful(e, fixed, st, ev)
    requires i < |st.slots| && st.slots[i].used && ev != Free(i)
    ensures var st', l' := Apply(e, st, ev), Note(l, st, ev);
      && |st'.slots| == |st.slots| && st'.slots[i] == st.slots[i]
      && i in l'.held && Holds(e, fixed, st', i, Straight(e, g0, l'.held[i]))
  {
    var g := Straight(e, g0, l.held[i]);
    assert Holds(e, fixed, st, i, g);
    ApplyKeepsOk(e, st, ev);
    AdaptersStay(e, fixed, st, ev);
    NoteKeeps(l, st, ev, i);
    hide Apply, Note, Holds, Ok, Faithful, Straight;
    HoldsSurvives(e, fixed, st, Apply(e, st, ev), i, g);
  }

  /** A slot just filled holds the game as it is. */
  lemma SavedIsHeld(e: Engine, fixed: bool, g0: Game, st: State, l: Ledger, record: seq<KeyOp>)
    requires OnTimeline(e, fixed, g0, st, l) && Faithful(e, fixed, st, Save(record))
    requires FirstUnused(st.slots) < |st.slots|
    ensures var d, st' := FirstUnused(st.slots), Apply(e, st, Save(record));
      && Ok(st') && |st'.slots| == |st.slots| && st'.game == st.game
      && Holds(e, fixed, st', d, Straight(e, g0, l.timeline))
  {
    SaveFills(e, st, record);
    hide Apply, Ok, Installed, Image, FirstUnused, Captures;
  }

  lemma SaveStaysOnTimeline(e: Engine, fixed: bool, g0: Game, st: State, l: Ledger, record: seq<KeyOp>)
    requires OnTimeline(e, fixed, g0, st, l) && Faithful(e, fixed, st, Save(record))
    ensures OnTimeline(e, fixed, g0, Apply(e, st, Save(record)), Note(l, st, Save(record)))
  {
    var d, st', l' := FirstUnused(st.slots), Apply(e, st, Save(record)), Note(l, st, Save(record));
    if d < |st.slots| {
      SavedIsHeld(e, fixed, g0, st, l, record);
      assert forall i :: 0 <= i < |st.slots| && i != d ==> st'.slots[i] == st.slots[i];
      hide Holds, Ok, Faithful, Straight, Agrees;
      forall i | 0 <= i < |st.slots| && st'.slots[i].used
        ensures i in l'.held && Holds(e, fixed, st', i, Straight(e, g0, l'.held[i]))
      {
        if i != d { OthersStayOnTimeline(e, fixed, g0, st, l, Save(record), i); }
      }
    }
  }

  lemma StepAgrees(e: Engine, fixed: bool, g: Game, h: Game, input: Input)
    requires fixed || IgnoresStrayAdapters(e)
    requires Agrees(fixed, g, h)
    ensures Agrees(fixed, e.step(g, input), e.step(h, input))
  {
    if fixed {
      assert g.sounds == h.sounds;
    } else {
      assert Agrees(false, g, h);
    }
  }

  lemma LoadAgrees(e: Engine, fixed: bool, st: State, i: nat, g: Game)
    requires i < |st.slots| && Holds(e, fixed, st, i, g)
    ensures Agrees(fixed, Apply(e, st, Load(i)).game, g)
  {
    assert e.restore(st.game.world, Image(st.slots[i].keys, st.heap.bufs)) == g.world;
    hide Image, Captures;
  }

  /** Where the game is after an event other than a save. */
  lemma GameStaysOnTimeline(e: Engine, fixed: bool, g0: Game, st: State, l: Ledger, ev: Event)
    requires fixed || IgnoresStrayAdapters(e)
    requires OnTimeline(e, fixed, g0, st, l) && Faithful(e, fixed, st, ev) && !ev.Save?
    ensures Agrees(fixed, Apply(e, st, ev).game, Straight(e, g0, Note(l, st, ev).timeline))
  {
    match ev {
      case Advance(input, ops, next, queued) =>
        StepAgrees(e, fixed, st.game, Straight(e, g0, l.timeline), input);
        assert (l.timeline + [input])[..|l.timeline|] == l.timeline;
        hide Agrees, Holds, Ok, IgnoresStrayAdapters, DoAll;
      case Load(i) =>
        if i < |st.slots| { LoadAgrees(e, fixed, st, i, Straight(e, g0, l.held[i])); }
        hide Agrees, Holds, Ok, IgnoresStrayAdapters, Straight;
      case Free(i) =>
        hide Agrees, Holds, Ok, IgnoresStrayAdapters, Straight;
    }
  }

  lemma OnlySavesFill(e: Engine, st: State, ev: Event)
    requires !ev.Save?
    ensures |Apply(e, st, ev).slots| == |st.slots|
    ensures forall i :: 0 <= i < |st.slots| && Apply(e, st, ev).slots[i].used ==> st.slots[i].used && ev != Free(i)
  {}

  lemma StepStaysOnTimeline(e: Engine, fixed: bool, g0: Game, st: State, l: Ledger, ev: Event)
    requires fixed || IgnoresStrayAdapters(e)
    requires OnTimeline(e, fixed, g0, st, l) && Faithful(e, fixed, st, ev)
    ensures OnTimeline(e, fixed, g0, Apply(e, st, ev), Note(l, st, ev))
  {
    if ev.Save? {
      SaveStaysOnTimeline(e, fixed, g0, st, l, ev.record);
    } else {
      var st', l' := Apply(e, st, ev), Note(l, st, ev);
      ApplyKeepsOk(e, st, ev);
      GameStaysOnTimeline(e, fixed, g0, st, l, ev);
      OnlySavesFill(e, st, ev);
      hide Apply, Note, Holds, Ok, Faithful, Straight, Agrees, IgnoresStrayAdapters, Intact;
      forall i | 0 <= i < |st'.slots| && st'.slots[i].used
        ensures i in l'.held && Holds(e, fixed, st', i, Straight(e, g0, l'.held[i]))
      {
        OthersStayOnTimeline(e, fixed, g0, st, l, ev, i);
      }
    }
  }

  lemma {:induction false} RunStaysOnTimeline(e: Engine, fixed: bool, g0: Game, st: State, l: Ledger, evs: seq<Event>)
    requires fixed || IgnoresStrayAdapters(e)
    requires OnTimeline(e, fixed, g0, st, l) && FaithfulRun(e, fixed, st, evs)
    ensures OnTimeline(e, fixed, g0, Run(e, st, evs), Notes(e, l, st, evs))
  {
    if evs != [] {
      hide OnTimeline, Faithful, IgnoresStrayAdapters, Apply, Note;
      var p, ev := evs[..|evs| - 1], evs[|evs| - 1];
      RunStaysOnTimeline(e, fixed, g0, st, l, p);
      StepStaysOnTimeline(e, fixed, g0, Run(e, st, p), Notes(e, l, st, p), ev);
    }
  }

  /** Rollback transparency. Whatever saves, loads and frees GGPO interleaves,
      the game is at every moment exactly where one straight pass over the
      current timeline would have brought it, for every sound adapter that pass
      knows; over a fixed set of adapters it is the same game. */
  lemma RollbackIsTransparent(e: Engine, fixed: bool, st: State, evs: seq<Event>)
    requires fixed || IgnoresStrayAdapters(e)
    requires Ok(st) && FaithfulRun(e, fixed, st, evs)
    requires forall i :: 0 <= i < |st.slots| ==> !st.slots[i].used
    ensures var game, timeline := Run(e, st, evs).game, Notes(e, Ledger([], map[]), st, evs).timeline;
      var straight := Straight(e, st.game, timeline);
      Agrees(fixed, game, straight) && (fixed ==> game == straight)
  {
    assert OnTimeline(e, fixed, st.game, st, Ledger([], map[]));
    hide FaithfulRun, Run, Notes, Straight, IgnoresStrayAdapters;
    hide OnTimeline;
    RunStaysOnTimeline(e, fixed, st.game, st, Ledger([], map[]), evs);
    WhereTheGameIs(e, fixed, st.game, Run(e, st, evs), Notes(e, Ledger([], map[]), st, evs));
  }

  function Inputs(evs: seq<Event>): seq<Input> {
    if evs == [] then []
    else Inputs(evs[..|evs| - 1]) + (if evs[|evs| - 1].Advance? then [evs[|evs| - 1].input] else [])
  }

  lemma {:induction false} ReplayExtends(e: Engine, l: Ledger, st: State, evs: seq<Event>)
    requires forall i :: 0 <= i < |evs| ==> !evs[i].Load?
    ensures Notes(e, l, st, evs).timeline == l.timeline + Inputs(evs)
  {
    if evs != [] { ReplayExtends(e, l, st, evs[..|evs| - 1]); }
  }

  /** One rollback: whatever was speculated since, loading a held slot and
      replaying the corrected inputs ends exactly where a straight run over the
      slot's own timeline followed by those inputs ends. */
  lemma ReplayCorrects(e: Engine, fixed: bool, st: State, past: seq<Event>, slot: nat, replay: seq<Event>)
    requires fixed || IgnoresStrayAdapters(e)
    requires Ok(st) && (forall i :: 0 <= i < |st.slots| ==> !st.slots[i].used)
    requires FaithfulRun(e, fixed, st, past)
    requires slot < |Run(e, st, past).slots| && Run(e, st, past).slots[slot].used
    requires FaithfulRun(e, fixed, Apply(e, Run(e, st, past), Load(slot)), replay)
    requires forall i :: 0 <= i < |replay| ==> !replay[i].Load?
    ensures slot in Notes(e, Ledger([], map[]), st, past).held
    ensures var game := Run(e, Apply(e, Run(e, st, past), Load(slot)), replay).game;
      var straight := Straight(e, st.game, Notes(e, Ledger([], map[]), st, past).held[slot] + Inputs(replay));
      Agrees(fixed, game, straight) && (fixed ==> game == straight)
  {
    var mid, l := Run(e, st, past), Notes(e, Ledger([], map[]), st, past);
    assert OnTimeline(e, fixed, st.game, st, Ledger([], map[]));
    hide FaithfulRun, Run, Notes, Straight, IgnoresStrayAdapters, Holds, Inputs, Ok;
    RunStaysOnTimeline(e, fixed, st.game, st, Ledger([], map[]), past);
    assert Faithful(e, fixed, mid, Load(slot)) && slot in l.held;
    assert Note(l, mid, Load(slot)).timeline == l.held[slot];
    hide OnTimeline, Apply, Note, Faithful;
    StepStaysOnTimeline(e, fixed, st.game, mid, l, Load(slot));
    RunStaysOnTimeline(e, fixed, st.game, Apply(e, mid, Load(slot)), Note(l, mid, Load(slot)), replay);
    ReplayExtends(e, Note(l, mid, Load(slot)), Apply(e, mid, Load(slot)), replay);
    WhereTheGameIs(e, fixed, st.game, Run(e, Apply(e, mid, Load(slot)), replay),
                   Notes(e, Note(l, mid, Load(slot)), Apply(e, mid, Load(slot)), replay));
  }

  lemma WhereTheGameIs(e: Engine, fixed: bool, g0: Game, st: State, l: Ledger)
    requires OnTimeline(e, fixed, g0, st, l)
    ensures Agrees(fixed, st.game, Straight(e, g0, l.timeline)) && (fixed ==> st.game == Straight(e, g0, l.timeline))
  {
    hide Ok, Holds, Straight;
  }
}
