# Model of the netplay bookkeeping

A Dafny model of the parts of this repository that keep a rollback match
together, and proofs of what they are for. The game engine, GGPO, sockets and
JSON are outside the model and appear as parameters or contracts.

- `MementoKeys`, `SaveStates`, `RollbackRuns`, `KeyTracking`: save slots that steal,
  install and release the engine's memento buffers; ownership, the save/load round
  trip, rollback transparency and which keys are tracked, over whole runs.
  `BattleState` and `Extremes` hold shared data and the least/greatest number of a set.
- `SoundSync`: bringing the audible sound managers into agreement with the silent
  stubs after a rollback.
- `Mixing`, `Checksum`, `StateChecksum`: the desync checksum, from single bit
  operations to the sensitivity and relocation results for whole save states.
- `SessionSeats`, `SessionRuns`, `SessionHistory`, `SessionServer`: a lobby's session
  server as a value, its runs, what their history says of the present, and the object
  that implements it in place.
- `Relay`, `Pipe`, `LobbyServer`, `LobbyRuns`, `LobbyTraffic`, `TokenBucket`: the
  dedicated server, its reachable states and whom its relays and pipes serve.
- `SnapshotSync`: exchange and comparison of state snapshots between two clients.
- `HolePunch`, `PunchProtocol`: the punch, and two machines punching over a network.
- `InputRepair`: resending a stalled input stream.
- `Afterimage`: the layout that adds the actor to a shadow's memento.

Throughout, a class or method follows the source step by step and is tied by its
`ensures` to a function on values; the results are about that function over all
inputs, runs or reachable states.

Five properties one might expect do not hold of the code as it is; each has its exact
condition, and a counterexample beside it:

- A handed-out pick is current exactly while the message library never returns a
  missing message (`SessionRuns.CurrentIffNothingMissing`). On one, the server's step
  returns before vacated seats are dropped; the dedicated server ignores the error and
  goes on, where a server hosted by a player is deleted.
- The punch's endpoint need not be on an offered host: after one good ack, later acks
  are accepted from anywhere. It always is exactly when no other address leads to a
  machine that can ack us (`PunchProtocol.EndsOnOfferedIffNoStrayReturn`). The comment
  in the source says only an offered address may become the endpoint; the model
  follows the code.
- A match-start success is never one-sided exactly when no offered address leads back
  to the machine itself (`PunchProtocol.MutualIffNoSelfLoop`).
- The repair budget holds exactly for runs of at most 2^32 repairs, when the 32-bit
  count wraps (`InputRepair.BudgetIffCountFits`).
- Relay and pipes are refreshed before the age limit is looked at, so a lobby emptied
  by it keeps the evicted addresses until the next turn; nothing else makes them
  outdated between turns (`LobbyTraffic.OnlyEvictionOutdates`).

## Model

| member | source | states |
|---|---|---|
| `RollbackRuns.LoadRestoresSave` | src/sf4e/sf4e__Game__Battle__System.cxx:2102-2189 | Round trip over whole runs: after a save into slot d, any sequence of game steps, other saves, loads of anything and other frees leaves d loadable; loading it gives back exactly the saved world and globals and every recorded sound and object pool, empties the stop queues if pure sounds are on, and changes no key, no buffer and no slot. |
| `RollbackRuns.RollbackIsTransparent` | src/sf4e/sf4e__Game__Battle__System.cxx:1567-1718 | With a deterministic step, at every moment of any interleaving of advance, save, load and free callbacks the game is where one straight pass over the current timeline ends: world, globals and the sound of every adapter that pass knows, and over a fixed set of adapters the whole game. Adapters may come into being at any time. |
| `RollbackRuns.ReplayCorrects` | src/sf4e/sf4e__Game__Battle__System.cxx:1567-1718 | One rollback: loading a held slot and replaying corrected inputs ends exactly where a straight run over the slot's own timeline followed by those inputs ends, in the same sense, whatever was speculated before. |
| `RollbackRuns.RunKeepsOk` | src/sf4e/sf4e__Game__Battle__System.cxx:2034-2189 | Along every run of steps, saves, loads and frees the buffers owned by live keys and by slots are, with multiplicity, exactly the allocated ones: none owned twice, none leaked, none released twice. |
| `RollbackRuns.SlotSurvives` | src/sf4e/sf4e__Game__Battle__System.cxx:2144-2161 | A slot in use keeps its records and the contents of every buffer it owns through any run that does not free it. |
| `RollbackRuns.SaveFills` | src/sf4e/sf4e__Game__Battle__System.cxx:2144-2189 | A save takes the first unused slot; what its records hold is what was installed right after the record pass, and the game itself is unchanged. |
| `RollbackRuns.ApplyKeepsOk` | src/sf4e/sf4e__Game__Battle__System.cxx:2034-2189 | Each single event keeps the ownership ledger and leaves every used slot it does not free intact. |
| `KeyTracking.RunTracksIff` | src/sf4e/sf4e__Game.cxx:252-255 | Along every run, whatever is saved, loaded and freed in it, a key is tracked if and only if the game's last word on it was to initialise it, or it said nothing and had it from the start; clearing past the detour changes nothing. |
| `KeyTracking.SaveRecordsIff` | src/sf4e/sf4e__Game__Battle__System.cxx:2144-2161 | A save after any run records exactly the keys the game has by then: one it cleared and has not initialised since is in no record. |
| `KeyTracking.TrackedIff` | src/sf4e/sf4e__Game.cxx:252-255 | The same for any list of key operations. |
| `KeyTracking.DoAllShows` | src/sf4e/sf4e__Game.cxx:36-39 | Whatever is done to the keys, the engine sees through each what was last put there, as if no two keys or slots could share a buffer. |
| `SaveStates.ClearReleases` | src/sf4e/sf4e__Game__Battle__System.cxx:2034-2061 | A cleared slot is as good as new but for the game manager's bytes; if it claims its keys, the live ones at those places come out zero with exactly their buffers released. |
| `SaveStates.DoKeepsOk` | src/sf4e/sf4e__Game.cxx:36-39 | An engine operation on a key (through the detours or not) only releases an allocated buffer, keeps the ledger balanced and touches no buffer a slot owns, because stolen keys were zeroed. |
| `SaveStates.DoAllKeepsOk` | src/sf4e/sf4e__Game.cxx:36-39 | The same for any sequence of engine operations. |
| `SaveStates.SaveKeepsOk` | src/sf4e/sf4e__Game__Battle__System.cxx:2144-2161 | Saving moves ownership from the live keys to the slot: the ledger stays balanced and all other slots stay intact. |
| `SaveStates.LoadKeepsOk` | src/sf4e/sf4e__Game__Battle__System.cxx:2102-2142 | Loading leaves every key object, every buffer and every slot as it was. |
| `SaveStates.FreeKeepsOk` | src/sf4e/sf4e__Game__Battle__System.cxx:2063-2086 | Freeing releases exactly the buffers the victim owned; live keys, the tracked set, the game and all other slots are unchanged. |
| `SaveStates.ReclaimLeaks` | src/sf4e/sf4e__Game__Battle__System.cxx:2092-2100 | Reclaiming loses exactly what the slot owned, so the ledger stays balanced if and only if it owned nothing. |
| `SaveStates.OwnedIsAllocated` | src/sf4e/sf4e__Game__Battle__System.cxx:2144-2161 | A buffer a slot owns is allocated, owned by that slot once, and by no live key and no other slot. |
| `MementoKeys.PutBack` | src/sf4e/sf4e__Game__Battle__System.cxx:2115-2141 | Take the keys away, install the saved ones, zero those, put the taken ones back: every key object is as it was, also for keys the save did not know or the load did not track. |
| `MementoKeys.InstalledIsImage` | src/sf4e/sf4e__Game__Battle__System.cxx:2150-2161 | The records taken right after the record pass hold exactly what was installed in the tracked keys. |
| `MementoKeys.InstallGivesImage` | src/sf4e/sf4e__Game__Battle__System.cxx:2014-2017 | Placing a slot's records on zeroed keys installs exactly what the slot holds. |
| `MementoKeys.ImageFrame` | src/sf4e/sf4e__Game__Battle__System.cxx:2144-2161 | What a slot holds depends only on the contents of the buffers it owns. |
| `SaveStates.Rollback.Initialize` | src/sf4e/sf4e__Game.cxx:36-39 | The detour: the key gets its new buffer, an old one is released, the key is tracked and no other key's tracking changes. |
| `SaveStates.Rollback.ClearKey` | src/sf4e/sf4e__Game.cxx:252-255 | The detour: the buffer goes, the key is zeroed; exactly it is no longer tracked. |
| `SaveStates.Rollback.TakeKeys` | src/sf4e/sf4e__Game__Battle__System.cxx:2114-2120 | Every tracked key is copied in set order and zeroed. |
| `SaveStates.Rollback.Save` | src/sf4e/sf4e__Game__Battle__System.cxx:2144-2189 | The whole new state is the record pass followed by the specified move of keys, sounds, pools and globals into the slot; ownership stays balanced. |
| `SaveStates.Rollback.CopyIntoPlace` | src/sf4e/sf4e__Game__Battle__System.cxx:1976-2032 | Globals and recorded sounds and pools are put back, those unknown to the slot left alone, the saved keys installed, and the engine restored from exactly those. |
| `SaveStates.Rollback.Load` | src/sf4e/sf4e__Game__Battle__System.cxx:2102-2142 | The whole new state is the specified load: game restored, queues emptied when pure sounds are on, heap and slots untouched. |
| `SaveStates.Rollback.Clear` | src/sf4e/sf4e__Game__Battle__System.cxx:2034-2061 | The slot is emptied and its plain data reset; while it still claims its keys the live ones at those places are cleared first. |
| `SaveStates.Rollback.ReleaseKeys` | src/sf4e/sf4e__Game__Battle__System.cxx:2073-2083 | Each saved key is installed just long enough to be released; the live keys come out unchanged. |
| `SaveStates.Rollback.Free` | src/sf4e/sf4e__Game__Battle__System.cxx:2063-2086 | The whole new state is the specified free; ownership stays balanced. |
| `SaveStates.Rollback.Reclaim` | src/sf4e/sf4e__Game__Battle__System.cxx:2092-2100 | The whole new state is the specified reclaim; the engine is not called. |
| `SaveStates.Rollback.CloseBattle` | src/sf4e/sf4e__Game__Battle__System.cxx:1062-1069 | After the sweep no slot is in use or holds a record, live keys and tracked set are unchanged, and only live keys own buffers. |
| `SaveStates.Rollback.SaveCallback` | src/sf4e/sf4e__Game__Battle__System.cxx:1651-1703 | With a battle system the first slot not in use is filled; without one, or without such a slot, nothing changes. |
| `SaveStates.Rollback.LoadCallback` | src/sf4e/sf4e__Game__Battle__System.cxx:1631-1649 | A null buffer or a missing battle system is ignored; otherwise the state is the specified load. |
| `SaveStates.Rollback.FreeCallback` | src/sf4e/sf4e__Game__Battle__System.cxx:1710-1718 | A null buffer is ignored; otherwise the state is the specified free. |
| `SaveStates.Rollback.AdvanceCallback` | src/sf4e/sf4e__Game__Battle__System.cxx:1567-1629 | With a battle system the engine works on its keys and the game moves on by one step; without one nothing is touched. |
| `SoundSync.SyncState` | src/sf4e/sf4e__Game__Battle.cxx:323-433 | After a sync every stub manager and its real manager agree (a bijection between live sounds preserving request, start frame and voice) and every stop queue is empty. Of each request and start frame as many real sounds were stopped as stops were queued, or all; of each request at most as many are left as the stubs play, and for every stub beyond that one is started. Managers already agreeing with an empty queue get no engine call at all. |
| `SoundSync.SyncManager` | src/sf4e/sf4e__Game__Battle.cxx:323-433 | One manager: stops delivered, pairing made, unclaimed sounds stopped, the rest reconciled exactly as specified; agreement and the full account of stop and start calls under the engine's contract. |
| `SoundSync.StopsReach` | src/sf4e/sf4e__Game__Battle.cxx:328-353 | Delivering the queue stops, of each request and start frame, exactly the smaller of the number queued and the number live, tells the engine so once for each, and touches nothing else. |
| `SoundSync.SyncAccounts` | src/sf4e/sf4e__Game__Battle.cxx:323-433 | The account of one sync: which sounds the engine is told to stop and how many of each request to start. |
| `SoundSync.RetriggeredIsRestarted` | src/sf4e/sf4e__Game__Battle.cxx:328-341 | If queued stops reach every real sound of a request, each is stopped and every stub that plays it, retriggered since, is started anew instead of taking over an old sound. |
| `SoundSync.PlayMakesRoom` | src/sf4e/sf4e__Game__Battle.cxx:202-275 | A sound the engine takes is placed and what it interrupts queued; on a refusal the sound that has played longest is stopped and the engine asked once more; only then does it fail. |
| `SoundSync.PlayNeverFails` | src/sf4e/sf4e__Game__Battle.cxx:202-240 | An engine that serves every request while an adapter is free always ends up playing. |
| `SoundSync.SyncAgrees` | src/sf4e/sf4e__Game__Battle.cxx:370-429 | Stopping what nobody claimed and reconciling ends in agreement, because a free player is left for every unpaired live stub. |
| `SoundSync.SecondSyncIsQuiet` | src/sf4e/sf4e__Game__Battle.cxx:323-433 | From agreement with nothing queued, a sync starts and stops nothing. |
| `SoundSync.PairingIsMaximum` | src/sf4e/sf4e__Game__Battle.cxx:49-67 | No assignment of distinct live equal players serves more live stubs than first fit. |
| `SoundSync.PairsPerClass` | src/sf4e/sf4e__Game__Battle.cxx:49-67 | Per request, exactly the smaller of the number of live stubs and of live players is paired. |
| `SoundSync.BalancedMeansAllPaired` | src/sf4e/sf4e__Game__Battle.cxx:49-67 | If every request has equally many live stubs and players, everybody is paired. |
| `SoundSync.PairLiveSounds` | src/sf4e/sf4e__Game__Battle.cxx:49-67 | The loops compute an injective pairing of live equal sounds in which every stub has the first player not taken before it, and the claimed-players table says exactly who is taken. |
| `SoundSync.DeliverStops` | src/sf4e/sf4e__Game__Battle.cxx:328-353 | Each queued stop, oldest first, stops the first live sound with its request and start frame, if any: in all as many of each as were queued, or all. |
| `SoundSync.StopUnpaired` | src/sf4e/sf4e__Game__Battle.cxx:370-377 | Every live real sound no stub claimed is stopped, and no other. |
| `SoundSync.ReconcileStub` | src/sf4e/sf4e__Game__Battle.cxx:382-429 | A paired stub passes its start frame and voice to its player; an unpaired live one starts a sound, skipped when the engine fails or names no adapter. |
| `SoundSync.SoundManager.PlaySound` | src/sf4e/sf4e__Game__Battle.cxx:175-278 | When the engine is full the oldest live sound is stopped and the request retried; an interrupted sound on a stub counts as a queued stop; failure records nothing. |
| `SoundSync.SoundManager.StopSound` | src/sf4e/sf4e__Game__Battle.cxx:280-293 | The adapter is marked stopped, a stub queues the stop, the engine is told. |
| `SoundSync.SoundManager.StopAll` | src/sf4e/sf4e__Game__Battle.cxx:295-311 | Every adapter is marked stopped; a stub queues every entry; the engine is not told. |
| `SoundSync.Oldest` | src/sf4e/sf4e__Game__Battle.cxx:221-231 | The live sound that started first, lowest adapter among equals; none exactly when nothing is live. |
| `StateChecksum.KeyChangeShows` | src/sf4e/sf4e__Game__Battle__System.cxx:2221-2267 | Two save states whose keys have the same mementos but for exactly one non-heap word (or the trailing bytes) in front of one key's metadata table never have the same checksum. |
| `StateChecksum.GlobalChangeShows` | src/sf4e/sf4e__Game__Battle__System.cxx:2196-2219 | Nor do two states that differ in one of the ten battle variables, or in one non-heap word of the game manager. |
| `StateChecksum.RelocationIsInvisible` | src/sf4e/sf4e__Game.cxx:155-207 | Two states, possibly of two processes, that differ only in where the heap objects lie (same words elsewhere, same places equal to one another) have the same per-key and total checksums. |
| `StateChecksum.PlainStateSumsAgree` | src/sf4e/sf4e__Game.cxx:73-87 | When no key holds a heap address the normalised and the raw checksum agree. |
| `StateChecksum.OneWordShows` | src/sf4e/sf4e__Game.cxx:155-207 | A one-word difference always changes the digest of a key's data. |
| `StateChecksum.LengthShows` | src/sf4e/sf4e__Game.cxx:209-246 | Zero bytes at the end are not lost: the length alone changes the digest. |
| `StateChecksum.VariableShows` | src/sf4e/sf4e__Game__Battle__System.cxx:2196-2219 | Each of the ten battle variables has a word of its own among those hashed, and a change to it shows there and nowhere else. |
| `Checksum.SubstitutedIff` | src/sf4e/sf4e__Game.cxx:73-179 | Exactly the words that point into a heap block of the user address range are replaced. |
| `Checksum.NormalizingKeepsPattern` | src/sf4e/sf4e__Game.cxx:155-179 | Unless plain data mimics a substituted word, two buffers are hashed as the same words if and only if they are equal up to relocation of heap objects. |
| `Checksum.RelocationAgrees` | src/sf4e/sf4e__Game.cxx:155-179 | First-appearance numbering gives equal ordinals and equal hashed words to buffers equal up to relocation. |
| `Checksum.NormalizingIsIdempotent` | src/sf4e/sf4e__Game.cxx:103-179 | Normalising normalised words, with any numbering, changes nothing. |
| `Checksum.NormalizedHasNoPointers` | src/sf4e/sf4e__Game.cxx:103-179 | No word as hashed is a heap pointer; substituted words lie outside the user address range. |
| `Checksum.PlainWordsStay` | src/sf4e/sf4e__Game.cxx:155-179 | Without heap pointers the hashed words are the words themselves. |
| `Checksum.NumberingDistinct` | src/sf4e/sf4e__Game.cxx:166-176 | Different heap pointers get different ordinals. |
| `Checksum.NormalizedApart` | src/sf4e/sf4e__Game.cxx:155-179 | A change to one word that is no pointer on either side changes that hashed word and no other. |
| `Checksum.WordsDetermineBytes` | src/sf4e/sf4e__Game.cxx:162-194 | No byte escapes the hash: words, tail word and length determine the buffer. |
| `Mixing.DigestSensitive` | src/sf4e/sf4e__Game.cxx:209-246 | A change to exactly one word, to the tail alone, or to the length alone, changes the digest. |
| `Mixing.DigestSeed` | src/sf4e/sf4e__Game.cxx:209-246 | A digest is injective in its seed. |
| `Mixing.MixedInjective` | src/sf4e/sf4e__Game.cxx:248-250 | Mixing is injective in the running hash and in the value mixed in. |
| `Mixing.MixedUpToSensitive` | src/sf4e/sf4e__Game__Battle__System.cxx:2233-2261 | Of two runs of mixed-in values that differ in one place, the totals differ from that place on and are equal before it. |
| `Mixing.RoundInjective` | src/sf4e/sf4e__Game.cxx:218-223 | One hash round is injective in the running hash and in the word. |
| `Mixing.FinishInjective` | src/sf4e/sf4e__Game.cxx:240-244 | The final avalanche is injective. |
| `StateChecksum.HashBytes` | src/sf4e/sf4e__Game.cxx:209-246 | The loop computes the digest of the words, the tail and the length. |
| `StateChecksum.Mix` | src/sf4e/sf4e__Game.cxx:248-250 | Hashing the four bytes of a value computes the specified mixing step. |
| `StateChecksum.PointerNormalizer.Hash` | src/sf4e/sf4e__Game.cxx:155-207 | The loop computes the digest of the words with heap pointers replaced, and leaves the extended numbering behind. |
| `StateChecksum.PointerNormalizer.Substitute` | src/sf4e/sf4e__Game.cxx:165-179 | A new heap pointer takes the next ordinal, a known one keeps its own, anything else passes through. |
| `StateChecksum.PointerNormalizer.Reset` | src/sf4e/sf4e__Game.cxx:151-153 | The numbering starts over. |
| `StateChecksum.DataSize` | src/sf4e/sf4e__Game.cxx:54-71 | Everything in front of the metadata table is hashed if the table lies behind the mementos inside the allocation, else nothing; never more than the key's buffer. |
| `StateChecksum.SavedState.HashGlobalData` | src/sf4e/sf4e__Game__Battle__System.cxx:2196-2219 | The field-by-field hash is the digest of the game manager seeded with all ten variables in order. |
| `StateChecksum.SavedState.ComputeChecksum` | src/sf4e/sf4e__Game__Battle__System.cxx:2221-2267 | Per key, numbered afresh: size, normalised and raw digest; then the totals mix them in key order and the global digest last. |
| `SessionRuns.CurrentIffNothingMissing` | src/session/sf4e__SessionServer.cxx:288-697 | Whatever the lobby, across joins, departures, winner-stays results and handovers: every non-zero pick handed out in any run of turns of the main loop is the last valid pick of the player now on that side, if and only if no poll comes to a missing message. |
| `SessionRuns.BroadcastPicksAreCurrent` | src/session/sf4e__SessionServer.cxx:165-183 | In every run that keeps the main loop's order, across joins, departures, winner-stays results and handovers, every non-zero pick handed out is the last valid pick of the player now on that side. |
| `SessionRuns.LateDepartureServesStalePick` | src/session/sf4e__SessionServer.cxx:288-305 | In any lobby: four turns, the third cut short by a missing message, after which the server hands out a pick its player has replaced. Every request in it carries the lobby's secret and build. |
| `SessionRuns.TurnFollowsLoop` | src/server/lobby_server.cxx:781-787 | A turn of the main loop that is not cut short (departures and handovers, messages, drop) keeps to that order. |
| `SessionRuns.RunIsSeated` | src/session/sf4e__SessionServer.cxx:896-998 | Every reachable member list is at most two players followed by at most two spectators, with distinct names, connections and pipes, and every piped spectator has a pipe and ports of its own lobby. |
| `SessionRuns.FreshSlot` | src/session/sf4e__SessionServer.cxx:969-983 | The pipe given to a new spectator is free and below the lobby's slot count, by pigeonhole on the lowest-free search. |
| `SessionRuns.JoinKeepsSeated` | src/session/sf4e__SessionServer.cxx:896-998 | A join keeps the seating. |
| `SessionRuns.LeaveKeepsSeated` | src/session/sf4e__SessionServer.cxx:823-838 | A departure keeps the seating. |
| `SessionRuns.ResultsKeepSeated` | src/session/sf4e__SessionServer.cxx:1081-1098 | A result keeps the seating. |
| `SessionRuns.ResultsSeats` | src/session/sf4e__SessionServer.cxx:1081-1098 | With two players a report against seat 0 swaps the two seats; any other report moves nobody. |
| `SessionRuns.ResultsPermute` | src/session/sf4e__SessionServer.cxx:1081-1098 | A result permutes the members and the loser ends last among the players. |
| `SessionRuns.ResultsCarryPicks` | src/session/sf4e__SessionServer.cxx:1081-1109 | Each pick and its owner stay with the player through a result, and both sides are no longer ready. |
| `SessionRuns.JoinMatches` | src/session/sf4e__SessionServer.cxx:984-996 | A newcomer moves nobody who sits as a player, and no held pick becomes his. |
| `SessionRuns.StepKeepsPicks` | src/session/sf4e__SessionServer.cxx:288-683 | Each event keeps the invariant behind the pick property. |
| `SessionRuns.RunRooms` | src/session/sf4e__SessionServer.cxx:288-697 | Runs with their history go through the same rooms as the bare event sequence the server object implements. |
| `SessionHistory.MemberIff` | src/session/sf4e__SessionServer.cxx:823-998 | Along every run the connections in a lobby are exactly those let in that have neither left nor been put out by a handover since. |
| `SessionHistory.LeaveRemoves` | src/session/sf4e__SessionServer.cxx:823-838 | Whoever disconnects is gone, and everybody else is still there in the same order. |
| `SessionHistory.MemberCameBy` | src/session/sf4e__SessionServer.cxx:896-998 | In every run each member is as one of the join requests made him, and nobody sits in a lobby without its present secret and build. |
| `SessionHistory.PickIsHeld` | src/session/sf4e__SessionServer.cxx:409-438 | In every run a valid pick of a seated player is held for him from when it is made, through joins, results, readies, drops and other players' picks, until he picks again, somebody leaves or the lobby is handed over. |
| `SessionHistory.PickHasOrigin` | src/session/sf4e__SessionServer.cxx:409-438 | In every run whatever a side holds somebody picked, with conditions in range, since the lobby was handed out. |
| `SessionHistory.ReadyHasOrigin` | src/session/sf4e__SessionServer.cxx:590-632 | In every run whoever is ready said so, with that message, since the last result and the last handover. |
| `SessionHistory.ReadyIsTaken` | src/session/sf4e__SessionServer.cxx:590-632 | A seated sender's ready is taken; it can be taken back until both are ready and not from then on; nothing else changes. |
| `SessionSeats.CleanNames` | src/session/sf4e__SessionServer.cxx:912-921 | Any name comes out printable; a printable one is kept, up to its 32nd character. |
| `SessionSeats.UnprintableIsIgnored` | src/session/sf4e__SessionServer.cxx:912-921 | What cannot be printed might as well not have been typed. |
| `SessionSeats.LowestFreeIs` | src/session/sf4e__SessionServer.cxx:972-979 | The search gives the lowest number not taken. |
| `SessionSeats.SlotsTakenSize` | src/session/sf4e__SessionServer.cxx:972-979 | No more pipes are taken than there are spectators. |
| `SessionSeats.CleanName` | src/session/sf4e__SessionServer.cxx:912-921 | A cleaned name is never empty and never longer than 32 characters. |
| `SessionServer.SessionServer.PlayerCount` | src/session/sf4e__SessionServer.cxx:143-149 | The loop counts the members who are no spectators. |
| `SessionServer.SessionServer.Clean` | src/session/sf4e__SessionServer.cxx:912-921 | The loop gives the first 32 printable characters, or the stand-in name. |
| `SessionServer.SessionServer.FreeSlot` | src/session/sf4e__SessionServer.cxx:972-979 | The nested search ends, with the lowest pipe no member has. |
| `SessionServer.SessionServer.RegisterToWait` | src/session/sf4e__SessionServer.cxx:896-998 | The answer and the new member list are the specified ones, in the order of the checks: secret, build, room, role, pipe, name. |
| `SessionServer.SessionServer.OnJoinRequest` | src/session/sf4e__SessionServer.cxx:381-405 | A request that does not parse is answered as invalid and changes nothing; any other gets the specified answer. |
| `SessionServer.SessionServer.OnSetChara` | src/session/sf4e__SessionServer.cxx:409-438 | Only a member on one of the first two seats, with conditions in range, sets that side's pick and owner. |
| `SessionServer.SessionServer.OnReady` | src/session/sf4e__SessionServer.cxx:590-632 | Ready is set on the sender's side; it is taken back only while not both are ready. |
| `SessionServer.SessionServer.HandleResults` | src/session/sf4e__SessionServer.cxx:1059-1110 | The new members, picks, owners and ready flags are the specified rotation. |
| `SessionServer.SessionServer.DropCharaFromVacatedSeats` | src/session/sf4e__SessionServer.cxx:165-183 | On each side a pick whose owner is not the player there is cleared with its owner and ready flag; nothing else changes. |
| `SessionServer.SessionServer.OnDisconnected` | src/session/sf4e__SessionServer.cxx:823-838 | The first member on the connection is removed; in a seated room everybody else is left, in the same order, and nobody on that connection. |
| `SessionServer.SessionServer.HandOver` | src/server/lobby_server.cxx:445-464 | Everyone is out, match data cleared, the new secret and build in force; the owners of cleared picks stay behind. |
| `SessionServer.SessionServer.Step` | src/session/sf4e__SessionServer.cxx:288-697 | One poll: every message in order up to a missing one, where it ends at once with an error; else the drop, and what goes out is the resulting members and picks. |
| `Relay.RunIsSound` | src/server/lobby_server.cxx:114-254 | Along every run of seat changes, clears and pumps a learned slot has its seat's current non-zero address, the two learned endpoints differ, and after a pump none has been quiet beyond the timeout. |
| `Relay.RunForwardsAcross` | src/server/lobby_server.cxx:160-253 | Along every run of seat changes, clears and pumps, whatever a pump sends is accounted for by one datagram of its inbox: passed on from one slot's endpoint to the other's and never back to its sender, at most once each and in order, or a player's probe answered to that player. |
| `Relay.SendsAreCaused` | src/server/lobby_server.cxx:160-253 | The same for one inbox from any sound state. |
| `Relay.EstablishedRelayIsAWire` | src/server/lobby_server.cxx:160-253 | Once both players are known, exactly their datagrams cross, in order, each to the other; nobody else takes a slot or is forwarded. |
| `Relay.BootForwards` | src/server/lobby_server.cxx:114-253 | From boot: once the seats are announced and each player has spoken in one pump, the relay is a wire between exactly those two. |
| `Relay.LearnsFirstSpeakers` | src/server/lobby_server.cxx:202-232 | What one inbox teaches a relay that knows nobody: the first seat's slot goes to the first who speaks from its address, the second's to the first other one who speaks from its own; two players behind one address both get in. |
| `Relay.NewcomerTakesSlot` | src/server/lobby_server.cxx:221-232 | An unknown player takes the lowest free slot of his address. |
| `Relay.OnlyNewcomersTakeSlots` | src/server/lobby_server.cxx:202-232 | And nobody else ever takes one. |
| `Relay.BothGetIn` | src/server/lobby_server.cxx:160-244 | From any sound state, two speakers on the two seats' addresses end up with both slots taken. |
| `Relay.SpeakerKeepsSlot` | src/server/lobby_server.cxx:238-253 | Whoever speaks keeps his slot through the pump, however long he was quiet before. |
| `Relay.ReceiveIsSound` | src/server/lobby_server.cxx:170-244 | A datagram is forwarded only out of one slot's endpoint into the other's, never back; a probe is only ever answered, and only to a member. |
| `Relay.Relay.AdoptSeats` | src/server/lobby_server.cxx:138-146 | A changed seat drops its slot, an unchanged one keeps it. |
| `Relay.Relay.Forget` | src/server/lobby_server.cxx:154-158 | Both slots are dropped. |
| `Relay.Relay.SlotFor` | src/server/lobby_server.cxx:202-237 | A known sender keeps its slot; otherwise the first free slot whose seat has its address is taken, by members only. |
| `Relay.Relay.OnDatagram` | src/server/lobby_server.cxx:170-244 | State and sends are the specified ones for probes, members, strangers and third senders. |
| `Relay.Relay.PumpOnce` | src/server/lobby_server.cxx:160-253 | Everything up to an empty read is handled in order, then quiet slots are dropped. |
| `Pipe.RunKeepsMembersOnly` | src/server/lobby_server.cxx:259-344 | Along every run a pipe only holds endpoints of the current members, and after a pump none past the timeout. |
| `Pipe.OutsidersAreNoise` | src/server/lobby_server.cxx:298-330 | A pipe does with any traffic exactly what it would do with the members' datagrams alone. |
| `Pipe.TakeIsGuarded` | src/server/lobby_server.cxx:298-330 | A stranger's datagram changes nothing; a member's goes only to the endpoint last learned on the other side. |
| `Pipe.Pipe.SetAllowed` | src/server/lobby_server.cxx:270-275 | A changed member list forgets both endpoints. |
| `Pipe.Pipe.PumpSide` | src/server/lobby_server.cxx:298-330 | One side's datagrams are handled in order as specified. |
| `Pipe.Pipe.PumpBoth` | src/server/lobby_server.cxx:332-343 | Host side, spectator side, then the timeouts. |
| `LobbyRuns.ReachableIsOk` | src/server/lobby_server.cxx:388-464 | In every reachable state, relay and pipe traffic included, active codes are pairwise distinct, no address holds more than two active lobbies, an inactive lobby is empty and locked, and every member came in with its lobby's current secret. |
| `LobbyRuns.RoomIsSession` | src/server/lobby_server.cxx:725-815 | In every reachable state each lobby's room is one its own session reaches by itself from its first opening, each connection joining at most once; so what holds of session runs holds of every lobby. |
| `LobbyRuns.CreatedLobbyIsFound` | src/server/lobby_server.cxx:518-608 | The code just handed out, typed in either case, finds that lobby with its secret; that secret and build open it, any other secret is refused; it is its creator's, as old as the request, listed and titled as asked; its relay and pipes hold no endpoint from before. |
| `LobbyRuns.CreateKeepsServerOk` | src/server/lobby_server.cxx:518-567 | A create request keeps all of that. |
| `LobbyRuns.StepKeepsServerOk` | src/server/lobby_server.cxx:445-567 | So do housekeeping, traffic and anything that happens in a session. |
| `LobbyRuns.SessionKeepsLobbyOk` | src/session/sf4e__SessionServer.cxx:896-908 | Whoever is in a lobby presented its current secret; without a secret nobody gets in. |
| `LobbyRuns.PortsDisjoint` | src/server/lobby_server.cxx:38-46 | No two lobbies share a port, none has the matchmaker's, all are valid port numbers. |
| `LobbyRuns.MembersUseOwnPorts` | src/server/lobby_server.cxx:736-754 | In every reachable state every spectator of a lobby is sent to two adjacent ports of that lobby, and two spectators never to the same. |
| `LobbyRuns.PlayersUseOwnRelay` | src/session/sf4e__SessionServer.cxx:926-968 | In every reachable state every player is sent to the relay port of his own lobby, and nobody is told another's address. |
| `LobbyRuns.LookupForetellsJoin` | src/server/lobby_server.cxx:586-608 | The lookup tells beforehand what the session will say: a code is answered with its lobby and secret exactly if joining there with that secret, the same build and a free name would succeed, and otherwise with the reason. |
| `LobbyRuns.LookupMisses` | src/server/lobby_server.cxx:429-436 | A code no active lobby has is not found. |
| `LobbyRuns.CreateSucceedsIff` | src/server/lobby_server.cxx:518-567 | A request gets a lobby exactly if it names a build, its sender has fewer than two lobbies with somebody in them, and some lobby is idle or his own and empty. |
| `LobbyRuns.AgedIff` | src/server/lobby_server.cxx:804-814 | Housekeeping releases an active lobby exactly if nobody has been in it for 90 seconds or it is older than twelve hours, and else only notes that it was in use. |
| `LobbyRuns.TitleIsKept` | src/server/lobby_server.cxx:500-528 | A lobby has the title it was given, or its creator's name in it. |
| `LobbyRuns.TypedEitherWay` | src/server/lobby_server.cxx:587-590 | A code of capital letters and digits may be typed in small letters. |
| `LobbyTraffic.TurnServesSession` | src/server/lobby_server.cxx:785-802 | A turn of the main loop, in every reachable state of the whole server: once relay and pipes are refreshed, whatever arrives, each thing the relay sends is caused by its own datagram, in order, and goes from one current player's address to the other's or answers a current player; a pipe only ever sends to addresses of the session's current members. |
| `LobbyTraffic.OnlyEvictionOutdates` | src/server/lobby_server.cxx:785-814 | From then on to the next session event relay and pipes keep knowing exactly the current players and members, whatever happens in any lobby, if and only if the age limit has not just emptied this one of somebody with an address. |
| `LobbyTraffic.EvictionHappens` | src/server/lobby_server.cxx:811-813 | From any address: a lobby is created and joined from it, and twelve hours later released with its guest still listed by relay and pipes. |
| `LobbyTraffic.ReachableTraffic` | src/server/lobby_server.cxx:138-347 | In every reachable state of the server each relay keeps its invariant and each pipe holds endpoints of the addresses it was last told about only. |
| `LobbyTraffic.TurnConnectsPlayers` | src/server/lobby_server.cxx:785-799 | In every reachable state with two players in a session, a turn in which each speaks from the address he joined from gives both their slots, and whatever they say from then on crosses over. |
| `LobbyTraffic.RelayServesPlayers` | src/server/lobby_server.cxx:160-253 | While the seats are those of the session, a pump crosses datagrams only between the two players, each at most once and in order, and answers nobody else. |
| `LobbyTraffic.PipesServeMembers` | src/server/lobby_server.cxx:298-343 | While the list is that of the session, a pump of a pipe sends to members only. |
| `Pipe.PumpServesMembers` | src/server/lobby_server.cxx:298-343 | A whole pump of a pipe sends only to addresses it was last told about. |
| `Pipe.PumpDelivers` | src/server/lobby_server.cxx:298-343 | A whole pump: every member's datagram on the host side goes where the spectator last spoke from, then the spectator's to where the host just did; who spoke is known afterwards. |
| `SessionServer.SessionServer.PlayerIPv4s` | src/session/sf4e__SessionServer.cxx:235-241 | The addresses of the first two players by seat, 0 for an empty seat. |
| `SessionServer.SessionServer.MemberIPv4s` | src/session/sf4e__SessionServer.cxx:225-233 | The non-zero addresses of all members, in order. |
| `LobbyServer.LobbyServer.NewCode` | src/server/lobby_server.cxx:388-404 | The first drawn code no active lobby has. |
| `LobbyServer.LobbyServer.ResetLobby` | src/server/lobby_server.cxx:445-464 | The lobby is released, its relay and pipes silenced, its session emptied and locked; no other lobby changes. |
| `LobbyServer.LobbyServer.HandleCreate` | src/server/lobby_server.cxx:518-567 | The creator's own empty lobbies go, the cap is checked, the first free lobby is taken, titled, listed and silenced; the reply and the whole table are the specified ones. |
| `LobbyServer.LobbyServer.Title` | src/server/lobby_server.cxx:524-528 | The cleaned title, or one made from the cleaned name; never empty, never over 25 characters. |
| `LobbyServer.LobbyServer.Housekeep` | src/server/lobby_server.cxx:804-815 | A lobby empty for 90 seconds or older than 12 hours is released. |
| `LobbyServer.LobbyServer.HandleJoin` | src/server/lobby_server.cxx:586-608 | The lookup's answer for the upper-cased code: not found, full for players, full for spectators, wrong build, or the lobby and its secret. |
| `SnapshotSync.ComparesOnceAndRight` | src/session/sf4e__SessionClient.cxx:367-419 | In every run each client sends a frame at most once and compares it at most once, always its own captured snapshot with the peer's captured snapshot of that frame. |
| `SnapshotSync.QuietMeansClean` | src/session/sf4e__SessionClient.cxx:493-588 | When both captured the same frames, everything is delivered, settled and gone over, both snapshot maps and both pending maps are empty and every frame was compared on both sides. |
| `SnapshotSync.OnePassCleans` | src/session/sf4e__SessionClient.cxx:367-588 | From any consistent state in which both captured the same frames and all have settled, one pass on each side and the delivery of what is on the way empty both snapshot maps and both pending maps and leave every frame compared on both sides. |
| `SnapshotSync.ReconcileDoes` | src/session/sf4e__SessionClient.cxx:495-588 | A reconciliation sends and compares exactly what is due and at least 60 frames old and past any rollback; a spectator sends nothing. |
| `SnapshotSync.RunsCatchUp` | src/session/sf4e__SessionClient.cxx:367-588 | So every run can catch up. |
| `SnapshotSync.RunIsConsistent` | src/session/sf4e__SessionClient.cxx:367-588 | The protocol invariant: each sent snapshot is in exactly one of link, pending map and comparison log of the other side, and records agree with history. |
| `SnapshotSync.ReceiveFits` | src/session/sf4e__SessionClient.cxx:367-419 | Taking the next snapshot off the link keeps the invariant. |
| `SnapshotSync.VisitFits` | src/session/sf4e__SessionClient.cxx:532-586 | Going over one settled entry keeps the visiting side's half. |
| `SnapshotSync.VisitReaches` | src/session/sf4e__SessionClient.cxx:532-548 | What it sends is new to the other side. |
| `SnapshotSync.PassFits` | src/session/sf4e__SessionClient.cxx:520-587 | So does a whole reconciliation pass. |
| `SnapshotSync.CaptureFits` | src/sf4e/sf4e__Game__Battle__System.cxx:1858-1876 | A capture that replaces no entry already sent or compared keeps the invariant. |
| `SnapshotSync.SnapshotClient.CaptureSnapshot` | src/sf4e/sf4e__Game__Battle__System.cxx:1858-1876 | Every 60 frames the entry is replaced by a fresh one. |
| `SnapshotSync.SnapshotClient.OnBattleSnapshot` | src/session/sf4e__SessionClient.cxx:367-419 | A known frame is compared and confirmed, and goes if it was sent; an unknown one waits, replacing what waited before. |
| `SnapshotSync.SnapshotClient.VisitOne` | src/session/sf4e__SessionClient.cxx:532-586 | Sent unless it was or this is a spectator; compared if the peer's waits; removed once both. |
| `SnapshotSync.SnapshotClient.ReconcileSnapshots` | src/session/sf4e__SessionClient.cxx:495-588 | The loop goes over the settled entries in frame order, never less than 60 frames deep. |
| `PunchProtocol.SuccessMeansAllIff` | src/session/sf4e__HolePunch.cxx:233-392 | Over a lossy, repeating, reordering, non-forging network a match-start success always means that the peer is in a match-start punch, has received one of our probes, and that the endpoint lies on a host it offered, if and only if no offered address leads back to ourselves and no other address leads to a machine that can ack us. |
| `PunchProtocol.EndsOnOfferedIffNoStrayReturn` | src/session/sf4e__HolePunch.cxx:348-371 | The endpoint part alone: every reachable match-start success ends on an offered host if and only if no address on another host leads to a machine that can ack our probes. The condition speaks of the offers and the routes only, before any call. |
| `PunchProtocol.StrayReturnMisleads` | src/session/sf4e__HolePunch.cxx:348-371 | With such an address there is a run, each turn before deadline and settle time, in which the same ack delivered again from there moves the endpoint of a success off the offered hosts. |
| `PunchProtocol.SuccessHasOrigin` | src/session/sf4e__HolePunch.cxx:309-379 | In every run the endpoint of a match-start success leads to a machine that can ack our probes. |
| `PunchProtocol.MutualIffNoSelfLoop` | src/session/sf4e__HolePunch.cxx:233-392 | Over a lossy, repeating, reordering, non-forging network a match-start success always means that the peer is in a match-start punch and has received one of our probes if and only if no address we were offered leads back to ourselves. |
| `PunchProtocol.ProvenMeansPeerIsThere` | src/session/sf4e__HolePunch.cxx:233-392 | Without such an address, in every run a success is never one-sided. |
| `PunchProtocol.SelfLoopFoolsThePunch` | src/session/sf4e__HolePunch.cxx:233-392 | With one, there is a run in which the punch succeeds all alone. |
| `PunchProtocol.ReachableIsSound` | src/session/sf4e__HolePunch.cxx:233-423 | The protocol invariant: marked probes come from machines in a match-start punch, a probe has reached only machines its sender's addresses lead to, and an ack comes from a machine a probe has reached. |
| `PunchProtocol.PollKeepsSound` | src/session/sf4e__HolePunch.cxx:309-379 | A turn of the punch loop keeps it. |
| `PunchProtocol.KeepKeepsSound` | src/session/sf4e__HolePunch.cxx:395-423 | A keepalive keeps it: it answers plain probes only. |
| `HolePunch.ChosenOfferedIff` | src/session/sf4e__HolePunch.cxx:348-371 | For one call on its own: given which addresses can reach us, every run of the loop to its deadline that succeeds ends on an offered host if and only if these are not of both kinds, on offered hosts and on others. |
| `HolePunch.LateAckRedirects` | src/session/sf4e__HolePunch.cxx:348-371 | For any candidates, kind of punch and deadline: one ack from an offered host and a later one from any other address end the whole loop proven, with the endpoint at the other address. |
| `HolePunch.ChosenIsLastAcker` | src/session/sf4e__HolePunch.cxx:348-371 | An attempt has its ack exactly when some ack came from an offered host, and its endpoint is the last acker. |
| `HolePunch.ProvenIff` | src/session/sf4e__HolePunch.cxx:309-383 | What a whole call proves, told by the datagrams it took alone: proven exactly when they are convincing, with the endpoint at the last acker. |
| `HolePunch.LoopedHears` | src/session/sf4e__HolePunch.cxx:309-379 | Running the loop leaves the same proof as hearing the datagrams it took one after another: timers and waits decide only when it ends. |
| `HolePunch.AckedPeerIff` | src/session/sf4e__HolePunch.cxx:335-346 | The peer counts as heard exactly when a marked probe, or in the lobby any probe, was among the datagrams. |
| `HolePunch.UsableAre` | src/session/sf4e__HolePunch.cxx:246-272 | The candidates are all the addresses given, with a port and well formed, no others, in the order given. |
| `HolePunch.KeepaliveAnswers` | src/session/sf4e__HolePunch.cxx:395-423 | A keepalive answers each plain probe once, in order, and nothing else. |
| `HolePunch.HearTimes` | src/session/sf4e__HolePunch.cxx:335-378 | When the path is first proven 150 ms are left, 1200 in the lobby while the peer has not been heard, 150 from when he is; the round trip is measured by the first ack. |
| `HolePunch.PollProbes` | src/session/sf4e__HolePunch.cxx:313-333 | A turn probes every candidate exactly if the last round was 50 ms ago, and besides only answers what it took. |
| `HolePunch.LoopEndsWhenDue` | src/session/sf4e__HolePunch.cxx:309-313 | The loop goes on exactly while deadline and settle time are still to come. |
| `HolePunch.KindsDiffer` | src/session/sf4e__HolePunch.cxx:292-295 | Plain probe, marked probe and ack can never be mistaken for one another. |
| `HolePunch.Candidates` | src/session/sf4e__HolePunch.cxx:246-272 | The addresses given, with a port and well formed, in order. |
| `HolePunch.OnDatagram` | src/session/sf4e__HolePunch.cxx:335-378 | Probes are answered and counted, acks noted, strays ignored, the settle time set, as specified. |
| `HolePunch.Loop` | src/session/sf4e__HolePunch.cxx:309-379 | The polling loop ends in the specified state with the specified sends, at the deadline, the settle time or a dead socket, on a wrapping clock. |
| `HolePunch.Punch` | src/session/sf4e__HolePunch.cxx:233-392 | True exactly when the socket did not fail, there is an address worth probing, and among the datagrams taken some ack came from an offered host and, at match start, some marked probe came; probing, resending and settle times decide nothing else. End and sends are the specified ones. |
| `HolePunch.Keepalive` | src/session/sf4e__HolePunch.cxx:395-423 | Nothing without a well-formed peer address and port; otherwise one plain probe, then the plain probes among the first eight queued datagrams, up to an empty one, are answered in order. |
| `InputRepair.RunIsFaithful` | vcpkg-ports/ggpo/input-repair.h:9-65 | In every run, on a clock read modulo 2^32: repairs are at least 33 ms apart, five of them span a second (but where the repair count has just wrapped), acknowledged never exceeds newest, the retry time is one of 33, 66, 132, 200. |
| `InputRepair.BudgetIffCountFits` | vcpkg-ports/ggpo/input-repair.h:44-51 | In all runs of at most k repairs any five consecutive ones span at least 1000 ms, if and only if k is at most 2^32. |
| `InputRepair.FiveRepairsTakeASecond` | vcpkg-ports/ggpo/input-repair.h:44-49 | While at most 2^32 repairs were made, any five consecutive ones span at least 1000 ms. |
| `InputRepair.BudgetLapsesAtTheWrap` | vcpkg-ports/ggpo/input-repair.h:44-49 | There is a run of exactly 2^32 + 1 repairs whose last five fall within 800 ms. |
| `InputRepair.HealthyRunIsNeverRepaired` | vcpkg-ports/ggpo/input-repair.h:37-43 | A run in which every try comes at most 32 ms after a send makes no repair at all. |
| `InputRepair.HealthyStreamNeedsNone` | vcpkg-ports/ggpo/input-repair.h:37-43 | After any run, at most 32 ms after a send nothing is due. |
| `InputRepair.StalledStreamIsRepaired` | vcpkg-ports/ggpo/input-repair.h:37-55 | Unacknowledged input is repaired as soon as the retry time has passed and the budget allows. |
| `InputRepair.RetryBacksOff` | vcpkg-ports/ggpo/input-repair.h:21-54 | In every run the wait before the next repair is 33 ms after progress and doubles with each repair without any: 66, 132, then 200. |
| `InputRepair.NothingOutstanding` | vcpkg-ports/ggpo/input-repair.h:29-43 | In every run nothing is due once the newest input sent has been acknowledged. |
| `InputRepair.RepairIsWanted` | vcpkg-ports/ggpo/input-repair.h:37-43 | In every run a repair is only made while repairs are wanted and the transport is idle. |
| `InputRepair.SinceBounds` | vcpkg-ports/ggpo/input-repair.h:40-46 | A wrapped difference never overstates the true one, and is exact below 2^32. |
| `InputRepair.InputRepair.OnInputSent` | vcpkg-ports/ggpo/input-repair.h:21-27 | Newer input resets the backoff; any send restarts the timer. |
| `InputRepair.InputRepair.OnAck` | vcpkg-ports/ggpo/input-repair.h:29-35 | Stale and impossible acknowledgments change nothing. |
| `InputRepair.InputRepair.TryRepair` | vcpkg-ports/ggpo/input-repair.h:37-55 | True exactly when due; then the ring, the count, the timer and the backoff move on, else nothing does. |
| `Afterimage.RecordThenRestore` | src/sf4e/sf4e__Game__Battle__Chara.cxx:134-188 | After a record into an unchanged slot a restore brings back the state bytes always, and is made on the actor exactly when the slot was sized for it, its record succeeded and its box counts account for its size: then the actor is the recorded one, or what the engine leaves when its restore fails; else it is left alone. |
| `Afterimage.FoundSlotIsWhole` | src/sf4e/sf4e__Game__Battle__Chara.cxx:84-105 | A found slot is one of the key's, whole, inside its buffer and apart from all others. |
| `Afterimage.SlotIsFoundIff` | src/sf4e/sf4e__Game__Battle__Chara.cxx:84-105 | In a key as the engine lays it out exactly the listed slots are found, each at its size. |
| `Afterimage.CountsMatchIff` | src/sf4e/sf4e__Game__Battle__Chara.cxx:172-179 | A payload is accepted exactly if its five counts are not negative and it is 576 bytes long and 272 more for each box. |
| `Afterimage.RecordKeepsToItsSlot` | src/sf4e/sf4e__Game__Battle__Chara.cxx:134-154 | A record changes no byte of memory outside its slot. |
| `Afterimage.RecordKeepsState` | src/sf4e/sf4e__Game__Battle__Chara.cxx:134-154 | Tail and actor part never touch the bytes a restore copies back. |
| `Afterimage.TailReadsBack` | src/sf4e/sf4e__Game__Battle__Chara.cxx:148-151 | The four words of the tail read back as written. |
| `Afterimage.ActorComesBack` | src/sf4e/sf4e__Game__Battle__Chara.cxx:156-183 | The restore decides about the actor as the record did. |
| `Afterimage.AskedSlotIsSized` | src/sf4e/sf4e__Game__Battle__Chara.cxx:128-132 | A slot sized by asking first fits the actor part. |
| `Afterimage.Afterimage.Locate` | src/sf4e/sf4e__Game__Battle__Chara.cxx:84-105 | The loop finds the slot or rejects, as specified. |
| `Afterimage.Afterimage.GetMementoSize` | src/sf4e/sf4e__Game__Battle__Chara.cxx:128-132 | Own size rounded up to 16, actor size and tail, in 32 bits. |
| `Afterimage.Afterimage.RecordToMemento` | src/sf4e/sf4e__Game__Battle__Chara.cxx:134-154 | Memory afterwards is the specified one, byte for byte. |
| `Afterimage.Afterimage.CheckCounts` | src/sf4e/sf4e__Game__Battle__Chara.cxx:172-179 | The loop accepts exactly the payloads without a negative count whose counts, in 32 bits, account for the size. |
| `Afterimage.Afterimage.RestoreFromMemento` | src/sf4e/sf4e__Game__Battle__Chara.cxx:156-188 | State and actor afterwards are the specified ones; a null memento changes nothing. |
| `TokenBucket.WindowBound` | src/server/lobby_server.cxx:406-427 | Any window of T ms of any run lets at most 20 + T/200 datagrams of one address through, whatever the others send, and 20 more for each time the table is cleared in it. |
| `TokenBucket.SpacedIsNeverRefused` | src/server/lobby_server.cxx:406-427 | An address keeping 200 ms between datagrams is never refused, clearings included. |
| `TokenBucket.FirstTwentyPass` | src/server/lobby_server.cxx:406-427 | The first twenty datagrams of an address always get through, however close together and whatever the others send, so the bound is reached. |
| `TokenBucket.SpentIsCovered` | src/server/lobby_server.cxx:406-427 | What an address spends plus what it has left is at most a full bucket for each clearing, one more, and the refill since the window began. |
| `TokenBucket.ClearingForgives` | src/server/lobby_server.cxx:412-426 | The datagram that finds the table too large gets through with a full bucket. |
| `TokenBucket.Limiter.AllowMatchmaker` | src/server/lobby_server.cxx:412-427 | Answer and table are the specified ones. |

## Left out

- Engine contracts are parameters: an initialised key gets a fresh buffer, the
  engine's ClearKey leaves a zero key, restoring from what a record pass installed
  rebuilds that state, engine PlaySound returns a free adapter while there is one,
  a stub and its real manager have equally many adapters, a shadow's own memento
  contains the state bytes its restore copies back.
- Save states: null key entries, the sync test and the soak test. An entry of the
  sound map stands for an adapter's metadata or for a manager's object pool.
- SaveStates.Rollback.AdvanceCallback: the inputs come as a parameter, and the snapshot
  captured at the end is `SnapshotSync`'s.
- RollbackRuns.RollbackIsTransparent: a load leaves alone the metadata of adapters the
  save did not know, so with adapters added after a save it assumes that a step makes
  nothing of metadata of adapters its own timeline does not have, and claims nothing
  about that metadata.
- SaveStates.ReclaimLeaks: reclaiming a slot that still owns buffers drops them on
  purpose, so no claim of balance is made there beyond the exact condition.
- SoundSync.SyncState: states the metadata before the engine's own Update; the copied
  playback fields are one opaque voice value.
- Which 64 KB blocks are heap is a fixed predicate; the lazy classification cache and
  its refresh are not modelled. Sizes are those of a 32-bit program.
- Checksum.NormalizingKeepsPattern: excludes plain words from 0x80000000 to
  0xbfffffff, which contain all substituted words, rather than only those in use.
- Session server: JSON, forwarding, direct-endpoint exchange, environment, stage,
  input delay, desync reports, statistics, watching flags, battle-loaded flags and
  ready ownership, and the connection limits before a join. A poll that fails as a
  whole is one whose first message is missing.
- SessionServer.SessionServer.OnReady: the input delay negotiated with the ready is not
  modelled.
- SessionServer.SessionServer.Step: whether anything is sent (the dirty flag) and the
  messages that leave seats and picks alone are not modelled.
- SessionRuns.BroadcastPicksAreCurrent: assumes that a connection joins at most once
  and that connection ids are not reused.
- Relay and pipe: sockets, log counters and the text of answers; a read is a list of
  datagrams. LobbyServer: ping, list and the browser count.
- LobbyServer.LobbyServer.NewCode: random draws are a list in which some code is free.
- LobbyRuns.MembersUseOwnPorts: like every result about sessions it assumes that a
  connection joins at most once.
- SnapshotSync.ComparesOnceAndRight: assumes a frame is captured again only while
  neither sent nor compared, links that lose nothing and keep order, one match.
- HolePunch: address discovery and the NAT type check are not modelled.
- PunchProtocol.MutualIffNoSelfLoop: assumes that the address a datagram seems to come
  from leads back to its sender and that only the two machines know the token.
- Afterimage: log messages are left out.
- Afterimage.RecordThenRestore: assumes mementos below 1 GB and an own memento that
  fits its slot.
- TokenBucket.WindowBound: the source's floating-point tokens are exact units here.
- User interface, overlay, launcher, crash handling, pacing, HUD, GFxApp and TaskCore
  mementos, address tables.
