# AndroidLifecycleHandler, modelled in Dafny

AndroidLifecycleHandler binds an object that has a lifecycle (a `Life`, with
`onBorn`/`onDie`) to an Android lifecycle owner (an activity or fragment).
Each handler registers with an owner and a `LifeSpan` (USER_FLOW,
CONFIGURATION_CHANGED, CREATED, STARTED, RESUMED). It turns the owner's events
into `onBorn` and `onDie` calls, guarded so that the two strictly alternate.
Two handlers carry a payload (a `Bundle`) through the owner's saved-state
registry. A process-wide store lets one USER_FLOW life outlive the activity that
created it. `SLife` fans its own lifecycle out to a set of child lives.

The model has one module per concern:

- `Wrappers`: the `Option` type.
- `SavedState`: bundles, plus the owner's saved-state registry. The registry has a one-shot map of restored payloads and a set of registered provider keys.
- `Lifecycle`: the androidx state order, the six events and the state each one leads to, the `LifeSpan`s, and the `Owner` class.
- `Pairing`: logs of the calls made on a life. It defines the alternation invariant and proves the counting lemmas over such logs.
- `Dispatch`: the guards of `bornIfPossible`/`dieIfPossible` in the two template base classes, written branch by branch. Also what each event method invokes (`Reaction`).
- `LifecycleHandlers`: `AndroidLifecycleHandler` and `AndroidLifecycleHandlerImpl`. They have identical bodies and are modelled as one class, `LifecycleHandler`. Its `base` field selects the BaseLifecycleHandler or the BaseLifeHandler table.
- `ELifeHandlers`: `AndroidELifeHandlerImpl`.
- `ExtendedHandlers`: `AndroidExtendedLifecycleHandlerImpl`.
- `LifeStores`: `LifeStoreImpl` and `LifeWrapper`.
- `SyncedLives`: `SLife`. Its two source copies (commonMain and main) have the same behaviour.

Each handler is a class whose fields are the source's fields, plus the call log and an observing flag; `owner` stands for the lazily bound lifecycle and registry, and the lifecycle handler has a `base` selector. The Life it drives
is outside the model: the handler keeps the log of calls it makes on that Life
(`calls`). Every handler's `Valid()` says the log alternates onBorn/onDie
starting with onBorn, and that the log's parity is the `alive` flag. For the
ELife handler, `Valid()` also says the retained payload is the one the last
`onDie` returned.

What `onDie` returns is a method parameter (`dieResult`). The owner's event
delivery is `Deliver`: the owner moves to the event's target state, and then the
handler's event method runs if the handler still observes the owner.

The die guards follow the code, not the `LifeSpan` doc comments
(`LifeSpan.kt:39-60`). The comments say a CREATED life lives until destroy and a
STARTED life until stop. In the code, `isAtLeast(DESTROYED)` holds in every
state, so the STARTED, CREATED and USER_FLOW branches fire on pause and stop as
well as on destroy. CONFIGURATION_CHANGED has no die branch and never dies.
`Dispatch.LifeDiesNoLaterThanDocumented` states the difference.
`ELifeHandlers.CreatedDiesOnPause` exhibits it.

## Model

Source paths are relative to the repository root.

| member | source | states |
|---|---|---|
| SavedState.SavedStateRegistry.ConsumeRestoredStateForKey | lib/src/androidMain/kotlin/com/github/hadilq/androidlifecyclehandler/AndroidELifeHandlerImpl.kt:61 | returns the restored payload for the key and forgets it, so a second consumption returns nothing; providers untouched |
| SavedState.SavedStateRegistry.RegisterSavedStateProvider | lib/src/androidMain/kotlin/com/github/hadilq/androidlifecyclehandler/AndroidELifeHandlerImpl.kt:52 | the key joins the provider set; restored payloads untouched |
| SavedState.SavedStateRegistry.UnregisterSavedStateProvider | lib/src/androidMain/kotlin/com/github/hadilq/androidlifecyclehandler/AndroidELifeHandlerImpl.kt:76 | the key leaves the provider set; restored payloads untouched |
| Lifecycle.StateAfter | lib/src/main/java/com/github/hadilq/androidlifecyclehandler/BaseLifeHandler.kt:66-95 | the state observers see during an event: never INITIALIZED, DESTROYED exactly for ON_DESTROY, at least CREATED for every forward event |
| Lifecycle.Owner.Move | lib/src/test/java/com/github/hadilq/androidlifecyclehandler/TestSaveStateRegistryOwner.kt:34-67 | handling an event leaves the owner in the event's target state |
| Pairing.CountSplit | lib/src/main/java/com/github/hadilq/androidlifecyclehandler/AndroidLifecycleHandler.kt:54-66 | every call on a life is an onBorn or an onDie: the two counts add up to the log length |
| Pairing.AlternatingBalance | lib/src/main/java/com/github/hadilq/androidlifecyclehandler/AndroidLifecycleHandler.kt:54-66 | in an alternating log the onBorn count exceeds the onDie count by the log's parity |
| Pairing.PairedCounts | lib/src/main/java/com/github/hadilq/androidlifecyclehandler/AndroidLifecycleHandler.kt:54-66 | under the handler invariant, #onBorn = ceil(n/2) and #onDie = floor(n/2) for a log of n calls |
| Pairing.PairedBalance | lib/src/main/java/com/github/hadilq/androidlifecyclehandler/AndroidLifecycleHandler.kt:54-66 | #onBorn - #onDie is 1 while the life is alive and 0 while it is dead |
| Pairing.BornKeepsPairing | lib/src/main/java/com/github/hadilq/androidlifecyclehandler/AndroidLifecycleHandler.kt:54-59 | a born guarded by the alive flag keeps the alternation, leaves the life alive and adds one onBorn only on the dead-to-alive transition |
| Pairing.DieKeepsPairing | lib/src/main/java/com/github/hadilq/androidlifecyclehandler/AndroidLifecycleHandler.kt:61-66 | a guarded die keeps the alternation, leaves the life dead and adds one onDie only on the alive-to-dead transition |
| Pairing.KindsAt | lib/src/androidMain/kotlin/com/github/hadilq/androidlifecyclehandler/AndroidELifeHandlerImpl.kt:57-71 | forgetting payloads maps a payload log position by position onto a plain call log |
| Pairing.LastDiedMeaning | lib/src/androidMain/kotlin/com/github/hadilq/androidlifecyclehandler/AndroidELifeHandlerImpl.kt:65-71 | the latest payload an onDie returned (`LastDied`) is one that occurs in the log, and is absent exactly when no onDie happened |
| Pairing.PayloadBornKeepsPairing | lib/src/androidMain/kotlin/com/github/hadilq/androidlifecyclehandler/AndroidELifeHandlerImpl.kt:57-63 | a payload-carrying born from the dead state keeps the alternation |
| Pairing.PayloadDieKeepsPairing | lib/src/androidMain/kotlin/com/github/hadilq/androidlifecyclehandler/AndroidELifeHandlerImpl.kt:65-71 | a die from the alive state keeps the alternation and makes its result the latest die payload |
| Dispatch.LifeBornGuard | lib/src/main/java/com/github/hadilq/androidlifecyclehandler/BaseLifeHandler.kt:37-49 | the five-branch guard fires exactly when the owner is at least the span's threshold (RESUMED, STARTED, or CREATED for the other three spans) |
| Dispatch.LifeDieGuard | lib/src/main/java/com/github/hadilq/androidlifecyclehandler/BaseLifeHandler.kt:51-64 | the four-branch guard fires exactly for spans other than CONFIGURATION_CHANGED, whatever the state |
| Dispatch.LifecycleBornGuard | lib/src/main/java/com/github/hadilq/androidlifecyclehandler/BaseLifecycleHandler.kt:31-39 | fires exactly for RESUMED/STARTED/CREATED spans whose threshold the owner has reached |
| Dispatch.LifecycleDieGuard | lib/src/main/java/com/github/hadilq/androidlifecyclehandler/BaseLifecycleHandler.kt:41-52 | fires exactly for RESUMED/STARTED/CREATED spans, whatever the state |
| Dispatch.Reaction | lib/src/main/java/com/github/hadilq/androidlifecyclehandler/BaseLifeHandler.kt:66-95 | an event invokes born iff it is forward and the born guard holds, die iff it is backward and the die guard holds, unregister iff it is ON_DESTROY |
| Dispatch.ReactionOrder | lib/src/main/java/com/github/hadilq/androidlifecyclehandler/BaseLifeHandler.kt:66-95 | no event method invokes an action twice, and ON_DESTROY unregisters last, after its die |
| Dispatch.ForwardBornsBackwardDies | lib/src/main/java/com/github/hadilq/androidlifecyclehandler/BaseLifecycleHandler.kt:54-83 | forward events never die or unregister and invoke at most one action; backward events never born |
| Dispatch.LifecycleIgnoresLongSpans | lib/src/main/java/com/github/hadilq/androidlifecyclehandler/BaseLifecycleHandler.kt:31-52 | under BaseLifecycleHandler a USER_FLOW or CONFIGURATION_CHANGED life is never born or killed; ON_DESTROY only unregisters |
| Dispatch.LifeDiesNoLaterThanDocumented | lib/src/main/java/com/github/hadilq/androidlifecyclehandler/LifeSpan.kt:23-61 | BaseLifeHandler never kills a CONFIGURATION_CHANGED life, not even at destroy, and on a pause kills STARTED, CREATED and USER_FLOW lives the documentation keeps alive |
| LifecycleHandlers.LifecycleHandler.Register | lib/src/main/java/com/github/hadilq/androidlifecyclehandler/AndroidLifecycleHandler.kt:40-45 | remembers owner and span; observes the owner iff it is not destroyed; catches up at once: the life is born (one onBorn) iff observing and the born guard holds (the copy at `AndroidLifecycleHandlerImpl.kt:33-38` has the same body) |
| LifecycleHandlers.LifecycleHandler.RegisterIfPossible | lib/src/main/java/com/github/hadilq/androidlifecyclehandler/AndroidLifecycleHandler.kt:47-52 | attaches only to a non-destroyed owner, then runs the born guard (the copy at `AndroidLifecycleHandlerImpl.kt:40-45` has the same body) |
| LifecycleHandlers.LifecycleHandler.Born | lib/src/main/java/com/github/hadilq/androidlifecyclehandler/AndroidLifecycleHandler.kt:54-59 | leaves the life alive, calling onBorn only if it was dead; invariant kept (the copy at `AndroidLifecycleHandlerImpl.kt:47-52` has the same body) |
| LifecycleHandlers.LifecycleHandler.Die | lib/src/main/java/com/github/hadilq/androidlifecyclehandler/AndroidLifecycleHandler.kt:61-66 | leaves the life dead, calling onDie only if it was alive; invariant kept (the copy at `AndroidLifecycleHandlerImpl.kt:54-59` has the same body) |
| LifecycleHandlers.LifecycleHandler.Unregister | lib/src/main/java/com/github/hadilq/androidlifecyclehandler/AndroidLifecycleHandler.kt:68-70 | stops observing; alive flag and log untouched (the copy at `AndroidLifecycleHandlerImpl.kt:61-63` has the same body) |
| LifecycleHandlers.LifecycleHandler.BornIfPossible | lib/src/main/java/com/github/hadilq/androidlifecyclehandler/BaseLifecycleHandler.kt:31-39 | born runs exactly when the born guard of the handler's base holds |
| LifecycleHandlers.LifecycleHandler.DieIfPossible | lib/src/main/java/com/github/hadilq/androidlifecyclehandler/BaseLifecycleHandler.kt:41-52 | die runs exactly when the die guard of the handler's base holds |
| LifecycleHandlers.LifecycleHandler.OnEvent | lib/src/main/java/com/github/hadilq/androidlifecyclehandler/BaseLifecycleHandler.kt:54-83 | the alive flag, the log and the observing flag change exactly as `Reaction` prescribes; invariant kept |
| LifecycleHandlers.Deliver | lib/src/main/java/com/github/hadilq/androidlifecyclehandler/BaseLifecycleHandler.kt:54-83 | after an owner step a detached handler changes nothing; an observing one reacts to the new state and stops observing exactly at ON_DESTROY |
| LifecycleHandlers.DestroyedThenRegisterThenCreate | lib/src/test/java/com/github/hadilq/androidlifecyclehandler/AndroidLifecycleHandlerTest.kt:31-40 | registering on a destroyed owner attaches nothing, and a later create calls nothing |
| LifecycleHandlers.StopStart | lib/src/test/java/com/github/hadilq/androidlifecyclehandler/AndroidLifecycleHandlerTest.kt:175-186 | one stop/start round of an alive STARTED life: onDie then onBorn, alive and observing again |
| LifecycleHandlers.StartedStopThenStart | lib/src/test/java/com/github/hadilq/androidlifecyclehandler/AndroidLifecycleHandlerTest.kt:175-186 | STARTED through create, start, stop, start: calls are onBorn, onDie, onBorn (born twice, died once) |
| LifecycleHandlers.StartedDestroyThenStart | lib/src/test/java/com/github/hadilq/androidlifecyclehandler/AndroidLifecycleHandlerTest.kt:162-173 | after destroy the handler is detached, so a later start adds nothing: born once, died once |
| LifecycleHandlers.ResumePause | lib/src/test/java/com/github/hadilq/androidlifecyclehandler/AndroidLifecycleHandlerTest.kt:358-371 | one resume/pause round of a dead RESUMED life: onBorn then onDie, dead and observing again |
| LifecycleHandlers.ResumedPausedTwice | lib/src/test/java/com/github/hadilq/androidlifecyclehandler/AndroidLifecycleHandlerTest.kt:358-371 | RESUMED through two resume/pause rounds is born twice and dies twice |
| LifecycleHandlers.LateRegistrationCatchesUp | lib/src/main/java/com/github/hadilq/androidlifecyclehandler/AndroidLifecycleHandler.kt:47-52 | a STARTED life registered on a resumed owner is born at registration |
| ELifeHandlers.ELifeHandler.Register | lib/src/androidMain/kotlin/com/github/hadilq/androidlifecyclehandler/AndroidELifeHandlerImpl.kt:41-55 | on a live owner: observes, registers the provider for the key, and catches up by consuming the restored payload for a born; on a destroyed owner nothing |
| ELifeHandlers.ELifeHandler.Born | lib/src/androidMain/kotlin/com/github/hadilq/androidlifecyclehandler/AndroidELifeHandlerImpl.kt:57-63 | from dead: consumes the restored payload for the key and passes it, or the retained payload when none was restored; from alive: nothing |
| ELifeHandlers.ELifeHandler.Die | lib/src/androidMain/kotlin/com/github/hadilq/androidlifecyclehandler/AndroidELifeHandlerImpl.kt:65-71 | from alive: calls onDie and retains its result; from dead: nothing |
| ELifeHandlers.ELifeHandler.Unregister | lib/src/androidMain/kotlin/com/github/hadilq/androidlifecyclehandler/AndroidELifeHandlerImpl.kt:73-77 | stops observing and removes the provider for the key |
| ELifeHandlers.ELifeHandler.SaveState | lib/src/androidMain/kotlin/com/github/hadilq/androidlifecyclehandler/AndroidELifeHandlerImpl.kt:79-84 | alive: forced die whose result is retained and returned; dead: returns the retained payload, or a fresh empty bundle, changing nothing |
| ELifeHandlers.ELifeHandler.BornIfPossible | lib/src/main/java/com/github/hadilq/androidlifecyclehandler/BaseLifeHandler.kt:37-49 | born with payload runs exactly when the BaseLifeHandler born guard holds |
| ELifeHandlers.ELifeHandler.DieIfPossible | lib/src/main/java/com/github/hadilq/androidlifecyclehandler/BaseLifeHandler.kt:51-64 | die runs exactly when the BaseLifeHandler die guard holds, retaining the result |
| ELifeHandlers.ELifeHandler.OnEvent | lib/src/main/java/com/github/hadilq/androidlifecyclehandler/BaseLifeHandler.kt:66-95 | each event changes flag, log, retained payload and provider set as `Reaction` on the BaseLifeHandler table prescribes; the restored payload for the key is consumed exactly when the event borns the life from dead |
| ELifeHandlers.Deliver | lib/src/main/java/com/github/hadilq/androidlifecyclehandler/BaseLifeHandler.kt:66-95 | an owner step borns with the restored-or-retained payload on forward events past the threshold, kills and retains on backward events, detaches at ON_DESTROY; the restored payload is consumed exactly by that born and otherwise stays |
| ELifeHandlers.Checkpoint | lib/src/androidMain/kotlin/com/github/hadilq/androidlifecyclehandler/AndroidELifeHandlerImpl.kt:79-84 | a registry checkpoint asks a registered provider for a payload (leaving the life dead) and asks nobody otherwise; for a dead life it returns the retained payload, which stays retained |
| ELifeHandlers.RestoredPayloadReachesBorn | lib/src/androidTest/kotlin/com/github/hadilq/androidlifecyclehandler/AndroidELifeHandlerBundleTest.kt:40-52 | a payload restored for the key is the one the first onBorn receives |
| ELifeHandlers.CheckpointSavesDiePayload | lib/src/androidTest/kotlin/com/github/hadilq/androidlifecyclehandler/AndroidELifeHandlerBundleTest.kt:54-67 | checkpointing a born CREATED life kills it and saves exactly what onDie returned |
| ELifeHandlers.RestoredPayloadWaitsForStart | lib/src/androidTest/kotlin/com/github/hadilq/androidlifecyclehandler/AndroidELifeHandlerBundleTest.kt:69-82 | a payload restored for a STARTED life survives create untouched and is the one the onBorn at start receives |
| ELifeHandlers.StopStart | lib/src/androidTest/kotlin/com/github/hadilq/androidlifecyclehandler/AndroidELifeHandlerBundleTest.kt:100-115 | one stop/start round of an alive STARTED life with nothing restored: onDie's result is retained and handed to the next onBorn |
| ELifeHandlers.StopStartHandsBackPayload | lib/src/androidTest/kotlin/com/github/hadilq/androidlifecyclehandler/AndroidELifeHandlerBundleTest.kt:100-115 | STARTED through create, start, stop, start: the second onBorn receives what the onDie returned |
| ELifeHandlers.CreatedDiesOnPause | lib/src/main/java/com/github/hadilq/androidlifecyclehandler/BaseLifeHandler.kt:59-60 | a CREATED life on BaseLifeHandler dies at a pause |
| ExtendedHandlers.ExtendedHandler.Register | lib/src/main/java/com/github/hadilq/androidlifecyclehandler/AndroidExtendedLifecycleHandlerImpl.kt:39-53 | on a live owner: observes, registers the provider for the key and catches up; on a destroyed owner nothing |
| ExtendedHandlers.ExtendedHandler.Born | lib/src/main/java/com/github/hadilq/androidlifecyclehandler/AndroidExtendedLifecycleHandlerImpl.kt:55-60 | from dead: passes the consumed restored payload, or a freshly made empty one; the retained payload is never used |
| ExtendedHandlers.ExtendedHandler.Die | lib/src/main/java/com/github/hadilq/androidlifecyclehandler/AndroidExtendedLifecycleHandlerImpl.kt:62-67 | from alive: calls onDie and retains its result; from dead: nothing |
| ExtendedHandlers.ExtendedHandler.Unregister | lib/src/main/java/com/github/hadilq/androidlifecyclehandler/AndroidExtendedLifecycleHandlerImpl.kt:69-72 | stops observing and removes the provider for the key |
| ExtendedHandlers.ExtendedHandler.SaveState | lib/src/main/java/com/github/hadilq/androidlifecyclehandler/AndroidExtendedLifecycleHandlerImpl.kt:74-79 | alive: forced die whose result is returned but not retained; dead: hands out the retained payload once and clears it, or returns a fresh empty bundle |
| ExtendedHandlers.ExtendedHandler.BornIfPossible | lib/src/main/java/com/github/hadilq/androidlifecyclehandler/BaseLifecycleHandler.kt:31-39 | born runs exactly when the BaseLifecycleHandler born guard holds |
| ExtendedHandlers.ExtendedHandler.DieIfPossible | lib/src/main/java/com/github/hadilq/androidlifecyclehandler/BaseLifecycleHandler.kt:41-52 | die runs exactly when the BaseLifecycleHandler die guard holds, retaining the result |
| ExtendedHandlers.ExtendedHandler.OnEvent | lib/src/main/java/com/github/hadilq/androidlifecyclehandler/BaseLifecycleHandler.kt:54-83 | each event changes flag, log, retained payload and provider set as `Reaction` on the BaseLifecycleHandler table prescribes; the restored payload for the key is consumed exactly when the event borns the life from dead |
| ExtendedHandlers.Deliver | lib/src/main/java/com/github/hadilq/androidlifecyclehandler/BaseLifecycleHandler.kt:54-83 | an owner step borns with a present payload (the restored one if any) past the threshold, kills and retains on backward events, detaches at ON_DESTROY; the restored payload is consumed exactly by that born and otherwise stays |
| ExtendedHandlers.Checkpoint | lib/src/main/java/com/github/hadilq/androidlifecyclehandler/AndroidExtendedLifecycleHandlerImpl.kt:74-79 | a registry checkpoint asks a registered provider for a payload and asks nobody otherwise |
| ExtendedHandlers.SaveBeforeCreate | lib/src/test/java/com/github/hadilq/androidlifecyclehandler/AndroidExtendedLifecycleHandlerTest.kt:64-72 | a checkpoint before create yields a payload but neither borns nor kills the life |
| ExtendedHandlers.CreateSaveDestroy | lib/src/test/java/com/github/hadilq/androidlifecyclehandler/AndroidExtendedLifecycleHandlerTest.kt:74-84 | create, checkpoint, destroy: born once, died once at the checkpoint, which saves the die payload |
| ExtendedHandlers.StopStart | lib/src/test/java/com/github/hadilq/androidlifecyclehandler/AndroidExtendedLifecycleHandlerTest.kt:407-419 | one stop/start round of an alive STARTED life: onDie's result is retained, then a new onBorn follows |
| ExtendedHandlers.StopStartThenSave | lib/src/test/java/com/github/hadilq/androidlifecyclehandler/AndroidExtendedLifecycleHandlerTest.kt:407-419 | STARTED through create, start, stop, start, checkpoint: born twice, died twice; the checkpoint returns the second die payload while the first stays retained |
| LifeStores.LifeWrapper.OnBorn | lib/src/main/java/com/github/hadilq/androidlifecyclehandler/LifeStore.kt:81-86 | forwards onBorn to the life only on the dead-to-alive transition |
| LifeStores.LifeWrapper.OnDie | lib/src/main/java/com/github/hadilq/androidlifecyclehandler/LifeStore.kt:88-94 | dies exactly when alive and not kept: forwards onDie and removes the key from the store; otherwise nothing |
| LifeStores.LifeStoreImpl.ProvideLife | lib/src/main/java/com/github/hadilq/androidlifecyclehandler/LifeStore.kt:48-65 | a stored key returns the same life, clears keep and skips the factory; an absent key calls the factory and stores a fresh wrapper; both register under USER_FLOW and born the wrapper if the handler is born |
| LifeStores.LifeStoreImpl.Keep | lib/src/main/java/com/github/hadilq/androidlifecyclehandler/LifeStore.kt:67-68 | marks the stored wrapper kept, touching nothing else; an absent key is ignored |
| LifeStores.DeliverToWrapper | lib/src/main/java/com/github/hadilq/androidlifecyclehandler/LifeStore.kt:73-94 | an owner step for a USER_FLOW handler: forward events born the wrapper; backward events kill it and evict its key exactly when it is alive and not kept |
| LifeStores.DestroyWithoutKeep | lib/src/androidTest/kotlin/com/github/hadilq/androidlifecyclehandler/LifeStoreImplTest.kt:60-75 | without keep, destroy kills the life once and evicts its key |
| LifeStores.DestroyAfterKeep | lib/src/androidTest/kotlin/com/github/hadilq/androidlifecyclehandler/LifeStoreImplTest.kt:77-93 | after keep, destroy leaves the life born once, stored under its key and kept |
| LifeStores.HandOffBetweenOwners | lib/src/androidTest/kotlin/com/github/hadilq/androidlifecyclehandler/LifeStoreImplTest.kt:95-134 | the second owner gets the first life without a factory call, and keep is cleared; across the two owners the life is born once and dies once, and its key is evicted at the end |
| LifeStores.ProvideAfterEviction | lib/src/main/java/com/github/hadilq/androidlifecyclehandler/LifeStore.kt:59-64 | after eviction the next provideLife calls the factory again |
| SyncedLives.FanoutAt | lib/src/commonMain/kotlin/com/github/hadilq/androidlifecyclehandler/SLife.kt:20 | `forEach` makes one call per child, in insertion order |
| SyncedLives.FanoutReachesEachOnce | lib/src/commonMain/kotlin/com/github/hadilq/androidlifecyclehandler/SLife.kt:10-22 | over a set of lives a fan-out reaches each member exactly once and no other life |
| SyncedLives.BornThenDiePairsEachChild | lib/src/commonMain/kotlin/com/github/hadilq/androidlifecyclehandler/SLife.kt:17-33 | a born fan-out then a die fan-out gives every child exactly onBorn then onDie |
| SyncedLives.SLife.Sync | lib/src/commonMain/kotlin/com/github/hadilq/androidlifecyclehandler/SLife.kt:12 | adds the child iff absent (reported by the result) and borns it at once while alive, even when already present (the copy in `lib/src/main/java`, `SLife.kt:14`, has the same body) |
| SyncedLives.SLife.OnBorn | lib/src/commonMain/kotlin/com/github/hadilq/androidlifecyclehandler/SLife.kt:17-22 | from dead: alive, and every child gets onBorn in order; from alive: nothing (the copy in `lib/src/main/java`, `SLife.kt:17-22`, has the same body) |
| SyncedLives.SLife.OnDie | lib/src/commonMain/kotlin/com/github/hadilq/androidlifecyclehandler/SLife.kt:27-33 | from alive: dead, every child gets onDie in order, then the set is cleared; from dead: nothing (the copy in `lib/src/main/java`, `SLife.kt:25-31`, has the same body) |
| SyncedLives.SyncBeforeBorn | lib/src/test/java/com/github/hadilq/androidlifecyclehandler/SLifeTest.kt:11-19 | a child synced before born receives nothing |
| SyncedLives.SyncAfterBorn | lib/src/test/java/com/github/hadilq/androidlifecyclehandler/SLifeTest.kt:21-30 | a child synced after born receives exactly one onBorn |
| SyncedLives.SyncAfterBornThenDie | lib/src/test/java/com/github/hadilq/androidlifecyclehandler/SLifeTest.kt:32-42 | a child synced after born receives onBorn then onDie when the SLife dies |
| SyncedLives.SyncTwoThenBornDie | lib/src/commonMain/kotlin/com/github/hadilq/androidlifecyclehandler/SLife.kt:12-33 | two syncs (possibly of the same child) then born and die: each synced child gets exactly onBorn, onDie and every other life nothing |

## Left out

- The androidx lifecycle registry is not modelled. Its observer list, its replay of missed events to a newly added observer, and its removal of observers are reduced to the handler's `observing` flag. In the registry, a handler added to a started owner receives the missed ON_CREATE/ON_START through `addObserver`. The registration's own `bornIfPossible` then finds the life already alive, so the calls are the same ones `Register` states.
- The `lazy` lifecycle and registry properties, and the `lateinit` fields, are not modelled. A handler is modelled as registered once. Every operation other than `Register` requires it to be registered. Before registration the span is a placeholder.
- The Life, ELife and ExtendedLife objects are not modelled. The model keeps the log of calls made on them, and takes what `onDie` returns as a parameter. Re-entrant calls from a life back into its handler, store or SLife are not modelled.
- The saved-state registry is reduced to restored payloads and provider keys. Not modelled: the `performSave`/`performRestore` machinery, the exception on a duplicate provider key, and the exception on consuming before restore.
- `LifeStore`, the process-wide singleton wrapping one `LifeStoreImpl`, is not modelled. Only the implementation is.
- The `as? T` cast in `provideLife` is not modelled. Lives are identified by number, so the cast always succeeds in the model.
- AndroidLifeHandlerImpl, the default handler of `provideLife`, is not part of this model. It is modelled as a `LifecycleHandler` on the BaseLifeHandler table.
- `ProvideLifeExtension` and `DLife` are not part of this model.
- Threads are not modelled: every call runs on the main thread, one at a time.
- Concurrent use of one store key by two live owners is not modelled. `LifeStores.DeliverToWrapper`: the caller passes the wrapper the handler was registered with, because the model has no link from a handler to its life.
- ExtendedHandlers.Deliver: states that a born payload is present and, if one was restored, the restored one. It does not state that the fallback payload is freshly allocated. `ExtendedHandler.Born` states that.
- ExtendedHandlers.ExtendedHandler.OnEvent: states the same payload facts as `Deliver`, for the same reason.
