# arc-swap, verified

`ArcSwap` holds a reference-counted pointer that many threads load and replace at once. Readers do not touch the
reference count. They record a *debt* in a slot of their own node; a writer that takes a pointer out of a storage walks
over the nodes of all threads, pays the debts on that pointer, and *helps* readers that it finds in the middle of a
load. This project models that protocol as a state machine, proves an inductive invariant of it, and derives from the
invariant what the library promises: no object dies while somebody can reach it, counts are conserved exactly, and every
operation behaves as on a plain atomic cell.

## How the model is built

* `Protocol` is the state: storages, reference counts, guards, nodes with nine slots, a control word, an address, a
  space offer and a writer count each, envelopes, and any number of threads. A thread has a public operation and at most
  one nested call, since a writer that helps runs a complete load of its own.
* `Steps` has one function per atomic access of the program. Any thread that is in the middle of something may make the
  next access (sequential consistency); users may begin operations, create and clone objects, drop guards and storages.
  Both values of `USE_FAST` are covered. Weak compare-exchanges may fail at any time.
* `Invariant` says what holds of each thread, node, guard and storage, of the envelopes, and of every count.
* `Rely` says what one access may do to everybody else and shows that each part of the invariant survives that.
  `Counting`, `Moves`, `CallMoves`, `CallProofs`, `SweepProofs`, `HelpProofs`, `OpProofs` and `UserProofs` show that each
  access keeps to it, and `Preservation` puts them together: the invariant holds in every state of every run.
* `Theorems`, `Conservation`, `Runs`, `Progress`, `Sweeps`, `Scans` and `Writes` draw the conclusions. `Calls`,
  `Lifecycle`, `Refinement` and `Linear` state them for whole operations, from the user's action to the user's answer.
  `Objects`, `Claims` and `ObjectRuns` ask which object a load returns when addresses are reused. `Witness`
  and `Reuse` show concrete runs.
* `NodeLife` is the life of one node with every access of `check_cooldown` on its own.
* `AtomicCell` is the specification that both strategies refine. `RwLockStrategy` is the second strategy, with a state
  machine of its own. `Clients` puts `rcu` and `Cache` on top of the atomic cell: a load answers for a version that the
  cell had during the call, and the caller gets the object that lives at that address when it returns.
* `FastSlots`, `PayAll` and `ControlWord` are the sequential pieces, as the loops and counters over mutable fields that
  they are in the program.

Some fields are annotations: who wrote a slot, whether a guard's debt was paid, the versions a storage has had, the
number of a read transaction. No branch of the protocol looks at them.

## Where the code falls short of its promise

With fast slots, a load can return an object that its storage never held: the exit for a debt that was paid by somebody
else (`src/strategy/hybrid.rs:63-67`) trusts that one pointer means one object. When the object first read has died and
another one was created at its address before the debt was put down, that other object is returned, alive and counted.
`Reuse` has the run, and `ObjectRuns` says exactly when it happens. `rcu` is not affected, and `Cache::load` only when it
goes to the storage.

`check_cooldown` (`src/debt/list.rs:123-139`) can end a later cooldown than the one it looked at, and so hand a node to a
new owner while a helper still observes it. Exclusive ownership does not suffer; `NodeLife` has the run and the condition.

Where the wrap-around of a generation counter is concerned, code and documentation disagree: after a discard,
`new_helping` has taken the node away, and `confirm_helping` then panics, while the documentation of the strategy only
says that such a load is not wait-free (`src/strategy/mod.rs:70-71`). `ControlWord.LocalNode.Fallback` follows the code
and states exactly when that happens.

## Model

| member | source | states |
|---|---|---|
| `Preservation.ActionOK` | src/strategy/hybrid.rs:42-238 | every access of every thread, and everything a user may do, preserves the invariant |
| `Preservation.RunOK` | src/debt/mod.rs:81-114 | the invariant holds in every state of every run, for any number of threads, nodes, guards and storages |
| `Rely.Commit` | src/debt/helping.rs:215-302 | a step that touches at most one node and one guard within the rely leaves every other thread's assertions intact |
| `Theorems.GuardAlive` | src/strategy/hybrid.rs:42-97 | the object behind every guard that a load has returned is alive, also after its storage was overwritten, unwrapped or dropped |
| `Witness.GuardOutlivesTheSwap` | src/lib.rs:485-496 | a run exists in which an unpaid guard is held although its value was swapped out: only the coming sweep keeps the object alive |
| `Witness.LoadIsHelped` | src/debt/helping.rs:215-302 | a run exists in which a reader about to confirm one pointer takes the one its writer loaded for it and handed over in an envelope |
| `Theorems.DebtIsCovered` | src/debt/mod.rs:91-111 | an unpaid confirmed debt is still in its slot, and its storage holds the pointer or a writer that took it out has yet to try that slot |
| `Theorems.NeverTouchesDead` | src/strategy/hybrid.rs:86-91 | no access increments or decrements the count of a dead object |
| `Theorems.CountsExactly` | src/debt/mod.rs:86-113 | each access raises or lowers exactly the listed counts, by one, and changes no other count |
| `Conservation.CountsAreConserved` | src/strategy/hybrid.rs:105-156 | in every reachable state, count plus debts equals handles plus storages plus guards plus references in transit |
| `Conservation.SharedSlot` | src/debt/mod.rs:57-65 | however many guards share a reused slot for one pointer, all but one per occupied slot own a reference |
| `Conservation.DebtsMatchGuards` | src/debt/mod.rs:65-79 | occupied slots and unpaid guards correspond one to one |
| `Theorems.AddressIsPinned` | src/strategy/hybrid.rs:54-58 | while a guard or a handle is held, its address cannot be given to a new object |
| `Theorems.QuiescentState` | src/strategy/mod.rs:73-74 | with nothing in flight and no guards, all slots are free, controls idle, writer counts zero, and counts are storages plus handles |
| `Theorems.AssertionsHold` | src/debt/helping.rs:209-211 | the NONE, IDLE, generation-or-replacement, not-myself and NODE_USED assertions never fail |
| `Theorems.OneThreadPerNode` | src/debt/list.rs:151-194 | no two threads own the same node, in every reachable state of the whole protocol |
| `NodeLife.OneOwner` | src/debt/list.rs:113-194 | with the three accesses of check_cooldown kept apart, a node has at most one owner, and start_cooldown finds it in use |
| `Theorems.HelpsWhatItSaw` | src/debt/helping.rs:53-74 | a compare-exchange on a control word that would succeed meets the very transaction that was seen, and it is on the helper's storage |
| `Theorems.ReservedNodeStaysPut` | src/debt/list.rs:113-145 | if check_cooldown is one access, nobody can bring a node out of cooldown or claim it while a helper is on it |
| `NodeLife.HelperLosesNodeIff` | src/debt/list.rs:123-139 | with its three accesses, a node becomes unused under an observing helper if and only if the compare-exchange meets a later cooldown than the one its first load saw |
| `NodeLife.HelperKeepsNode` | src/debt/list.rs:54-58 | as long as every check ends the cooldown it has seen, a node stays claimed or in cooldown while a helper observes it |
| `NodeLife.HelperCanLoseNode` | src/debt/list.rs:123-139 | a run exists in which the three accesses take the node away from under an observing helper |
| `Theorems.HelpIsComplete` | src/debt/helping.rs:222-301 | after help on a node, no transaction on the writer's storage that began before its swap is open there |
| `Theorems.EnvelopesPermute` | src/debt/helping.rs:155-166 | envelopes are a permutation of the nodes at every moment of every hand-over: none shared, none lost |
| `Theorems.HelpedReaderReads` | src/debt/helping.rs:322-331 | a helped reader finds in the envelope exactly what its helper put there, and its own storage held it during the load |
| `Theorems.NeverStuck` | src/strategy/hybrid.rs:183-207 | a thread in the middle of an operation can always make its next access |
| `Sweeps.SlotDiscipline` | src/debt/fast.rs:54-61 | a slot is filled only when free and only by the owner of its node; one pointer never replaces another |
| `Sweeps.OfferIsFixed` | src/debt/helping.rs:255-262 | while a generation is in the control, nobody changes the node's space offer |
| `Sweeps.ListOnlyGrows` | src/debt/list.rs:92-110 | over any run, nodes never leave the list and published links never change |
| `Sweeps.SweepTriesEverySlotOnce` | src/debt/mod.rs:91-111 | a sweep tries each slot of each node that existed at its swap exactly once, under concurrent prepends, loads and writes |
| `Scans.ScanGivesUpOnlyWhenFull` | src/debt/fast.rs:43-65 | a scan that gives up made eight inspections and found every slot occupied when it looked, while others paid debts |
| `FastSlots.RotationVisitsEachOnce` | src/debt/fast.rs:48-51 | the rotation begins at the offset and goes up by one around the end; for every offset each index has exactly one turn |
| `FastSlots.Slots.GetDebt` | src/debt/fast.rs:43-65 | the first free slot in rotation gets the pointer, nothing else changes; None exactly when all are occupied |
| `PayAll.Pay` | src/debt/mod.rs:65-79 | pays exactly when the slot holds the pointer, and empties only that slot |
| `PayAll.PayNode` | src/debt/mod.rs:97-108 | one reference is pre-paid before each attempt; at the end of a node the count is ahead of its beginning by as often as the pointer stood in its slots |
| `PayAll.PayAllDebts` | src/debt/mod.rs:86-113 | every slot with the pointer is emptied, no other slot changes, and the count rises by the number of those slots |
| `PayAll.DebtsCount` | src/debt/mod.rs:97-108 | the number of debts on a pointer is its multiplicity among the slots |
| `PayAll.SweptDebts` | src/debt/mod.rs:50-53 | after a sweep no slot owes the pointer, and debts on other pointers are where they were |
| `Runs.LoadReturnsHeldValue` | src/strategy/hybrid.rs:189-206 | the pointer a load returns was, at some moment of that load, in the storage that its caller named, whoever helped and however deep the helpers were helped themselves |
| `Runs.VersionWasHeld` | src/lib.rs:485-496 | every version that is newer than the beginning of a load was current at a moment since then |
| `Writes.CasStoresIffEqual` | src/strategy/hybrid.rs:210-237 | the user's compare_and_swap returns a guard on current exactly when it stored new, and stores at most once over all retries |
| `Writes.AttemptSucceeds` | src/strategy/hybrid.rs:224-234 | an attempt stores whenever the storage holds current and the weak exchange does not fail for no reason |
| `Writes.CasIsAtomic` | src/lib.rs:498-521 | what the user's compare_and_swap returns was in the named storage at one moment of the call; if equal to current, new replaced it at that moment |
| `Writes.SwapIsAtomic` | src/lib.rs:485-496 | the user's swap exchanges the given pointer at one moment and returns a counted reference to exactly what was there |
| `Writes.WritesAreAtomic` | src/lib.rs:480-521 | a storage gets a new version only by one of those exchanges |
| `Refinement.LoadRefines` | src/lib.rs:422-475 | from the user's load or load_full on a storage to the guard or reference the user gets: the atomic cell's load of that storage, at a moment inside the call, as far as addresses go |
| `Calls.SlowLoadCallIsExact` | src/strategy/hybrid.rs:71-97 | without fast slots the user gets an object that the named storage held during the call |
| `Calls.LoadCallIsExactIff` | src/strategy/hybrid.rs:59-67 | in general the user does if and only if no object was created at that address since a moment of the call when the named storage held it |
| `Calls.IntoInnerCall` | src/strategy/hybrid.rs:138-156 | Guard::into_inner hands the user one counted reference to what the guard was on, and the guard is gone |
| `Calls.DropCall` | src/strategy/hybrid.rs:105-126 | dropping a guard at one moment takes its debt back or releases the reference somebody paid for it, and nothing else |
| `Lifecycle.TakeCall` | src/lib.rs:345-413 | into_inner and drop of a storage: it is gone at once, and at the end the user gets exactly the reference it held, or that one is released |
| `Lifecycle.NewCellCall` | src/lib.rs:396-404 | a new storage holds the one reference the user gave for it |
| `Lifecycle.GetCall` | src/debt/list.rs:151-194 | Node::get ends with an unused node claimed, or a new one at the head after every node that existed at the beginning was checked for its cooldown and then found taken |
| `Lifecycle.PushSucceeds` | src/debt/list.rs:176-192 | a new node is published as soon as the head is the one last seen |
| `Lifecycle.ExitCall` | src/debt/list.rs:113-118 | a thread that ends puts its node into cooldown at one moment, being counted among its writers, and never has a node again |
| `Linear.Linearizable` | src/lib.rs:472-521 | all completed operations of users on a storage, and the stores of pending ones, form one sequence ordered by moments inside their calls, which an atomic cell would answer in the same way |
| `Objects.BirthsAreCreations` | src/debt/mod.rs:57-63 | only the creation of an object makes a dead address live again |
| `Objects.SameObject` | src/debt/mod.rs:57-63 | an address means the same object at two moments exactly when its count was positive in between |
| `Claims.ClaimStep` | src/strategy/hybrid.rs:42-97 | whatever a thread, an envelope or a guard holds as the answer of a load comes from an older answer, from the cell itself, or from a debt that somebody else paid |
| `ObjectRuns.LoadOrigin` | src/strategy/hybrid.rs:42-97 | the returned object was in the storage during the load and has lived since, or some load of that storage left through the paid exit with it, at any depth of helping |
| `ObjectRuns.SlowLoadsAreExact` | src/strategy/hybrid.rs:71-97 | without fast slots every load returns an object that its own storage held during the load, however deep it was helped and however addresses are reused |
| `ObjectRuns.InexactOnlyByPaidExit` | src/strategy/hybrid.rs:59-67 | a load that returns another object got it through a paid exit, after an object was created at an address that the storage had held during the load |
| `ObjectRuns.ExactIffNotReborn` | src/strategy/hybrid.rs:63-67 | a load returns an object of its storage if and only if no object was created at that address since a moment of the load when the storage held it |
| `ObjectRuns.PaidExitIsExactIff` | src/strategy/hybrid.rs:59-67 | at the paid exit the object is the one first read if and only if none was created at its address since that read |
| `Reuse.LoadReturnsAnotherObject` | src/strategy/hybrid.rs:63-67 | a run exists in which a load returns an object that only another storage ever held |
| `Refinement.SwapRefines` | src/lib.rs:480-496 | from the user's swap to the reference the user gets: the atomic cell's swap of the named storage with the given pointer, at a moment inside the call |
| `Refinement.CasRefines` | src/strategy/hybrid.rs:210-237 | from the user's compare_and_swap to the guard the user gets: the atomic cell's, with the given current and new, at a moment inside the call, storing once or not at all |
| `Progress.LoadIsWaitFree` | src/strategy/mod.rs:70-71 | at every moment of a load, in every interleaving, the accesses its thread has made and may still have to make are at most 30, and until it returns the next one is possible |
| `Progress.HelpLoopIsBounded` | src/debt/helping.rs:222-301 | the help loop makes at most one turn more than the helped control word changed meanwhile |
| `ControlWord.DecodeIsExact` | src/debt/helping.rs:224-299 | each arm of the match is taken for exactly the words stored with that meaning; the unreachable arm for none of them |
| `ControlWord.GenerationsAreDistinct` | src/debt/helping.rs:191-197 | any 2^(w-2) generations in a row are pairwise distinct |
| `ControlWord.DiscardOnTheLast` | src/debt/helping.rs:193-197 | discard is signalled on exactly every 2^(w-2)-th generation, the last before the counter repeats |
| `ControlWord.GenerationCounter.Next` | src/debt/helping.rs:190-213 | the control word decodes as the next generation, and discard follows the count |
| `ControlWord.LocalNode.Fallback` | src/debt/list.rs:278-309 | the expectation in confirm_helping fails if and only if the generation is one that signals discard |
| `ControlWord.WordsAreControls` | src/debt/helping.rs:117-120 | before the counter wraps, comparing words is comparing idle, generation and envelope |
| `ControlWord.SameGenIsSameWord` | src/debt/helping.rs:275-277 | the helper's compare-exchange on words succeeds exactly when the state machine's does |
| `RwLockStrategy.RunOK` | src/strategy/rw_lock.rs:21-63 | the lock is exclusive, what a reader has read but not counted is protected, and counts balance, in every state of every run |
| `RwLockStrategy.NeverTouchesDead` | src/strategy/rw_lock.rs:31-34 | waiting for the write lock is enough: no reader increments a dead count |
| `RwLockStrategy.QuiescentCounts` | src/strategy/rw_lock.rs:21-63 | at rest the lock is free and each count is storage plus handles |
| `RwLockStrategy.RefinesCell` | src/strategy/rw_lock.rs:21-63 | from the user's load, swap or compare_and_swap to its return: it takes effect at one moment of the call, as on the atomic cell, and returns its answer; the object lives from that moment on |
| `RwLockStrategy.TakeCall` | src/strategy/rw_lock.rs:33-36 | into_inner of the storage: the lock is had for writing with no reader inside, and the user gets exactly the reference the storage held |
| `RwLockStrategy.OnlyEffectsWrite` | src/strategy/rw_lock.rs:38-63 | the value changes only when an operation takes effect |
| `Clients.RcuComposes` | src/lib.rs:622-639 | the stored value is the last plain store with all updates since applied in the order they were stored, although addresses are reused and loads need not be exact |
| `Clients.NoUpdateIsLost` | src/lib.rs:622-639 | an update that has its answer is stored exactly once, one that still runs is not stored |
| `Clients.RcuReturnsWhatItReplaced` | src/lib.rs:630-636 | rcu returns the object its own update was computed from and stored over |
| `Clients.StoreCall` | src/lib.rs:480-482 | a plain store makes its object the current one and changes nothing else |
| `Clients.RcuCall` | src/lib.rs:622-639 | an rcu call stores exactly one version: its caller's closure applied to the very object that this version replaced, which is the one it returns |
| `Clients.RetryReadsAgain` | src/lib.rs:630-637 | an attempt that does not store goes on with another pointer, which the storage has held since the attempt began |
| `Clients.CachedLoadIsCurrent` | src/cache.rs:147-168 | a cached load returns a pointer that the storage held during the call; it means an object the storage held then whenever the cache was hit, and always with an exact strategy |
| `Clients.CachedObjectIff` | src/cache.rs:159-168 | with any strategy, the object was in the storage during the call if and only if none was created at its address since a moment of the call when the storage held it |
| `Clients.UnchangedCellIsHit` | src/cache.rs:159-168 | while the storage holds the cached pointer, a cached load returns what it had without loading |
| `Clients.NewCacheIsCurrent` | src/cache.rs:130-133 | a new cache holds what the storage held at some moment of the call |

## Left out

- Weak memory orderings: all accesses are interleaved sequentially consistently.
- Generation wrap-around in the state machine: runs end before a thread-local counter wraps; what happens there is stated on its own by `ControlWord.LocalNode.Fallback`.
- Theorems.ReservedNodeStaysPut: takes `check_cooldown` as one access, as the whole state machine does; `NodeLife` states exactly what its three accesses guarantee.
- Refinement.LoadRefines: speaks of addresses, as do the other theorems about returned values in `Runs`, `Writes` and `Linear`; which object lives there is stated by `ObjectRuns`.
- Clients.CachedLoadIsCurrent: the object is promised for cache hits and exact strategies only, because the code gives no more; `Clients.CachedObjectIff` has the condition.
- Addresses of storages and nodes: a storage is known by its index and never reused, so `active_addr` always means one storage; nodes are never freed in the program either.
- Destructors: a `dec` that drops the last reference does not call back into the library, since a thread has one nested call at most.
- Thread-local storage: a thread gets a node before its first operation and gives it up once; the temporary node during shutdown and the `no_std` variant are not modelled.
- Ownership rules of Rust: a storage is dropped or unwrapped only while nobody borrows it; guards and handles are used by one thread at a time.
- RefCnt implementations: `inc`, `dec`, `into_ptr` and `from_ptr` are count operations; null is a pointer like any other.
- rcu closures: a closure is a function of the current value; closures with effects of their own and panics are not modelled.
- PayAll.PayAllDebts: the loop without other threads; under interference its accounting is part of the invariant.
- Reference-count overflow and allocation failure.
- Access projections, `MapCache`, raw-pointer conversions, serde, formatting: thin wrappers.
