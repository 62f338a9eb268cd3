# lwlock, modelled and proved in Dafny

lwlock is a C library of very small locks built on compare-and-swap: each lock packs its state into a few
bits or bytes and keeps its wait queue elsewhere. This project models its lock protocols as transition
systems and proves what they promise over every interleaving of any number of threads.

Each component is modelled in the same way. A `State` holds the shared word(s), the links and tags of the
waiters and a program counter for every thread; one `Action` is one compare-and-swap, one write to a shared
field, or one section that only the owner of a private structure can see. `Can` says when an action is
possible and `Do` what it does; a failed assertion of the source leads to the program counter `Fault`.
Auxiliary fields (named in each module's header) record the abstract queue, the holders and histories; no
step decides anything by them. An invariant ties the word to the queue, every action is shown to keep it, and
the results are stated for all runs (`Run`). Where a caller-visible specification exists (`FairRw`, `RwSpec`)
the run is shown to be a run of it. Loops over lists and pointer edits are methods with invariants, proved
equal to what the corresponding action does. The modules named `...Calls` tie what happens in a run to what a
caller asked for: from the step in which a call begins they say where its thread can be, when it takes effect and
on what, exactly when it is refused, and how it ends. The modules named `...Rest` say what is left when no call can
take a step any more, those named `...Alone` how soon a call ends that no other thread disturbs.

| component | modules |
|---|---|
| reader-writer bitlock | `FairRw` (specification), `RwBitlock`, `RwBitlockProof`, `RwBitlockRuns`, `RwBitlockChecks`, `RwBitlockCalls`, `RwBitlockRest`, `RwBitlockAlone`, `RwBitlockWord`, `RwBitlockWalks` |
| 4-byte reader-writer lock | `RwSpec` (specification), `RwLock`, `RwLockInv`, `RwLockChain`, `RwLockSteps`, `RwLockRelease`, `RwLockHandOver`, `RwLockPutBack`, `RwLockModes`, `RwLockRuns`, `RwLockChecks`, `RwLockCalls`, `RwLockRest`, `RwLockAlone`, `RwLockWalks` |
| self-locking list | `AtomicList`, `AtomicListInv`, `AtomicListRuns`, `AtomicListClaims`, `AtomicListCalls`, `AtomicListRest`, `AtomicListAlone` (links and lock order), `AtomicPins`, `AtomicPinsRuns`, `AtomicPinsCalls`, `AtomicPinsRest` (pins and removal), `AtomicListJoin`, `AtomicListWalks` (both together) |
| 2-byte mutex | `Mutex2b`, `Mutex2bRuns`, `Mutex2bCalls`, `Mutex2bRest`, `Mutex2bAlone` |
| 4-byte mutex | `Mutex`, `MutexRuns`, `MutexCalls`, `MutexRest`, `MutexAlone` |
| bitlock mutexes and condition bits | `Bitlock`, `BitlockRuns`, `BitlockCalls`, `BitlockRest`, `BitlockAlone`, `MaskedSwap` |
| delegation queue and counter | `Counter`, `CounterRuns`, `CounterJobs`, `CounterClaims`, `CounterExit`, `CounterCalls`, `CounterRest`, `CounterAlone`, `DList`, `Delegate` |
| lock-free stack | `LfStack`, `LfStackCalls`, `LfStackAlone`, `LfStackUse` |

`dafny verify dfyconfig.toml` checks the whole project.

## Main results

- Every run of the reader-writer bitlock, whatever the number of bits, is a run of a plain fair reader-writer
  lock (`RwBitlockRuns.RunIsFair`), and the bits mean what the header says they mean.
- Every run of the 4-byte reader-writer lock, fair or unfair, with upgrades and downgrades, is a run of
  `RwSpec` (`RwLockRuns.RunRefines`); upgrades that succeed and downgrades are atomic. The unfair release, which
  takes the whole queue off the lock and puts the writers back over several swaps, is invisible to callers.
- In the self-locking list no set of threads can wait in a circle, whatever the order in which the waiters of a
  lock are served (`AtomicListClaims.NoDeadlock`), and each operation changes the list in one step at the right
  place. That no operation stands on an element being removed follows from the pins
  (`AtomicListJoin.PinsGuardRemoval`).
- A walk over the self-locking list returns, with a pin, the nearest element that was not masked, past elements
  that each were masked when the walk passed them (`AtomicListWalks.WalkReturns`).
- Every call of every component keeps to the lock, node, element or request that its caller named, takes effect in
  one step of its own, and is refused exactly under a stated condition on the abstract state.
- No wake-up is lost: when no call can take a step, whoever is inside a call waits for something that a caller has and
  has not given back: a lock, a mutex, units or a pin (`StillOnlyWhileHeld` in the modules `...Rest`, `CounterRest.StillOnlyWhileShort`,
  `AtomicPinsRest.StillOnlyWhilePinned`). The counter has the one exception named below. Inside the self-locking list
  someone can always go on (`AtomicListRest.SomeoneGoesOn`).
- No call loops by itself: one that no other thread disturbs ends or waits within a stated number of steps (`EndsAlone`
  in the modules `...Alone`), so a compare-and-swap is lost only to a step of another thread.
- Mutexes hand over in arrival order without storing more than an id per thread.
- The counter conserves its units and grants in order; a free lock bit tells the truth about the queue.

Places where the code does less than one might expect are kept as they are and pinned down:

- The exit swap of the delegation queue (`src/delegate.c:233-238`) can let go of the lock although a job waits on
  the stack. `CounterClaims.RequestLeftBehind` is a run after which a request waits although there are units for
  it. `CounterExit.ExitLeavesBehind` tells from the run exactly when this happens: some job was pushed and
  announced and no one has emptied the stack since, and the word is as the thread's last grant since its last
  drain left it. The incoming bit that the swap expects comes from such a grant (`src/counter.c:53`) and from
  nowhere else.
- A contended writer's release of the reader-writer bitlock asserts that the whole word is as it read it before it
  locked the wait list (`src/lw_bitlock.c:2017`). The lock's own bits always are; the assertion holds if and only
  if the payload is too (`RwBitlockChecks.ReleaseCheck`), and one store to the payload in between makes it fail
  (`RwBitlockChecks.OneStoreFails`).
- A try to read the reader-writer bitlock is refused exactly when someone writes or waits, or when a writer's release
  has decided who comes next but not yet swapped the word (`RwBitlockCalls.ReadTried`); the last case is real
  (`RwBitlockCalls.RefusedWhileDeciding`).
- `RwBitlockWord.WriterLoopCheck`: the debug assertion in the writer's loop (`src/lw_bitlock.c:1431`) ignores
  the payload; it holds if and only if the payload is zero.
- The lock-free stack is correct as long as fewer swaps than there are tags happen between a read and its swap
  (`LfStack.StepIsPushOrPop`); for every number of tags from three, that many swaps can break it
  (`LfStackUse.TagsRunOut`).
- The check at `src/lf_stack.c:33` is made in 32-bit arithmetic and refuses no number of elements. With 2^32 - 1 of
  them the assertion at `src/lf_stack.c:65` fails for every id; it holds for all ids if and only if there are fewer
  (`LfStackUse.IdChecks`). The index computed at `src/lf_stack.c:51` is cut off to 32 bits, so an address passes
  the checks and comes back as another element exactly when it lies 2^32 elements or more behind the base
  (`LfStackUse.ObjRoundTrip`).

## Model

| member | source | states |
|---|---|---|
| `FairRw.StepKeepsSound` | src/lw_bitlock.h:240-295 | one step of the specified lock keeps: writer excludes readers, an unheld lock has no waiters, a writer is first in line while readers hold |
| `FairRw.RunIsSound` | src/lw_bitlock.h:240-295 | the same in every state of every run of the specification |
| `FairRw.StepServes` | src/lw_bitlock.c:1944-1974 | a step takes requests from the old end only and adds at most one at the new end |
| `FairRw.QueueIsFifo` | src/lw_bitlock.h:251-256 | no overtaking: what is still queued is always a final part of what ever arrived |
| `RwBitlockProof.OverflowGrant` | src/lw_bitlock.c:1543-1613 | a reader beyond saturation becomes a list entry that already holds the lock, and that is a plain read grant |
| `RwBitlockProof.Enqueue` | src/lw_bitlock.c:1543-1613 | announcing a waiter in the bits and appending it is one arrival in the fair queue |
| `RwBitlockProof.ReadEditRelease` | src/lw_bitlock.c:1659-1801 | all four list cases of a reader's release are one read release of the fair lock, keep the encoding, and never find the list inconsistent |
| `RwBitlockProof.LastReaderRelease` | src/lw_bitlock.c:1752-1770 | the last reader hands the lock to the leading writer and leaves the contention mark exactly when others wait |
| `RwBitlockProof.WriteEditToReaders` | src/lw_bitlock.c:2000-2061 | the release grants the maximal leading run of readers whatever the count's capacity, and sets the writer bit exactly when waiters remain behind them |
| `RwBitlockProof.WriteEditRelease` | src/lw_bitlock.c:1978-2076 | a contended writer's release is one write release of the fair lock and keeps the encoding |
| `RwBitlockRuns.StepGood` | src/lw_bitlock.c:1543-2076 | every action keeps the invariant and is one step (or none) of the fair lock |
| `RwBitlockRuns.RunIsFair` | src/lw_bitlock.c:1311-2076 | every run of the lock is a run of the fair reader-writer lock |
| `RwBitlockRuns.Exclusion` | src/lw_bitlock.h:251-256 | no check of the lock's bits or of the list fails; two threads never hold in conflict |
| `RwBitlockRuns.SleeperIsKept` | src/lw_bitlock.c:1597-1613 | a sleeper is queued, owed a signal by a releasing thread, or signalled |
| `RwBitlockRuns.BitsWhenListFree` | src/lw_bitlock.h:240-295 | with the wait list free: readers = count + leading entries that hold, such entries only at saturation, the writer bit and the count under a writer mean what the rules say, a free lock has both fields zero and no waiters |
| `RwBitlockChecks.ReleaseCheck` | src/lw_bitlock.c:2000-2017 | when a releasing writer has locked the wait list, the lock's bits are as it read them, and the assertion on the whole word holds if and only if the payload is as it was at that read |
| `RwBitlockChecks.OneStoreFails` | src/lw_bitlock.c:2012-2017 | for every width and every two payloads, a run in which one store to the payload makes that assertion fail |
| `RwBitlockCalls.CallEnds` | src/lw_bitlock.c:1543-2076 | every call goes on within its own kind and ends as promised: a lock call with the lock in its mode or, only if it is a try, without; a try never sleeps; a release without the lock |
| `RwBitlockCalls.ReadTried` | src/lw_bitlock.c:1569-1580 | a try to read is refused if and only if someone writes or waits, or a writer's release has not swapped the word yet; a refused try changes nothing; a lock is granted at once if and only if that is not so and the count has room |
| `RwBitlockCalls.ReadDecided` | src/lw_bitlock.c:1586-1613 | under the wait list a reader gets the lock if and only if no one writes or waits, also beyond saturation; otherwise a try gives up and any other call is queued |
| `RwBitlockCalls.WriteTried` | src/lw_bitlock.c:1846-1860 | a write lock is granted at once if and only if no one holds the lock and no release is under way; otherwise a try changes nothing |
| `RwBitlockCalls.WriteDecided` | src/lw_bitlock.c:1862-1885 | under the wait list a writer gets a free lock and is queued for any other |
| `RwBitlockCalls.ReleasedAtOnce` | src/lw_bitlock.c:1371-1476 | a reader gives back at once if and only if the count is not saturated and it is not the last while others wait, a writer if and only if no one waits |
| `RwBitlockCalls.RefusedWhileDeciding` | src/lw_bitlock.c:1343-1351 | for every width, a run in which a try is refused although no one writes or waits, since a release is under way |
| `RwBitlockCalls.StepsMove` | src/lw_bitlock.c:1543-2076 | every step of a call gets its thread on |
| `RwBitlockRest.StillOnlyWhileHeld` | src/lw_bitlock.c:1371-2076 | when no call can take a step, every thread inside a call is asleep and queued, and someone has the lock and is at rest with it: no wake-up is lost and no call waits for another |
| `RwBitlockAlone.EndsAlone` | src/lw_bitlock.c:1371-2076 | a call that no other thread disturbs ends, sleeps or wants a wait list that another has, within as many steps as it has signals to send and entries are in the list, and six |
| `RwBitlockWord.FieldsOfValue` | src/lw_bitlock.c:1504-1518 | a word built from its fields reads back as those fields |
| `RwBitlockWord.ValueOfFields` | src/lw_bitlock.c:1504-1518 | every word is built from its fields |
| `RwBitlockWord.SameWord` | src/lw_bitlock.c:2017-2017 | words with equal lock fields are equal if and only if their payloads are |
| `RwBitlockWord.MoveFields` | src/lw_bitlock.c:1330-1476 | changing the lock's fields by adding to the word changes no bit outside the range |
| `RwBitlockWord.SharedWord.SetRdlock` | src/lw_bitlock.c:1330-1369 | the swap loop acts in one step on the value it returns, whatever others store in between, and keeps the payload |
| `RwBitlockWord.SharedWord.ClearRdlock` | src/lw_bitlock.c:1371-1400 | likewise for giving a read lock back |
| `RwBitlockWord.SharedWord.SetWrlock` | src/lw_bitlock.c:1402-1443 | likewise for taking or announcing the write lock |
| `RwBitlockWord.SharedWord.ClearWrlock` | src/lw_bitlock.c:1445-1476 | likewise for giving the write lock back |
| `RwBitlockWord.MoreThanTwoReaders` | src/lw_bitlock.c:1511-1513 | three bits are enough for the count to tell one from saturated |
| `RwBitlockWord.WriterLoopCheck` | src/lw_bitlock.c:1420-1431 | the debug check of the loop holds if and only if the payload is zero |
| `RwBitlockWalks.WaitList.FindEligible` | src/lw_bitlock.c:1899-1938 | takes the leading run of one kind off a list shared with other locks, up to the limit, and tells what follows; other locks' entries stay in order |
| `RwBitlockWalks.WaitList.WakeEligibleReaders` | src/lw_bitlock.c:1944-1974 | marks exactly the leading readers still on the list and tells whether a writer follows |
| `RwBitlockWalks.WaitList.WriteUnlock` | src/lw_bitlock.c:2000-2061 | the list work of a writer's release equals the action of the transition system, word included |
| `RwBitlockWalks.WaitList.FindThread` | src/lw_bitlock.c:1627-1655 | finds the first entry of the thread with the lock's bit range |
| `RwBitlockWalks.WaitList.ReadUnlock` | src/lw_bitlock.c:1725-1787 | the list work of a reader's release equals the action of the transition system |
| `RwSpec.HandOffSound` | src/lw_rwlock.c:241-255 | handing an unheld lock to its oldest waiter(s) leaves it held and sound |
| `RwSpec.StepKeepsSound` | src/lw_rwlock.c:34-170 | never writer and readers together; a free lock has no queue; while readers hold the oldest waiter is not shared (fair) or no shared waiter is queued (unfair); an upgrade waiter is the oldest |
| `RwSpec.RunIsSound` | src/lw_rwlock.c:34-170 | the same in every state of every run of the specification |
| `RwSpec.SplitKeepsAll` | src/lw_rwlock.c:471-494 | separating readers from writers loses and duplicates no waiter |
| `RwSpec.OthersKeepTheirs` | src/lw_rwlock.c:639-664 | no one loses a lock by another thread's step |
| `RwSpec.UpgradeStep` | src/lw_rwlock.c:723-824 | while an upgrade is queued no one writes, and the step that takes it off the queue makes it the writer |
| `RwSpec.DowngradeIsAtomic` | src/lw_rwlock.c:666-721 | the step in which a queued downgrade stops being the writer makes it a reader |
| `RwSpec.DowngradeStaysOldest` | src/lw_rwlock.c:690-716 | until then it stays the oldest waiter |
| `RwLockChain.CachedCutIsFresh` | src/lw_rwlock.c:241-255 | after a lost swap that left waiters behind, the cached list to wake is what a fresh scan of the longer queue finds |
| `RwLockChain.PushedChain` | src/lw_rwlock.c:84-99 | a push keeps links, tags and any list a releasing thread holds privately consistent |
| `RwLockChain.UpgradeChain` | src/lw_rwlock.c:723-766 | an upgrade that links itself behind the oldest waiter keeps them consistent, also against a concurrent reinsertion |
| `RwLockChain.CutChain` | src/lw_rwlock.c:276-306 | the scan cuts off exactly the waiters to serve and leaves the exact remaining chain |
| `RwLockChain.SplitLinks` | src/lw_rwlock.c:471-494 | relinking the detached list leaves the writers in their old order and touches no other link |
| `RwLockChain.SplicedChain` | src/lw_rwlock.c:375-429 | the writers go back behind the newcomers and ahead of everyone but a racing upgrade |
| `RwLockChain.FrontChain` | src/lw_rwlock.c:403-410 | when the only newcomer is an upgrade, the writers are linked to it and wait for the word's swap |
| `RwLockChain.PutBackChain` | src/lw_rwlock.c:516-546 | the swap publishes the whole queue, across any number of lost swaps before it |
| `RwLockRelease.UnlockGood` | src/lw_rwlock.c:639-664 | the unlock loop never meets a word its assertions forbid; it is a plain release or goes on to hand over |
| `RwLockRelease.TryUpgradeGood` | src/lw_rwlock.c:548-592 | the last reader of an unfair lock keeps newcomers out before it hands over; any other only leaves |
| `RwLockRelease.ScanGood` | src/lw_rwlock.c:257-306 | forming the list to wake changes nothing for callers |
| `RwLockHandOver.SwapCutGood` | src/lw_rwlock.c:308-349 | the swap after the scan is one hand-off of the specification with the exact readers counted, or changes nothing |
| `RwLockPutBack.UnfairDownGood` | src/lw_rwlock.c:354-373 | taking the queue off the lock is one hand-off: every queued reader is in, every writer still queued in order |
| `RwLockPutBack.StepReinsertGood` | src/lw_rwlock.c:375-410 | the walk to the reinsertion point changes nothing for callers and never fails an assertion |
| `RwLockPutBack.LinkReinsertGood` | src/lw_rwlock.c:411-429 | if the swap of the oldest newcomer's link is lost, it was lost to an upgrade, and the writers still go in ahead of it |
| `RwLockPutBack.SwapReinsertGood` | src/lw_rwlock.c:516-546 | the last swap makes the word's reader count exact |
| `RwLockModes.LinkUpgradeGood` | src/lw_rwlock.c:723-766 | an upgrade joins as the oldest waiter; any other outcome changes nothing for callers |
| `RwLockModes.StepDownWalkGood` | src/lw_rwlock.c:690-716 | a downgrade with waiters joins as the oldest shared waiter |
| `RwLockRuns.StepGood` | src/lw_rwlock.c:34-824 | every action keeps the invariant and is one step (or none) of the specification |
| `RwLockRuns.RunRefines` | src/lw_rwlock.c:34-824 | every run, fair or unfair, is a run of the specification |
| `RwLockRuns.Exclusion` | src/lw_rwlock.c:104-113 | no check that leads to a fault fails; writers exclude everyone; write flag and reader count are exact; a free word has no queue |
| `RwLockChecks.ChecksHold` | src/lw_rwlock.c:104-592 | what the source asserts of the word, of the lists of an unfair release, of the oldest waiter and of a woken thread holds at its place |
| `RwLockRuns.WaitersWhileReading` | src/lw_rwlock.c:66-99 | who can be waiting while others read, in both modes |
| `RwLockRuns.SleeperIsKept` | src/lw_rwlock.c:104-121 | a sleeper is queued for what it asked, or has been given it and was or will be signalled |
| `RwLockRuns.ScanCanRead` | src/lw_rwlock.c:276-300 | a releasing thread's walk ends and reads exactly the queue |
| `RwLockRuns.CountFits` | src/lw_rwlock.h:26-47 | the 14-bit count does not overflow with fewer than 2^14 threads |
| `RwLockRuns.UpgradeAtomic` | src/lw_rwlock.c:768-824 | from the step that queues an upgrade until its caller is back, no other thread has the write lock |
| `RwLockRuns.DowngradeAtomic` | src/lw_rwlock.c:666-721 | from the step that queues a downgrade until its caller is back, no other thread has the write lock |
| `RwLockCalls.CallEnds` | src/lw_rwlock.c:122-824 | every call goes on within its own kind and ends as promised: locked in the mode asked for, refused only as a try or as an upgrade, unlocked, upgraded or downgraded |
| `RwLockCalls.LockGranted` | src/lw_rwlock.c:34-170 | a lock is granted at once if and only if no one writes and, for a reader of a fair lock, no one waits, and for a writer the lock is free; otherwise a try changes nothing and any other call is queued as the newest waiter |
| `RwLockCalls.UpgradeRefused` | src/lw_rwlock.c:723-824 | an upgrade is refused only when another upgrade is queued and joins only when none is; it is never refused at its start and gets the lock at once exactly when it reads alone with no one waiting |
| `RwLockCalls.WalkGetsOn` | src/lw_rwlock.c:386-401 | each step of a walk along the queue goes on to the next older waiter or leaves the walk |
| `RwLockCalls.StepsMove` | src/lw_rwlock.c:34-824 | every step of a call gets its thread on, also after a lost swap |
| `RwLockRest.StillOnlyWhileHeld` | src/lw_rwlock.c:34-824 | the same for the 4-byte reader-writer lock, fair and unfair, with upgrades and downgrades |
| `RwLockAlone.EndsAlone` | src/lw_rwlock.c:34-824 | a call that no other thread disturbs ends or sleeps within a number of steps linear in the queue, however many of its swaps were lost before; a swap is lost only to another thread |
| `RwLockWalks.FairScan` | src/lw_rwlock.c:276-306 | the loop finds the longest all-shared run at the old end or the one oldest waiter, counts it and cuts it off in place as the action does |
| `RwLockWalks.SplitList` | src/lw_rwlock.c:471-494 | the loop stacks the readers, lists the writers in their old order, counts the readers, and leaves every link as the action does |
| `AtomicListInv.Neighbours` | src/atomic_list.c:48-55 | the links of a locked node lead to its true neighbours in the list |
| `AtomicListRuns.StepInv` | src/atomic_list.c:604-1385 | every lock, unlock, link and unlink keeps the invariant |
| `AtomicListClaims.LinksAgree` | src/atomic_list.c:43-44 | seen from a node not exclusively locked, next = b exactly when b's prev is it, and exactly when b is the next element |
| `AtomicListClaims.StepChangesList` | src/atomic_list.c:876-945 | each operation changes the list in one step, by its one element: right behind the node given, right in front of it (or at the end), or by taking it out |
| `AtomicListCalls.CallTakesEffect` | src/atomic_list.c:1153-1385 | every insert puts the element its caller gave right behind or right in front of the node its caller named, every removal takes out the element named, each in one step of the call; no other step of the call changes the list and the call does not end before |
| `AtomicListCalls.PredecessorTried` | src/atomic_list.c:1206-1239 | the lock of the true predecessor is taken at once if and only if no one holds it; otherwise the call waits for it and holds nothing |
| `AtomicListCalls.WalkTried` | src/atomic_list.c:793-806 | the same for a walk backward, with shared locks |
| `AtomicListCalls.StepsMove` | src/atomic_list.c:604-1385 | every step of a call gets its thread on |
| `AtomicListRest.SomeoneGoesOn` | src/atomic_list.c:604-1385 | in every reached state in which a thread is inside an operation, that thread or another can take a step |
| `AtomicListAlone.EndsAlone` | src/atomic_list.c:604-1385 | an operation that no other thread disturbs ends, or wants a lock that another has, or has to defer to a removal, within a number of steps linear in the length of the list |
| `AtomicListClaims.WaitsForward` | src/atomic_list.c:38-42 | whoever waits for a lock while holding others waits for one later in list order (removed elements lowest) |
| `AtomicListClaims.NoDeadlock` | src/atomic_list.c:890-921 | in every nonempty set of threads some thread waits for no one in the set, neither for one that holds the lock it wants nor for one queued ahead of it, whatever the order of the queues |
| `AtomicPinsRuns.OneRemover` | src/atomic_list.c:329-358 | no assertion fails; one removal at most has an element in hand |
| `AtomicPinsRuns.NoPinAfter` | src/atomic_list.c:167-183 | a masked element without pins gets none until it has left the list |
| `AtomicPinsRuns.RemoverIsWoken` | src/atomic_list.c:997-1039 | the remover finds no pins left, or is named by the wait id while there are some; the wait id never serves it and iterators at once |
| `AtomicPinsRuns.IteratorIsKept` | src/atomic_list.c:288-312 | an iterator that came too late waits behind the wait id of a removal under way, or has been woken |
| `AtomicPinsRuns.CountIsEnough` | src/atomic_list.c:955-981 | the list's count is never less than the number of its unmasked elements |
| `AtomicPinsRuns.PinsAreCounted` | src/atomic_list.c:167-229 | the pin count is the number of pins held |
| `AtomicListJoin.PinsGuardRemoval` | src/atomic_list.c:955-1039 | with pins and links together: a removal that found no pins left finds no operation standing on its element, so that every step on the links is one their model allows |
| `AtomicListWalks.WalkReturns` | src/atomic_list.c:604-862 | a walk goes from its start over neighbours that were masked when it passed them, and returns the next neighbour, listed and not masked and now pinned, or nothing at the end of the list |
| `AtomicPinsCalls.PinSucceeds` | src/atomic_list.c:167-183 | a pin succeeds if and only if no removal has won the element |
| `AtomicPinsCalls.UnpinWakes` | src/atomic_list.c:189-229 | an unpin takes back one pin, and the last one wakes the remover that waits |
| `AtomicPinsCalls.FirstRemovalWins` | src/atomic_list.c:329-358 | a removal wins the element if and only if none has before; a loser changes nothing |
| `AtomicPinsCalls.ForcePinSucceeds` | src/atomic_list.c:250-272 | the forced pin of an iterator succeeds if and only if the masked element still has pins |
| `AtomicPinsCalls.DeferWaits` | src/atomic_list.c:293-320 | an iterator that finds no pins left waits behind the wait id, newest first; one that finds pins does not |
| `AtomicPinsCalls.CallTakesEffect` | src/atomic_list.c:955-1039 | an insert exposes the element its caller named, pinned if asked, and a removal that won takes it off, each in one step of the call and not before the call ends |
| `AtomicPinsCalls.StepsMove` | src/atomic_list.c:955-1039 | every step of an insert or removal gets its thread on |
| `AtomicPinsRest.StillOnlyWhilePinned` | src/atomic_list.c:189-358 | when no call can take a step, every thread inside a call is a remover that waits for an element on which someone has a pin and is named in its wait id; no iterator is left waiting |
| `Mutex2bRuns.Exclusion` | src/lw_mutex2b.c:105-122 | no assertion fails; two callers never have the same mutex |
| `Mutex2bRuns.WordLeadsToOwner` | src/lw_mutex2b.c:105-122 | for every mutex, word and links lead over exactly its blocked waiters, newest first, to its owner |
| `Mutex2bRuns.WaitersApart` | src/lw_mutex2b.c:105-122 | no thread waits for two mutexes: one link per thread is enough |
| `Mutex2bRuns.HandOverIsFifo` | src/lw_mutex2b.c:124-166 | threads come to own a mutex in the order in which they arrived at it |
| `Mutex2bRuns.SleeperIsKept` | src/lw_mutex2b.c:157-161 | a blocked thread is in line, or owns the mutex and has been or is being signalled |
| `Mutex2bRuns.FindOldestWaiter` | src/lw_mutex2b.c:51-67 | the walk ends at the oldest waiter, the one whose link is the owner |
| `Mutex2bCalls.TryTakes` | src/lw_mutex2b.c:30-49 | a try gets the mutex if and only if no one owns it; otherwise it changes nothing |
| `Mutex2bCalls.CallEnds` | src/lw_mutex2b.c:105-166 | a lock call stays with its mutex and ends owning it, an unlock ends neither owning it nor waiting for it |
| `Mutex2bCalls.WalkGetsOn` | src/lw_mutex2b.c:51-67 | each step of the walk goes on to the next older waiter and ends at the oldest |
| `Mutex2bCalls.StepsMove` | src/lw_mutex2b.c:69-166 | every step of a call gets its thread on |
| `Mutex2bRest.StillOnlyWhileHeld` | src/lw_mutex2b.c:69-166 | when no call on a mutex can take a step, every thread inside a call on it sleeps in line behind an owner that has it outside any call on it |
| `Mutex2bAlone.EndsAlone` | src/lw_mutex2b.c:51-166 | a call that no other thread disturbs ends or sleeps within one walk over the line and six steps, however many of its swaps were lost before |
| `MutexRuns.Exclusion` | src/lw_mutex.c:60-93 | no assertion fails; one thread at most holds; no owner means no queue |
| `MutexRuns.LinksInvert` | src/lw_mutex.c:151-180 | next links are the waiters newest first, with the new owner as one more last node until it is unlinked; every prev link set leads back over a next link |
| `MutexRuns.HandOverIsFifo` | src/lw_mutex.c:182-221 | ownership passes in the order of arrival |
| `MutexRuns.SleeperIsKept` | src/lw_mutex.c:95-107 | a blocked thread is in line, or owns the mutex and has been or is being woken |
| `MutexRuns.UnlinkInv` | src/lw_waiter.c:446-465 | taking the new owner out of the id list, concurrently with arrivals, keeps the chain |
| `MutexRuns.SetupPrev` | src/lw_mutex.c:151-180 | the walk fills in every link back, touches no other, and ends at the oldest waiter |
| `MutexCalls.LockGranted` | src/lw_mutex.c:31-93 | a lock is granted at once if and only if there is no owner; otherwise a try changes nothing and any other call joins the line as its newest waiter |
| `MutexCalls.CallEnds` | src/lw_mutex.c:60-221 | a lock call ends owning the mutex, an unlock ends neither owning it nor waiting for it |
| `MutexCalls.SwapHandsOver` | src/lw_mutex.c:182-221 | the swap hands the mutex to its oldest waiter or frees it, or, if the word has changed, changes nothing and looks again |
| `MutexCalls.WalkGetsOn` | src/lw_mutex.c:151-180 | each step of the walk goes on to the next older waiter and ends at the oldest |
| `MutexCalls.StepsMove` | src/lw_mutex.c:60-221 | every step of a call gets its thread on |
| `MutexRest.StillOnlyWhileHeld` | src/lw_mutex.c:60-221 | when no call can take a step, every thread inside a call sleeps in line and the owner is at rest with the mutex |
| `MutexAlone.EndsAlone` | src/lw_mutex.c:60-221 | a call that no other thread disturbs ends or sleeps within two walks over the line and four steps |
| `BitlockRuns.BitsTellTruth` | src/lw_bitlock.c:73-120 | with the list free and the holder in no condition call, the wait bit is set exactly when someone waits for the lock and the cv bit exactly when someone waits for its condition |
| `BitlockRuns.Exclusion` | src/lw_bitlock.c:163-196 | no assertion fails; two threads never have the same lock |
| `BitlockRuns.UnlockFindsOldest` | src/lw_bitlock.c:335-421 | a contended unlock, and a condition wait that must pass the lock on, hand it to the oldest waiter |
| `BitlockRuns.SignalFindsSleeper` | src/lw_bitlock.c:584-699 | as long as a thread waits for the condition, whoever looks sees the cv bit |
| `BitlockRuns.SleeperIsKept` | src/lw_bitlock.c:584-630 | a sleeper is in the list, or holds the lock and has been or is being woken |
| `BitlockRuns.MarkInv` | src/lw_bitlock.c:641-759 | signal and broadcast turn condition waiters into waiters for the lock in place and keep the invariant |
| `BitlockRuns.GetOneWaiter` | src/lw_bitlock.c:335-373 | the loop finds the oldest waiter of the lock and whether there is another |
| `BitlockCalls.LockGranted` | src/lw_bitlock.c:163-196 | a lock is granted at once if and only if no one holds it; otherwise a try changes nothing and any other call goes to the wait list |
| `BitlockCalls.LockDecided` | src/lw_bitlock.c:183-195 | under the wait list a lock that no one holds is taken, for any other the caller joins the list |
| `BitlockCalls.ListChanges` | src/lw_bitlock.c:335-759 | what each step does to the list: entries join at the end, the oldest waiter leaves with the lock, a signal turns exactly the oldest condition waiter of its lock into a waiter, a broadcast exactly all of them, nothing else changes it |
| `BitlockCalls.SignalClears` | src/lw_bitlock.c:674-699 | a signal or broadcast goes on to clear the cv bit if and only if no condition waiter of the lock is left |
| `BitlockCalls.HandOverInOrder` | src/lw_bitlock.c:335-421 | the lock is handed to the waiter whose entry joined the list before those of all other waiters for it |
| `BitlockCalls.CallEnds` | src/lw_bitlock.c:163-759 | every call keeps to its lock and ends as promised; a condition wait sleeps only after its entry has joined the list, a signal ends only after it has changed the list, or at once when no one waits for the condition |
| `BitlockCalls.StepsMove` | src/lw_bitlock.c:163-759 | every step of a call gets its thread on |
| `BitlockRest.StillOnlyWhileHeld` | src/lw_bitlock.c:163-759 | when the wait list is free and no call on a lock can take a step, every thread inside a call on it sleeps in the list, for the condition, or for the lock while someone has it outside any call on it |
| `BitlockAlone.EndsAlone` | src/lw_bitlock.c:163-759 | a call that no other thread disturbs ends, sleeps or wants a wait list that another has, within eight steps |
| `MaskedSwap.Word.SwapWithMask` | src/lw_atomic.h:905-927 | acts in one step on a value the word had: it succeeds if and only if that value agrees outside the mask, and then replaces exactly those bits and keeps what others left under it; a mismatch changes nothing |
| `CounterRuns.FreeLockTellsTruth` | src/delegate.c:220-238 | with the lock bit clear, pending says whether the queue has a job, and then it asks for more units than there are |
| `CounterRuns.UnitsAreConserved` | src/counter.c:35-140 | available + outstanding = max; the 32-bit field does not wrap |
| `CounterRuns.OneRunner` | src/delegate.c:75-84 | two threads never run the queue at once |
| `CounterJobs.RunJobs` | src/delegate.c:86-405 | stack, queue, answers and program counters stay consistent in every run |
| `CounterClaims.OneOutcome` | src/delegate.c:321-405 | a request ends granted or cancelled, never both and never twice; a cancellation is told which |
| `CounterClaims.GrantsInOrder` | src/delegate.c:175-214 | grants follow queue order; only cancelled requests are passed over |
| `CounterClaims.RequestIsKept` | src/delegate.c:277-319 | every request is being submitted, on the stack, queued, granted or cancelled |
| `CounterClaims.NothingLeft` | src/delegate.c:106-170 | with lock and incoming both clear no submitted job is left on the stack |
| `CounterExit.ExitLeavesBehind` | src/delegate.c:220-238 | the exit swap leaves a submitted job behind if and only if a job was pushed and announced and not drained since, and the word is as the thread's last grant since its last drain left it; an incoming bit that the swap expects comes from such a grant |
| `CounterCalls.TryTakes` | src/counter.c:35-57 | a try takes the units if and only if there are enough, no one is queued or runs the queue, and no job is announced; otherwise it changes nothing |
| `CounterCalls.AllocTakes` | src/counter.c:91-113 | an allocation takes the units at once under the same condition and is submitted otherwise |
| `CounterCalls.FreeReturns` | src/counter.c:116-140 | freed units are there at once, and if anyone is queued or announced, someone runs the queue after the free |
| `CounterCalls.SubmitReaches` | src/delegate.c:86-104 | a job handed in is queued by its caller or put on the stack, and is announced with someone running the queue |
| `CounterCalls.GrantGives` | src/counter.c:59-70 | a grant gives the request at the head exactly the units that its caller asked for |
| `CounterCalls.OnlyThese` | src/counter.c:35-140 | units change hands in no other way than by a try, an allocation, a grant or a free |
| `CounterCalls.CallKeepsRequest` | src/counter.c:91-113 | a call stays with its own request and ends only when that was granted or its cancellation answered |
| `CounterCalls.CancelIsKept` | src/delegate.c:321-405 | whoever waits for a cancellation has been answered, or the cancellation is on the stack or in the queue |
| `CounterCalls.CancelTried` | src/delegate.c:340-405 | a cancellation takes the lock bit if no one has it, and is submitted otherwise |
| `CounterCalls.CancelEnds` | src/delegate.c:321-405 | a cancellation that has begun goes on until it has been answered and ends only then |
| `CounterCalls.StepsMove` | src/delegate.c:86-405 | every step of a call gets its thread on or takes a job off the queue |
| `CounterRest.StillOnlyWhileShort` | src/delegate.c:86-405 | when no call can take a step, every thread inside a call waits in the queue, whose head needs more units than there are, or for a job left on the stack with the incoming bit set |
| `CounterAlone.EndsAlone` | src/delegate.c:86-405 | a call that no other thread disturbs ends or waits within twice as many steps as there are jobs, and twelve: a lone runner drains the stack, serves the queue and lets go of the lock bit |
| `CounterClaims.RequestLeftBehind` | src/counter.c:35-57 | a run after which the lock bit is clear and a request waits although the units cover it |
| `DList.List.InsertAfter` | src/lw_dlist.c:96-131 | puts the element at its place; links, head, tail and count stay consistent |
| `DList.List.InsertBefore` | src/lw_dlist.c:133-137 | puts the element in front of an existing one |
| `DList.List.AppendAtEnd` | src/lw_dlist.c:53-58 | puts the element at the end |
| `DList.List.Remove` | src/lw_dlist.c:139-168 | takes exactly that element out; links, head, tail and count stay consistent |
| `DList.List.Dequeue` | src/lw_dlist.c:60-74 | takes the first element, or finds none |
| `Delegate.SortIncoming` | src/delegate.c:131-162 | the queue becomes the old queue and then the stacked requests in order of submission; cancellations are set aside |
| `Delegate.RunImmediate` | src/delegate.c:164-169 | every job set aside runs; each takes its request out of the queue if it is there and says so |
| `Delegate.Drain` | src/delegate.c:111-170 | on the linked lists, draining gives the queue of the transition system and the answers |
| `LfStack.StepIsPushOrPop` | src/lf_stack.c:69-105 | the chain from the top is the stack; each successful swap is one push or one pop of an element no one held; nothing else changes it |
| `LfStack.HeldIsOff` | src/lf_stack.c:87-105 | no element is both on the stack and held; a pop finds nothing exactly when the stack is empty |
| `LfStackCalls.CallTakesEffect` | src/lf_stack.c:69-105 | a push puts the element its caller gave on the stack in one step of the call, a pop takes the top element off in one step and returns that one, or finds the stack empty; no other step of the call changes the stack and it does not end before |
| `LfStackCalls.PoppedIsUnlinked` | src/lf_stack.c:103-104 | a popped element is returned with no link |
| `LfStackCalls.StepsMove` | src/lf_stack.c:69-105 | every step of a push or pop gets its thread on |
| `LfStackAlone.EndsAlone` | src/lf_stack.c:69-105 | a push or pop that no other thread disturbs ends within five steps |
| `LfStackUse.TagsRunOut` | src/lf_stack.h:18-26 | for every number of tags from three, a run whose swaps are all within their windows but the last, made after exactly that many swaps, which puts a held element on top |
| `LfStackUse.IdChecks` | src/lf_stack.c:31-65 | the check at set-up refuses no number of elements; the check on ids lets all ids through if and only if there are fewer than 2^32 - 1 |
| `LfStackUse.LargestStack` | src/lf_stack.c:58-67 | with 2^32 - 1 elements the check on ids fails for each of them |
| `LfStackUse.IdRoundTrip` | src/lf_stack.c:47-67 | id to address to id is the identity and passes both checks on the object, in 32- and 64-bit arithmetic |
| `LfStackUse.ObjRoundTrip` | src/lf_stack.c:47-67 | an address that passes the checks comes back from its id if and only if it is less than 2^32 elements behind the base |
| `LfStackUse.Populate` | src/lf_stack.c:35-45 | the loop links all elements, the last on top |
| `LfStackUse.PopulatedIsInit` | src/lf_stack.c:17-45 | such links are a full stack to start from |

## Left out

- Waiting and waking (`src/lw_waiter.c`, `src/lw_event.c`) are "blocked until signalled"; a compare-and-swap is one step; clocks, inline assembly and thread-specific storage are not part of this model.
- Fairness of the scheduler: that a step which stays possible is ever taken. The results are about every state of every run: that someone can go on, not that it does.
- Reader-writer bitlock: one lock with a given bit range per wait list, as the matcher at `src/lw_bitlock.c:1627-1655` needs; the field `waited_for_lock`, written without the list lock, is not in the tag; the 64-bit copy of the functions is not modelled.
- 4-byte reader-writer lock: a walk of the only holder is one action (its loop is `RwLockWalks.FairScan` or `RwLockWalks.SplitList`); walks that others can disturb are taken link by link. `LW_RWLOCK_WAIT_DEFERRED` differs from a blocking lock only in where the caller waits.
- RwLockRuns.Exclusion: debug walks that recount a private list (`src/lw_rwlock.c:198-221`, `307-317`, `504-513`) are covered by the contracts of the walks and are not faults of their own.
- RwLockRuns.CountFits: assumes fewer than 2^14 threads; more would overflow the field, which the source only asserts against.
- Self-locking list: node locks are abstract reader-writer locks (their protocol is the 4-byte lock above), whose order of service is left open; pins and links are two models; `AtomicListJoin` runs them together for callers that keep a pin on the element they stand on. A walk backward that waited for its predecessor goes on only if the predecessor is still masked: the source asserts so (`src/atomic_list.c:256`) but does not look again, and an element taken out and put back at the same place meanwhile would be pinned or waited for all the same. The 15-bit pin count is unbounded. The iterator object and destruction are not modelled.
- AtomicListClaims.NoDeadlock: is about node locks; a caller that waits for a removal while it has pins can block itself, as the source warns (`src/atomic_list.c:993-994`).
- 2-byte mutex: the debug-only deadlock walk of a thread that is not the owner is not modelled.
- 4-byte mutex: one mutex; `lw_mutex_lock_if_not_held` and `lw_mutex_unlock_if_held` only add a test.
- Bitlock mutexes: the payload variants (`src/lw_bitlock.c:207-332`) and the 64-bit copies are not modelled; the payload of every swap is covered by `MaskedSwap.Word.SwapWithMask`.
- MaskedSwap.Word.SwapWithMask: a word is the set of its one-bits, without a bound of 32.
- Delegation queue: a push on the incoming stack is one step, which hides that the loop reads the head again for its link instead of using the value it compares (`src/delegate.c:98`); jobs that yield, block themselves, unblock another or reload, and `delegate_run` with its waiting bit, are not used by the counter and not modelled.
- Counter: a counter with a hard maximum; a caller frees only what is outstanding.
- Lock-free stack: the number of tags is a parameter (the field has 32 bits); the elements' `stack_id` is not modelled.
- `src/lw_monitor.c`, `src/lw_cond_var.c`, `src/slist32.c`, `src/ptr_map.c`, `src/murmur.h` and the examples: thin, unfinished, or without a queue invariant that holds in every run.
