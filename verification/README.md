# Verification of the SML# runtime

A Dafny model of the algorithms in the SML# runtime that keep invariants over unbounded state: the on-the-fly
concurrent collector, the two sequential collectors beside it, the splay tree, the big integers and shortest decimal
digits of dtoa.c, the frame table, and two parallel benchmark kernels. `dafny verify dfyconfig.toml` checks everything.

## The parts

**The concurrent collector** (control.c, heap_concurrent.c) has no collector thread: workers take each other through
the phases ASYNC, SYNC1, SYNC2 and MARK. It is modelled in four layers.

- `Phases`: a worker's state byte, and what the XOR, OR and AND operations on it mean.
- `Control`: the handshakes as a transition system. One step is one atomic operation on `state`,
  `workers_available`, `sml_check_flag` or `gc_count`; switching a worker's phase and adding the count to the counter
  are separate steps. Any number of workers, helpers and collections.
- `Marking`, `Collector`, `Invariant`, `Barrier`, `Safety`: the heap, writes and their barriers, tracing, sweeping and
  user threads that migrate, above an abstract environment that says only in which stage each worker is. A write is
  several steps: the slot is read (or exchanged), the phase is looked at, each value to be remembered is tested and
  marked by one step and pushed by another, and the slot is stored to; everything else may happen in between.
  *Protected* means: a member of every set that contains what grey slots and its own white members point to. That
  makes every proof about reachability a proof about one edit of the heap. `MarkFinish` is about the answer of
  sml_heap_mark_finish. `Enumeration` proves what concerns stacks and locks without looking at the heap. `Effects` says
  what the steps leave in slots, colors and lists, in terms of the two heaps alone, and that tracing ends.
- `System`: both machines together. Every handshake of `Control` is one step of the environment of `Collector`, so
  the theorems hold for the composition. `StaleMark`, `SkippedStack`, `TornWrite` and `HastyAnswer` construct runs of
  it, with two workers, in which safety fails, each for one reason; what they share is in `TwoWorkers`.

Allocation is modelled beside it: `Bits` and `Bitmap` are the bit pointers and the search for a block, `Segments` the
lists that are rebuilt in place, and `Subheaps` a whole sub-heap with its bitmaps and snapshots over any number of
allocations, snapshots and reclamations.

**The sequential collectors.** `Cheney` is the copier of heap_cheney.c: the new heap is isomorphic to the reachable
part of the old one, and allocation and stores keep it fit for the next collection. `Marker` is the marking of
heap_bitmap.c with its intrusive stack and three-level bitmap, `ThreeLevels` the search for a free block in that bitmap.

**Pointers and numbers.** `Splay`, `SplayWalk` and `SplayRebuild` work on a memory of nodes with child and back
pointers; ghost trees and zippers say what the memory stands for. `Words`, `Bignum`, `Digits` and `DigitLoop` are the
arithmetic of dtoa.c: exact integers in arrays of 32-bit words, and the digit loop of mode 0, over integers and over
those arrays. `Doubles` says what it prints for the numbers of the binary64 format, and `Scaling` leads from the two
words of such a number to the loop and its digits.

**Smaller cores.** `CilkSort`, `Queens`, `FrameTable` (the writer, smlsharp_gc.cpp) and `FrameLookup` (the reader,
top.c).

Code that changes data in place is modelled by methods on arrays and on class fields, each with its new state in its
`ensures`. The concurrent protocols are transition systems: a predicate relates a state, a step and the next state.

## What the proofs found

The collector withstands every step but four: `Safety.InvKeptUnlessBroken` proves that a step of threads, collector
and environment keeps the invariant if and only if it is none of them, `System.StepKeepsInv` the same of the whole
system. Each of the four conditions is one on the state before the step, and for each a run of the whole system is
constructed in which nothing else goes wrong and the last step frees an object that a user thread reaches (findings 1
to 4). Theorems about the heap over whole runs are about runs without these four steps, those of `Enumeration` about
runs that skip no stack, and those of `Control` about all runs.

1. **A write during the switch to ASYNC can lose an object.** Workers are sent ASYNC one by one (control.c:1678-1688).
   One that has not been sent it yet still has the deletion barrier of MARK (heap_concurrent.c:1681-1692), while
   another may have swept its heap already and cleared its collect bits. The barrier then sets the collect bit of an
   object of the next collection, nobody clears it, and the next collection takes the object for visited and does not
   scan it. The step is a test-and-set after ASYNC has been published, by a write that has looked at the phase before,
   on an object whose collect bit was cleared (`Barrier.Stale`). `StaleMark.StaleWriteLosesAnObject`: worker 1 leads the
   switch after it has left ML code, worker 2 finds it in the list of the round before, helps it, and goes on with ML
   code in MARK.
2. **`acquire_bit` may fail for no reason, and then a stack is skipped.** It uses a weak compare-and-swap
   (control.c:192-206), which may fail with the bit clear, and sml_enter takes its failure for proof that somebody is
   enumerating the user's stack (control.c:743-770), in SYNC2 then skipping its own enumeration. The step is taking the
   lock at a later attempt, in SYNC2, when the stack has not been enumerated (`Safety.Skips`);
   `Enumeration.PeopleKeptUnlessSkipped` proves the equivalence for stacks and locks alone.
   `Enumeration.NobodyMisledNobodySkips`: only a failure with the bit clear, in SYNC2, on a user whose stack has not
   been enumerated, can lead to it; all others only cost time. `SkippedStack.SpuriousFailureSkipsAStack`: a user lives
   through SYNC2, nobody enumerates its stack, and an object on it is freed.
3. **Marking and linking an object are two operations, and the end of tracing may come in between.** `remember`
   (heap_concurrent.c:1163-1173) sets the collect bit first and puts the object on the remembered set later.
   sml_heap_mark_finish (1246-1271) reads the sets of all workers, and a tracer that meets the object finds it marked.
   The step is an answer of yes while some object is marked and not linked, was linked behind the reader's back, or has
   been exchanged by sml_cmpswap and not yet marked (`Safety.Hasty`). Reading every set twice is not enough for that:
   `MarkFinish.NoOversightNoHaste` proves that two readings are right as long as no set is read while its owner is in
   the middle of remembering an object. `HastyAnswer.HastyAnswerLosesAnObject`: the barrier has marked the object that
   it is about to unlink, and what only that object points to is freed.
4. **Two writes to one slot can hide an object from the snapshot.** sml_write reads the slot, runs the barrier and
   stores (heap_concurrent.c:1694-1700). Between the two a worker that has not seen SYNC1 may store a white object,
   without a barrier; if SYNC2 is then published, the first write overwrites that object without having remembered it.
   The step is the publication of SYNC2 while a thread is in the middle of a write to a slot that now holds a white
   object which no thread is about to remember (`Safety.Torn`). `TornWrite.TornWriteLosesAnObject`: the object was
   loaded by a stack enumerated before.
5. **An addition that comes last stops the collection.** A leader adds the count after it has switched the phases, and
   all answers can come before that (control.c:1469-1479); then nobody sees the value 1. `Control.RoundEnds` says when a
   round ends and who is elected: an answer elects, an addition after the last answer elects nobody, and then
   `Control.StalledForever` and, over runs, `Control.NothingEndsAStall` hold. Only a leader that acts for a worker which
   has left ML code can be so late; a greedy leader, `sml_gc(0)` and a helper still owe the answer of their own worker:
   `Control.OnlyALeavingLeaderStalls`. `Stall.LateAddStalls` constructs a run that stalls.
6. **One tie of the digit loop goes up, but for no double.** When the interval ends exactly at ten, the mantissa is even
   and the first digit is 9, the loop writes ten without asking whether 9 is inside and nearer (dtoa.c:4178-4184).
   `Digits.Shortest` proves that the result is the nearest decimal of its length if and only if this does not occur;
   `Doubles.SomeNumberPasses` is an input for which it does. It takes an interval as wide as one unit of the first digit
   (`Doubles.NarrowNumbers`) and arises for no number of the binary64 format (`Doubles.NoDoublePasses`), so for doubles
   the result is always nearest (`Doubles.DoublesPrintNearest`, `Scaling.Dtoa`). Over the big integers there is one
   corner more: a remainder of zero that quorem leaves without a word compares as less than a zero of one word, so that
   the tie goes unseen there (`DigitLoop.Passes`), and 9 is printed. Of two decimals that are as near the even one is
   printed, except when both are the end points of the interval and read back: then the digit is kept whatever it is
   (`Doubles.SomeTieStaysOdd`). That, too, arises for no double (`Doubles.NoDoubleAtBothEnds`).
7. **A fresh segment needs no assumption on its number of blocks.** `init_segment` leaves the summary bit of a word of
   nothing but sentinels clear (heap_concurrent.c:328-330), exactly when the number of blocks is a multiple of 32.
   `find_bitmap` is right all the same for pointers that start at the first block, because that word lies behind all
   blocks and no other word of a fresh segment is full.
8. **The layout of heap_bitmap.c is right for almost all sizes.** `clear_bitmap` writes sentinels into the last word
   of each level only (heap_bitmap.c:1129-1130). They fit there if and only if neither the number of blocks nor the
   number of words they take is 992 modulo 1024: `Marker.LayoutFits`. The ten layouts that the runtime computes do
   fit: `Marker.RuntimeLayoutsFit`.

## Model

| member | source | states |
|---|---|---|
| `Phases.StateByteIsInjective` | smlsharp/src/runtime/control.c:155-181 | the byte in a worker's `state` determines its phase and who holds it (nobody, its owner, a helper) |
| `Phases.XorSwitchesThePhase` | smlsharp/src/runtime/control.c:1229-1240 | XOR with old ^ new turns the phase into the pending next signal and leaves the lock bits alone, whoever holds the worker |
| `Phases.OrLeavesAndAccepts` | smlsharp/src/runtime/control.c:608-614 | OR with `INACTIVE_STATE or 1` gives the worker up and accepts a pending signal in one operation |
| `Phases.OrAcceptsForTheHelper` | smlsharp/src/runtime/control.c:1353-1354 | the byte a helper writes after a failed release accepts the new signal and keeps the helper's lock |
| `Phases.AndAcquires` | smlsharp/src/runtime/control.c:208-222 | clearing `INACTIVE_STATE` acquires an open worker and leaves its phase alone |
| `Phases.HelpTest` | smlsharp/src/runtime/control.c:1282-1292 | the helper's test holds of exactly the open workers with a pending signal |
| `System.PhaseTests` | smlsharp/src/runtime/heap_concurrent.c:1681-1692 | the comparisons of the runtime on the phase in that byte, `phase >= SYNC1`, `SYNC1 <= phase && phase <= SYNC2`, `phase == SYNC2` and `ASYNC <= phase && phase <= PRESYNC2`, find exactly the stages in which a write has the deletion barrier, the insertion barrier, a migration takes the lock, enumerates, and new objects are targets |
| `Control.StepKeepsInv` | smlsharp/src/runtime/control.c:398-484 | every atomic step of the handshakes keeps the invariant: phases, debts, counter, leader and locks fit together |
| `Control.RunKeepsInv` | smlsharp/src/runtime/control.c:1171-1257 | the invariant holds in every state of every run, with any number of workers and collections |
| `Control.PhasesStayClose` | smlsharp/src/runtime/control.c:1238-1238 | in every reachable state a worker's phase is the published one, pending or accepted, or the one before; at the switch it is the one that the assertion of change_phase expects |
| `Control.CounterIsDebt` | smlsharp/src/runtime/control.c:1447-1459 | the counter plus what the leader has not added yet is the number of workers that owe an answer; it may be negative, and its 32-bit value is 1 exactly when the integer is |
| `Control.AnswerSeesOne` | smlsharp/src/runtime/control.c:1459-1459 | an answer sees 1 only when it is the last one owed and nobody else leads |
| `Control.LeaderAndActorAreUnique` | smlsharp/src/runtime/control.c:1259-1357 | there is one leader at a time, and one thread at a time runs the action of a worker |
| `Control.RoundOnlyShrinks` | smlsharp/src/runtime/control.c:1171-1257 | between two global_phase steps the workers still to be signalled only get fewer, and new debts are debts of workers taken from them |
| `Control.ActionRunsOncePerRound` | smlsharp/src/runtime/control.c:598-633 | a worker that has answered owes nothing until the next global_phase, whoever answered for it: its owner, the owner on leaving, or a helper |
| `Control.OneAnswerPerRound` | smlsharp/src/runtime/control.c:598-633 | over runs: between two global_phase steps no two answers are for the same worker, so its action runs at most once per round |
| `Control.SignalsAreNotDropped` | smlsharp/src/runtime/control.c:1333-1355 | a pending signal disappears only into a running action, and nobody gives a worker up with a signal still pending |
| `Control.CanceledStays` | smlsharp/src/runtime/control.c:1214-1226 | a worker disappears only when change_phase, on the way to SYNC1, finds it canceled; only cancelling sets that flag and nothing clears it |
| `Control.RoundEnds` | smlsharp/src/runtime/control.c:1447-1489 | a round ends with the last answer, which elects a leader when all actions are done, or with the late addition, and then nobody is elected |
| `Control.StalledForever` | smlsharp/src/runtime/control.c:1469-1479 | once a round has ended without a leader no step ever elects one, sends a signal or ends the collection |
| `Control.NothingEndsAStall` | smlsharp/src/runtime/control.c:1469-1479 | over runs: every state after a stalled one is stalled, in the same phase of the same collection |
| `Control.OnlyALeavingLeaderStalls` | smlsharp/src/runtime/control.c:1469-1488 | an addition ends the round without electing anybody exactly when all answers came before it, and then the leader has left ML code (`sml_leave`); a greedy, lazy or helping leader still owes the answer for its own worker |
| `Stall.LateAddStalls` | smlsharp/src/runtime/control.c:1469-1479 | a concrete run of two workers in which the addition comes after both answers and the collection stands still |
| `Marking.ProtectedStays` | smlsharp/src/runtime/heap_concurrent.c:1176-1229 | while the heap evolves as barriers and tracing let it, an object that tracing would reach stays so until it is marked |
| `Marking.SlotProtects` | smlsharp/src/runtime/heap_concurrent.c:1176-1229 | what an unscanned slot, or a slot of a white object that tracing will reach, points to will be reached |
| `Marking.NothingGreyNothingProtected` | smlsharp/src/runtime/heap_concurrent.c:1247-1271 | without grey slots no white object is left that tracing would have reached |
| `Marking.SetFieldEvolves` | smlsharp/src/runtime/heap_concurrent.c:1681-1700 | overwriting a slot whose old value has been remembered loses no object |
| `Marking.SetFieldKeepsSlots` | smlsharp/src/runtime/heap_concurrent.c:1681-1700 | a safe value written over a remembered one keeps every scanned slot pointing to marked or protected objects |
| `Marking.LoadIsOk` | smlsharp/src/runtime/heap_concurrent.c:1681-1700 | a value loaded from a safe object is safe |
| `Safety.InvKeptUnlessBroken` | smlsharp/src/runtime/heap_concurrent.c:1070-1271 | a step keeps the tri-colour invariant if and only if it is none of four: a stale test-and-set, a skipped stack, the publication of SYNC2 in the middle of a torn write, a hasty answer of mark_finish |
| `Barrier.StaleMarksSwept` | smlsharp/src/runtime/control.c:1678-1688 | what a stale test-and-set leaves: an object of the next collection that is marked before that collection has begun |
| `Safety.SkipBreaksInv` | smlsharp/src/runtime/control.c:743-770 | a thread in SYNC2 takes a user's lock at a later attempt and does not enumerate a stack that nobody has enumerated: the user then counts as enumerated and is not |
| `Safety.TornBreaksInv` | smlsharp/src/runtime/heap_concurrent.c:1694-1700 | publishing SYNC2 while a write is about to overwrite a white object that it has not read leaves a thread that will unlink it unremembered |
| `Safety.HastyBreaksInv` | smlsharp/src/runtime/heap_concurrent.c:1246-1271 | an answer of yes with an object marked and not linked, or still to be marked, declares tracing over when it is not |
| `Barrier.BarrierDone` | smlsharp/src/runtime/heap_concurrent.c:1681-1700 | when a write has remembered all it is to, the value overwritten is no longer white and the value written is safe, whatever other threads have stored to the slot in the meantime |
| `Barrier.RememberKeepsInv` | smlsharp/src/runtime/heap_concurrent.c:1163-1173 | the test-and-set of remember keeps the invariant, with the object marked and on no list yet, unless it is stale |
| `Barrier.PushKeepsInv` | smlsharp/src/runtime/heap_concurrent.c:1163-1173 | so does linking it into the remembered set |
| `Barrier.SwapKeepsInv` | smlsharp/src/runtime/heap_concurrent.c:1703-1713 | so does the exchange of sml_cmpswap, which stores before it remembers |
| `Barrier.StoreKeepsInv` | smlsharp/src/runtime/heap_concurrent.c:1694-1700 | so does the store that ends a write |
| `Effects.SwapExchanges` | smlsharp/src/runtime/heap_concurrent.c:1703-1713 | what the exchange of sml_cmpswap leaves: the slot held the value expected and now holds the new one, no other slot, color or list has changed, and the barrier is still to come |
| `Effects.StoreWrites` | smlsharp/src/runtime/heap_concurrent.c:1694-1700 | what the store of sml_write leaves: the slot of the task holds the value of the task and nothing else has changed; a sml_cmpswap has nothing left to store |
| `Effects.ReadSeesSlot` | smlsharp/src/runtime/heap_concurrent.c:1694-1700 | the barrier of sml_write starts from the value that the slot holds when it is read |
| `Effects.LoadSeesSlot` | smlsharp/src/runtime/heap_concurrent.c:1694-1700 | a load puts the value that the slot holds on the stack of the running user, and changes nothing else |
| `Effects.LookDecides` | smlsharp/src/runtime/heap_concurrent.c:1681-1692 | what a write will remember: both values from SYNC1 to SYNC2, the one overwritten until tracing is over, and nothing out of a collection |
| `Effects.RememberMarks` | smlsharp/src/runtime/heap_concurrent.c:1163-1173 | the test-and-set marks the value if it is a target that is not marked yet, leaves it to this thread to link, and changes no other object |
| `Effects.SlotChanges` | smlsharp/src/runtime/heap_concurrent.c:1694-1713 | whatever a step of collector, users or environment does to an object, its slots change by the exchange of a sml_cmpswap or the store of a sml_write alone |
| `Effects.LastWriteWins` | smlsharp/src/runtime/heap_concurrent.c:1694-1713 | over whole runs, stale writes and all: a slot of an object holds what has been written to it last, however often the object has been marked, put on lists and swept in between |
| `Effects.ObjectsComeAndGo` | smlsharp/src/runtime/heap_concurrent.c:1928-1945 | an object is there from its allocation, with the slots, color and owner that its worker's phase calls for, until it is swept unmarked, and no other step adds or removes one |
| `Effects.FirstTestMarks` | smlsharp/src/runtime/heap_concurrent.c:1070-1108 | an object is marked by the first test that meets it and is put on that thread's list; only sweeping takes the mark away |
| `Effects.ListsMove` | smlsharp/src/runtime/heap_concurrent.c:1176-1229 | taking a root or remembered set, linking what a write has marked, and forgetting a remembered set move the whole list to the other and touch no third one |
| `Effects.TracingWorks` | smlsharp/src/runtime/heap_concurrent.c:1176-1229 | every step of a tracing thread on a list that is not empty leaves strictly less to do |
| `Effects.TracingEnds` | smlsharp/src/runtime/heap_concurrent.c:1176-1229 | total correctness of a tracing thread left alone: it never gets stuck before its lists are empty, and it takes no more steps than there was work |
| `Effects.UserChanges` | smlsharp/src/runtime/control.c:667-905 | the stack of a user changes only by loads, allocations and drops of the thread that runs it, by exactly what these load, allocate and drop; the user belongs to whoever moved it last |
| `Effects.EnterSteps` | smlsharp/src/runtime/control.c:737-905 | sml_enter on another worker, step by step: what it remembers of its own phase and of a failed attempt at the lock, when it enumerates, and to whom the user belongs afterwards and whether it counts as enumerated |
| `Effects.StackWalkEnds` | smlsharp/src/runtime/control.c:1503-1566 | total correctness of the enumeration of a stack: left alone, a worker in the action of SYNC2 enumerates the stack of a user nobody has locked, in any order of its pointers, and afterwards nothing on it is an unmarked target |
| `Safety.RunKeepsInv` | smlsharp/src/runtime/heap_concurrent.c:1070-1271 | the invariant in all states of all runs without these four steps: reads, test-and-sets, pushes and stores of writes, loads, allocations, migration, enumeration, tracing and sweeping in any interleaving |
| `Safety.ReachableIsNoGarbage` | smlsharp/src/runtime/heap_concurrent.c:1337-1418 | what a chain of pointers from a stack or global reaches is never an unmarked target that waits to be swept |
| `Safety.OnlyGarbageIsFreed` | smlsharp/src/runtime/heap_concurrent.c:1337-1418 | no step takes an object out of the heap that is not garbage |
| `Safety.RunFreesNothingReachable` | smlsharp/src/runtime/heap_concurrent.c:1337-1418 | over whole runs without the four steps, any number of collections, no step frees what a user thread can reach |
| `Safety.FinishedMeansMarked` | smlsharp/src/runtime/heap_concurrent.c:1246-1271 | when sml_heap_mark_finish says yes and is not hasty, everything reachable from stacks and globals is marked or was allocated after its worker's snapshot |
| `MarkFinish.NoOversightNoHaste` | smlsharp/src/runtime/heap_concurrent.c:1246-1271 | why every remembered set is read twice: in a run in which no set is read while its owner is in the middle of remembering an object, the answer is never hasty |
| `Invariant.CleanMeansDone` | smlsharp/src/runtime/heap_concurrent.c:1246-1271 | with all lists empty in MARK and no write with anything left to remember, nothing that tracing could reach is white |
| `Invariant.SlotIsSafe` | smlsharp/src/runtime/heap_concurrent.c:1681-1700 | what running ML code can load is no garbage, and once its stack has been enumerated tracing cannot miss it |
| `Invariant.RunningIsUnlocked` | smlsharp/src/runtime/control.c:667-905 | nobody walks over the stack of a user that runs ML code, and in SYNC2 and later its stack has been enumerated |
| `Safety.LockFreeMoveFindsNoWalk` | smlsharp/src/runtime/control.c:859-876 | a migration that takes no lock finds no thread enumerating, of that user or any other |
| `Enumeration.SettledByEnumeration` | smlsharp/src/runtime/control.c:1503-1566 | a user counts as enumerated only by a complete walk over its stack, by the worker it belongs to or by the thread that moves it |
| `Enumeration.PeopleKeptUnlessSkipped` | smlsharp/src/runtime/control.c:743-770 | stages, users and threads go on fitting together if and only if the step skips no stack: no thread in SYNC2 takes a lock at a later attempt, and does not enumerate, while the stack has not been enumerated |
| `Enumeration.NobodyMisledNobodySkips` | smlsharp/src/runtime/control.c:743-770 | a lock found taken in SYNC2 does mean that the stack is being or has been enumerated, except when acquire_bit fails with the bit clear on a stack not enumerated; without such a failure no run skips a stack |
| `Enumeration.RunKeepsPeople` | smlsharp/src/runtime/control.c:667-905 | in every state of every run that skips no stack, stale writes included: who is locked by whom, whose stack has been enumerated, and what a thread inside sml_enter has seen stays true |
| `Enumeration.WalksDoNotMeet` | smlsharp/src/runtime/control.c:859-876 | in every state of such a run nobody walks over the stack of a user that runs ML code, and a migration without the lock finds no stack being walked |
| `Enumeration.EveryStackIsEnumerated` | smlsharp/src/runtime/control.c:738-859 | in such a run, however users migrate, a user that lives through SYNC2 has its stack enumerated after SYNC2 was published and before MARK is |
| `StaleMark.StaleWriteLosesAnObject` | smlsharp/src/runtime/control.c:1678-1688 | a concrete run of handshakes, threads and collector together, two workers and two collections, in which nothing else of the four goes wrong than stale test-and-sets, and whose last step frees an object to which a running user's stack leads |
| `SkippedStack.SpuriousFailureSkipsAStack` | smlsharp/src/runtime/control.c:743-770 | a concrete run in which acquire_bit fails with the bit clear and nothing else of the four goes wrong: a user lives through SYNC2, no step enumerates its stack, and the last step frees an object on it |
| `HastyAnswer.HastyAnswerLosesAnObject` | smlsharp/src/runtime/heap_concurrent.c:1163-1173 | a concrete run in which nothing else of the four goes wrong than a hasty answer, given between the test-and-set and the push of a remember, and whose last step frees an object that a running user's stack reaches through the object so remembered |
| `TornWrite.TornWriteLosesAnObject` | smlsharp/src/runtime/heap_concurrent.c:1694-1700 | a concrete run in which nothing else of the four goes wrong than that SYNC2 is published between the read and the store of a write to a slot that another worker has written to, and whose last step frees an object on a stack |
| `System.HandshakesDriveStages` | smlsharp/src/runtime/control.c:1171-1257 | every step of the handshakes is the step of the collector's environment that its kind calls for, so the stages the collector relies on are what the protocol provides |
| `System.OwnerIsReady` | smlsharp/src/runtime/control.c:491-590 | a thread that holds its own worker finds no action of that worker running |
| `System.ProtocolGuards` | smlsharp/src/runtime/control.c:1441-1768 | what each handshake step demands of heap, users and threads holds whenever the protocol takes it |
| `System.StepKeepsInv` | smlsharp/src/runtime/control.c:1441-1768 | a step of handshakes and threads together keeps all invariants if and only if it is none of the four; two of them are steps of the handshakes, the publication of SYNC2 and the decision on ASYNC |
| `System.NothingReachableIsFreed` | smlsharp/src/runtime/heap_concurrent.c:1337-1418 | mutators in the middle of writes, migrating users, helpers, leaders and tracers in any interleaving without the four steps: nothing a user can reach is freed |
| `System.DecidedMeansMarked` | smlsharp/src/runtime/control.c:1665-1678 | in such a run, when the leader of a MARK round goes on to ASYNC and is not hasty, what a user can reach is marked or new |
| `Digits.Shortest` | smlsharp/src/runtime/netlib/dtoa.c:4153-4255 | the loop over integers ends with a decimal inside the rounding interval, no shorter decimal is inside, and it is the nearest of its length if and only if the tie at ten (`PassesOver9`) does not occur; when two are as near the even one is printed, except when both are the end points of the interval: then the lower one is, or 10 |
| `Digits.RoundOff` | smlsharp/src/runtime/netlib/dtoa.c:4286-4294 | adds one to the last digit, drops nines, and moves the decimal point exactly when all digits are nines |
| `Digits.OnlyNeighbours` | smlsharp/src/runtime/netlib/dtoa.c:4169-4176 | the comparisons of the remainder with mlo and with S - mhi decide whether the two decimals next to the number are inside, and if any decimal of that length is, one of these is |
| `Digits.InsideReadsBack` | smlsharp/src/runtime/netlib/dtoa.c:4153-4199 | being inside the interval, end points included when the mantissa is even, is reading back as the same number under rounding to nearest, ties to even |
| `Digits.Judge` | smlsharp/src/runtime/netlib/dtoa.c:4173-4245 | one round: whatever the comparisons of the big integers say about remainder, mlo, S - mhi and half of S, the digits are final and right, ties included, or the round goes on with a remainder of at least mlo |
| `DigitLoop.Shortest` | smlsharp/src/runtime/netlib/dtoa.c:4153-4255 | the loop over big integers prints what the loop over integers prints, ties to even included; the tie at ten goes unseen when the remainder is zero without a word and S has one word |
| `DigitLoop.Compare` | smlsharp/src/runtime/netlib/dtoa.c:4169-4176 | cmp of the remainder with a term has the sign of the difference, also when the remainder is zero without a word, except against a zero of one word |
| `DigitLoop.CompareHalf` | smlsharp/src/runtime/netlib/dtoa.c:4213-4215 | doubling the remainder and comparing it with S tells whether it is more or less than half of S |
| `DigitLoop.TenTimes` | smlsharp/src/runtime/netlib/dtoa.c:4247-4253 | the three multiplications by ten; mlo and mhi stay one number when they are one |
| `DigitLoop.NoLonger` | smlsharp/src/runtime/netlib/dtoa.c:2110-2131 | below ten times the divisor the numerator has no more words than the divisor, which is what quorem asserts |
| `Doubles.NoDoublePasses` | smlsharp/src/runtime/netlib/dtoa.c:4178-4184 | the tie at ten arises for no number of the binary64 format, whatever power of ten has been split off |
| `Doubles.NarrowNumbers` | smlsharp/src/runtime/netlib/dtoa.c:4178-4184 | the tie needs an interval as wide as one unit of the first digit |
| `Doubles.DoublesPrintNearest` | smlsharp/src/runtime/netlib/dtoa.c:4153-4255 | for every double the digits read back as that double, no shorter decimal does, they are the nearest decimal of their length, and the even one when another is as near |
| `Doubles.SomeNumberPasses` | smlsharp/src/runtime/netlib/dtoa.c:4178-4184 | a number that is no double for which the loop prints 10 although 9 is inside the interval and nearer |
| `Doubles.NoDoubleAtBothEnds` | smlsharp/src/runtime/netlib/dtoa.c:4178-4196 | the end points of the interval of a double are never two decimals next to each other, so ties go to even for all doubles |
| `Doubles.SomeTieStaysOdd` | smlsharp/src/runtime/netlib/dtoa.c:4178-4196 | a number that is no double for which the loop prints the odd one of two decimals that are as near |
| `Scaling.Dtoa` | smlsharp/src/runtime/netlib/dtoa.c:3762-4323 | from the two words of any finite number other than zero, and an estimate of its logarithm, to digits and decimal point: the digits read back as that number, no shorter decimal does, they are the nearest decimal of their length that does, and the even one when another is as near |
| `Scaling.Scale` | smlsharp/src/runtime/netlib/dtoa.c:3828-4167 | the big integers that the loop begins with stand for the number without the largest power of ten below it, and for half the distances to its two neighbours, for every number of the format; the divisor has four leading zero bits |
| `Scaling.D2B` | smlsharp/src/runtime/netlib/dtoa.c:1269-1390 | the mantissa without the zero bits at its bottom, in one or two words, with the exponent and the number of bits that belong to it, normal and subnormal |
| `Scaling.Lo0Bits` | smlsharp/src/runtime/netlib/dtoa.c:736-783 | the number of zero bits at the bottom of a word, which are shifted out; 32 for zero |
| `Scaling.Powers2` | smlsharp/src/runtime/netlib/dtoa.c:3828-4078 | the powers of two of numerator, half unit and divisor: their differences are what the exponents demand, and none is negative after the common factor has been taken out |
| `Scaling.Checked` | smlsharp/src/runtime/netlib/dtoa.c:4132-4140 | an estimate that was one too great is found by comparing, and made good by a factor of ten |
| `Scaling.OneLogarithm` | smlsharp/src/runtime/netlib/dtoa.c:3785-3806 | for every positive number there is exactly one power of ten that leaves one digit before the point |
| `Scaling.WordsOfDoubles` | smlsharp/src/runtime/netlib/dtoa.c:346-356 | the two words with their fields are exactly the numbers m * 2^e of the format |
| `Bignum.Bigint.constructor` | smlsharp/src/runtime/netlib/dtoa.c:539-578 | a number of at most 2^k words, without words in use |
| `Bignum.MultAddWords` | smlsharp/src/runtime/netlib/dtoa.c:638-650 | n words of b times m plus a, exactly, in 64-bit arithmetic; the carry fits a word |
| `Bignum.MultAdd` | smlsharp/src/runtime/netlib/dtoa.c:607-662 | b * m + a, with one word more when the last carry is not zero |
| `Bignum.AddRow` | smlsharp/src/runtime/netlib/dtoa.c:841-854 | one row of the schoolbook product is added to the accumulator, exactly and without 64-bit overflow |
| `Bignum.Mult` | smlsharp/src/runtime/netlib/dtoa.c:800-908 | the exact product, normalized, whichever operand is longer |
| `Bignum.Cmp` | smlsharp/src/runtime/netlib/dtoa.c:1029-1061 | -1, 0 or 1 as the numbers compare |
| `Bignum.SubWords` | smlsharp/src/runtime/netlib/dtoa.c:1109-1119 | the borrow loops compute a - b word by word when a >= b |
| `Bignum.Diff` | smlsharp/src/runtime/netlib/dtoa.c:1063-1155 | the absolute difference, with the sign that says which operand is smaller |
| `Bignum.SubMul` | smlsharp/src/runtime/netlib/dtoa.c:2151-2161 | subtracting q times S from b in place: no borrow is left when q times S is at most b |
| `Bignum.QuotientGuess` | smlsharp/src/runtime/netlib/dtoa.c:2140-2140 | dividing top words gives the quotient or one less when the top word of S lies in [2^27, 2^28) |
| `Bignum.QuoRem` | smlsharp/src/runtime/netlib/dtoa.c:2110-2232 | returns b / S and leaves b mod S with at most one correction; a remainder of zero may be left with no words |
| `Bignum.LShift` | smlsharp/src/runtime/netlib/dtoa.c:969-1027 | b times 2^k, normalized, within the words allocated |
| `Bignum.Hi0Bits` | smlsharp/src/runtime/netlib/dtoa.c:702-734 | the number of zero bits above the highest one bit; 32 for zero |
| `Bignum.DShift` | smlsharp/src/runtime/netlib/dtoa.c:2097-2108 | how far to shift for the top word to have exactly four leading zero bits |
| `Bignum.FourZeroBitsTop` | smlsharp/src/runtime/netlib/dtoa.c:4124-4131 | a number so shifted has its top word in [2^27, 2^28), which is what quorem needs |
| `Bignum.FromInt` | smlsharp/src/runtime/netlib/dtoa.c:784-798 | a one-word number |
| `Bignum.Powers.Entry` | smlsharp/src/runtime/netlib/dtoa.c:929-965 | entry i of the list is 5^(4 * 2^i), and asking for it keeps all entries so |
| `Bignum.Pow5Mult` | smlsharp/src/runtime/netlib/dtoa.c:912-967 | multiplies by exactly 5^k and keeps the list of squares right |
| `Cheney.Copier.Forward` | smlsharp/src/runtime/heap_cheney.c:474-513 | a slot gets the address of the one copy of its object; the object is copied when it had none |
| `Cheney.Copier.Copy` | smlsharp/src/runtime/heap_cheney.c:496-512 | the copy is a new object at the end of the used to-space with the header, payload and bitmap of the old one, and the old one remembers its address; the free pointer moves on by the least multiple of 16 bytes that holds all of it, and stays in the to-space |
| `Cheney.Spaces.Fits` | smlsharp/src/runtime/heap_cheney.c:499-502 | the to-space never overflows, whatever has been copied so far |
| `Cheney.SizeFits` | smlsharp/src/runtime/heap_cheney.c:171-178 | the size of an object in bytes: header, payload and, in a record, one bitmap bit for every word, rounded up to the least multiple of 16 that holds them, with room for a forwarding pointer |
| `Cheney.ObjectsDoNotOverlap` | smlsharp/src/runtime/heap_cheney.c:699-730 | in a heap that is laid out as every collection and allocation leaves it, no two objects share a byte: payload and bitmap of the one end before the header of the next, and the last object ends before the free pointer |
| `Cheney.Copier.ForwardRegion` | smlsharp/src/runtime/heap_cheney.c:517-528 | the scan pointer goes over every object copied, those it copies itself included, and ends at the free pointer with all slots forwarded |
| `Cheney.Copier.ForwardRoots` | smlsharp/src/runtime/heap_cheney.c:574-576 | the roots point to the copies of their objects |
| `Cheney.Copier.DoGc` | smlsharp/src/runtime/heap_cheney.c:538-591 | after a collection the heap and roots are an isomorphic image of the old reachable graph, sharing and cycles included, with nothing else; the copies lie one behind the other without overlapping, and the heap is ready for the next collection |
| `Cheney.ReachableIsForwarded` | smlsharp/src/runtime/heap_cheney.c:578-579 | when all copies are scanned every object that a path from the roots reaches has been copied |
| `Cheney.Copier.Alloc` | smlsharp/src/runtime/heap_cheney.c:699-730 | an object at the allocation pointer, after a collection exactly when its bytes would not end before the limit; nothing exactly when they would not after it either; the heap is otherwise the old one or its image, no two of its objects overlap, and it stays fit for the next collection |
| `Cheney.Copier.Write` | smlsharp/src/runtime/heap_cheney.c:459-471 | a store into an object of the heap keeps it fit for the next collection |
| `Splay.RotateKeeps` | smlsharp/src/runtime/splay.c:273-280 | a rotation keeps the nodes in symmetric order and the memory a tree with two holes |
| `Splay.LinkKeeps` | smlsharp/src/runtime/splay.c:282-285 | a link moves the root into a hole, keeps the order of all nodes, and leaves the hole at the slot last written |
| `Splay.SplayTree.Splay` | smlsharp/src/runtime/splay.c:257-289 | terminates; the nodes keep their order, all keys in the left (right) tree are below (above) the key, and the root matches or lacks the child on the key's side |
| `Splay.SplayTree.Assemble` | smlsharp/src/runtime/splay.c:291-298 | the two trees and the root become one tree with the same order; only links change |
| `Splay.SplayTree.Find` | smlsharp/src/runtime/splay.c:302-314 | finds the item exactly when the map has the key; the map is unchanged |
| `Splay.SplayTree.Insert` | smlsharp/src/runtime/splay.c:316-334 | the map with the item added, an item with the same key replaced; the tree stays a search tree and the free list is used first |
| `Splay.SplayTree.Join` | smlsharp/src/runtime/splay.c:353-367 | the two subtrees of a node as one tree in order; its root is the last node of the left subtree and keeps the right subtree |
| `Splay.SplayTree.Delete` | smlsharp/src/runtime/splay.c:369-397 | the map without the key, whichever of the two join paths is taken; the node goes to the free list |
| `Splay.SplayTree.Reclaim` | smlsharp/src/runtime/splay.c:180-185 | the node becomes the head of the free list |
| `SplayWalk.Reject` | smlsharp/src/runtime/splay.c:419-447 | calls the predicate once per item in ascending order while deleting during the walk, leaves exactly the items not rejected as a search tree, and stacks the rejected nodes on the free list |
| `SplayWalk.DropNode` | smlsharp/src/runtime/splay.c:438-445 | a rejected node is replaced in its slot by its right child or by the join of its subtrees; the visited and the unvisited nodes stay what they were |
| `SplayWalk.Climb` | smlsharp/src/runtime/splay.c:432-437 | through the back fields the walk returns to the slot of the next node in order, with its left subtree visited |
| `SplayWalk.ContextFrame` | smlsharp/src/runtime/splay.c:419-447 | writing into the slot at hand does not disturb the tree around it |
| `SplayRebuild.Rebuild` | smlsharp/src/runtime/splay.c:449-469 | from a tree with arbitrary keys: a search tree with the first node (in post-order) of each key, every other node on the free list, none lost, items unchanged |
| `SplayRebuild.InsertNode` | smlsharp/src/runtime/splay.c:336-351 | the result is zero exactly when the key is there already, and then the node stays out |
| `SplayRebuild.FirstsAndOthers` | smlsharp/src/runtime/splay.c:449-469 | every key is kept, and every node is the first with its key or one of the others |
| `Queens.CompletionsAre` | smlsharp/benchmark/benchmarks_parallel/nqueen/nqueen_c_thread.c:85-94 | the completions of a placement are exactly the peaceful placements that extend it |
| `Queens.PutRepresents` | smlsharp/benchmark/benchmarks_parallel/nqueen/nqueen_c_thread.c:27-38 | shifting the three masks means what it should: the new board attacks exactly the columns that its queens attack along columns and diagonals |
| `Queens.SSum` | smlsharp/benchmark/benchmarks_parallel/nqueen/nqueen_c_thread.c:42-56 | the loop over the columns counts the completions from a column on |
| `Queens.PSum` | smlsharp/benchmark/benchmarks_parallel/nqueen/nqueen_c_thread.c:67-83 | the parallel recursion counts the same number |
| `Queens.Solve` | smlsharp/benchmark/benchmarks_parallel/nqueen/nqueen_c_thread.c:85-94 | the number of completions of the board, on either side of the cut-off |
| `Queens.DoIt` | smlsharp/benchmark/benchmarks_parallel/nqueen/nqueen_c_thread.c:96-101 | for every width below 32 and every cut-off: the number of placements of that many queens without attacks |
| `CilkSort.Search` | smlsharp/benchmark/benchmarks_parallel/cilksort/cilksort_c_thread.c:17-30 | the first index from b on whose element is greater than k, or e + 1 |
| `CilkSort.Merge` | smlsharp/benchmark/benchmarks_parallel/cilksort/cilksort_c_thread.c:49-77 | two sorted ranges become one sorted arrangement of both in d and nothing else of d changes; terminates despite the exchange of its ranges |
| `CilkSort.MergeAround` | smlsharp/benchmark/benchmarks_parallel/cilksort/cilksort_c_thread.c:65-76 | the two recursive merges write disjoint parts of d, so their order does not matter |
| `CilkSort.Sort` | smlsharp/benchmark/benchmarks_parallel/cilksort/cilksort_c_thread.c:114-140 | a[b..e] becomes a sorted arrangement of itself; outside b..e neither array changes, which is why the spawned calls do not meet |
| `CilkSort.SpawnQuarters` | smlsharp/benchmark/benchmarks_parallel/cilksort/cilksort_c_thread.c:130-138 | the quarters sorted and merged as the threads do it, in disjoint ranges |
| `CilkSort.DoIt` | smlsharp/benchmark/benchmarks_parallel/cilksort/cilksort_c_thread.c:114-140 | the whole array is sorted, a rearrangement of its input |
| `CilkSort.OwnRange` | smlsharp/benchmark/benchmarks_parallel/cilksort/cilksort_c_thread.c:114-140 | what a spawned call leaves in its range depends on what that range held and on nothing else of the two arrays |
| `CilkSort.EitherOrder` | smlsharp/benchmark/benchmarks_parallel/cilksort/cilksort_c_thread.c:130-138 | two calls spawned on neighbouring ranges leave the same array whichever comes first |
| `CilkSort.OneMerge` | smlsharp/benchmark/benchmarks_parallel/cilksort/cilksort_c_thread.c:65-76 | what a spawned merge writes depends on the elements of its two ranges alone |
| `CilkSort.SortedIsUnique` | smlsharp/benchmark/benchmarks_parallel/cilksort/cilksort_c_thread.c:114-140 | there is one sorted arrangement of given elements, so the result does not depend on the cut-off or on how ranges are split |
| `FrameTable.Stream.EmitUInt16` | smlsharp/src/llvm/main/smlsharp_gc.cpp:49-59 | two bytes, or the fatal error exactly when no two bytes stand for the value counted in units |
| `FrameTable.FitsMeans` | smlsharp/src/llvm/main/smlsharp_gc.cpp:49-59 | the test of the code, no multiple of the unit or at least 65536 units, refuses exactly what two bytes cannot hold |
| `FrameTable.Stream.EmitFunctionInfo` | smlsharp/src/llvm/main/smlsharp_gc.cpp:81-106 | the encoding of a function, aligned; the error is reported exactly when no sequence of bytes describes it: number of safe points, frame size, number of roots and every root; nothing for a function without safe points |
| `FrameTable.Stream.FinishAssembly` | smlsharp/src/llvm/main/smlsharp_gc.cpp:138-147 | the encodings of all functions and the terminator, or the error, exactly when some function with safe points cannot be described |
| `FrameTable.ReadBytes` | smlsharp/src/llvm/main/smlsharp_gc.cpp:49-59 | the bytes of a value read back as the value, modulo their width |
| `FrameTable.ByteAt` | smlsharp/src/llvm/main/smlsharp_gc.cpp:49-59 | byte i of a value is its digit i to the base 256: the least significant byte comes first |
| `FrameLookup.EncoderWritesTables` | smlsharp/src/llvm/main/smlsharp_gc.cpp:138-147 | what the encoder writes for acceptable functions is a table of those that have safe points |
| `FrameLookup.ReadsBack` | smlsharp/src/runtime/top.c:38-48 | round trip of a descriptor: counts, frame size and root offsets are those of its function, and the next descriptor is found |
| `FrameLookup.PointReadsBack` | smlsharp/src/runtime/top.c:145-149 | each safe point of a table yields the address of that point of that function, modulo 2^64, signed offsets included |
| `FrameLookup.Locate` | smlsharp/src/runtime/top.c:136-144 | the loop test sees a zero count at the end of the table and nowhere before |
| `FrameLookup.GcRoot.CountPoints` | smlsharp/src/runtime/top.c:136-137 | the first loop counts exactly the safe points of the table |
| `FrameLookup.GcRoot.SmlGcroot` | smlsharp/src/runtime/top.c:125-160 | the items of one module are appended: its safe points with their layouts, then its top-level objects, counted apart; no item is written outside the room made |
| `FrameLookup.GcRoot.BinarySearch` | smlsharp/src/runtime/top.c:235-252 | finds an index with the key exactly when there is one |
| `FrameLookup.GcRoot.Load` | smlsharp/src/runtime/top.c:213-225 | the items of all modules, sorted |
| `FrameLookup.GcRoot.Lookup` | smlsharp/src/runtime/top.c:254-266 | a recorded return address yields a layout of a function recorded there, of exactly that function when the address belongs to one; an address that is not recorded yields none |
| `FrameLookup.GcRoot.Tops` | smlsharp/src/runtime/top.c:268-285 | behind the safe points lie exactly the tables of top-level objects |
| `FrameLookup.SameCount` | smlsharp/src/runtime/top.c:162-187 | the number of safe points is the same in every arrangement of the items |
| `Bits.Next0Finds` | smlsharp/src/runtime/smlsharp.h:531-537 | BITPTR_NEXT0 finds the least clear bit from the mask on, and fails exactly when there is none |
| `Bits.OneNext` | smlsharp/src/runtime/smlsharp.h:546-550 | the mask part of BITPTR_INC moves to the next bit and from bit 31 to bit 0 of the next word |
| `Bitmap.SearchWord` | smlsharp/src/runtime/smlsharp.h:531-537 | the search in one word seen from the whole bitmap |
| `Bitmap.ClearIsAll` | smlsharp/src/runtime/heap_concurrent.c:1846-1897 | the blocks still to be handed out are all clear bits from the pointer on, each once, ascending |
| `Bitmap.Segment.Init` | smlsharp/src/runtime/heap_concurrent.c:276-335 | a fresh segment has its sentinels and nothing else; its summary level is exact if and only if the number of blocks is no multiple of 32 |
| `Bitmap.Segment.LinearSearch` | smlsharp/src/runtime/heap_concurrent.c:1833-1844 | the first clear bit in the rest of the summary level, or a failure when it is full |
| `Bitmap.Segment.FindWord` | smlsharp/src/runtime/heap_concurrent.c:1863-1878 | the first word of the lower level that is not full |
| `Bitmap.Segment.FindClear` | smlsharp/src/runtime/heap_concurrent.c:1861-1889 | the least clear bit from the pointer on, a block and no sentinel, or none exactly when none is left; right also for a fresh segment whose summary is not exact |
| `Bitmap.AllocPtr.FindBitmap` | smlsharp/src/runtime/heap_concurrent.c:1846-1897 | hands out the least free block, at the block base plus its number times the block size, and leaves exactly the others to be handed out; fails exactly when none is left; bit pointer and block address stay in step |
| `Bitmap.AllocPtr.Alloc` | smlsharp/src/runtime/heap_concurrent.c:1928-1937 | the same with the fast path: every free block is handed out once, in ascending order, and the pointer then stands right behind it |
| `Bitmap.BlocksApart` | smlsharp/src/runtime/heap_concurrent.c:1888-1895 | over any sequence of allocations, with collections of the bitmap in between: the blocks handed out do not overlap and lie among the blocks of the segment |
| `Bitmap.Segment.CopyCollect` | smlsharp/src/runtime/heap_concurrent.c:343-374 | the blocks are those the collector marked; sentinels and summary are exact for every number of blocks |
| `Bitmap.Segment.BuildSummary` | smlsharp/src/runtime/heap_concurrent.c:352-373 | the summary says of every word whether it is full, sentinels behind it |
| `Bitmap.AllocPtr.Reclaim` | smlsharp/src/runtime/heap_concurrent.c:1371-1382 | the pointer stays, so no block it has handed out is handed out before the next reclamation; behind it only unmarked blocks are; word by word what `Subheaps` says of whole segments |
| `Segments.AppendHolds` | smlsharp/src/runtime/heap_concurrent.c:423-424 | LIST_APPEND adds at the end, whatever the stale last link held |
| `Segments.PopTakesTheFirst` | smlsharp/src/runtime/heap_concurrent.c:440-454 | the first segment, or NULL exactly for the empty list |
| `Segments.ReclaimPartitions` | smlsharp/src/runtime/heap_concurrent.c:1337-1418 | every segment of the old partial and filled lists is in exactly one of the three lists |
| `Segments.FatesSelect` | smlsharp/src/runtime/heap_concurrent.c:1353-1406 | a list holds exactly the segments with its fate |
| `Subheaps.FatesMean` | smlsharp/src/runtime/heap_concurrent.c:1353-1406 | a segment is freed exactly when nothing in it is marked, and stays filled exactly when it was and everything in it is marked or something may have been allocated in it after the snapshot |
| `Subheaps.Subheap.SetAllocPtr` | smlsharp/src/runtime/heap_concurrent.c:712-732 | the segment becomes the one under the pointer, from its first block on; before SYNC2 everything in it is a target, later nothing allocated in it is |
| `Subheaps.Subheap.ReleaseAllocPtr` | smlsharp/src/runtime/heap_concurrent.c:734-752 | the segment becomes the first of the filled list; a segment released before the snapshot has its snapshot at the limit |
| `Subheaps.Subheap.FindSegment` | smlsharp/src/runtime/heap_concurrent.c:1715-1766 | the segment under the pointer is filled and the first of the partial list, else of a free list or the pool, takes its place; fails exactly when there is none |
| `Subheaps.Subheap.Alloc` | smlsharp/src/runtime/heap_concurrent.c:1928-1937 | the least clear bit from the pointer on, a block that holds no object; after the snapshot the object is young |
| `Subheaps.Subheap.SaveAllocPtr` | smlsharp/src/runtime/heap_concurrent.c:754-763 | the snapshot of the segment under the pointer; from then on `bit set or below the snapshot` is exactly `not allocated since` |
| `Subheaps.Subheap.Visit` | smlsharp/src/runtime/heap_concurrent.c:1070-1108 | visit sets the collect bit of an object exactly when it was there before the snapshot and has none, and touches no other bit |
| `Subheaps.Visited` | smlsharp/src/runtime/heap_concurrent.c:1094-1099 | the test of visit finds exactly the objects that are not young, in partial, filled and current segments |
| `Subheaps.Handed` | smlsharp/src/runtime/heap_concurrent.c:1928-1937 | a block handed out behind the snapshot held no object and is no target |
| `Subheaps.PartialReclaimed` | smlsharp/src/runtime/heap_concurrent.c:1353-1369 | after the reclamation no live block of a segment of the partial list is a clear bit, and a segment that becomes free holds nothing alive |
| `Subheaps.FilledReclaimed` | smlsharp/src/runtime/heap_concurrent.c:1384-1406 | the same for a filled segment that leaves the filled list; one that stays has its snapshot at the limit, so that everything in it is a target of the next cycle |
| `Subheaps.YoungStayFilled` | smlsharp/src/runtime/heap_concurrent.c:1389-1393 | why a segment handed out during the cycle stays filled: its clear bits would hold live objects exactly when something was allocated behind the snapshot |
| `Subheaps.CurrentReclaimed` | smlsharp/src/runtime/heap_concurrent.c:1371-1382 | the segment under the pointer: no live block is a clear bit behind the pointer |
| `Subheaps.Subheap.WalkPartial` | smlsharp/src/runtime/heap_concurrent.c:1353-1369 | the old partial list is walked over while its links and bitmaps are rewritten: empty segments to the free list, the others to the new partial list, in order |
| `Subheaps.Subheap.WalkFilled` | smlsharp/src/runtime/heap_concurrent.c:1384-1406 | the old filled list goes to the three lists: segments handed out during the cycle or without free blocks stay filled; bitmaps become the collect bitmaps and snapshots are set for the next cycle |
| `Subheaps.Subheap.Reclaim` | smlsharp/src/runtime/heap_concurrent.c:1337-1418 | the sub-heap keeps its invariant, so no live block (marked, or allocated after the snapshot) can be handed out before the next reclamation; every segment holds exactly what lives, the lists are what the fates say, and what goes to the free list is empty |
| `Subheaps.Subheap.AvailableIsFree` | smlsharp/src/runtime/heap_concurrent.c:1715-1766 | in every state, the clear bits of partial segments and those behind the pointer are exactly their blocks without an object: none is given away twice and none is lost |
| `Subheaps.SameLeft` | smlsharp/src/runtime/heap_concurrent.c:1846-1897 | what is left to be handed out is the same for the words of `Bitmap` and the bits of `Subheaps` |
| `Subheaps.SameCopy` | smlsharp/src/runtime/heap_concurrent.c:343-374 | copying the collect bitmap word by word is copying its bits |
| `Segments.SweptSubheap.Sweep` | smlsharp/src/runtime/heap_bitmap.c:1943-1960 | full segments first, then those with room, the empty ones to the free list, in order and in place; `unreserved` is the slot of the first segment with room |
| `Segments.SweptSubheap.PutBack` | smlsharp/src/runtime/heap_bitmap.c:1972-1973 | the new free segments come before the old free list |
| `Segments.JoinChains` | smlsharp/src/runtime/heap_bitmap.c:1958-1959 | writing the last link joins a list with a chain |
| `Marker.LayoutFits` | smlsharp/src/runtime/heap_bitmap.c:332-349 | the sentinels of the upper bitmap levels fit the one word that clear_bitmap writes them to, if and only if neither the number of blocks nor the number of level-1 bits is 992 modulo 1024 |
| `Marker.CalcLayout` | smlsharp/src/runtime/heap_bitmap.c:331-367 | the loop finds the greatest number of blocks, up to the estimate, for which the segment has room |
| `Marker.RuntimeLayoutsFit` | smlsharp/src/runtime/heap_bitmap.c:314-371 | for the ten block sizes of the runtime, 8 to 4096 bytes in 128 KiB, at both alignments: how many blocks there are, and that the sentinels fit the last words |
| `Marker.ClearedOk` | smlsharp/src/runtime/heap_bitmap.c:1112-1132 | a cleared segment has no block marked, and its three levels are consistent |
| `Marker.MarkBitOk` | smlsharp/src/runtime/heap_bitmap.c:1682-1696 | MARKBIT sets that one bit, adds one to live_count, and keeps each upper bit equal to `lower word full` |
| `Marker.Heap.Push` | smlsharp/src/runtime/heap_bitmap.c:1815-1850 | an unmarked object is marked and pushed unless it can have no pointers; a marked one and NULL change nothing |
| `Marker.Heap.StackPush` | smlsharp/src/runtime/heap_bitmap.c:1721-1727 | the slot of the block holds the old top; all other slots are as before |
| `Marker.Heap.StackPop` | smlsharp/src/runtime/heap_bitmap.c:1728-1733 | the top object, whose slot is NULL again |
| `Marker.EdgesAre` | smlsharp/src/runtime/object.h:80-110 | what an object points to: nothing if it is unboxed, whatever is in it if it is boxed, and in a record the words for which its bitmap has a bit |
| `Marker.NoPointerMeans` | smlsharp/src/runtime/heap_bitmap.c:1675-1679 | the test for objects without pointers is right, and misses none with up to 32 words |
| `Marker.Heap.Enumerate` | smlsharp/src/runtime/heap_bitmap.c:1902-1902 | all pointers of an object are marked or pushed, nothing else is, and the amount of work does not grow |
| `Marker.Heap.Mark` | smlsharp/src/runtime/heap_bitmap.c:1866-1911 | terminates; exactly the objects that the root reaches are marked in addition, and the stack is empty with all slots NULL |
| `Marker.Heap.MarkAll` | smlsharp/src/runtime/heap_bitmap.c:2217-2217 | after all roots exactly the reachable objects are marked |
| `ThreeLevels.FindBitmap` | smlsharp/src/runtime/heap_bitmap.c:2410-2489 | over the three levels the marker keeps: the least clear bit from the pointer on, a block, after which exactly the other clear bits remain; none exactly when none is left |
| `ThreeLevels.Descend` | smlsharp/src/runtime/heap_bitmap.c:2422-2453 | one level up and down: when a word has no clear bit left, the first clear bit above leads to the first word that has one, and the upper level never runs out of bits |
| `Marker.LiveCounts` | smlsharp/src/runtime/heap_bitmap.c:1682-1685 | live_count is the number of marked objects of the segment |

## Left out

What a contract states deliberately less of than one might expect:

- Safety.RunKeepsInv: for runs without the four steps of findings 1 to 4 up to the state in question; `Safety.InvKeptUnlessBroken` says that any such step breaks the invariant.
- Safety.RunFreesNothingReachable: the same condition; with any one of the four it is false (findings 1 to 4).
- System.NothingReachableIsFreed: the same condition as Safety.RunFreesNothingReachable.
- System.DecidedMeansMarked: the same condition as Safety.RunFreesNothingReachable, the decision itself included.
- Safety.FinishedMeansMarked: for an answer that is not hasty; a hasty one is wrong (finding 3).
- MarkFinish.NoOversightNoHaste: one way only; an object overlooked in one reading may be found in the other.
- Control.OnlyALeavingLeaderStalls: says that such an addition does not end the round, not that a collection ends; ending it needs fairness of the scheduler.
- Cheney.Copier.Alloc: the words of a new object are NULL until they are stored to, where the code leaves the payload to its caller; in place of the fatal error it returns nothing.
- Cheney.Copier.DoGc: every pointer is NULL or inside the heap; pointers to malloc objects and finalizers (`sml_trace_ptr`, `sml_check_finalizer`) are not modelled, and payloads are words, not bytes.
- Enumeration.RunKeepsPeople: for runs that skip no stack; `Enumeration.PeopleKeptUnlessSkipped` says that a step that does ends it.
- Enumeration.WalksDoNotMeet: the same condition as Enumeration.RunKeepsPeople.
- Enumeration.EveryStackIsEnumerated: false of runs that skip a stack (finding 2); a theorem about runs of `Collector`, in which the environment may take every step that `System.HandshakesDriveStages` shows the handshakes to take.
- Marker.Heap.MarkAll: as for the copier, no pointers out of the heap; the bitmaps are values in fields and not arrays in a segment, and the address arithmetic from objects to segments is a map.
- Queens.DoIt: the sum is an unbounded integer, while the program adds in `int`, which large widths below 32 overflow.
- CilkSort.DoIt: elements are real numbers, so NaN, which breaks the total order, is excluded; the spawned calls are made one after the other. Their contracts show that the ranges they write are disjoint, `CilkSort.OwnRange` that what a call leaves depends on its own range alone, and `CilkSort.EitherOrder` that the order of two spawned calls does not matter; steps of two calls are not interleaved.
- FrameLookup.GcRoot.Load: `qsort` is represented by any arrangement of the items that is sorted by `cmp_safe_point`, given as a parameter.
- FrameLookup.GcRoot.Lookup: one program; the list of programs (`register_gcroot`, `sml_gcroot_unload`) is not modelled.
- Segments.SweptSubheap.Sweep: one sub-heap with one other chain beside it; the loop over all sub-heaps is not modelled.
- SplayWalk.Reject: the predicate is a pure function of the item and does not touch the tree.
- Digits.Shortest: from exact integers on.
- DigitLoop.Shortest: from the scaled big integers on; `Scaling.Scale` makes them from any number of the format.
- Doubles.DoublesPrintNearest: for any power of ten split off such that the number is below ten; `Scaling.Scale` finds one.
- Scaling.Dtoa: the estimate of the logarithm, in double arithmetic, is a parameter that is right or, where the code checks it, one too great; integers below 10^15 are printed by the code on another path, in exact double arithmetic, for which the model takes the general one; zero, infinity, NaN and the sign are left out.
- Subheaps.Subheap.Receive: what the pool and the free lists promise of a segment is its precondition; moving segments between workers and the pool is not modelled, nor is the correction of snapshots when a heap is taken over by a new worker.
- Subheaps.Subheap.Alloc: bitmaps are sequences of bits here; `Subheaps.SameLeft` and `Subheaps.SameCopy` tie them to the words of `Bitmap`.
- Marker.CalcLayout: the estimate is the exact quotient where the code computes in doubles; it ends, as it does in the code, only if some number of blocks has room.

What the repository does and the model does not:

- Weak memory: memory is sequentially consistent; acquire, release and relaxed orderings are not distinguished.
- The list `workers_handshake` with its stamps: a helper may try any open worker with a pending signal, so the model has more runs.
- The delayed removal of a dead worker at the head of the list (`DEAD_FLAG`): it leaves the model at once, as the others do.
- The program end (phase 0 in `workers_available`), cancellation points, check hooks, signals, unwinding of stacks and `sml_exit`.
- User, worker and allocator contexts as heap objects of their own; copying a user when it migrates is a change of its worker here.
- A `sml_cmpswap` that fails (it changes nothing), arrays copied as a whole, callbacks' registration, and finalizers.
- Large objects in malloc segments in all three collectors.
- The global segment pool: segments do not move between workers and the pool in `Collector`; the sweep of what dead workers left is one step per object.
- Pacing of the heap, statistics, the population count in `free_count` (it is the number of clear bits here) and its estimate for the segment under the pointer, and commit accounting of heap_bitmap.c.
- The allocation pointer of heap_bitmap.c around `ThreeLevels.FindBitmap`, its minor collections and its variants for several threads.
- `sml_tree_compact`, `sml_tree_each`, and the allocation of nodes in chunks.
- The free lists and locks of dtoa.c (`Balloc` always allocates), modes other than 0, `strtod`, `gethex`, `bigcomp` and the quick floating-point path.
- Functions with another collector strategy in the plugin's list, and symbols and sections of the assembler: the stream is a sequence of bytes with offsets from the base of the module.
- heap_reppy.c, heap_otomo.c, heap_boehm.c, heap_malloc.c, prim.c and the other ports of the benchmarks.
