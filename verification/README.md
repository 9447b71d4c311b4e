# Verification of patton's thread squad and aligned storage

This project models three parts of the patton library in Dafny and proves what they promise.

**The thread squad** (`src/thread_squad.cpp`, `include/patton/thread_squad.hpp`, `include/patton/detail/thread_squad.hpp`).
A squad arranges its n threads in an 8-ary tree that is stored as one number per thread.

- `SquadTree`, `ThreadTree` and `TreeShape` are about the tree alone. The class `ThreadTree` has the stride array and the
  source's loops over it: the recursive construction, the downward loop, the upward recursion. Its methods are proved
  against functions, and the functions against independent descriptions of who visits whom.
- `Protocol` is the squad as a state machine. Each thread has a program counter; each access to a flag, to `task_`, to an
  OS thread handle or to another thread's data is a step of its own; steps of different threads interleave in any order.
  A blocking wait is a guard. Everything the source asserts or silently relies on (a set flag really changes, a pointer is
  not null, an optional has a value, a thread to be forked has no handle) is part of `WorkerSafe` and `MainSafe`. The
  machine runs any sequence of tasks, each with any number of synchronisation calls, until the squad is destroyed.
- `ProtocolInvariant` states the inductive invariant: every thread keeps a contract with its controller, whose half of the
  handshake is computed from the controller's program counter. `ProtocolLinks`, `ProtocolContracts`, `ProtocolSteps` and
  `ProtocolRuns` prove that every step of every thread keeps it. `ProtocolProgress` proves that a run in progress can always
  go on, and only finitely often. `ProtocolSafety` draws the consequences. All of this holds for any tree that meets
  `Protocol.WellFormed`.
- `PattonSquad` shows that the tree of n threads meets it exactly if n is *regular* (each stride after the first divides
  the one before). `SequentialFold` and `SquadGuarantees` show that with an associative operator what comes out of the tree
  is the fold in index order. `StepFrames` says, for any tree, what a step changes, and `PassOrder` that by safe steps a
  thread passes a run only after the threads it visits. `IrregularSquad`, `SquadSetup` and `SquadReturn` turn to the other
  n. A `run` on a squad of n threads can return without a violated assertion if and only if n is regular.
  `TaskOperations` has the operations on task data in place, as the source has them.

With s(0) = n and s(k+1) = ceil(s(k)/8), all n up to 64 are regular, and so are 80, 96, 128 and 256. For irregular n, such as
65, the construction clips the last block of a level but the walks do not: some thread has two controllers
(`TreeShape.VisitedTwice`), and no `run` on such a squad ever returns without violating an assertion
(`SquadReturn.IrregularNeverReturns`). All that this needs of the fork step is what the source asserts, that the thread
has no OS thread handle: a thread that has been joined may be forked again, and the model lets it run the task again. The
model keeps the code as it is and proves exactly when it works. (The diagram in `src/thread_squad.cpp:1039-1048` shows
trees of breadth 2 and 3; the code builds one of breadth 8.)

**Alignment and the aligning allocator** (`include/patton/memory.hpp`, `include/patton/detail/memory.hpp`,
`src/memory.cpp`). `Arithmetic` is the overflow-checked arithmetic on 64-bit sizes, `Bits` and `Alignment` the algebra of
alignment values, `Memory` a byte-addressed memory with an allocator of blocks, `OutOfBoundsTraps` the trap words,
`AlignedAllocator` the over-allocating adaptor and `PageAllocator` the page-granular allocation. Sizes are integers below
2^64, and wherever the source computes with unsigned numbers the model wraps explicitly. OR is a recursive function
on numbers, a shift is a division by a power of two, and masking the special bits in or out is division by 2^61 or its
remainder.

**Buffers** (`include/patton/buffer.hpp`, `include/patton/detail/buffer.hpp`, `include/patton/detail/transaction.hpp`).
`Storage` logs allocations and object lifetimes, `RowBuffer` is the two-dimensional buffer, `ElementBuffer` the
one-dimensional one, `AllocateArray` the array allocation with rollback. `Storage.Transaction` is the flag of a
transaction; what a rollback does is part of the construction that it guards. Throwing constructors are modelled by the
number of the constructor call that throws.

Two parameters stand for what the environment decides: `where` is the answer of the allocator (or operating system) below,
`None` being a failure, and `failAt` is the number of the constructor call that throws. In `Protocol`, the environment
chooses the tasks and the interleaving.

The one-dimensional buffer starts its rollback counter from an uninitialised variable (`include/patton/buffer.hpp:81`,
`include/patton/detail/buffer.hpp:47-57`), unlike the two-dimensional one. The model takes the variable's value as a
parameter. Construction is all or nothing for every such value if and only if no element constructor throws
(`ElementBuffer.AllOrNothingIffNothingThrows`). When one throws, the rollback is exact if and only if the counter's value
times the element stride is 0 in 64-bit arithmetic (`ElementBuffer.RollbackIsExact`); with two elements of which the
second throws and a counter of 1, an element that was never constructed is destroyed (`ElementBuffer.OneElementTooMany`).

`Wrappers`, `Values`, `Sequences` and `ModArith` hold the notions and facts that several of these modules share.

`dafny verify dfyconfig.toml` checks the project.

## Model

| member | source | states |
|---|---|---|
| SquadTree.NextSubstride | src/thread_squad.cpp:725-728 | the stride of the next level is smaller, unless it is 1, and eight blocks of it cover the block |
| ThreadTree.ThreadTree.constructor | src/thread_squad.cpp:802-829 | a new squad's stride array is completely that of the nested decomposition of [0, n) |
| ThreadTree.ThreadTree.Init | src/thread_squad.cpp:730-742 | the recursion writes the stride of every thread of its block, also when the block is clipped, and nothing else |
| ThreadTree.ThreadTree.ToSubthreads | src/thread_squad.cpp:744-760 | the downward loop calls its function for exactly the targets of `Down`, in that order |
| ThreadTree.ThreadTree.FromSubthreadsImpl | src/thread_squad.cpp:762-775 | the upward recursion appends exactly the targets of `UpTargets` to the trace, for every clipping |
| ThreadTree.ThreadTree.FromSubthreads | src/thread_squad.cpp:776-782 | the upward walk calls its function for exactly the targets of `Up`, in that order |
| SquadTree.WalkTargets | src/thread_squad.cpp:744-782 | for all threads and concurrencies, loop and recursion visit the same targets, each once, all in (t, min(t + stride, c)), the recursion in increasing order |
| SquadTree.UpMembers | src/thread_squad.cpp:762-775 | the upward walk visits exactly the grid points of its levels inside their clipped ranges |
| SquadTree.DownMembers | src/thread_squad.cpp:744-760 | the downward walk visits exactly the grid points of its levels inside their clipped ranges |
| SquadTree.UpLimited | src/thread_squad.cpp:778-782 | limiting the concurrency to c removes exactly the targets from c on |
| SquadTree.DownOrder | src/thread_squad.cpp:744-760 | the downward walk visits outer levels first and each level in increasing order: of two targets the smaller one comes first exactly if no block of the tree at the thread ends between them |
| TreeShape.EveryThreadHasController | src/thread_squad.cpp:730-760 | for every n, each thread but thread 0 is visited by a thread of smaller index |
| TreeShape.UniqueControllerIffRegular | src/thread_squad.cpp:730-782 | no thread has two controllers if and only if each stride s(k+1), k >= 1, divides s(k) |
| TreeShape.VisitedTwice | src/thread_squad.cpp:738-749 | for irregular n, the thread at the end of the clipped block is visited by thread 0 and by a thread of that block |
| TreeShape.SmallSquadsAreRegular | src/thread_squad.cpp:725-742 | every squad of at most 64 threads is regular |
| TreeShape.RegularUpTo512 | src/thread_squad.cpp:725-742 | up to 512 threads, a squad is regular if and only if s(2) divides s(1) |
| TreeShape.SomeLargerSquadsAreRegular | src/thread_squad.cpp:725-742 | squads of 80, 96, 128 and 256 threads are regular |
| TreeShape.SixtyFiveIsIrregular | src/thread_squad.cpp:738-749 | in a squad of 65 threads, threads 0 and 8 both visit thread 9 |
| TreeShape.StrideOfThread | src/thread_squad.cpp:730-742 | for regular n, the stride of a thread t > 0 is the largest s(k), k >= 1, that divides t |
| TreeShape.StrideIsCeil | src/thread_squad.cpp:725-728 | the k-th stride is n / 8^k rounded up |
| TreeShape.TargetsPerLevel | src/thread_squad.cpp:750-756 | a thread visits at most seven others on each level |
| TreeShape.TargetsInAll | src/thread_squad.cpp:744-760 | with L the least number of levels that covers n threads, a thread visits at most 7 L others |
| TreeShape.ChainBound | src/thread_squad.cpp:730-760 | a chain of controllers from any thread to thread 0 has at most L links |
| TreeFold.FoldFullWalk | src/thread_squad.cpp:870-883 | waiting for threads that took no part does not change what is merged |
| ProtocolSteps.WorkerKeepsInv | src/thread_squad.cpp:1007-1035 | every step that a thread of a squad can take is safe and keeps the invariant |
| ProtocolRuns.MainKeepsInv | src/thread_squad.cpp:1052-1094 | every step of the caller of `run` is safe and keeps the invariant |
| ProtocolRuns.BeginKeepsInv | src/thread_squad.cpp:1056-1073 | starting any task on an idle squad keeps the invariant, in the first run, in later ones and for the final join |
| ProtocolRuns.ReachableInv | src/thread_squad.cpp:1007-1094 | the invariant holds after any history: any sequence of tasks, any interleaving |
| ProtocolRuns.NoFailure | src/thread_squad.cpp:408-417 | in every reachable state every enabled step is safe; in particular `set_and_notify` always changes the flag, in all its uses |
| ProtocolProgress.SomeoneCanStep | src/thread_squad.cpp:1007-1094 | deadlock freedom: while a run is in progress some thread or the caller can take a safe step |
| ProtocolProgress.StepFalls | src/thread_squad.cpp:1007-1094 | every step of a run in progress makes the bound on the remaining steps of all threads smaller |
| ProtocolProgress.EveryRunReturns | src/thread_squad.cpp:1052-1094 | no schedule is longer than that bound, and one that cannot be continued has brought `run` to its return |
| ProtocolSafety.ExactlyOnce | src/thread_squad.cpp:669-686 | when `run` returns, the threads below c have executed the task exactly once, no others have, and all threads are quiescent |
| ProtocolSafety.StepLeavesSleepers | src/thread_squad.cpp:587-593 | in a later run that does not request joining, no step of anybody touches a thread from c on |
| ProtocolSafety.ReducedValue | include/patton/detail/thread_squad.hpp:118-132 | when `run` returns, thread 0's slot holds the fold over the tree and every other slot has been merged away |
| ProtocolSafety.SynchronisedResults | include/patton/thread_squad.hpp:117-170 | all participants got the same results from their synchronisation calls; each transform was applied exactly once, on thread 0 |
| ProtocolSafety.TransformLogMembers | include/patton/detail/thread_squad.hpp:208-217 | the transforms applied are those of the `reduce_transform` rounds, each once and in order |
| ProtocolSafety.ScheduleIndependent | src/thread_squad.cpp:911-921 | two runs of the same task end with the same results for any operator, whatever the interleavings and earlier runs were |
| ProtocolSafety.ResultsSoFar | include/patton/detail/thread_squad.hpp:178-217 | at any time in a run, what a synchronisation call has returned on any participant is the common result of its round |
| ProtocolSafety.BarrierSafety | src/thread_squad.cpp:948-983 | no thread is past its r-th synchronisation before all c participants have entered theirs |
| ProtocolSafety.BarrierByLogs | src/thread_squad.cpp:948-983 | when some thread's r-th call has returned, the r-th call of every participant has returned or has got at least to its waiting point |
| ProtocolSafety.NothingStale | src/thread_squad.cpp:784-800 | a thread that collects from or broadcasts to another in round r finds it waiting in round r, its data published |
| ProtocolSafety.FreshResult | src/thread_squad.cpp:959-971 | a waiting thread that sees `signalBroadcasting_` set holds the result of the round it is in |
| ProtocolSafety.FlagsChangeByWriting | src/thread_squad.cpp:581-584 | in every reachable state, a flag only changes when a thread or the caller of `run` steps that is named as its writer |
| ProtocolSafety.WritesTakeEffect | src/thread_squad.cpp:400-437 | every write of a flag leaves it set or reset as the source says, and a flag is only set when it is clear |
| ProtocolSafety.SingleWriter | src/thread_squad.cpp:581-584 | at any time at most one thread may write a flag, and it is the thread itself or its controller |
| ProtocolSafety.TaskWindow | src/thread_squad.cpp:885-897 | `task_` is only read between `store_task` and `release_task`, and points to the task of the run then |
| ProtocolSafety.StoredWhileRunning | src/thread_squad.cpp:985-996 | `task_` points to the task of the run exactly while the run is in progress |
| ProtocolSafety.OthersIgnoreTask | src/thread_squad.cpp:1007-1035 | a step that is not among those that read through `task_` is the same whatever `task_` is |
| ProtocolSafety.PublishedWindow | src/thread_squad.cpp:959-971 | `syncData_` is set exactly from its publication until the thread has been let past the waiting point |
| ProtocolSafety.ForkedOnceJoinedOnce | src/thread_squad.cpp:885-897 | a thread is forked at most once, joined at most once, only after it was forked and has ended |
| ProtocolSafety.DestroyedSquadIsJoined | src/thread_squad.cpp:1178-1187 | when the squad is gone, every thread that was forked has been joined |
| ProtocolSafety.ForkJoinByController | src/thread_squad.cpp:885-897 | a thread is only forked or joined by its controller, thread 0 by the caller of `run`, and only before `release_task` |
| PattonSquad.WellFormedIffRegular | src/thread_squad.cpp:730-782 | the tree of n threads is one the protocol works on if and only if n is regular |
| PassOrder.ForksWholeSquad | src/thread_squad.cpp:643-648 | in any tree, a thread that forks threads has the whole squad in its walk, as the source asserts, even if it is started again |
| PassOrder.ReturnedHavePassed | src/thread_squad.cpp:1007-1035 | for any n, when `run` has returned by safe steps, every thread of the squad has passed a run |
| TreeShape.ZeroVisitsLargerFirst | src/thread_squad.cpp:744-760 | the downward walk of thread 0 visits the start of the second block of a depth before any thread inside the first block |
| IrregularSquad.SomeThreadIsStuck | src/thread_squad.cpp:486-489 | for irregular n, in every history of safe steps a thread that shares a target with thread 0 is never done with forking it and never passes a run |
| SquadSetup.IrregularIsNeverSetUp | src/thread_squad.cpp:885-934 | for irregular n, no history of safe steps leads to a state in which all threads have been forked and are done with forking |
| SquadSetup.SetUpIffRegular | src/thread_squad.cpp:923-934 | all threads of a squad can be got running without violating an assertion if and only if n is regular |
| SquadReturn.ReturnedIsSetUp | src/thread_squad.cpp:1007-1035 | for any n, a run that has returned by safe steps has every thread of the squad forked and done with forking |
| SquadReturn.IrregularNeverReturns | src/thread_squad.cpp:1052-1094 | for irregular n, no history of safe steps contains a return from a `run` that had work to do |
| SquadReturn.ReturnsIffRegular | src/thread_squad.cpp:1052-1094 | a `run` can return without violating an assertion if and only if n is regular |
| SquadReturn.SixtyFiveNeverReturns | src/thread_squad.cpp:1052-1094 | with 65 threads, no `run` returns without violating an assertion |
| SquadSetup.RunOut | src/thread_squad.cpp:1052-1094 | every history of a squad in use can be continued until `run` has returned |
| PattonSquad.WalkIsChildren | src/thread_squad.cpp:744-782 | for regular n and every c, a thread visits exactly the threads below c whose controller it is |
| SequentialFold.ThreadFold | src/thread_squad.cpp:762-782 | with an associative operator, thread t's fold is x(t) op ... op x(min(t + stride, c) - 1) in index order |
| SequentialFold.RootFold | src/thread_squad.cpp:870-883 | the fold over the whole tree is x(0) op ... op x(c - 1); commutativity is not needed |
| SquadGuarantees.NeverFailsNorBlocks | src/thread_squad.cpp:1007-1094 | in a regular squad no reachable step fails, and a run in progress is never stuck |
| SquadGuarantees.RunReturns | src/thread_squad.cpp:1052-1094 | in a regular squad every run returns, whatever the schedule |
| SquadGuarantees.CallReturns | include/patton/thread_squad.hpp:224-238 | in a regular squad, every call of `run` in any history, under every schedule, ends in a state in which `run` has returned from that very task |
| SquadGuarantees.OthersStayAsleep | src/thread_squad.cpp:587-593 | a call after the first one that does not request joining changes nothing about the threads from c on: they stay asleep |
| SquadGuarantees.TransformReduceInOrder | include/patton/thread_squad.hpp:317-340 | a call of `transform_reduce`, in any history and under every schedule, returns init op x(0) op ... op x(c - 1), and init if c is 0 |
| SquadGuarantees.TransformReduceFirstInOrder | include/patton/thread_squad.hpp:387-403 | a call of `transform_reduce_first`, in any history and under every schedule, returns x(0) op ... op x(c - 1) |
| SquadGuarantees.ReduceInOrder | include/patton/thread_squad.hpp:136-170 | `reduce` and `reduce_transform` return the index-ordered fold of all contributions, transformed, on every participant |
| SquadGuarantees.ReduceCallInOrder | include/patton/thread_squad.hpp:136-170 | when a call returns, each participant has got from all its synchronisation calls the index-ordered folds, transformed, under every schedule; the other threads have made none |
| SquadGuarantees.CallExists | src/thread_squad.cpp:1052-1094 | in every history in which a regular squad is idle, any task with work to do can be called and runs to the end |
| SquadGuarantees.CompletedInOrder | src/thread_squad.cpp:870-883 | a participant of a `transform_reduce` that is about to signal completion holds x(t) op ... op x(min(t + stride, c) - 1) in index order |
| TaskOperations.TransformReduceOperation.Execute | include/patton/detail/thread_squad.hpp:118-125 | `execute` fills the thread's empty slot and leaves the others alone |
| TaskOperations.TransformReduceOperation.Merge | include/patton/detail/thread_squad.hpp:126-132 | `merge` folds the source slot into the target slot from the right, empties it and leaves the others alone |
| TaskOperations.MergeStepMerges | src/thread_squad.cpp:878-882 | when a thread of the squad merges, both slots are filled, they are different, and the slots change as `merge` changes them |
| TaskOperations.TaskStepExecutes | include/patton/detail/thread_squad.hpp:118-125 | when a thread finishes its task, its slot is still empty and the slots change as `execute` changes them |
| TaskOperations.ReduceSynchronizer.Collect | include/patton/detail/thread_squad.hpp:178-182 | synchronisers that hold what two threads of a `reduce` round hold still do after `collect` and the protocol's collecting |
| TaskOperations.ReduceSynchronizer.Broadcast | include/patton/detail/thread_squad.hpp:183-187 | they still do after `broadcast` and the protocol's broadcasting, sender and target alike |
| TaskOperations.ReduceTransformSynchronizer.Collect | include/patton/detail/thread_squad.hpp:208-212 | the same for `collect` in a `reduce_transform` round |
| TaskOperations.ReduceTransformSynchronizer.Broadcast | include/patton/detail/thread_squad.hpp:213-217 | given a result, the target's result is the one the protocol hands to its thread, and its value is kept |
| TaskOperations.CollectStepCollects | src/thread_squad.cpp:793-800 | in a reachable squad a collecting step finds two different threads, the target's synchroniser published and both values there, and is exactly `collect` on them |
| TaskOperations.BroadcastStepBroadcasts | src/thread_squad.cpp:784-791 | in a reachable squad a broadcasting step finds two different threads, the target's synchroniser published and the result there, and is exactly `broadcast` on them |
| Arithmetic.MultiplyIsExact | include/patton/detail/arithmetic.hpp:21-30 | the product, or a failure exactly when the true product does not fit into 64 bits |
| Arithmetic.CeiliIsExact | include/patton/detail/arithmetic.hpp:32-55 | the least multiple of d that is at least x, or a failure exactly when that does not fit |
| Alignment.SmearDoubles | include/patton/detail/memory.hpp:43-49 | each line of the bit smearing doubles the number of leading ones |
| Alignment.Floor2pIsFloor | include/patton/detail/memory.hpp:40-51 | below 2^63 the bit smearing computes 2^(bits - 1), and 0 for 0 |
| Alignment.FloorIsGreatest | include/patton/detail/memory.hpp:40-51 | for 0 < x < 2^63, `floor_2p` is the greatest power of two that is at most x |
| Alignment.AlignmentIsPowerOf2 | src/memory.cpp:193-197 | an alignment in bytes is a power of two, whatever the hardware sizes |
| Alignment.AlignmentParts | src/memory.cpp:171-197 | an alignment in bytes is the greater of its basic part and of the size its special bits stand for |
| Alignment.AlignmentOr | src/memory.cpp:171-197 | alignments combined by OR have the greater of the two alignments in bytes, for all values |
| Alignment.SpecialAlignments | src/memory.cpp:171-192 | the special alignments are, in bytes, the sizes of cache lines, pages and large pages; without large pages, the latter is that of pages |
| Alignment.OrdinaryBytes | src/memory.cpp:193-197 | an ordinary alignment is, in bytes, the greatest power of two that is at most its value |
| Alignment.StaticIsSound | include/patton/detail/memory.hpp:76-104 | what `provides_static_alignment` promises holds for `provides_dynamic_alignment` |
| Alignment.StaticIsExact | include/patton/detail/memory.hpp:76-95 | the static answer is yes exactly if the basic part of the request is provided on all plausible hardware with this cache line bound and the special bits of the provided alignment are no smaller as a number |
| Alignment.StaticIsComplete | include/patton/detail/memory.hpp:76-95 | for a request with at most one special bit and basic parts below 2^60, the static answer is yes exactly if the alignment is provided on all plausible hardware |
| Alignment.PageLacksCacheLine | include/patton/detail/memory.hpp:92-93 | with two special bits the answer can be no although the alignment is always provided: pages for pages and cache lines |
| Alignment.SpecialInOrder | include/patton/detail/memory.hpp:80-93 | large pages statically provide pages, pages provide cache lines, and not the other way round |
| Alignment.DynamicIsExact | include/patton/detail/memory.hpp:100-104 | the dynamic comparison is true exactly if every address aligned as provided is aligned as requested |
| Alignment.StaticReflexive | include/patton/detail/memory.hpp:76-94 | every alignment statically provides itself |
| Alignment.StaticTransitive | include/patton/detail/memory.hpp:76-94 | static provision is transitive |
| Alignment.StaticallyAlignedAddress | include/patton/memory.hpp:352-353 | an adaptor that does not align itself, because the allocator below provides the alignment statically, hands out aligned addresses |
| Alignment.TypicalHardware | src/new.cpp:81-84 | the assumptions about the hardware hold for 64-byte cache lines, 4 KB pages and 2 MB large pages |
| Alignment.CoversElementAlignment | include/patton/buffer.hpp:296-298 | `Alignment` OR-ed with `alignof(T)` is, in bytes, a multiple of the element type's alignment |
| Memory.BytesRoundTrip | include/patton/detail/memory.hpp:215-216 | an address that is stored as bytes comes back |
| OutOfBoundsTraps.SetOutOfBoundsWriteTrap | src/memory.cpp:29-40 | each of the first four words that fits behind the data becomes 0xDEADBEEF, and no other byte changes |
| OutOfBoundsTraps.CheckOutOfBoundsWriteTrap | src/memory.cpp:41-57 | true if and only if each of the first four words that fits behind the data is 0xDEADBEEF |
| OutOfBoundsTraps.TrapsDetect | src/memory.cpp:41-57 | after any changes to memory the check fails if and only if a trapped byte has changed |
| OutOfBoundsTraps.TrapCountIsGreatest | src/memory.cpp:35 | as many words are trapped as fit, up to four |
| OutOfBoundsTraps.IntactIffWordsHold | src/memory.cpp:41-57 | the trap area as a sequence of bytes is intact exactly if each of its words is the trap value |
| OutOfBoundsTraps.TrapByteAt | src/memory.cpp:26-39 | the bytes of a trap, least significant first |
| AlignedAllocator.WraparoundIsDetected | include/patton/detail/memory.hpp:205-206 | `nbAlloc < nbData` holds exactly when the true size exceeds 64 bits, and otherwise nbAlloc is that size |
| AlignedAllocator.RequestIsExact | include/patton/detail/memory.hpp:203-206 | exactly which requests are refused with `bad_alloc` before memory is asked for |
| AlignedAllocator.AlignedFits | include/patton/detail/memory.hpp:206-213 | wherever the block lies, payload, traps and saved address fit behind the aligned address; at the worst address no byte is left |
| AlignedAllocator.SealedIsReadable | include/patton/detail/memory.hpp:228-235 | undamaged control bytes pass the check and give back the address of the block |
| AlignedAllocator.PayloadWritesKeepSeal | include/patton/detail/memory.hpp:199-241 | writes confined to the payload do not damage the control bytes |
| AlignedAllocator.DamageIsDetected | include/patton/detail/memory.hpp:232-235 | a change to any byte of a trap word makes the check fail |
| AlignedAllocator.Adaptor.Allocate | include/patton/detail/memory.hpp:199-221 | success exactly if the true sizes fit and the block was granted; the block has n sizeof(T) + a + 15 bytes, a being the alignment in bytes, the address is a multiple of a inside it, and only the 16 control bytes behind the payload change |
| AlignedAllocator.Adaptor.Deallocate | include/patton/detail/memory.hpp:222-241 | fails fast exactly if one of the two trap words is damaged, and else gives back the saved block with the size it was allocated with |
| AlignedAllocator.AlignedForElements | include/patton/detail/memory.hpp:202 | an address aligned for `Alignment` OR-ed with an element alignment is aligned for the elements |
| AlignedAllocator.AllocateUseDeallocate | include/patton/detail/memory.hpp:199-241 | allocate, fill the payload with anything, deallocate: no failure, and the blocks below are as before |
| AlignedAllocator.AllocateDamageDeallocate | include/patton/detail/memory.hpp:199-241 | allocate, change any byte of the eight behind the payload, deallocate: this fails and gives nothing back |
| PageAllocator.PageAlloc | src/memory.cpp:124-153 | `bad_alloc` exactly if the least number of whole pages does not fit into 64 bits, a system error exactly if the system refuses; the first four words that fit into the remainder of the last page are trapped, and no other byte changes |
| PageAllocator.PageFree | src/memory.cpp:154-168 | fails fast exactly if a trap word behind the data is damaged |
| PageAllocator.PageAllocWriteFree | src/memory.cpp:124-168 | allocate pages, write any byte anywhere in them, free: this fails exactly if the byte was trapped and has changed |
| RowBuffer.SizingIsExact | include/patton/buffer.hpp:296-300 | `bad_alloc` exactly when one of the three true sizes does not fit, although later steps go on from a failed one |
| RowBuffer.RowIsLeast | include/patton/buffer.hpp:296-300 | a row takes the least multiple of the alignment that holds its elements |
| RowBuffer.RowMajorOrder | include/patton/detail/buffer.hpp:87-103 | the element of row i and column j is constructed, and destroyed, as number i * cols + j, at its place in row i |
| RowBuffer.PrefixIsPrefix | include/patton/detail/buffer.hpp:119-134 | the first k elements of a partial construction or destruction are those of a complete one |
| RowBuffer.ElementInside | include/patton/buffer.hpp:433-446 | every element lies inside the allocation |
| RowBuffer.ElementsDisjoint | include/patton/detail/buffer.hpp:95-102 | elements do not overlap, and row-major order is address order |
| RowBuffer.AddressInSpan | include/patton/buffer.hpp:433-446 | the elements of the span for row i are where the construction loops put them |
| RowBuffer.RowsAndElementsAligned | include/patton/buffer.hpp:433-446 | every row starts aligned as requested, every element as its type demands |
| RowBuffer.ConstructAlignedRowBuffer | include/patton/detail/buffer.hpp:87-103 | the strided loops end, construct exactly the elements up to the failing one in row-major order, and count them |
| RowBuffer.DestroyAlignedRowBuffer | include/patton/detail/buffer.hpp:105-118 | all elements are destroyed in row-major order, once each |
| RowBuffer.DestroyConstructedElements | include/patton/detail/buffer.hpp:119-134 | exactly the given number of elements from the front is destroyed in row-major order |
| RowBuffer.AlignedRowBuffer.Construct | include/patton/buffer.hpp:292-324 | all or nothing: on a throw exactly the constructed prefix is destroyed and the same number of bytes freed |
| RowBuffer.AlignedRowBuffer.DestroyAndFree | include/patton/buffer.hpp:325-330 | destroys the elements at the addresses where they were constructed and frees the bytes that were allocated |
| AllocateArray.AllocateArray | include/patton/detail/memory.hpp:134-155 | on a throw exactly the constructed elements are destroyed, last one first, and the storage is freed |
| AllocateArray.ReversedAt | include/patton/detail/memory.hpp:143-146 | the q-th element destroyed is the q-th last one constructed |
| ElementBuffer.ConstructAlignedBuffer | include/patton/detail/buffer.hpp:45-57 | the loop ends, constructs all elements or those up to the failing one, and counts on from the counter's initial value, wrapping |
| ElementBuffer.ElementAt | include/patton/detail/buffer.hpp:45-68 | element q is constructed, and destroyed, q strides into the storage |
| ElementBuffer.DestroyAlignedBuffer | include/patton/detail/buffer.hpp:58-68 | for every count: exactly when the strided loop ends, and what it destroys until it ends or its variable overflows |
| ElementBuffer.IterationsExact | include/patton/detail/buffer.hpp:58-68 | the strided loop ends after k elements exactly if its end, in wrapped and signed arithmetic, is k strides away |
| ElementBuffer.OverrunIsFirst | include/patton/detail/buffer.hpp:58-68 | the element reached last before an overflow is the last one within PTRDIFF_MAX bytes |
| ElementBuffer.AlignedBuffer.Construct | include/patton/buffer.hpp:64-94 | `bad_alloc` exactly if a true size does not fit or storage is refused; a built buffer has all elements constructed; when one throws, what is constructed, destroyed and freed for every value of the uninitialised counter |
| ElementBuffer.AlignedBuffer.DestroyAndFree | include/patton/buffer.hpp:95-101 | destroys the elements where they were constructed and frees the bytes that were allocated |
| ElementBuffer.RollbackIsExact | include/patton/buffer.hpp:81-92 | when constructor k throws, the construction is all or nothing if and only if counter times stride is 0 modulo 2^64; below 2^64, if and only if the counter is 0 |
| ElementBuffer.AllOrNothingIffNothingThrows | include/patton/buffer.hpp:81-92 | the construction is all or nothing for every initial counter if and only if no element constructor throws |
| ElementBuffer.OneElementTooMany | include/patton/buffer.hpp:81-92 | two elements, the second constructor throws, the counter starts at 1: both are destroyed |

## Left out

- Memory orderings, `notify_one`, and the spin, backoff and yield loops of the waits: steps are sequentially consistent and a wait is a guard.
- OS threads, affinity, thread names and system errors: of `os_thread` the model keeps whether it has a handle and whether its function has ended.
- Irregular numbers of threads: no `run` returns safely on them, as `SquadReturn.IrregularNeverReturns` says; which assertion fails first, whether a thread waits for ever, and which threads are forked twice before that depends on the schedule and is not stated.
- Tasks that throw, or whose threads make different synchronisation calls: the header makes this the task's duty. Contributions to a reduction are functions of the thread and the round, so a task may compute them from anything that earlier rounds gave all threads.
- The protocol is a state machine on values: that `syncData_` and `task_` are pointers shows in the checks that they are set, not as aliasing.
- The task object's parameters are read from the task record in one step, and `hardware_concurrency() == 0`, a squad of no threads and a concurrency of -1 are resolved before the model starts.
- `int` overflow in `stride + 7` for squads of nearly 2^31 threads, and the clamping of `pass_`, which only its being zero or not matters for.
- Alignment.StaticIsSound: assumes of the hardware what `src/new.cpp:81-84` and `src/new.cpp:112-115` check, and that sizes are powers of two below 2^61 with the interference size at most that of a cache line.
- AlignedAllocator.Adaptor.Deallocate: demands that, if the traps are intact, the saved address designates a live block of the right size, as it does for every allocation whose control bytes were not overwritten.
- RowBuffer.AlignedRowBuffer.Construct: assumes that no allocator grants more than PTRDIFF_MAX bytes; beyond that the signed loop variables of the source overflow.
- The construct overloads for constructors that cannot throw: the same loops without a count, covered by `failAt` being `None`.
- ElementBuffer.AlignedBuffer.Construct: when the rollback's loop variable would overflow, the model stops there; what follows is undefined in the source. Like the row buffer's, it assumes that no allocator grants more than PTRDIFF_MAX bytes.
- Large pages: the size that is unmapped differs from the size that is mapped on Linux. A request for zero bytes, which the operating system refuses.
- `src/cpuinfo.cpp`, `src/new.cpp` and lazy initialisation: hardware sizes are parameters.
- Iterators, `allocator_deleter`, `default_init_allocator`, `zero_init_allocator`, move operations: they would only add easy members.
