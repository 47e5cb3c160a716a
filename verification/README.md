# JunCore: lock-free containers, job scheduler and session I/O

A model of the protocols at the core of JunCore, a Windows game-server library, with proofs about every run of them.

Code that several threads execute at once is modelled as a transition system: one step is one shared read, store,
compare-exchange or counter update of one thread, any number of threads take part, steps interleave freely and memory is
sequentially consistent. `NextPc` says where a thread goes, `Do` or `NextObj` what its step does to shared memory.
Fields called history record what happened and are read by no step. A `Run` is a finite sequence of states from an
initial one.

Modules called `...Calls` and `...Sights` look at the same runs from outside: an observer writes down the arguments of each
call, what its steps changed, what it returned and what it could see, and the lemmas say that every call that has returned
did what it was asked for. Modules called `...Progress` count the steps that a call can still take: the containers and the
logger are lock-free, the scheduler is wait-free apart from the jobs it runs.

Where a claim needs a hypothesis, it is a named condition on single steps (`Fresh`, `Unshared`, `Roomy`, `Undisturbed`,
`Vacant`, `AtHome`), and a lemma named `...ExactlyWhen` says that a step keeps the protocol in order if and only if the
condition holds. Coarser conditions that ensure these, on numbers of exchanges or on callers (`Bounded`, `Spared`, `Apart`,
`Elsewhere`), are related to them by lemmas of their own. Concrete runs show failures of the pool, the queue's links, the
scheduler, the scenes, the logger and the initializer.

Code that one thread executes is a class with the source's fields and loops (`RingBuffer`, `Session`,
`TimeWindowCounter`). The bodies of `RingBuffer`'s constructor, `Enqueue`, `Dequeue` and `Peek` follow
`JunCore/JunCommon/container/RingBuffer.cpp`; the table cites their declarations.

| module | models |
|---|---|
| `Stamps` | the packed word: 47 address bits, 17 stamp bits |
| `Tally`, `Ownership`, `Treiber`, `Sequences` | counting threads at a program point; unique owners; a stamped top word and its chain; sequences in pieces |
| `Reference` | the sequential stack and queue that the lock-free ones are compared with |
| `Runs`, `Progress` | putting a particular run together; counting down the steps of a call |
| `ObjectPool`, `PoolCalls`, `PoolSights`, `PoolProgress`, `StampWrap` | `LFObjectPool`, its calls, when it grows, lock-freedom, and the run that overtakes its stamp |
| `ChunkPool`, `ChunkCalls` | `LFObjectPoolTLS` and its calls |
| `LockFreeStack`, `StackCalls`, `StackProgress` | `LFStack`, its calls, lock-freedom |
| `LockFreeQueue`, `QueueCalls`, `QueueTail`, `QueueProgress`, `ReusedTailNode` | `LFQueue`, its calls, how far its tail trails, lock-freedom, and the run in which a reused node reorders calls |
| `JobScheduler`, `JobCalls`, `JobSights`, `JobProgress`, `DoubleDelete` | `JobObject` and `JobThread`, posts and what jobs ask for, when an object is scheduled, wait-freedom, and the run that deletes an object twice |
| `GameWorld`, `WorldCalls`, `Scenes`, `SceneMoves` | `GameObject`, `GameScene`, `GameObjectManager` on top of the scheduler; their calls; membership and threads of scenes; moves |
| `RingBuffers`, `Framing`, `ByteStreams`, `SessionReceive` | receive buffer, packet format, arbitrary bytes, receive completion |
| `SessionSend`, `SendCalls`, `SendSights`, `SendProgress` | the one-send-in-flight protocol, its calls, what its callers saw, and that it does not spin |
| `LoggerRing`, `LoggerCalls`, `LoggerProgress`, `StaleDrop` | the asynchronous logger's ring, its calls, lock-freedom, and the run that drops with an empty ring |
| `OnceInit` | `OnceInitializer` |
| `TimeWindow` | `TimeWindowCounter` |

What the proofs found in the code:

- `LFQueue` can reorder one thread's calls: the exchange on `next` compares with an unstamped null, so a stalled
  `Enqueue` can link behind a node that was freed and that another `Enqueue` now prepares. A value enqueued by a call
  that has returned can then come out after a value that the same thread enqueued later
  (`ReusedTailNode.ReuseReordersCalls`). At such a link memory departs from the order of the links, and only at such a link
  (`LockFreeQueue.LinkInOrderExactlyWhen`).
- `ProcessJobObjects` looks at an object after `Flush` may have handed it to another thread, so an object that moved can
  be deleted twice (`DoubleDelete.MovedObjectDeletedTwice`). An object is deleted once for each thread that is in a flush
  of it when it is marked (`JobScheduler.DeletedOnceExactlyWhen`).
- `MoveToScene` to the scene the object is already in lists it twice (`SceneMoves.MoveListsOnceExactlyWhen`), and moves
  whose posts interleave can leave it in two scenes (`SceneMoves.InTwoScenes`). Membership is lost exactly when an object
  enters a scene while it is still in one (`Scenes.JobKeepsMembersExactlyWhen`).
- `LogAsync` can drop a message although the ring is empty (`StaleDrop.DroppedWhenEmpty`). With room left it drops exactly
  when the consumer has passed the write index it copied, by a whole number of laps and one
  (`LoggerRing.DropExactlyWhen`).
- `OnceInitializer` can hand out a resource that is being cleaned up (`OnceInit.DisturbedCleanup`), exactly when a call
  first loads the state before a last cleanup resets it (`OnceInit.LoadInOrderExactlyWhen`).
- A completion that brings 1000 empty packets ends a connection's reading (`Framing.EmptyPackets`).
- `JunCore/docs/GameObjectManager_Design.md` says that the jobs already queued are processed after `MarkForDelete`; the code
  drops them, and so does the model (`JobScheduler.NothingAfterMark`).

## Model

| member | source | states |
|---|---|---|
| `Stamps.NextWordFields` | JunCore/JunCommon/core/base.h:7-10 | on 64-bit words, the mask expression replaces the address and increments the stamp inside its own 17 bits, wrapping there |
| `Stamps.WordEquality` | JunCore/JunCommon/core/base.h:7-9 | comparing whole words is comparing stamp and address |
| `Stamps.PackIsInjective` | JunCore/JunCommon/core/base.h:7-9 | a stamp below 2^17 and an address below 2^47 make one 64-bit number each, no two the same |
| `Stamps.PackBump` | JunCore/JunCommon/core/base.h:7-10 | advancing the packed number is bumping the pair of stamp and address |
| `Stamps.StampTellsVersion` | JunCore/JunCommon/core/base.h:10 | fewer than 2^17 bumps apart, equal stamps mean no bump |
| `Stamps.StampWraps` | JunCore/JunCommon/core/base.h:10 | a stamp is seen again exactly after a multiple of 2^17 bumps |
| `Treiber.WinMeansUnchanged` | JunCore/JunCommon/pool/LFObjectPool.h:99-101 | within the bound an exchange wins exactly when no other one succeeded since the copy |
| `Treiber.PopKeepsLinked` | JunCore/JunCommon/container/LFStack.h:88-99 | installing the successor of the top keeps the list acyclic and null-terminated, one node shorter |
| `Treiber.PushKeepsLinked` | JunCore/JunCommon/container/LFStack.h:66-78 | putting a linked private node on top keeps it acyclic and null-terminated, one node longer |
| `Ownership.OneOwner` | JunCore/JunCommon/pool/LFObjectPool.h:87-155 | a node is on the list, handed out, or held by exactly one call, never two of these |
| `ObjectPool.Construct` | JunCore/JunCommon/pool/LFObjectPool.h:67-72 | the constructor's loop leaves all nodes on the free list, the last created on top, acyclic, with stamp zero |
| `ObjectPool.StepInv` | JunCore/JunCommon/pool/LFObjectPool.h:87-155 | every step of `Alloc` and `Free` keeps list, owners and counters consistent |
| `ObjectPool.RunInv` | JunCore/JunCommon/pool/LFObjectPool.h:55-155 | so does every run, from any number of nodes created in advance, in which no `Alloc` wins with a successor that the top no longer has |
| `ObjectPool.AllocKeepsListExactlyWhen` | JunCore/JunCommon/pool/LFObjectPool.h:94-101 | the exchange of an `Alloc` leaves exactly the rest of the list reachable if and only if the successor it installs is the one the top still has |
| `ObjectPool.BoundedRunIsRun` | JunCore/JunCommon/pool/LFObjectPool.h:94-101 | the stamp ensures it in every run with fewer than 2^17 exchanges during one attempt |
| `ObjectPool.HandsOutUnowned` | JunCore/JunCommon/pool/LFObjectPool.h:99-117 | the object that a returning `Alloc` hands out was neither a client's nor another call's nor on the list |
| `ObjectPool.UniqueOwnership` | JunCore/JunCommon/pool/LFObjectPool.h:87-155 | in every run the free list is acyclic and disjoint from handed-out objects, and no object has two owners |
| `ObjectPool.WinningAlloc` | JunCore/JunCommon/pool/LFObjectPool.h:94-109 | a winning `Alloc` takes the current top, held by no client, and installs its true successor |
| `ObjectPool.AtRest` | JunCore/JunCommon/pool/LFObjectPool.h:47-48 | with no call in progress, capacity is free plus in use, and the use count is the number of objects handed out |
| `PoolCalls.CallsAreFulfilled` | JunCore/JunCommon/pool/LFObjectPool.h:87-155 | every `Alloc` that has returned put exactly one object into its client's hands and listed none; every `Free` put exactly its argument on the free list |
| `PoolSights.GrowsWhenEmpty` | JunCore/JunCommon/pool/LFObjectPool.h:93-117 | a node is created and the capacity raised only in a call that has seen the free list empty |
| `PoolProgress.LockFree` | JunCore/JunCommon/pool/LFObjectPool.h:89-154 | from any state, a call takes at most six steps of its own before it returns or another thread's exchange succeeds |
| `StampWrap.BoundIsNeeded` | JunCore/JunCommon/pool/LFObjectPool.h:94-109 | a run with 2^17 exchanges during one attempt ends with a handed-out object on top of the free list |
| `ChunkPool.StepInv` | JunCore/JunCommon/pool/LFObjectPoolTLS.h:42-120 | every step keeps live plus freed equal to handed out in each chunk, and one place for each chunk |
| `ChunkPool.RunInv` | JunCore/JunCommon/pool/LFObjectPoolTLS.h:42-120 | so does every run with frees from any thread |
| `ChunkPool.OneObjectPerSlot` | JunCore/JunCommon/pool/LFObjectPoolTLS.h:54-72 | no two live objects share a slot, and every slot is inside its chunk |
| `ChunkPool.SlotIsVacant` | JunCore/JunCommon/pool/LFObjectPoolTLS.h:54-56 | `Alloc` finds an index below 500 whose slot no live object has |
| `ChunkPool.LastFreeOfRetired` | JunCore/JunCommon/pool/LFObjectPoolTLS.h:58-71 | the free that counts to 500 is of the last live object, and the chunk's owner has already switched |
| `ChunkPool.ReturnedWhenComplete` | JunCore/JunCommon/pool/LFObjectPoolTLS.h:66-72 | a chunk goes back to the pool only with all 500 slots handed out and freed, nothing live in it, and no thread allocating from it |
| `ChunkPool.ResetOnlyEmpty` | JunCore/JunCommon/pool/LFObjectPoolTLS.h:42-52 | `Set` resets only a chunk with no live object that no other thread or call has |
| `ChunkPool.UseCountBounds` | JunCore/JunCommon/pool/LFObjectPoolTLS.h:90-96 | 500 times the chunks out of the pool is at least the number of live objects |
| `ChunkCalls.CallsAreFulfilled` | JunCore/JunCommon/pool/LFObjectPoolTLS.h:54-120 | every `Alloc` that has returned put exactly one object into its client's hands and retired none; every `Free` retired exactly its argument |
| `LockFreeStack.StepInv` | JunCore/JunCommon/container/LFStack.h:59-111 | every step of `Push` and `Pop` keeps list, values, owners, count and the replayed log in agreement |
| `LockFreeStack.RunInv` | JunCore/JunCommon/container/LFStack.h:59-111 | so does every run in which no `Pop` wins with a successor that the top no longer has |
| `LockFreeStack.PopKeepsListExactlyWhen` | JunCore/JunCommon/container/LFStack.h:92-99 | the exchange of a `Pop` leaves exactly the rest of the list reachable if and only if the successor it installs is the one the top still has |
| `LockFreeStack.BoundedRunIsRun` | JunCore/JunCommon/container/LFStack.h:92-99 | the stamp ensures it in every run with fewer than 2^17 exchanges during one attempt |
| `LockFreeStack.LastInFirstOut` | JunCore/JunCommon/container/LFStack.h:59-111 | replaying the calls as a sequential stack gives exactly the values found by following `next`, so the stack is LIFO despite recycling and `Pop` reports empty only when it is |
| `LockFreeStack.PopReturnsWhatItRemoved` | JunCore/JunCommon/container/LFStack.h:98-104 | the value read after the exchange is the value removed |
| `LockFreeStack.CountAtRest` | JunCore/JunCommon/container/LFStack.h:113-116 | with no call in progress the count is the number of values |
| `LockFreeStack.NeverStuck` | JunCore/JunCommon/container/LFStack.h:86-104 | every node a pop dereferences exists, from the read of its `next` on |
| `StackCalls.CallsAreFulfilled` | JunCore/JunCommon/container/LFStack.h:59-111 | every `Push` that has returned put exactly its argument on the stack, once; every `Pop` returned what it took off, or false after it found the stack empty |
| `StackCalls.EventsBelongToCalls` | JunCore/JunCommon/container/LFStack.h:59-111 | the log of the stack grows only by the push or pop that the stepping thread was asked for, with its own argument |
| `StackProgress.LockFree` | JunCore/JunCommon/container/LFStack.h:66-110 | from any state, a call takes at most nine steps of its own before it returns or another thread's exchange succeeds |
| `LockFreeQueue.StepInv` | JunCore/JunCommon/container/LFQueue.h:60-136 | every step of `Enqueue` and `Dequeue` keeps links, positions, owners, gate and log consistent |
| `LockFreeQueue.RunInv` | JunCore/JunCommon/container/LFQueue.h:42-136 | so does every run in which winning exchanges of the words install current successors and no link wins on a node that another call holds privately |
| `LockFreeQueue.MoveInOrderExactlyWhen` | JunCore/JunCommon/container/LFQueue.h:76-84 | an exchange of the tail or head word keeps words, memory and order in agreement if and only if it installs the successor that the word's node still has, with its value, and for the head with the tail ahead |
| `LockFreeQueue.StampedRunIsRun` | JunCore/JunCommon/container/LFQueue.h:97-130 | the stamps ensure it in every run with fewer than 2^17 exchanges of a word during one attempt |
| `LockFreeQueue.StepSimulates` | JunCore/JunCommon/container/LFQueue.h:60-141 | step by step the queue is a sequence and a counter: the link appends, the head exchange takes the first value, the increment counts, the gate uncounts and a refusal takes that back |
| `LockFreeQueue.LinksLast` | JunCore/JunCommon/container/LFQueue.h:66-72 | such a link, through a copy of the tail however old, writes behind the last node |
| `LockFreeQueue.LinkInOrderExactlyWhen` | JunCore/JunCommon/container/LFQueue.h:66-79 | a winning link leaves memory in the order of the calls if and only if no other call holds the node linked behind privately |
| `LockFreeQueue.FirstInFirstOut` | JunCore/JunCommon/container/LFQueue.h:60-136 | replaying the calls as a sequential queue gives exactly the values in memory behind the head node; everything enqueued is what was dequeued followed by them |
| `QueueCalls.CallsAreFulfilled` | JunCore/JunCommon/container/LFQueue.h:60-136 | every `Enqueue` that has returned linked exactly its argument, once; every `Dequeue` returned exactly the value it took out, or false after the counter refused it |
| `QueueCalls.EventsBelongToCalls` | JunCore/JunCommon/container/LFQueue.h:60-136 | the log of the queue grows only by what the stepping thread was asked for, with its own argument |
| `QueueProgress.LockFree` | JunCore/JunCommon/container/LFQueue.h:65-135 | in every stretch of a run within one call, without another thread's successful exchange, an `Enqueue` takes at most seven steps of its own and three for each position the tail trails, a `Dequeue` at most fifteen |
| `Reference.NothingLost` | JunCore/JunCommon/container/LFQueue.h:60-136 | of a first-in first-out queue, everything put in is what was taken out, in order, followed by the contents |
| `LockFreeQueue.StampsInLockstep` | JunCore/JunCommon/container/LFQueue.h:76-84 | the stamps count positions mod 2^17, head <= tail <= last, and the words are equal exactly when the positions are |
| `QueueTail.TrailsExactlyWhen` | JunCore/JunCommon/container/LFQueue.h:72-77 | a winning link keeps last <= tail + 1 if and only if it is behind the node that the tail word names |
| `QueueTail.TailTrailsByOne` | JunCore/JunCommon/container/LFQueue.h:66-84 | if the pool does not hand out a node that an `Enqueue` still holds as its tail node, the run is one of those above and last <= tail + 1 always |
| `QueueTail.TailAtRest` | JunCore/JunCommon/container/LFQueue.h:71-79 | then the tail trails only while an `Enqueue` has yet to count or to swing it, and with no call in progress it names the last node |
| `LockFreeQueue.TailTest` | JunCore/JunCommon/container/LFQueue.h:97-114 | the comparison of copies is exact while the copied head is current, and when it fails the tail was ahead |
| `LockFreeQueue.GateOrder` | JunCore/JunCommon/container/LFQueue.h:72-94 | dequeued <= past the gate <= counted <= linked, so a call past the gate has an item behind the head |
| `LockFreeQueue.RefusedExactlyWhen` | JunCore/JunCommon/container/LFQueue.h:91-94 | `Dequeue` is refused exactly when the unclaimed counted items are no more than the calls just then being refused |
| `LockFreeQueue.SingleConsumerRefusal` | JunCore/JunCommon/container/LFQueue.h:91-94 | with one consumer a refusal means that every counted item was taken |
| `ReusedTailNode.ReuseReordersCalls` | JunCore/JunCommon/container/LFQueue.h:66-79 | a run within the stamp bound in which a thread's `Enqueue` of 10 returns before it calls `Enqueue` of 40, all calls return, and the queue holds 40, 30, 10 |
| `JobScheduler.StepInv` | JunCore/JunCore/logic/JobObject.cpp:30-103 | every step keeps token, entries, place, order, count, wakeup and ending of every object |
| `JobScheduler.RunInv` | JunCore/JunCore/logic/JobThread.cpp:45-57 | so does every run with any number of objects, job threads and callers |
| `JobScheduler.SchedulingToken` | JunCore/JunCore/logic/JobObject.cpp:40-45 | entries in all thread queues, drainers and callers about to append number 1 if the flag is set and 0 otherwise |
| `JobScheduler.OneRunner` | JunCore/JunCore/logic/JobObject.cpp:64-102 | no two threads run jobs of one object at once |
| `JobScheduler.NoLostWakeup` | JunCore/JunCore/logic/JobObject.cpp:92-102 | counted jobs with the flag down have a poster before its exchange or a flusher before the end of its re-check |
| `JobScheduler.WaitingWhenQuiet` | JunCore/JunCore/logic/JobObject.cpp:30-48 | with no call about it, a non-empty object waits exactly once in the queue of the thread it names |
| `JobScheduler.OrderAcrossMigration` | JunCore/JunCore/logic/JobObject.cpp:71-90 | jobs start at most once, in the order posted, on the thread the object names then; started, in hand and queued are the history |
| `JobScheduler.NothingAfterMark` | JunCore/JunCore/logic/JobObject.cpp:66-81 | after the mark no job starts, the flag stays set and the object is in no thread queue |
| `JobScheduler.DeletionsAreFlushes` | JunCore/JunCore/logic/JobThread.cpp:48-56 | from the mark on, deletions plus threads in a flush of the object stay the same number, whether it changed thread or not |
| `JobScheduler.DeletedOnceExactlyWhen` | JunCore/JunCore/logic/JobThread.cpp:48-56 | when no flush of it is left, a marked object was deleted at least once, and once if and only if exactly one thread was in a flush of it when it was marked |
| `JobScheduler.DeletedOnce` | JunCore/JunCore/logic/JobThread.cpp:48-56 | an object that never changed thread is deleted at most once, and has been once it is marked and no flush of it is left |
| `JobCalls.PostsAreFulfilled` | JunCore/JunCore/logic/JobObject.cpp:30-48 | every `PostJob` that has returned true appended exactly its job; one that returned false appended nothing and had found the object marked |
| `JobCalls.JobsComeFromPosts` | JunCore/JunCore/logic/JobObject.cpp:30-48 | an object's history grows only by the job that the stepping caller was asked to post to it |
| `JobCalls.JobsAreObeyed` | JunCore/JunCore/logic/JobObject.cpp:50-62 | an object names the thread its jobs last set, and is marked exactly when one of them marked it |
| `JobSights.NothingPostedAfterMark` | JunCore/JunCore/logic/JobObject.cpp:30-36 | a `PostJob` made after the mark appends nothing |
| `JobSights.LetsGoWhenEmpty` | JunCore/JunCore/logic/JobObject.cpp:73-92 | the flag is put down only by a thread that has seen nothing left to take since the last job it started |
| `JobSights.RaisedForAJob` | JunCore/JunCore/logic/JobObject.cpp:94-102 | a thread raises the flag again only after it has seen counted jobs since it put it down |
| `JobProgress.WaitFree` | JunCore/JunCore/logic/JobObject.cpp:30-103 | whatever others do, a `PostJob` takes at most six steps, and a thread serving an object at most twelve between two jobs or to the end |
| `DoubleDelete.MovedObjectDeletedTwice` | JunCore/JunCore/logic/JobThread.cpp:48-56 | a run in which an object that changed thread is deleted twice |
| `Scenes.EraseCount` | JunCore/JunCore/logic/GameScene.cpp:39-43 | `Exit` removes one occurrence of its object and none of any other |
| `SceneMoves.JobOk` | JunCore/JunCore/logic/GameObject.cpp:39-77 | of moves kept apart, a job enters or leaves only a scene of the object's own thread, and leaves the queued moves paired |
| `GameWorld.StepInv` | JunCore/JunCore/logic/GameObject.cpp:17-77 | every call and every job leaves objects with existing scenes, and an object that has not entered about to enter the scene it was created for |
| `Scenes.JobKeepsMembersExactlyWhen` | JunCore/JunCore/logic/GameScene.cpp:23-44 | a job keeps every object listed once by its scene and by no other if and only if, should it enter an object that has entered before, it finds it in no scene |
| `Scenes.StepMembers` | JunCore/JunCore/logic/GameScene.cpp:23-44 | no other step touches it |
| `GameWorld.StepManager` | JunCore/JunCore/logic/GameObjectManager.cpp:30-64 | every call and every job keeps serial numbers, manager jobs and table consistent |
| `GameWorld.RunInv` | JunCore/JunCore/logic/GameObjectManager.h:44-66 | objects and manager are consistent in every run |
| `Scenes.RunMembers` | JunCore/JunCore/logic/GameObject.cpp:39-77 | membership holds in every run whose entries find the object in no scene |
| `Scenes.JobKeepsHomesExactlyWhen` | JunCore/JunCore/logic/GameObject.cpp:46-66 | scenes are entered and left on their own threads, and objects name the thread of their scene, after a job if and only if, should it be an entry, the object names the scene's thread; an exit needs no condition |
| `Scenes.RunHomes` | JunCore/JunCore/logic/GameObject.cpp:46-66 | so in every run of such entries |
| `Scenes.ScenesOnTheirThreads` | JunCore/JunCore/logic/GameObject.cpp:46-66 | every `Enter` and `Exit` runs on the scene's own thread |
| `Scenes.SceneMembership` | JunCore/JunCore/logic/GameScene.cpp:23-44 | an object that has entered is listed exactly once by the scene its `m_pScene` names and by no other |
| `Scenes.DestroyedIsNowhere` | JunCore/JunCore/logic/GameObject.cpp:17-37 | in every such run a destroyed object is in no scene and no scene lists it |
| `Scenes.JobOutcome` | JunCore/JunCore/logic/GameObject.cpp:17-77 | scene by scene: an entry leaves its object listed there once and nowhere else, an exit and a `Destroy` nowhere, the first job of a move at most in the scene moved to, any other job where it was; other objects stay where they are |
| `Scenes.ListsChangeAtHome` | JunCore/JunCore/logic/GameScene.cpp:23-44 | whatever changes the list of a scene is a job running on that scene's thread |
| `SceneMoves.ApartIsAtHome` | JunCore/JunCore/logic/GameObject.cpp:46-66 | callers that do not start a move of an object while another call is between its two posts ensure the condition on threads |
| `SceneMoves.ElsewhereIsVacant` | JunCore/JunCore/logic/GameObject.cpp:46-66 | if moves also go to a different scene they ensure the condition on membership |
| `SceneMoves.MoveListsOnceExactlyWhen` | JunCore/JunCore/logic/GameObject.cpp:46-66 | after the two jobs of a move, with other jobs between and behind them, the target lists the object once, unless it was there and no `ExitScene` ran between them: then twice |
| `SceneMoves.MovesCanInterleave` | JunCore/JunCore/logic/GameObject.cpp:46-66 | two callers can post the jobs of two moves interleaved, behind any others, and finish in either order |
| `SceneMoves.InterleavedMoves` | JunCore/JunCore/logic/GameObject.cpp:46-66 | wherever the object was and in either order, these jobs leave it in both scenes, the first one's entered on the thread of the second; or, to the same scene, there twice, and three times if it was there |
| `SceneMoves.RanManyIsRun` | JunCore/JunCore/logic/GameObject.cpp:46-66 | the jobs of an object can run one after another as computed |
| `SceneMoves.InTwoScenes` | JunCore/JunCore/logic/GameObject.cpp:46-66 | a run at whose end an object is in two scenes, one of which it entered on the thread of the other |
| `GameWorld.NeverResolvesAgain` | JunCore/JunCore/logic/GameObjectManager.cpp:30-48 | once an `Unregister` has run its serial number never resolves again |
| `GameWorld.TableIsComplete` | JunCore/JunCore/logic/GameObjectManager.cpp:30-48 | with all manager jobs run, the table names exactly the objects that entered and are not marked |
| `GameWorld.ForwardedToItsOwner` | JunCore/JunCore/logic/GameObjectManager.cpp:50-64 | a serial number resolves only to the object it was generated for |
| `GameWorld.ForwardDelivers` | JunCore/JunCore/logic/GameObjectManager.cpp:50-64 | the manager's job of a `PostTo` appends the job to the queue of the unmarked object that carries the number if it resolves, and changes no other object; if it does not resolve, none |
| `WorldCalls.JobsAreThoseAsked` | JunCore/JunCore/logic/GameObject.cpp:17-77 | the jobs that an object has run and those in its queue are, in order, those that `Create`, `MoveToScene`, `ExitScene`, `Destroy`, posts and resolved messages asked of it before its mark |
| `WorldCalls.MessagesInOrder` | JunCore/JunCore/logic/GameObjectManager.cpp:50-64 | the manager handles the messages of `PostTo` in the order sent, each once and unchanged |
| `RingBuffers.RingBuffer.constructor` | JunCore/JunCommon/container/RingBuffer.h:16-29 | a new buffer is empty |
| `RingBuffers.RingBuffer.Clear` | JunCore/JunCommon/container/RingBuffer.h:76-82 | clearing empties |
| `RingBuffers.RingBuffer.DirectEnqueueSize` | JunCore/JunCommon/container/RingBuffer.h:91-94 | the direct segment lies inside the array |
| `RingBuffers.RingBuffer.RemainEnqueueSize` | JunCore/JunCommon/container/RingBuffer.h:96-99 | the remaining segment ends before `front`, and exists only if the direct one reaches the end |
| `RingBuffers.RingBuffer.DirectDequeueSize` | JunCore/JunCommon/container/RingBuffer.h:101-104 | the direct unread segment lies inside the array |
| `RingBuffers.RingBuffer.RemainDequeueSize` | JunCore/JunCommon/container/RingBuffer.h:106-109 | the remaining one exists only if the direct one reaches the end |
| `RingBuffers.RingBuffer.GetFreeSize` | JunCore/JunCommon/container/RingBuffer.h:111-113 | free plus used is 8191 |
| `RingBuffers.RingBuffer.GetUseSize` | JunCore/JunCommon/container/RingBuffer.h:114-116 | it is the number of unread bytes |
| `RingBuffers.RingBuffer.ReceiveSegments` | JunCore/JunCore/network/Session.cpp:122-127 | slot by slot, the two receive segments are all slots but the unread ones and the one at `front` |
| `RingBuffers.RingBuffer.Receive` | JunCore/JunCore/network/Session.cpp:122-132 | filling the segments in order changes no unread byte and puts the data where `MoveRear` will expose it |
| `RingBuffers.RingBuffer.MaskedMove` | JunCore/JunCommon/container/RingBuffer.h:35-40 | masking wraps an end of the unread bytes, and the position one ahead of it, into the buffer |
| `RingBuffers.RingBuffer.MoveFront` | JunCore/JunCommon/container/RingBuffer.h:39 | consumes exactly the oldest bytes |
| `RingBuffers.RingBuffer.MoveRear` | JunCore/JunCommon/container/RingBuffer.h:40 | appends exactly the bytes behind the write position |
| `RingBuffers.RingBuffer.MustEnqueue` | JunCore/JunCommon/container/RingBuffer.h:64-68 | appends the source bytes; a filled direct segment continues at the start of the array |
| `RingBuffers.RingBuffer.MustDequeue` | JunCore/JunCommon/container/RingBuffer.h:70-74 | moves the oldest bytes out, byte by byte, and touches nothing else of the destination |
| `RingBuffers.RingBuffer.Enqueue` | JunCore/JunCommon/container/RingBuffer.h:59 | appends as much of the source as fits, across the end of the array |
| `RingBuffers.RingBuffer.Dequeue` | JunCore/JunCommon/container/RingBuffer.h:60 | moves out as many of the oldest bytes as asked for and present |
| `RingBuffers.RingBuffer.Peek` | JunCore/JunCommon/container/RingBuffer.h:61 | the same without consuming |
| `Framing.U32RoundTrip` | JunCore/JunCore/protocol/UnifiedPacketHeader.h:8-14 | a 32-bit field reads back, whatever follows |
| `Framing.ParseSerialize` | JunCore/JunCore/protocol/UnifiedPacketHeader.h:61-81 | a serialized packet parses back to its id and payload, whatever follows |
| `Framing.SerializeFrames` | JunCore/JunCore/network/Session.h:135-156 | the receive loop takes exactly a serialized packet from any bytes that start with it, and waits on any proper prefix |
| `Framing.DrainPrefix` | JunCore/JunCore/network/IOCPManager.cpp:99-145 | draining a prefix of a stream yields its complete packets and leaves the rest |
| `Framing.ChunkingDoesNotMatter` | JunCore/JunCore/network/IOCPManager.cpp:90-151 | however the stream is cut into completions, exactly the packets that arrived completely are dispatched, the rest is buffered, the guard stays quiet and a byte is free |
| `Framing.PacketsArrive` | JunCore/JunCore/network/IOCPManager.cpp:90-151 | the same for what `SendPacket` writes; the whole stream delivers everything and leaves nothing |
| `Framing.GuardStaysQuiet` | JunCore/JunCore/network/IOCPManager.cpp:92-102 | fewer than 1000 packets of at least 9 bytes fit in the buffer |
| `Framing.GuardExactlyWhen` | JunCore/JunCore/network/IOCPManager.cpp:101-102 | the loop guard fires exactly when 1000 or more complete packets are buffered |
| `Framing.EmptyPackets` | JunCore/JunCore/network/IOCPManager.cpp:101-102 | 1000 packets without payload fit in the buffer and make the guard fire |
| `ByteStreams.DrainMeans` | JunCore/JunCore/network/IOCPManager.cpp:99-145 | whatever bytes follow the complete packets: these are dispatched in order, the rest stays buffered, and the loop reports a bad length exactly if the rest's length field is impossible |
| `ByteStreams.Split` | JunCore/JunCore/network/IOCPManager.cpp:99-145 | every sequence of bytes is complete packets followed by such a rest |
| `ByteStreams.SplitsOnce` | JunCore/JunCore/network/IOCPManager.cpp:99-145 | in one way only |
| `ByteStreams.BadLengthExactlyWhen` | JunCore/JunCore/network/IOCPManager.cpp:114-118 | reading ends for a bad length exactly when an impossible length follows fewer complete packets than the guard allows |
| `SessionReceive.Session.TakePacket` | JunCore/JunCore/network/IOCPManager.cpp:104-134 | one iteration on the ring buffer does to its contents what `TakeFrame` does to a byte sequence |
| `SessionReceive.Session.TakePackets` | JunCore/JunCore/network/IOCPManager.cpp:99-145 | the loop dispatches and leaves what `Drain` says of the contents, the guard included |
| `SessionReceive.Session.HandleRecvComplete` | JunCore/JunCore/network/IOCPManager.cpp:90-151 | the whole handler dispatches and leaves what `Drain` says of the old contents followed by the received bytes, and posts another receive exactly when it needs more and no disconnect is pending |
| `SessionReceive.Session.ReceiveChunk` | JunCore/JunCore/network/IOCPManager.cpp:90-151 | a receive into the two segments and its completion do to the buffer what they do to a byte sequence |
| `SessionReceive.Session.ReceiveChunks` | JunCore/JunCore/network/IOCPManager.cpp:90-151 | so does a whole connection, until a completion posts no further receive |
| `SessionReceive.Session.ReceivePackets` | JunCore/JunCore/network/IOCPManager.cpp:90-151 | however the stream of packets is cut, through the ring buffer exactly the packets that arrived completely are dispatched, reading goes on and a byte is free |
| `SessionSend.StepInv` | JunCore/JunCore/network/Session.h:158-184 | every step keeps flag, batch, order, count and wakeup consistent |
| `SessionSend.RunInv` | JunCore/JunCore/network/Session.cpp:61-110 | so does every run with any number of callers and completion workers |
| `SessionSend.OneSendAtATime` | JunCore/JunCore/network/Session.h:166-184 | at most one send is being prepared, in flight or being completed, and then the flag is set |
| `SessionSend.SendOrder` | JunCore/JunCore/network/IOCPManager.cpp:153-187 | batches have 1 to 200 packets; sent, prepared and queued packets are the enqueue order; each packet is freed once, in order, after its batch was sent |
| `SessionSend.NothingLeftBehind` | JunCore/JunCore/network/IOCPManager.cpp:178-186 | with no call in progress a non-empty queue implies a send in flight or a pending disconnect |
| `SendCalls.CallsAreFulfilled` | JunCore/JunCore/network/Session.h:127-164 | every `SendPacket` that has returned queued exactly its packet, or nothing after it found a disconnect pending; no other call queues anything |
| `SendCalls.DisconnectedForAReason` | JunCore/JunCore/network/Session.cpp:66-72 | a disconnect is pending only if the application asked for it or a sender found more than 200 packets |
| `SendCalls.DisconnectStays` | JunCore/JunCore/network/Session.cpp:66-72 | a `Disconnect` that has returned leaves it pending |
| `SendCalls.SizeDecides` | JunCore/JunCore/network/Session.cpp:66-110 | a sender that found 1 to 200 packets while it held the flag posts exactly one batch, full or leaving the queue counted empty; with more it posts none |
| `SendCalls.AlwaysInFlight` | JunCore/JunCore/network/Session.h:166-184 | with neither reason for a disconnect and no call in progress, a non-empty queue has a send in flight |
| `SendSights.NothingAfterDisconnect` | JunCore/JunCore/network/Session.h:130-133 | a call made while a disconnect is pending queues no packet and posts no batch, completions included |
| `SendSights.LetsGoWhenEmpty` | JunCore/JunCore/network/Session.h:171-177 | whoever raised the flag puts it down again only after it has seen the queue empty |
| `SendSights.NothingAfterOverflow` | JunCore/JunCore/network/Session.cpp:66-72 | once a sender gives the session up, no batch is ever posted again |
| `SendProgress.Returns` | JunCore/JunCore/network/Session.h:166-184 | a call returns after a bounded number of its own steps as long as no other call changes the count or the batch |
| `LoggerRing.StepInv` | JunCore/JunCore/log.cpp:168-266 | every producer and consumer step keeps indices, slots and writers consistent |
| `LoggerRing.RunInv` | JunCore/JunCore/log.cpp:168-266 | so does every run with any number of producers in which a claim finds room |
| `LoggerRing.ClaimInOrderExactlyWhen` | JunCore/JunCore/log.cpp:184-188 | a producer step keeps the ring in order if and only if, should it claim, fewer than 4095 messages are unread |
| `LoggerRing.BoundedRunIsRun` | JunCore/JunCore/log.cpp:172-188 | the full test ensures it in every run with fewer than 2^32 claims during one call |
| `LoggerRing.WrapKeepsPosition` | JunCore/JunCore/log.cpp:176-188 | the 32-bit wrap of an index does not disturb its ring position |
| `LoggerRing.ClaimOrder` | JunCore/JunCore/log.cpp:168-212 | processed messages are a prefix of the claim order, and at most 4095 claims are unread, through any number of wraps |
| `LoggerRing.ReadsWhatWasWritten` | JunCore/JunCore/log.cpp:245-254 | the message processed is the complete message of the oldest unread claim, in a slot no producer is writing |
| `LoggerRing.WritesOnlyItsOwnSlot` | JunCore/JunCore/log.cpp:185-208 | a producer writes no unread slot and no slot of another producer |
| `LoggerRing.NothingHalfWritten` | JunCore/JunCore/log.cpp:185-209 | with no call in progress every claimed message is processed or complete in its slot |
| `LoggerRing.DropExactlyWhen` | JunCore/JunCore/log.cpp:172-182 | a producer step loses a message, its own, exactly when it finds the ring looking full: while the consumer has not passed the copied write index, exactly when the ring is full; with room left, exactly when the consumer has passed it by a whole number of laps and one |
| `LoggerRing.ConsumerGetsOn` | JunCore/JunCore/log.cpp:237-266 | if the oldest unread message is published, the consumer's next five steps process it, free its slot and move on |
| `LoggerCalls.CallsAreFulfilled` | JunCore/JunCore/log.cpp:168-212 | every `LogAsync` that has returned claimed a place for exactly its message, or dropped it; never both, never neither |
| `LoggerCalls.NothingVanishes` | JunCore/JunCore/log.cpp:168-212 | message by message, those handed in are those claimed, those dropped and those of calls that have done neither yet |
| `LoggerProgress.LockFree` | JunCore/JunCore/log.cpp:168-212 | from any state, a call takes at most seven steps of its own before it returns or another producer's claim succeeds, unless its exchange fails spuriously |
| `StaleDrop.DroppedWhenEmpty` | JunCore/JunCore/log.cpp:172-182 | a run that drops a message although the ring is empty |
| `OnceInit.StepInv` | JunCore/JunCommon/synchronization/OnceInitializer.h:39-123 | every undisturbed step keeps state, reference count and program points consistent |
| `OnceInit.RunInv` | JunCore/JunCommon/synchronization/OnceInitializer.h:39-123 | so does every undisturbed run |
| `OnceInit.RunsOnce` | JunCore/JunCommon/synchronization/OnceInitializer.h:57-85 | `init_func` runs at most once between resets and never in two calls at the same time |
| `OnceInit.HoldersAreSafe` | JunCore/JunCommon/synchronization/OnceInitializer.h:41-106 | whoever was told true holds a successfully initialized resource, and the reference count is holders plus calls in progress |
| `OnceInit.CleansAlone` | JunCore/JunCommon/synchronization/OnceInitializer.h:111-123 | cleanup runs with no holder and no waiter left; calls already counted have not looked at the state |
| `OnceInit.RefusedAfterFailure` | JunCore/JunCommon/synchronization/OnceInitializer.h:50-106 | `Initialize` returns false only after `init_func` ran and failed, and then for good |
| `OnceInit.SettledIsTold` | JunCore/JunCommon/synchronization/OnceInitializer.h:41-106 | a call that loads the state once the outcome is settled returns on that load, with that outcome |
| `OnceInit.AtRest` | JunCore/JunCommon/synchronization/OnceInitializer.h:39-123 | with no call in progress the resource is initialized exactly if somebody holds it, and every success but the one in use was followed by one cleanup |
| `OnceInit.LoadInOrderExactlyWhen` | JunCore/JunCommon/synchronization/OnceInitializer.h:41-49 | a first load of the state keeps the protocol in order if and only if no last cleanup is before its reset; otherwise its call is told true while the resource is cleaned up |
| `OnceInit.DisturbedCleanup` | JunCore/JunCommon/synchronization/OnceInitializer.h:111-123 | without the hypothesis, a run in which a call holds a resource that was cleaned up |
| `TimeWindow.TimeWindowCounter.constructor` | JunCore/JunCommon/timer/SlidingWindowCounter.h:37 | a new counter stands for an empty log |
| `TimeWindow.TimeWindowCounter.AdvanceTimeWindow` | JunCore/JunCommon/timer/SlidingWindowCounter.h:72-85 | across gaps of any length the slots stay the per-second sums of the log |
| `TimeWindow.TimeWindowCounter.Record` | JunCore/JunCommon/timer/SlidingWindowCounter.h:39-43 | recording appends one entry to the log, in the current virtual second |
| `TimeWindow.TimeWindowCounter.Total` | JunCore/JunCommon/timer/SlidingWindowCounter.h:61-66 | the loop adds up the last n virtual seconds of the log |
| `TimeWindow.TimeWindowCounter.GetAverage` | JunCore/JunCommon/timer/SlidingWindowCounter.h:45-69 | the average is the sum of the log over the last `seconds` virtual seconds divided by `seconds`; 0 outside 1 to 60 |
| `TimeWindow.TimeWindowCounter.RecentIsCounted` | JunCore/JunCommon/timer/SlidingWindowCounter.h:72-92 | every entry of the last `seconds - 1` real seconds lies in the window, although each advance discards the part of a second |
| `TimeWindow.TimeWindowCounter.RecentSumIsCounted` | JunCore/JunCommon/timer/SlidingWindowCounter.h:45-69 | so the sum behind the average is at least that of those entries |

## Left out

- Update in place by concurrent code: the concurrent machines are states and steps on values, not objects in a heap; addresses are numbers and memory is a map.
- Weak memory, `volatile` and alignment: sequential consistency is assumed throughout.
- 32-bit overflow of the counters (`nodeCount`, `capacity__`, `use_count_`, `reference_count_`) and 64-bit overflow of `m_nextSN`.
- Constructors and destructors of pooled objects, guard patterns, integrity checks and the exceptions they throw; destructors of the containers.
- A client of a pool that frees an object twice or uses it after freeing it.
- ObjectPool.AtRest: speaks of states with no call in progress, because the counters are updated apart from the exchange.
- LockFreeQueue.RunInv: assumes that no link wins on a node that another call holds privately, because the code does not ensure it; `LockFreeQueue.LinkInOrderExactlyWhen` says when links keep memory in link order, and `ReusedTailNode.ReuseReordersCalls` is a run without it.
- LockFreeQueue.StampsInLockstep: does not bound how far the tail trails; `QueueTail.TrailsExactlyWhen` says when it trails by at most one.
- ChunkPool.StepInv: takes the chunk pool as an allocator that hands out what nobody owns, which is `ObjectPool.UniqueOwnership`; threads that exit with a chunk of their own are not modelled.
- JobScheduler.DeletedOnce: is about objects that never changed thread; `JobScheduler.DeletedOnceExactlyWhen` is about all.
- JobScheduler.RunInv: `MarkForDelete` and `SetJobThread` are called by the object's own jobs; calls that still hold a pointer to a deleted object are steps that the model lets happen and claims nothing about.
- `JobThread::Run`, its sleep and its shutdown; null job threads and the exceptions for them.
- GameWorld.RunInv: jobs are whole steps, which is what `JobScheduler` establishes until an object is deleted; the callbacks `OnEnter`, `OnExit` and `OnBeforeDestroy`, `Update` and `FixedUpdate` are not modelled, nor scenes that are destroyed, and scene lists are sequences in the world's state rather than fields of scene objects.
- Scenes.RunMembers: assumes that an object enters a scene only while it is in none, the exact condition of `Scenes.JobKeepsMembersExactlyWhen`; `SceneMoves.InTwoScenes` is a run without it.
- Scenes.RunHomes: assumes that an object enters a scene only while it names its thread, the exact condition of `Scenes.JobKeepsHomesExactlyWhen`.
- SessionReceive.Session.HandleRecvComplete: a session always has an engine; the path for a session without one is not modelled.
- Framing.PacketsArrive: packets have 1 to 8183 payload bytes; longer packets than the buffer never become complete, and `Framing.GuardExactlyWhen` covers empty ones.
- Protobuf payloads are opaque bytes and packet ids are given; the handler lookup of `ProcessUnifiedPacket` is not modelled.
- SessionSend.RunInv: every posted send completes with a non-zero size; failed sends, zero-byte completions, closed sockets and the release of a session are not modelled, nor is a packet whose serialization fails.
- Winsock, completion ports, accept and connect, encryption, the handshake, timers, profilers, crash dumps and the sample applications.
- Logging text, levels, files and the synchronous policy; the consumer's batches of 100 and its sleep.
- Termination of calls that wait: an `Initialize` that waits for another one, and a consumer that waits for a producer, have no bound on their steps; `...Progress` modules cover the other calls.
- OnceInit.RunInv: assumes that no `Initialize` first loads the state between a last `Cleanup`'s decrement and its reset, the exact condition of `OnceInit.LoadInOrderExactlyWhen`; wait policies and notifications are not modelled.
- TimeWindow.TimeWindowCounter.GetAverage: sums and the elapsed seconds are unbounded integers and the average is a real number, so 64-bit sums, the cast of the elapsed time to `int` and rounding are not captured; a reader and a writer at the same time are not either.
- Stamps.NextWordFields: is about 64-bit vectors and `Stamps.PackBump` about numbers; that a vector and its number agree is not proved.
