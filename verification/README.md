# Verification of UtiltyFramework's concurrent core

UtiltyFramework is an in-process publish/subscribe runtime: tables of rows whose
writes are delivered to subscribers on dispatcher threads.  This project models the
machinery under that promise, and four algorithms above it, in Dafny, and proves
what each keeps over whole runs.

| file | what it models |
|---|---|
| `ActionQueue.dfy`, `QueueProgress.dfy` | the worker, queue, suspension and disposal of `simple_context`, step by step, and what can always be finished |
| `Timers.dfy` | its interval timers: choosing a round, restamping it, joining and leaving |
| `Dispatcher.dfy`, `DispatcherRuns.dfy`, `TimerService.dfy` | queue and timers driven by one worker; barriers, deadlines, and which clients are called how often |
| `SimpleContext.dfy` | the context as an object, its critical sections proved against the machine |
| `ObjectPool.dfy`, `PoolReferences.dfy`, `BufferAllocator.dfy` | the reference-counting pool and the allocator made of such pools |
| `Delivery.dfy`, `DeliverySteps.dfy`, `DeliveryRuns.dfy`, `DeliveryEffects.dfy`, `DeliveryProgress.dfy`, `DeliveryOnQueue.dfy` | one subscription end to end: payload pool, action pool, line, user function; and the same on the real queue |
| `RefCountPtr.dfy`, `DisposablePtr.dfy`, `ObserverRuns.dfy` | owning pointers, and weak observers racing with destruction |
| `CallbackHandlers.dfy`, `TableCallbacks.dfy`, `TableMembers.dfy`, `Subscriptions.dfy`, `RowLifetimes.dfy` | callback vectors, table-wide data callbacks and table members, per-row subscriptions |
| `EchoFlow.dfy`, `Replication.dfy`, `ReplicationLoops.dfy`, `RemoteAgent.dfy`, `RemoteAgentRuns.dfy` | two agents that replicate rows and echo each other's changes, and when one may say that it is in sync |
| `SchemaBuild.dfy` | building struct metadata in dependency order |
| `XmlStore.dfy`, `XmlNesting.dfy`, `XmlLayers.dfy`, `XmlLoads.dfy` | loading an XML tree into a buffer, writing it back, its nesting limit, layered files, and which of them load |
| `StateMachine.dfy`, `StateRuns.dfy` | transitions, chained entry, pause and resume, and where runs end |
| `Options.dfy` | a value that may be absent |

Concurrent code is a machine whose steps are single critical sections or atomic
accesses; a run is any sequence of enabled steps, so a theorem about runs covers
every interleaving; where a search under one mutex races with releases that need none,
each look is a step.  Code that works on its own fields is a class whose methods are
proved against the machine's step, or against a function with theorems of its own.
Safety theorems speak of every run; progress theorems give, from every state of every run,
the steps by which the parties named can finish what is left to do.
Fields named as bookkeeping in the comments record history; no decision of the
modelled code depends on them.

Where the code falls short of what one would expect, the model keeps the code as it
is, a lemma gives the failing case, and the exact condition is proved:

* Rounds of timers are filtered through positions that earlier erasures have shifted.
  This is right if and only if at most one timer was removed
  (`Timers.EraseRightIffAtMostOne`); with two, a live timer is skipped
  (`DispatcherRuns.LiveTimerSkippedIffTwoRemoved`, `DispatcherRuns.ThirdTimerSkipped`).
* References are released while a pool searches, so a lazy pool may create one object
  more than were ever outstanding at once, if and only if it can have two slots
  (`ObjectPool.AlwaysWithinPeakIffOneSlot`, `ObjectPool.CreatesWithinPeakIffNoneReleased`).
* A failed lock of a weak pointer keeps the reference it added.  Every interleaving is
  safe if and only if an object has at most one observer
  (`DisposablePtr.SafeIffAtMostOne`).
* Unregistering a timer is a barrier in every continuation if and only if, at the removal,
  the client is not running or the context has been disposed
  (`DispatcherRuns.BarrierIffNotRunning`).  What breaks it is a dispose from inside
  (`DispatcherRuns.InsideDisposeBreaksBarrier`).  `dispose` is reached only from the destructor
  (`Include/utils/dispatcher.hpp:904-907`) and from moving a context
  (`Include/utils/dispatcher.hpp:495-497`), so it takes a thread that is inside
  `unregister_timer` without holding a counted reference; for callers that hold one the
  removal is always a barrier (`DispatcherRuns.BarrierWhileHeld`).
* Unsubscribing a table-wide callback leaves it listed, so subscribing again is lost on
  the rows there are, and new rows get it regardless
  (`TableCallbacks.RightIffBornOnTheRightSide`).
* Unsubscribing the last client of a row that is being destroyed throws
  (`Subscriptions.TokensAreExact`, `Subscriptions.LateUnsubscribeThrows`).
* Replicas that start apart stay apart until a message is issued, and a write of the value
  a replica holds issues none (`Replication.ReplicasAgree`,
  `Replication.UnreportedWriteLeavesApart`).
* A write made, or a registration request answered, while another value is under way may set
  off messages without end.  Exactly when is `ReplicationLoops.EndlessIffLoops`, with
  `ReplicationLoops.WriteEndlessIff` and `ReplicationLoops.ReplayEndlessIff`; three ways to get there
  never settle (`ReplicationLoops.CrossedWritesNeverSettle` and the two after it).
* The answer to a registration request carries the row padded to its capacity, so it changes
  a replica that agrees: it costs one message if and only if the value stored has full size,
  otherwise three (`ReplicationLoops.OneMessageIffFullSize`,
  `ReplicationLoops.UnwrittenRowCostsThree`).
* Building structs ends if and only if no structs contain each other in a cycle
  (`SchemaBuild.TerminatesIffAcyclic`).
* The XML nesting limit bounds chains of first children only, because the counter
  restarts after each child: trees of any depth load (`XmlNesting.AnyDepthLoads`,
  `XmlNesting.FailsIffTooDeep`).

Where the code and its own text disagree, the model follows the code:

* The weak pointer's comment says that clearing after a failed lock keeps other threads
  from being handed a dangling pointer.  It does so for threads that use the same
  observer only; the model follows the code.
* A state takes 32 transitions although its array has room for 500.

## Model

| member | source | states |
|---|---|---|
| ActionQueue.StepKeepsInv | Include/utils/dispatcher.hpp:597-668 | Every step of the worker, of an adding thread and of both kinds of dispose keeps the books: each accepted action is in exactly one place (invoked, cancelled, batch, queue), in order of acceptance |
| ActionQueue.InvokedInOrder | Include/utils/dispatcher.hpp:636-663 | In every run the invoked actions are a prefix of the accepted ones: first in, first out, each once |
| ActionQueue.AcceptedSplits | Include/utils/dispatcher.hpp:620-663 | Before any cancelling, accepted actions are those invoked, then the batch, then the queue |
| ActionQueue.DisposedHandlesEachOnce | Include/utils/dispatcher.hpp:829-876 | After dispose, from outside or from the worker itself, each accepted action was invoked or cancelled, exactly once in all |
| ActionQueue.OutsideDisposeRunsEverything | Include/utils/dispatcher.hpp:850-874 | Disposing a non-suspendable context from another thread cancels nothing: all accepted actions are invoked |
| ActionQueue.SuspendedDisposeCancels | Include/utils/dispatcher.hpp:591-594 | A suspended context may still cancel on dispose: a complete run that does |
| ActionQueue.SyncIsBarrier | Include/utils/dispatcher.hpp:1005-1009 | When the empty action of a sync has been invoked, every action accepted before it has been invoked and has returned |
| ActionQueue.HistoryOnlyGrows | Include/utils/dispatcher.hpp:651-663 | What was handled one way is never handled again or otherwise in the rest of the run |
| QueueProgress.AcceptedByHistory | Include/utils/dispatcher.hpp:753-765 | In every run the accepted actions are those that were added, in the order of their adding |
| QueueProgress.SuspensionHoldsBack | Include/utils/dispatcher.hpp:620-628 | From a suspension until a resumption no action that is queued then or accepted later is invoked |
| QueueProgress.EverythingCanRun | Include/utils/dispatcher.hpp:645-657 | From every state of every run of a context neither suspended nor disposed, the worker alone can invoke everything accepted so far |
| QueueProgress.ResumingLetsRun | Include/utils/dispatcher.hpp:962-971 | Resuming ends a suspension: the worker alone can then invoke everything accepted so far |
| QueueProgress.DisposalCanFinish | Include/utils/dispatcher.hpp:829-876 | From every state of every run in which somebody has begun to dispose the context, worker and disposer can finish, every action having been invoked or cancelled |
| Timers.GetNextTimers | Include/utils/dispatcher.hpp:670-720 | The loop with a running minimum returns exactly the non-empty timers whose remaining time is least, in order, and that least time; all overdue ones if any is overdue |
| Timers.DueExactly | Include/utils/dispatcher.hpp:423-452 | A timer is in the round exactly when its slot's remaining time is the chosen one |
| Timers.OverdueGoFirst | Include/utils/dispatcher.hpp:690-714 | If anything is overdue the round is exactly the overdue timers, at once; otherwise exactly those due first, when they are due |
| Timers.CheckTimers | Include/utils/dispatcher.hpp:722-751 | Restamps the slot of every timer of the round with the deadline and erases at the positions recorded before any erasure |
| Timers.EraseRightIffAtMostOne | Include/utils/dispatcher.hpp:745-748 | Erasing through the recorded positions leaves exactly the surviving timers if and only if at most one timer of the round was removed |
| Timers.SecondIsKept | Include/utils/dispatcher.hpp:741-748 | With two removed timers the second one, which has no clients, stays in the round |
| Timers.SkippedIffTwoRemoved | Include/utils/dispatcher.hpp:745-748 | As long as the erasures stay inside the vector, a timer that is still registered is taken out of the round if and only if at least two others were removed |
| Dispatcher.StepKeepsInv | Include/utils/dispatcher.hpp:597-668 | Every step of worker, timers and clients keeps slots, owners, counts, snapshots and reference times consistent |
| Dispatcher.FireKeepsSpaced | Include/utils/dispatcher.hpp:729-735 | A restamped timer moves on by at least its interval |
| Dispatcher.ExpireHolds | Include/utils/dispatcher.hpp:465-471 | An expired client leaves the timer it was run for, and no other client of any timer changes |
| Dispatcher.RegisterKeeps | Include/utils/dispatcher.hpp:767-799 | Joining keeps each client in one timer only, once, and each timer in one slot |
| Dispatcher.TakeOutHolds | Include/utils/dispatcher.hpp:412-421 | Removal takes the client out of whichever timer has it, and no other client of any timer changes |
| Dispatcher.UnregisterKeepsSlots | Include/utils/dispatcher.hpp:801-819 | With the slot of a timer left without clients dropped, every timer with clients still has its one slot |
| DispatcherRuns.QueueReachable | Include/utils/dispatcher.hpp:640-661 | Seen from the queue, a run of the whole context is a run of the action queue, so the theorems about the queue hold there |
| DispatcherRuns.DeadlinesSpaced | Include/utils/dispatcher.hpp:423-452 | In every run successive reference times of one timer are at least its interval apart |
| DispatcherRuns.PunctualRound | Include/utils/dispatcher.hpp:608-635 | A round the worker waited for moves each of its timers on by exactly its interval |
| DispatcherRuns.RoundRunsSurvivors | Include/utils/dispatcher.hpp:722-751 | If at most one chosen timer was removed during the wait, the round runs exactly the others |
| DispatcherRuns.LiveTimerSkippedIffTwoRemoved | Include/utils/dispatcher.hpp:722-751 | In every run, a registered timer of the round is given a new reference time and yet not run, if and only if at least two others were removed during the wait (the erasures staying inside the vector) |
| DispatcherRuns.ThirdTimerSkipped | Include/utils/dispatcher.hpp:722-751 | A run in which two of three due clients leave while the worker waits with nothing to wake it, and the third is given a new reference time and not run |
| DispatcherRuns.CountedClientStops | Include/utils/dispatcher.hpp:349-361 | A client registered for n calls is called at most n times over the whole run, and is in no snapshot or timer after its n-th call |
| DispatcherRuns.JoiningTouchesNoOther | Include/utils/dispatcher.hpp:767-799 | Joining a shared timer changes no other client's registration or count |
| DispatcherRuns.LeavingTouchesNoOther | Include/utils/dispatcher.hpp:801-819 | Leaving a shared timer changes no other client's registration or count |
| DispatcherRuns.UnregisterIsBarrier | Include/utils/dispatcher.hpp:801-827 | When the sync behind a removal has returned, its action invoked or cancelled, and the context was not disposed from inside, the client is not running and is never called again in any continuation |
| DispatcherRuns.BarrierIffNotRunning | Include/utils/dispatcher.hpp:801-827 | The client is gone in every continuation in which the sync returns, if and only if at the removal it is not running or the context has been disposed |
| DispatcherRuns.BarrierWhileHeld | Include/utils/dispatcher.hpp:801-827 | In a continuation without a dispose from inside, as every one is in which the removing thread holds a counted reference to the context and nobody moves it, a removal is a barrier always, client running or not |
| DispatcherRuns.InsideDisposeBreaksBarrier | Include/utils/dispatcher.hpp:853-860 | A client that is running when it is removed may dispose the context, by letting go of the last counted reference to it while the removing thread holds none: the sync is cancelled while that client still runs |
| DispatcherRuns.SomeClientRuns | Include/utils/dispatcher.hpp:454-472 | A shortest run that registers a client and serves it |
| TimerService.JoiningIsEffective | Include/utils/dispatcher.hpp:767-799 | A new client is a client of exactly one timer, which has its interval and a slot with its reference time; it has all its calls to come; a counted client has that timer to itself, and a shared timer is one that was there with clients |
| TimerService.ChoosesDueFirst | Include/utils/dispatcher.hpp:670-720 | In terms of reference times: a timer is in the round if and only if it has clients and none that has is due before it; the round is empty only when no timer has clients, and the wait lasts until those chosen are due |
| TimerService.WorkerChooses | Include/utils/dispatcher.hpp:600-618 | So chooses the worker unless it is suspended; then it chooses none |
| TimerService.CallsAreStarts | Include/utils/dispatcher.hpp:454-472 | In every run a client has been called as often as its timer was started while the client belonged to it, but for a call it still awaits in the snapshot being worked through |
| TimerService.RoundIsServed | Include/utils/dispatcher.hpp:640-649 | From every state of every run in which a round is about to begin with none of its timers removed, the worker alone can go through it, calling every client of its timers once and no other, each timer having the deadline as its new reference time |
| SimpleContextObject.SimpleContext.AddAction | Include/utils/dispatcher.hpp:753-765 | Appends the action, or refuses once disposed |
| SimpleContextObject.SimpleContext.AddTimer | Include/utils/dispatcher.hpp:767-799 | Changes the timer table as a registration does; the client now belongs to its timer and to no other |
| SimpleContextObject.SimpleContext.RemoveTimer | Include/utils/dispatcher.hpp:801-821 | Changes the timer table as an unregistration does, and reports whether some timer had the client |
| SimpleContextObject.SimpleContext.ChooseTimers | Include/utils/dispatcher.hpp:670-720 | Drops empty timers and picks the next round, its wait and its deadline |
| SimpleContextObject.SimpleContext.SwapBatch | Include/utils/dispatcher.hpp:620-638 | The critical section after the wait, suspended or not, with a timer round or without: swaps queue and batch, checks the round, reads the stop flag; undefined exactly when an erasure runs off the end |
| SimpleContextObject.SwappedIsTheStep | Include/utils/dispatcher.hpp:620-634 | What that section does to the timers is what the machine's step does |
| SimpleContextObject.SimpleContext.CancelQueue | Include/utils/dispatcher.hpp:867-873 | Cancels everything still queued, in order |
| SimpleContextObject.DropClient | Include/utils/dispatcher.hpp:807-819 | The erase-remove pass over the timers takes the client out of all of them and keeps the other slots in order |
| ObjectPool.StepKeepsInv | Include/utils/ref_count_object_pool.hpp:35-54 | Looks, copies and releases in any order keep what a search relies on: slots passed have items, whatever is taken now was taken when the scan began, and slots grown by stay empty until looked at |
| ObjectPool.NeverTwice | Include/utils/ref_count_object_pool.hpp:37-39 | The circular search looks at no slot twice |
| ObjectPool.EveryOne | Include/utils/ref_count_object_pool.hpp:37-39 | The circular search looks at every slot |
| ObjectPool.HandsOutOnlySpare | Include/utils/ref_count_object_pool.hpp:43-49 | Whatever references come and go between the looks, an item handed out is referred to by nobody but the pool at that moment, and no other slot changes |
| ObjectPool.DoublingFailsIffEmpty | Include/utils/ref_count_object_pool.hpp:149-156 | A doubling pool throws if and only if it has no slots, whatever references come and go |
| ObjectPool.MayFailIffAllTaken | Include/utils/ref_count_object_pool.hpp:35-54 | A search may come to nothing if and only if every item is outstanding when it begins |
| ObjectPool.LazyCreatesPeakAndOne | Include/utils/ref_count_object_pool.hpp:39-41 | In every run of a lazy pool, searches interleaved with releases, the objects created exceed the largest number outstanding at once by one at most |
| ObjectPool.CreatesWithinPeakIffNoneReleased | Include/utils/ref_count_object_pool.hpp:39-41 | A look that creates an object keeps the number created within that peak if and only if nobody has let go of an item the search has passed |
| ObjectPool.PassedThenReleased | Include/utils/ref_count_object_pool.hpp:39-51 | A run in which a passed item is let go, so that the next look creates one too many |
| ObjectPool.AlwaysWithinPeakIffOneSlot | Include/utils/ref_count_object_pool.hpp:39-51 | The objects created stay within the peak in every run if and only if the pool has at most one slot and cannot grow |
| ObjectPool.RunKeepsInv | Include/utils/ref_count_object_pool.hpp:146-147 | A pool that does not grow keeps its number of slots in every run |
| ObjectPool.SearchedRuns | Include/utils/ref_count_object_pool.hpp:35-54 | What the scanning loop computes, given what holders do before each look, is what some run of looks and changes of references leads to |
| ObjectPool.RefCountObjectPool.QueryItem | Include/utils/ref_count_object_pool.hpp:35-54 | The scanning loop, with the items' references changing before each look |
| ObjectPool.RefCountObjectPool.GetItem | Include/utils/ref_count_object_pool.hpp:136-159 | Search, doubling and second search, references changing meanwhile; throws if and only if a doubling pool is empty |
| PoolReferences.ReferencesBalance | Include/utils/ref_count_object_pool.hpp:35-54 | In every run the references counted for an item are those there were, and those handed out and copied since, without those given back |
| PoolReferences.SpareIffAllGivenBack | Include/utils/ref_count_object_pool.hpp:43-49 | In a pool nobody held anything of at first, an item is spare if and only if as many references to it were given back as were handed out and copied |
| PoolReferences.HandedOutIsLookedAtLast | Include/utils/ref_count_object_pool.hpp:37-45 | A pool that is not lazy looks, in its next search, at the item it has handed out last of all |
| PoolReferences.SearchEnds | Include/utils/ref_count_object_pool.hpp:136-159 | A search nobody interferes with ends: with an item if and only if one is spare or a pool with slots can grow; otherwise with nothing, or for a doubling pool with an exception |
| BufferAllocator.WithinByteLimit | Include/utils/buffer_allocator.hpp:264-298 | In every run, and for every buffer size, the buffers created fit the byte limit |
| BufferAllocator.RequestMayFailIffAllHeld | Include/utils/buffer_allocator.hpp:273-292 | A request may come to nothing if and only if every buffer the limit allows is held when it begins |
| BufferAllocator.NobodyHoldsNew | Include/utils/buffer_allocator.hpp:277-284 | Of a size asked for the first time there are as many buffers as fit the limit, and nobody holds any |
| BufferAllocator.BufferAllocatorObject.Request | Include/utils/buffer_allocator.hpp:264-298 | Hands out a buffer nobody else refers to, or nothing, and then all the limit allows were held; of a new size it hands one out if and only if one fits the limit. The operation on the map of pools, while buffers are released; size 0 divides by zero before it is refused |
| DeliverySteps.StepKeepsInv | Include/utils/database.hpp:1734-1748 | Every step of producer, worker and pools keeps counts equal to references, payloads and actions linked one to one, and the line in order |
| DeliverySteps.RaiseTakesUnused | Include/utils/database.hpp:1736-1738 | The payload taken for an update is carried by no action |
| DeliverySteps.SetDataStorage | Include/utils/database.hpp:1634-1646 | Arming an action releases the payload a cancelled delivery left with it and counts the new one |
| DeliveryEffects.EndLetsGo | Include/utils/database.hpp:1615-1619 | When the function has returned its action carries no payload; that payload has one reference less, and can be handed out again unless the producer holds it; no other payload or action changes |
| DeliveryEffects.DropLetsGo | Include/utils/ref_count_object_pool.hpp:43-48 | An action let go is spare again; one made outside the pool is gone, and with it its hold on a payload |
| DeliveryEffects.CancelKeepsPayload | Include/utils/database.hpp:1634-1646 | A cancelled action keeps its payload, leaves the line, and nothing else changes |
| DeliveryEffects.RejectLetsGo | Include/utils/database.hpp:1734-1748 | A refused update leaves the producer with nothing in hand; a pooled action is spare again with the payload it was given, any other takes it down with it |
| DeliveryProgress.SpareUnlessInUse | Include/utils/database.hpp:1611-1627 | In every run in which nothing was cancelled or refused a payload is spare if and only if neither the producer nor a queued or performing action has it; and in every run a pooled action is spare if and only if nothing has it |
| DeliveryProgress.UpdateGoesThrough | Include/utils/database.hpp:1736-1747 | From every idle state of every run, whatever spare payload and action are used, an update raised while the context runs gets queued behind all others |
| DeliveryProgress.AllIsDelivered | Include/utils/database.hpp:1611-1627 | From every state of every run before disposal the worker alone can deliver everything raised, but for an update still in the producer's hands |
| DeliveryProgress.ComesToRest | Include/utils/database.hpp:1615-1619 | And then let go of it: every payload and every pooled action is spare again, unless something was cancelled or refused |
| DeliveryRuns.DeliveredIsPrefix | Include/utils/database.hpp:1734-1748 | In every run the function has received a prefix of the updates raised, each with the bytes it was raised with; while the context runs the rest is in line or in hand |
| DeliveryRuns.NoInFlightOverwrite | Include/utils/database.hpp:1596-1603 | No step changes a payload that a queued or running action carries |
| DeliveryRuns.ProducerNeverStuck | Include/utils/database.hpp:1736-1747 | Raising is always possible and always carried through: no count or index guard ever stands in the way |
| DeliveryRuns.WorkerNeverStuck | Include/utils/database.hpp:1611-1627 | Nor does one stand in the way of the worker |
| Delivery.RowData.Store | Include/utils/database.hpp:1596-1603 | The buffer grows when too short, never shrinks, and is overwritten in place |
| DeliveryOnQueue.StepFollows | Include/utils/dispatcher.hpp:597-668 | Each step of the context's queue, whoever's action it is about, is matched by delivery steps, after which the line is the subscription's part of batch and queue, action for action |
| DeliveryOnQueue.DeliveredThroughQueue | Include/utils/database.hpp:1613-1626 | In every run of updates, real queue shared with other subscriptions and syncs, worker and pools: one delivery per invoked action of the subscription, the deliveries are a prefix of the updates raised, and the actions yet to deliver are the subscription's in batch and queue, in order |
| DeliveryOnQueue.DisposeOutsideDeliversAll | Include/utils/dispatcher.hpp:829-876 | Disposing a non-suspendable context from outside loses no update the subscription has had accepted, whatever else is queued |
| DisposablePtr.StepKeepsInv | Include/utils/disposable_ptr.hpp:129-160 | With one observer every interleaved step keeps count, callbacks and pointer consistent with the object's life |
| DisposablePtr.LockSucceedsIffOwned | Include/utils/disposable_ptr.hpp:129-154 | With one observer a lock succeeds exactly if there was an owner when it added its reference; the caller then owns one counted reference, and a failure adds no owner |
| DisposablePtr.OneObserverIsSafe | Include/utils/disposable_ptr.hpp:16-29 | With one observer nobody owns the object once destruction starts, and nobody touches it once freed |
| DisposablePtr.DestructionIsFinal | Include/utils/ref_count_base.hpp:24-33 | With one observer no continuation of a run brings a doomed object an owner |
| DisposablePtr.TwoObserversHandOutDoomed | Include/utils/disposable_ptr.hpp:135-150 | A run in which a failed lock's reference makes a second observer hand out a doomed object |
| DisposablePtr.SafeIffAtMostOne | Include/utils/disposable_ptr.hpp:129-154 | Every interleaving is safe if and only if there is at most one observer |
| ObserverRuns.ClearedIsNull | Include/utils/disposable_ptr.hpp:22-29 | With any number of observers: one that has been reset, told of the destruction, or whose lock failed is null and unregistered once that is over, whatever the others do meanwhile |
| ObserverRuns.AssignedIsWatched | Include/utils/disposable_ptr.hpp:111-120 | And one that has been assigned points to the object and is registered |
| ObserverRuns.ResetCanFinish | Include/utils/disposable_ptr.hpp:156-160 | A reset can be gone through with, changing the observer and its registration only |
| ObserverRuns.AssignCanFinish | Include/utils/disposable_ptr.hpp:111-120 | So can an assignment, whatever the observer observed before |
| ObserverRuns.LockCanFinish | Include/utils/disposable_ptr.hpp:129-154 | So can a lock: it hands out one more reference if the count was one at least, and otherwise leaves its own behind and the observer null |
| ObserverRuns.OwnersBalance | Include/utils/ref_count_base.hpp:19-33 | With any number of observers a run leaves as many owners as there were, with its copies and successful locks and without its releases; the count is theirs and that of what failed locks left behind |
| ObserverRuns.DoomedIsFreed | Include/utils/ref_count_base.hpp:24-33 | With one observer, from every state after the last owner has let go, the object can be freed, and the observer is null then |
| RefCountPtr.OpAsMeant | Include/utils/ref_count_ptr.hpp:11-215 | Every construction, assignment, attach, detach, release and destruction leaves pointers and raw references as meant and the counts balanced |
| RefCountPtr.AssignMoveAsMeant | Include/utils/ref_count_ptr.hpp:158-170 | Move assignment, to itself included, moves the pointer and keeps the counts |
| RefCountPtr.AttachAsMeant | Include/utils/ref_count_ptr.hpp:187-198 | Attach takes over one reference owed |
| RefCountPtr.CountsAreReferences | Include/utils/ref_count_base.hpp:19-33 | Over any sequence of operations a count is the number of pointers plus raw references owed, no deleted object is touched, and an object is deleted once, exactly when that number is zero |
| RefCountPtr.Counted.AddRef | Include/utils/ref_count_base.hpp:19-22 | One more reference |
| RefCountPtr.Counted.Release | Include/utils/ref_count_base.hpp:24-33 | One reference less, deleted exactly at zero |
| RefCountPtr.Pointer.AssignCopy | Include/utils/ref_count_ptr.hpp:121-137 | On objects in place: the old object loses a reference, the new one gains one, the same object is left alone |
| RefCountPtr.Pointer.AssignMove | Include/utils/ref_count_ptr.hpp:158-170 | On objects in place, aliased or not: the reference changes hands; moving to itself releases |
| RefCountPtr.Pointer.Attach | Include/utils/ref_count_ptr.hpp:187-198 | Releases the old object and takes the new one without counting |
| SchemaBuild.RankedIffAcyclic | ModernAPI/Database.hpp:2398-2412 | No structs contain each other in a cycle if and only if they can be ranked |
| SchemaBuild.TurnDecreases | ModernAPI/Database.hpp:2432-2456 | Each turn of the loop lowers (structs unbuilt, whether the top is built, height or rank of the top) |
| SchemaBuild.TerminatesIffAcyclic | ModernAPI/Database.hpp:2415-2459 | If every struct is found by its name, the build ends if and only if there is no cycle, in whatever order the map lists the structs |
| SchemaBuild.BuildOutcome | ModernAPI/Database.hpp:2437-2458 | Whenever it ends: what was built comes after all its complex types, each once; it succeeds with everything stored, or has met a struct not found by its name |
| SchemaBuild.Schema.UpdateStack | ModernAPI/Database.hpp:2398-2414 | Pushes exactly the complex types not stored, in field order, and reports whether there were any |
| SchemaBuild.Schema.BuildParserMetadata | ModernAPI/Database.hpp:2220-2232 | Stores a struct's metadata unless it is stored already |
| SchemaBuild.Schema.BuildStructs | ModernAPI/Database.hpp:2415-2459 | The worklist method terminates without cycles, stores dependencies first, and succeeds unless a name is not found |
| XmlStore.ConvertedIffInRange | ModernAPI/XMLLoader.hpp:149-155 | What the parser returns survives the conversion to the field's type if and only if it is in that type's range |
| XmlStore.NumberRoundTrip | ModernAPI/XMLLoader.hpp:419-425 | Reading back a stored number gives the converted value |
| XmlStore.TextRoundTrip | ModernAPI/XMLLoader.hpp:496-503 | Reading back a stored text gives the text cut to its declared size, whatever lay behind it in memory |
| XmlStore.LoadElement | ModernAPI/XMLLoader.hpp:96-239 | Loading writes the leaves' encodings in document order at the right place, touches nothing else, and reports their length; it throws exactly on an unknown type or a first-child chain too deep |
| XmlStore.LoadChildren | ModernAPI/XMLLoader.hpp:106-133 | The loop over children with its base and running size; the nesting counter restarts after each child |
| XmlStore.WriteElement | ModernAPI/XMLLoader.hpp:397-518 | Writing back reads every leaf from its place and reports the same length; it throws exactly on an unknown type |
| XmlStore.WriteInvertsLoad | ModernAPI/XMLLoader.hpp:397-518 | Writing a loaded tree back restores what the parser returned if and only if every number is in range of its type and every text no longer than its size; otherwise the values come back converted or cut |
| XmlStore.LoadedHasNoUnknown | ModernAPI/XMLLoader.hpp:233-237 | A tree that loads is never refused by the writer |
| XmlNesting.FailsIffTooDeep | ModernAPI/XMLLoader.hpp:107-131 | A tree without unknown types is refused if and only if some nested struct heads a chain of ten structs, each the first child of the one before |
| XmlNesting.AnyDepthLoads | ModernAPI/XMLLoader.hpp:130-131 | For every depth there is a tree of that depth that loads |
| XmlLoads.WordsInRange | ModernAPI/XMLLoader.hpp:134-232 | A field of a 32-bit type holds exactly the values of the machine type of that name |
| XmlLoads.LongWordsInRange | ModernAPI/XMLLoader.hpp:134-232 | So does one of a 64-bit type |
| XmlLoads.BytesAsNamed | ModernAPI/XMLLoader.hpp:134-232 | A value of each type takes as many bytes as the machine type of that name |
| XmlLoads.LowestFirst | ModernAPI/XMLLoader.hpp:149-155 | Its bytes lie in memory with the lowest first |
| XmlLoads.ChildInItsPlace | ModernAPI/XMLLoader.hpp:106-133 | The children's bytes lie in document order, each child's right behind those before it |
| XmlLoads.LoadsIffAllFit | ModernAPI/XMLLoader.hpp:252-365 | Files load if and only if each line fits what the lines before it define: its tree can be read and is not empty, its index is the next or, past the factory file, one defined before, and its value is no larger than the row was made |
| XmlLayers.LayeredLoad | ModernAPI/XMLLoader.hpp:252-365 | After a successful load the rows counted are exactly those some file defines, each holds the last definition in factory, developer, user order, and other rows are untouched |
| XmlLayers.CountedExactly | ModernAPI/XMLLoader.hpp:300-331 | The indices defined are exactly 0 up to the number of rows |
| XmlLayers.LastLineWins | ModernAPI/XMLLoader.hpp:333-361 | A row holds the value of the last line that defines it |
| XmlLayers.XmlStoreDB.LoadRow | ModernAPI/XMLLoader.hpp:267-362 | One element: loaded, its index checked, its row added or found large enough, and written |
| XmlLayers.XmlStoreDB.Load | ModernAPI/XMLLoader.hpp:252-365 | The loops over files and elements compute the layered load, or throw at the first element that does not fit |
| EchoFlow.ReceivedKeepsLoops | ModernAPI/RemoteAgent.hpp:525-528 | Receiving decides nothing: whether values go round for ever is settled by what is under way, and so is how many are still to be passed back, one less with each that is |
| EchoFlow.ReceivedKeepsFinal | ModernAPI/RemoteAgent.hpp:525-528 | Nor does it change what both sides will hold in the end |
| EchoFlow.RestIsSmall | ModernAPI/RemoteAgent.hpp:525-528 | Where values do not go round for ever, at most three more are passed, however many are under way |
| Replication.StepKeepsInv | ModernAPI/RemoteAgent.hpp:277-294 | In each write, send, receipt and replay of a disciplined run no values go round, both sides end with the last value but for padding, and messages issued and still to come stay within the bound |
| Replication.WriteView | Modules/database/memory_database/row.cpp:66-119 | A write that changes its row is stored and reported once; one that does not is not reported; other rows are untouched |
| Replication.ReceiveView | ModernAPI/RemoteAgent.hpp:501-534 | A received value that changes its row is stored and echoed once; one that does not is dropped; other rows are untouched |
| Replication.ReplayView | ModernAPI/RemoteAgent.hpp:591-601 | A replay sends the row read to its capacity, padded with zeros, ahead of what is queued; other rows are untouched |
| Replication.Padded | Modules/database/memory_database/row.cpp:41-59 | Reading to the capacity gives the value followed by zeros up to it, and the value itself exactly if it has full size |
| Replication.ReplicasAgree | ModernAPI/RemoteAgent.hpp:501-534 | In every run in which rows are written with nothing under way for them and no replay, whenever it comes, sets values going round, whatever the replicas hold at the start: with nothing under way for a row they agree but for padding on the last value if they agreed at the start or a message has been issued, and differ otherwise; with no replay of a short value all this holds exactly |
| Replication.TrafficIsBounded | ModernAPI/RemoteAgent.hpp:591-601 | Data messages number at most twice the writes, plus the replays, plus two for each replay of a value shorter than its row, plus one for each row that starts apart, per row and in all |
| Replication.UnreportedWriteLeavesApart | Modules/database/memory_database/row.cpp:93-98 | A write of the value one replica holds already leaves replicas apart that were |
| ReplicationLoops.EndlessIffLoops | ModernAPI/RemoteAgent.hpp:501-528 | In any state whatever: messages for a row may go on without end if and only if what is under way goes round; otherwise exactly the predicted number follows, three at most, and both sides end with the predicted values |
| ReplicationLoops.NeverSettlesIffLoops | ModernAPI/RemoteAgent.hpp:501-528 | And exactly then there is always something under way, however the agents go on; otherwise they can come to rest |
| ReplicationLoops.WriteEndlessIff | ModernAPI/RemoteAgent.hpp:501-528 | For any write in any state; with at most one value under way before: endless if and only if the write changes its row, and a different value is either on its way to the other side and news there, or coming here while the one written is news there |
| ReplicationLoops.ReplayEndlessIff | ModernAPI/RemoteAgent.hpp:591-601 | For any answer to a registration request in any state; with at most one value under way before: endless if and only if it crosses a different value and each is news where it goes, or goes the same way as one and the first of the two to arrive differs from the second and from what both sides hold |
| ReplicationLoops.DisciplinedIffEnding | ModernAPI/RemoteAgent.hpp:591-601 | The runs of the theorems above leave out exactly the replays that set off messages without end |
| ReplicationLoops.OneReplay | ModernAPI/RemoteAgent.hpp:591-601 | A replay with nothing under way: the other side ends with the padded value, after one message if and only if it held that before, two if and only if not and the stored value has full size, three if and only if not and it is shorter |
| ReplicationLoops.OneMessageIffFullSize | Modules/database/memory_database/row.cpp:93-98 | Between replicas that agree a replay costs one message if and only if the stored value has full size |
| ReplicationLoops.UnwrittenRowCostsThree | Modules/database/memory_database/row.cpp:41-59 | A row nobody has written and one registration request: a complete run with three messages |
| ReplicationLoops.CrossedWritesNeverSettle | ModernAPI/RemoteAgent.hpp:525-528 | Two sides that write different values before either message has arrived: something is under way for ever |
| ReplicationLoops.QuickWritesNeverSettle | ModernAPI/RemoteAgent.hpp:525-528 | One side that writes twice before the first message has arrived: likewise |
| ReplicationLoops.CrossedReplayNeverSettles | ModernAPI/RemoteAgent.hpp:591-601 | One write still under way, and the other side answers a registration request with its old value: likewise |
| RemoteAgentRuns.AckedIffMessage | ModernAPI/RemoteAgent.hpp:501-534 | In every run an imported table is acknowledged if and only if a message has been processed for it since the last communication error |
| RemoteAgentRuns.SyncedIffAllHeard | ModernAPI/RemoteAgent.hpp:728-755 | After a period that is on time the agent says it is in sync if and only if that holds of every imported table with an external id |
| RemoteAgentRuns.UpIffRecentKeepAlive | ModernAPI/RemoteAgent.hpp:541-566 | After a period the other agent counts as up if and only if its last keep-alive message was recent enough; if it was up before and is late, nothing counts as heard any more |
| RemoteAgentSync.SyncedMeansHeard | ModernAPI/RemoteAgent.hpp:728-755 | In every run, if the agent reports synced data, each imported table with an external id has had a data message processed since the last error or start |
| RemoteAgentSync.HeardHasWitness | ModernAPI/RemoteAgent.hpp:501-534 | Such a table has a message after the last error that found its row and was written |
| RemoteAgentSync.RemoteAgent.HandleSingleDataValue | ModernAPI/RemoteAgent.hpp:501-534 | The first table with that external id is acknowledged if imported, after the row has taken the value |
| RemoteAgentSync.RemoteAgent.SendRegistrationRequests | ModernAPI/RemoteAgent.hpp:728-755 | Asks again for every awaited table and reports synced exactly if there is none |
| RemoteAgentSync.RemoteAgent.HandleRemoteAgentCommunicationError | ModernAPI/RemoteAgent.hpp:683-706 | All imported tables are unacknowledged again and the agent is out of sync |
| RemoteAgentSync.RemoteAgent.PeriodicRemoteAgentDataCollection | ModernAPI/RemoteAgent.hpp:541-566 | Late, an agent that was up reports an error; on time, it is up and reports whether it is in sync |
| CallbackHandlers.CallbackHandler.AddCallback | Include/utils/callback_handler.hpp:91-107 | Adds a callback unless it is there |
| CallbackHandlers.CallbackHandler.RemoveCallback | Include/utils/callback_handler.hpp:109-125 | Removes a callback if it is there |
| CallbackHandlers.CallbackHandler.RaiseCallbacks | Include/utils/callback_handler.hpp:43-89 | Calls exactly the callbacks there were, in order, each once, however they change the vector |
| TableCallbacks.CarriesExactly | Include/utils/database.hpp:599-638 | In every run a row of the table carries exactly the callbacks ever subscribed and not unsubscribed since the row was made; a removed row carries none, does not listen and has let go of its table |
| TableCallbacks.NeverUnsubscribedIsEverywhere | Include/utils/database.hpp:450-477 | A callback subscribed and never unsubscribed is on every row, made before or after; one never subscribed is on none |
| TableCallbacks.CarriesByHistory | Include/utils/database.hpp:599-638 | A row made by a given operation carries exactly the callbacks subscribed at some time and not unsubscribed since that operation |
| TableCallbacks.RightIffBornOnTheRightSide | Include/utils/database.hpp:620-638 | A row carries a callback if and only if it is wanted, exactly if the callback was never unsubscribed, or is wanted again and the row is younger than the last unsubscription, or is not wanted and the row is older |
| TableCallbacks.ResubscribingIsLost | Include/utils/database.hpp:601-611 | Subscribing again after unsubscribing does nothing for the rows there are |
| TableMembers.AddingARow | Include/utils/database.hpp:450-477 | A known key changes nothing; otherwise the table has that key more, for a new row object that is tied to it and carries the callbacks listed; every other row, object and listener is as it was |
| TableMembers.RemovingARow | Include/utils/database.hpp:479-508 | The table has that key less; the object it stood for is not reached, carries nothing, is not linked and does not listen; every other is as it was |
| TableMembers.MembersByHistory | Include/utils/database.hpp:450-508 | After any operations the table has a row of a key if and only if the last operation that added or removed the key added it |
| TableMembers.OneObjectPerKey | Include/utils/database.hpp:450-508 | And of all the objects ever made for the key exactly the one it stands for is tied to the table |
| TableCallbacks.TableBase.AddRow | Include/utils/database.hpp:450-477 | Refuses known keys and empty rows; otherwise ties the new row to the table and gives it the data callbacks |
| TableCallbacks.TableBase.RemoveRow | Include/utils/database.hpp:479-508 | Takes the key out of the table; the row object loses its callbacks, its link and its place among the listeners |
| TableCallbacks.TableBase.SubscribeDataCallback | Include/utils/database.hpp:599-618 | Gives the callback to all rows and lists it, unless it is listed |
| TableCallbacks.TableBase.UnsubscribeDataCallback | Include/utils/database.hpp:620-638 | Takes the callback off all rows and leaves it listed |
| RowLifetimes.OtherRowsUntouched | Include/utils/database.hpp:1226-1317 | An operation on one row leaves every other row's entry, callbacks and tokens as they were |
| RowLifetimes.ForeignCallbacksKept | Include/utils/database.hpp:1226-1317 | Subscribing and unsubscribing leave the callbacks of others registered with the row; its own destructor clears all data callbacks and no disposal callback |
| RowLifetimes.DestructionEnds | Include/utils/database.hpp:1256-1266 | A row that is gone has no entry and no live token, and its address can be used again |
| RowLifetimes.StandingByHistory | Include/utils/database.hpp:254-263 | In every run a row is there from its creation to the end of its destruction, and dying from the moment its own destructor has run |
| Subscriptions.EntryIffLiveToken | Include/utils/database.hpp:1209-1317 | In every run a row has an entry exactly if it has a live token, and exactly then its disposal callback, and until its destruction begins its data callback, are registered once each |
| Subscriptions.TokensAreExact | Include/utils/signal.hpp:56-102 | A subscription gets a token not in use and meets no unexpected registration; an unsubscription succeeds exactly for a live token, and throws exactly for the last token of a row that is being destroyed |
| Subscriptions.LateUnsubscribeThrows | Include/utils/database.hpp:1286-1312 | A run in which the only client of a row unsubscribes while the row is being destroyed |
| Subscriptions.SubscriptionsObject.FreeToken | Include/utils/signal.hpp:65-76 | The search for the smallest free token |
| Subscriptions.SubscriptionsObject.Subscribe | Include/utils/database.hpp:1226-1284 | The first client makes the entry and registers both callbacks; later ones share them |
| Subscriptions.SubscriptionsObject.Unsubscribe | Include/utils/database.hpp:1286-1317 | The last client takes entry and callbacks away, or finds the data callback of a dying row gone and throws |
| Subscriptions.SubscriptionsObject.OnDestruction | Include/utils/database.hpp:254-263 | The row's own destructor clears its data callbacks |
| Subscriptions.SubscriptionsObject.OnDisposed | Include/utils/database.hpp:1256-1266 | The disposal callback takes the row's entry and tokens away |
| StateRuns.HandlersLead | ModernAPI/StateMachine.hpp:292-313 | The opcodes a handler tries, one after the other, lead where the first transitions with those opcodes lead, and change nothing else but the last opcode |
| StateRuns.EventsReachTheEnd | ModernAPI/StateMachine.hpp:321-344 | Data handled under way, a state timeout or a start that leads to an end state finishes the run with that state's outcome, whatever handlers come after |
| StateRuns.TimerRunsIffWaiting | ModernAPI/StateMachine.hpp:433-493 | After an event that has entered a state the state timer runs if and only if the state it has come to rest in has a timeout; a pause and a process timeout stop it, and resuming starts it again |
| StateRuns.StandsInEndIffFinished | ModernAPI/StateMachine.hpp:433-493 | In every run whose handlers report their moves, without a process timeout, a machine that stands in an end state has finished; with no transitions out of end states it stands in one of a kind if and only if it has finished with that kind's outcome |
| StateMachines.CurrentStaysRegistered | ModernAPI/StateMachine.hpp:292-313 | In every run started at a registered state, whatever the handlers try, the current state is registered and the visited states follow transitions that were added |
| StateMachines.PauseThenResume | ModernAPI/StateMachine.hpp:265-344 | Pausing and resuming restores status and state, whatever data comes in between; and data changes nothing while the machine is paused, finished or not started |
| StateMachines.FinishedOnlyInEndState | ModernAPI/StateMachine.hpp:433-493 | A run that reports success, failure or abortion has visited an end state of that kind |
| StateMachines.EnteringEndStateFinishes | ModernAPI/StateMachine.hpp:445-475 | Entering an end state finishes the run with that state's outcome, whatever its handler does |
| StateMachines.FirstAddedDecides | ModernAPI/StateMachine.hpp:119-128 | Of several transitions with one opcode the first added decides |
| StateMachines.StateObject.AddTransition | ModernAPI/StateMachine.hpp:108-117 | Adds a transition while there are fewer than 32 |
| StateMachines.StateObject.Find | ModernAPI/StateMachine.hpp:119-128 | The first transition with the opcode decides |
| StateMachines.StateMachine.PerformTransition | ModernAPI/StateMachine.hpp:292-313 | Moves to the target if it is registered and initialized, and says whether it did |
| StateMachines.StateMachine.SwitchToNextState | ModernAPI/StateMachine.hpp:433-493 | The loop through chained states, with the status an end state sets |
| StateMachines.StateMachine.CallState | ModernAPI/StateMachine.hpp:321-344 | Hands data to the current state only while under way, and enters the state its handler says it has moved to |
| StateMachines.StateMachine.InitializeResetRun | ModernAPI/StateMachine.hpp:231-263 | Starts over at the given state |
| StateMachines.StateMachine.PauseRun | ModernAPI/StateMachine.hpp:265-277 | Stops the timer and remembers the status, once |
| StateMachines.StateMachine.ResumeRun | ModernAPI/StateMachine.hpp:279-290 | Brings back the remembered status |

## Left out

Of the dispatcher:

- Wake-up of the condition variable, thread start and join, and scheduling: the progress theorems say what the worker can finish by itself, not that it is let.
- The `m_idle` flag, which no modelled decision reads.
- Exceptions that leave a user function, and the exception handler.
- Moving and assigning a `simple_context`.
- The wrap-around of timer client ids (`Include/utils/dispatcher.hpp:313-325`): ids are not bounded here, so no two clients share one.
- Actions invoked synchronously on the worker's own thread: only queued actions are modelled.
- What happens once an erasure has run off the end of a round, which the source leaves undefined: runs go on only while the erasures stay inside the vector.
- Fractions of a nanosecond in intervals, and the coarser clock of one old compiler.
- DispatcherRuns.RoundRunsSurvivors: speaks of rounds with at most one removed timer, because with more the erasures keep a removed timer or leave the vector.
- DispatcherRuns.UnregisterIsBarrier: takes "the worker has left its loop" as an alternative to the sync's action having run, which is when the source's sync returns on a context disposed from outside.

Of the delivery path:

- Registration replay of current values, queries over tables, and the caches of registrations: other wrappers around the same path.
- DeliveryRuns.DeliveredIsPrefix: the raises of one row are serialized by its raise mutex, so one update is in the producer's hands at a time; several rows have several such paths.
- DeliveryOnQueue.DeliveredThroughQueue: looks at one subscription; the actions of others and of syncs come and go among its own, without a meaning of their own.
- DeliverySteps.StepKeepsInv: payloads and actions are values in numbered slots; only the copying into a payload's buffer is an update in place (`Delivery.RowData.Store`).
- Running out of memory when the pools create objects.
- DeliverySteps.RaiseTakesUnused: a search is a single step that may hand out any spare slot, grow the pool, or find no action although there is one, which covers every outcome of the looks of `ObjectPool`.
- Moving a pool, whose search position the source leaves uninitialized.

Of ownership:

- DisposablePtr.StepKeepsInv: a machine on values, because its point is the interleaving of threads; one object at a time, so a pointer to another object counts as null.
- DisposablePtr.OneObserverIsSafe: observers outlive the run; a weak pointer destroyed while the destructor is about to call it is not modelled.  Callers that assign a raw pointer own the object while they do.
- Pointers stored inside counted objects, so that deleting one releases another.
- RefCountPtr.CountsAreReferences: a raw pointer handed to an operation points to a live object, as the source requires of its callers.

Of tables and subscriptions:

- Clearing all rows when a table is destroyed, and data sets of tables: the same removal in a loop.
- Listeners of a table that change it from inside a notification.
- Subscribing by address to a row that is being destroyed: callers that subscribe hold a reference.
- Row callbacks subscribed on a row directly, past its table.
- The limit of 2^31-1 tokens per signal.

Of replication:

- Keep-alive and framing bytes, the mapping of types to the wire, datagrams lost or reordered.
- Replication.ReplicasAgree: for rows written only when nothing is under way for them, and without the replays that `ReplicationLoops.DisciplinedIffEnding` names; after a step outside this discipline nothing is claimed about agreement.  External ids are distinct, so both agents mean the same row.
- Replication.TrafficIsBounded: both sides give a row the same capacity, at least one and at most the 2048 bytes of the replay's buffer; unbounded rows and rows of the empty type are not modelled, nor are write priorities, which nobody raises.
- A row is written and its report queued in one step; two threads that write one row at the same time may have their reports change places.
- Forced writes, which always report and so always echo.
- RemoteAgentSync.SyncedMeansHeard: nobody else writes the status row, and imported tables start unacknowledged, as their default constructor makes them.

Of the schema:

- SchemaBuild.TerminatesIffAcyclic: supposes that every struct is found by its own name; when one is not, the build may fail before it comes to a cycle, depending on the order of the map.
- SchemaBuild.Schema.BuildStructs: requires that there be no cycle, without which the source does not return.
- Reading the metadata from XML, which replaces complex type names by struct names, and the spelling of names in XML.
- SchemaBuild.Schema.BuildParserMetadata: records the name of the struct and the moment it is built, not the metadata built for its fields, most of which is calls into the parser module.

Of the XML store:

- Environment variables in texts are taken to be expanded already.
- XmlStore.ConvertedIffInRange: begins with the integer the XML parser returns, which has clamped text beyond its own range; the parser is not part of this model.
- Floating-point values are the words that represent them, and a bool is read by the parser; the host is little-endian.
- The metadata built alongside the values.
- XmlStore.WriteElement: returns the changed tree instead of changing the DOM in place, and supposes text attributes of at most 255 bytes, which the writer's local buffer holds with a NUL.
- XmlStore.LoadElement: supposes texts and nested structs that fit its local buffers, which the source does not check.
- XmlLayers.LayeredLoad: speaks of loads that succeed, into a loader that has not loaded before, and of rows whose write priority nobody has raised.
- Adding elements to a user file, printing, and the INI and command-line loaders.

Of the state machine:

- StateRuns.StandsInEndIffFinished: supposes handlers that report their moves, because the source enters a state only when told; without a process timeout, which sets its own status wherever the machine stands.
- Handlers for leaving a state that perform transitions themselves.
- When timers fire: a state timeout may happen at any moment, even while paused.
- StateMachines.CurrentStaysRegistered: runs are started at registered states; started elsewhere, the source follows a null pointer.

Of the rest of the framework:

- Error management, monitoring, logging, files, HTTP, video, imaging, streams, factories and application wrappers: fixed layouts, formatting and thin interfaces.
