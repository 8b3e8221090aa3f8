# TEADFS: models and proofs

TEADFS is a stacked file system for Linux. A kernel module intercepts opens, reads and writes and asks a user
process what to do with them; that process answers through a netlink socket, handling requests in a thread pool
built on an event library. This project models the concurrent and byte-level cores of both sides in Dafny and
proves what they keep. `dafny verify dfyconfig.toml` checks it.

**Event library** (`Wait*.dfy`). Win32-style events made of a mutex, a condition variable and a flag, with
waits for one event, for any of several and for all of several. Any number of events and calls run as a
transition system in which each lock, unlock, atomic access, condition wait or wake-up is one step; the reads of
`StillWaiting` and of an event's state outside the mutex are steps apart from the locking that follows them.
`WaitModel` has the states and steps; `WaitLocks`, `WaitQueues`, `WaitCounts`, `WaitModes`, `WaitSignals`,
`WaitWakeups`, `WaitFifo` and `WaitExpiry` each prove one layer of the invariant, `WaitRuns` puts them together
for every run, and `WaitReferences`, `WaitSets`, `WaitBroadcast`, `WaitBalance`, `WaitResults`, `WaitCauses`,
`WaitPurge`, `WaitTheorems`, `WaitIndex`, `WaitSingle`, `WaitOrder`, `WaitWalk` and `WaitDeadlock` state the
results.
`Purge` is the purge of expired registrations as an in-place algorithm over heap objects, and `Timeouts` the
splitting of long timeouts in the Win32 form.

**Thread pool** (`Pool*.dfy`). The task list, the dispatcher and the workers that come and retire.

**Requests** (`Request*.dfy`). Message ids, the queue of pending contexts, delivery of answers by the netlink
receiver (`teadfs_netlink_receive` in TEADFS/src/netlink.c, lines 62 to 98) and the wait with
its timeout. `Packets` follows one request through both sides byte by byte, through the client's receive buffer
(`CNetlinkInfo::ThreadRcv` in TEADFS-utils/netlink.cpp, lines 118 to 147).

**Files** (`Label.dfy`, `Handles.dfy`). The labelling of files by the sample client, and the count of open
handles that decides when a file is reported as released.

Some properties hold only under a condition, and each is stated with that condition:

- Waits for several events can deadlock with setters if and only if no one order of the events agrees with all
  their lists, a list with an event twice having none (`WaitDeadlock.DeadlockFreeIffOrdered`).
- A task can be left in the pool's queue with nobody coming for it. When no wake is under way, that is so exactly
  if the worker woken last has retired without taking it and no other listed worker will look; it comes about in
  exactly two ways: the dispatcher wakes a worker that has already decided to retire, or the last wait of a worker
  runs out although its wake has come meanwhile (`PoolTheorems.StrandedIff`, `PoolTheorems.StrandingSteps`). No
  task can be taken any more without another AddTask if and only if every worker has retired or is at its last
  wait without a wake (`PoolLoss.LostIff`).
- A request whose answer arrived in time can still return no data, because the receiver marks the context done
  before it stores the size (`RequestTheorems.AnswerMissed`). When no two messages bear the same id, that is one
  of exactly three reasons for a size of 0 without a timeout (`RequestTheorems.WhyAnAnswerIsMissed`).
- A failed open of the lower file sets the handle count to 0 although other handles may be open. The count is
  exact and no release request is lost if and only if that never happens (`Handles.CountExactIff`).
- The client is sure to see exactly the data of a request if and only if that has at most 8136 bytes, which is
  what its receive buffer holds behind the fixed part of a packet (`Packets.SourceSeenIff`); of longer data it
  sees that much, and then whatever its memory holds (`Packets.Exchange`).
- Rewriting a file with a label keeps its contents if and only if what an old temporary file had beyond the part
  written stands for the part that was not read, since that file is not truncated (`Label.RoundTrip`). If there
  was no longer one, that is if every read succeeded.
- The finite timeout 0xFFFFFFFF, and no other, waits for ever in the Win32 form (`Timeouts.WaitsAddUp`).

The result code of a wait that waits for all events, and its reported index, follow the code: the index is the
value of the shared counter, so 0 on success.

## Model

| member | source | states |
|---|---|---|
| WaitRuns.RunInv | TEADFS-utils/pevents.cpp:151-533 | every reachable state, for any number of events, waits, sets, resets and purges, satisfies the whole invariant |
| WaitReferences.ReferenceCount | TEADFS-utils/pevents.cpp:207-269 | in every run RefCount is the number of deque entries that name the waiter plus the references the call itself still owns (itself, the skipped and the unvisited positions) |
| WaitReferences.DestroyedOnce | TEADFS-utils/pevents.cpp:326-332 | a waiter object is destroyed once when its call is over and no entry is left, and not before |
| WaitReferences.NeverTouchedAfterDestruction | TEADFS-utils/pevents.cpp:370-440 | whatever waiter a thread is about to read or write is not destroyed and has a positive count |
| WaitReferences.TouchesCoverWrites | TEADFS-utils/pevents.cpp:464-515 | a step changes no waiter other than those the previous row speaks of |
| WaitTheorems.NoLostWakeup | TEADFS-utils/pevents.cpp:226-268 | while an event's mutex is free, a signalled event has no registration queued |
| WaitTheorems.SignalConservation | TEADFS-utils/pevents.cpp:99-149 | the sets counted are the SetEvent calls that took effect, all finished ones included, and the signals consumed or handed over are with the waits that got them, one each; without ResetEvent, the initial signal plus the sets are those, the absorbed and the pending one |
| WaitTheorems.SetServesEarliestWaiter | TEADFS-utils/pevents.cpp:368-458 | a finished set took effect at exactly one step, when all waiters it had passed over had stopped waiting: there the next registration, whose waiter still waited, was told that its position fired, and no other waiter was touched; or it had passed over the whole deque, and the event was left signalled |
| WaitSets.SeenIsTheDeque | TEADFS-utils/pevents.cpp:363-371 | what a set is said to have found in the deque is the deque at the step at which it locked the event |
| WaitSets.EffectHappened | TEADFS-utils/pevents.cpp:412-424 | a set past its effect has a step at which it handed its signal to the waiting head of the deque, or latched it on an empty deque |
| WaitSets.EffectStays | TEADFS-utils/pevents.cpp:440-458 | a set that took effect does not take effect again |
| WaitSets.RunTallied | TEADFS-utils/pevents.cpp:363-458 | the counters of sets and of signals handed over are the numbers of SetEvent calls that took effect, and that did so by handing over |
| WaitBroadcast.ManualSetServesAll | TEADFS-utils/pevents.cpp:464-515 | for every registration that a finished set of a manual-reset event found, there is a step of the set that told its waiter, for the first time, that this position fired, or that dropped it because its waiter had stopped waiting by then; the one ends with a hit of 1, the other with none |
| WaitBalance.RunBalanced | TEADFS-utils/pevents.cpp:141-146 | the signals consumed and handed over are as many as the WaitForEvent calls that succeeded plus the positions of other waits that got one |
| WaitBroadcast.ManualSetLatches | TEADFS-utils/pevents.cpp:459-462 | a set of a manual-reset event that is past its first store left the event signalled at one of its steps |
| WaitResults.WhyTimedOut | TEADFS-utils/pevents.cpp:278-315 | a wait, for one or several events, times out only at a step of its own: with a finite timeout its sleep ran out with no signal come, with none its poll found the event unsignalled, or none or not all of several signalled; an infinite wait never does |
| WaitResults.RunningOutIsTheTimeout | TEADFS-utils/pevents.cpp:121-131 | a sleep whose time is up makes the call return the time-out |
| WaitResults.WhyAsleep | TEADFS-utils/pevents.cpp:99-131 | a call sleeps only since a step at which it could not be served |
| WaitResults.SuccessSawSignal | TEADFS-utils/pevents.cpp:151-176 | a wait for one event that succeeds saw it signalled at one of its steps, whichever kind it is |
| WaitResults.FinishedOne | TEADFS-utils/pevents.cpp:155-175 | every finished wait for one event has one of the two results for one of these reasons |
| WaitCauses.EveryHitHasACause | TEADFS-utils/pevents.cpp:225-268 | a position counted as signalled was found signalled at a step of the call, or was notified at a step of a set of its event |
| WaitCauses.FoundMeansSuccess | TEADFS-utils/pevents.cpp:246-262 | a wait for any that has found a position signalled is on its way out with success |
| WaitCauses.JoinsAtTheBack | TEADFS-utils/pevents.cpp:263-268 | a registration joins its deque at the back, while the event is unsignalled |
| WaitPurge.LockThenPurge | TEADFS-utils/pevents.cpp:233-244 | a wait that has locked an event, and a destroying call, purge its deque first |
| WaitPurge.PurgeDropsTheExpired | TEADFS-utils/pevents.cpp:240-243 | when a purge ends, no registration is left whose waiter had stopped waiting when it began, and all are left whose waiter still waits |
| WaitPurge.NoticesOnlyTheWaiting | TEADFS-utils/pevents.cpp:470-477 | a set notifies no registration whose waiter had stopped waiting when it locked the event |
| WaitTheorems.AnyConsumesWhatItReports | TEADFS-utils/pevents.cpp:246-321 | a wait for any event consumes at most one auto-reset signal, and among auto-reset events the index names it, -1 for none, timeouts included |
| WaitIndex.AnyReportsASignal | TEADFS-utils/pevents.cpp:295-321 | whatever the kinds of its events, the index a wait for any reports is -1 or a position that was signalled, and never -1 on success |
| WaitSingle.OneConsumesIfItSucceeds | TEADFS-utils/pevents.cpp:151-176 | a finished wait for one event has consumed one signal if it succeeded on an auto-reset event and none otherwise, time-outs included |
| WaitSingle.ConsumingTakesTheSignal | TEADFS-utils/pevents.cpp:141-146 | each such consumption clears that event and changes nothing else of it |
| WaitTheorems.AllCounter | TEADFS-utils/pevents.cpp:412-418 | EventsLeft is the count less the positions satisfied or fired, never negative, never below what is still registered or unvisited |
| WaitTheorems.AllReturnsOnce | TEADFS-utils/pevents.cpp:252-315 | a wait for all that returns 0 had every position signalled exactly once and took one signal per auto-reset position |
| WaitOrder.LevelRises | TEADFS-utils/pevents.cpp:364-427 | along a chain of blocked threads the rank of the events involved rises |
| WaitOrder.NoDeadlock | TEADFS-utils/pevents.cpp:214-268 | with distinct events in one global order no thread is blocked on itself through any chain of locks |
| WaitOrder.Progress | TEADFS-utils/pevents.cpp:185-335 | then, while any call is neither finished nor asleep without a signal, some thread can step, other than by a time-out or a spurious wake-up |
| WaitOrder.NobodySleepsOnASignal | TEADFS-utils/pevents.cpp:295-315 | when nothing can move, no call is asleep on an event that is signalled |
| WaitWalk.Walk | TEADFS-utils/pevents.cpp:220-269 | any set of waits can be taken, together, each to any position of its list, registered at all earlier ones and holding its own mutex |
| WaitDeadlock.TrapDeadlocks | TEADFS-utils/pevents.cpp:364-389 | when each event at those positions has a setter and is listed earlier by one of those waits, they and the setters can all deadlock |
| WaitDeadlock.SameEventTwiceDeadlocks | TEADFS-utils/pevents.cpp:233-236 | any call that lists an event twice can deadlock with any set of that event |
| WaitDeadlock.OppositeOrdersDeadlock | TEADFS-utils/pevents.cpp:388-389 | any two calls that list two events in opposite orders can deadlock with any sets of the two |
| WaitDeadlock.DeadlockFreeIffOrdered | TEADFS-utils/pevents.cpp:214-268 | for any calls: no sets added to them make a deadlock reachable, if and only if one order of the events agrees with every list |
| WaitDeadlock.DeadlockLasts | TEADFS-utils/pevents.cpp:364-458 | deadlocked threads stay deadlocked, whatever step is taken |
| Purge.RemoveExpiredWaitHelper | TEADFS-utils/pevents.cpp:66-79 | drops a reference of a waiter that stopped waiting and deletes it with the last one |
| Purge.Event.RemoveIf | TEADFS-utils/pevents.cpp:240-242 | moves exactly the kept registrations to the front, in order, touching no deleted waiter |
| Purge.Event.PurgeExpired | TEADFS-utils/pevents.cpp:344-347 | keeps the waiting registrations in order, drops one reference per removed entry, deletes on the last one only |
| Purge.KeptEntries | TEADFS-utils/pevents.cpp:240-243 | the kept registrations have no entry of an expired waiter and all entries of the others |
| Timeouts.WaitForEvent | TEADFS-utils/pevents.cpp:572-601 | the waits made are a prefix of the split of the timeout, going on exactly as long as they time out; what it returns |
| Timeouts.WaitInRounds | TEADFS-utils/pevents.cpp:580-588 | the remainder first, then whole units, until an answer or the rounds are used up |
| Timeouts.WaitsAddUp | TEADFS-utils/pevents.cpp:576-589 | the waits for a finite timeout sum to it, and none is infinite if and only if the timeout is not 0xFFFFFFFF |
| Timeouts.WaitsForEver | TEADFS-utils/pevents.cpp:626-639 | an infinite wait is made exactly for the infinite timeout and that one value |
| Timeouts.WaitSizes | TEADFS-utils/pevents.cpp:580-587 | every wait of a split but the first is of 0xFFFFFFFE milliseconds, the first shorter |
| PoolModel.TaskList.Push | TEADFS-utils/thread_pool.h:109-114 | appends at the end |
| PoolModel.TaskList.Pop | TEADFS-utils/thread_pool.h:117-126 | takes from the front; nothing from an empty list |
| PoolTheorems.RunInv | TEADFS-utils/thread_pool.h:153-262 | the pool's invariant in every run, with workers created and erased |
| PoolTheorems.TasksConserved | TEADFS-utils/thread_pool.h:156-180 | tasks taken followed by tasks queued are the tasks added, in order; each goes to one worker's handler at most once |
| PoolScan.ScanChooses | TEADFS-utils/thread_pool.h:241-259 | a scan reads every listed worker; it wakes the last one it found waiting, which had no task then, or, if and only if it found none, a worker it makes |
| PoolScan.ErasedIffExited | TEADFS-utils/thread_pool.h:247-250 | a worker leaves the list exactly at a step that reads that it has exited |
| PoolRetire.RetiresAfterTwelve | TEADFS-utils/thread_pool.h:154-179 | a worker has decided to retire exactly if twelve of its waits ran out since it was made or last handled a task |
| PoolRetire.WaitsOnlyUnsignalled | TEADFS-utils/thread_pool.h:162-164 | a worker's wait that begins with its event set succeeds at once |
| PoolTheorems.StrandedOnlyByWakingARetiree | TEADFS-utils/thread_pool.h:234-262 | a queued task has nobody coming only if the worker woken last has retired with its wake still set |
| PoolTheorems.StrandedIff | TEADFS-utils/thread_pool.h:153-184 | with a task queued and no wake under way, nobody is coming if and only if the worker woken last has so retired and no other listed worker will pop |
| PoolTheorems.StrandingSteps | TEADFS-utils/thread_pool.h:162-172 | the steps that leave a task with nobody coming are exactly: waking a retired worker, and the last wait of a worker running out after its wake came, with nobody else coming |
| PoolLoss.LostIff | TEADFS-utils/thread_pool.h:153-184 | with a task queued and no wake under way, no steps short of another AddTask take a task, if and only if every worker has retired or is at its last wait without a wake |
| PoolLoss.LostStays | TEADFS-utils/thread_pool.h:164-170 | that stays so, with the same queue, until the next AddTask |
| PoolStranding.TaskStranded | TEADFS-utils/thread_pool.h:254-259 | a run of the first kind, which ends with a task queued and every worker gone |
| PoolStranding.TaskStrandedByTimeout | TEADFS-utils/thread_pool.h:164-170 | a run of the second kind, with the same end |
| PoolStranding.DeadUntilNextTask | TEADFS-utils/thread_pool.h:225-240 | from there, nothing changes until the next AddTask |
| RequestModel.GlobalParam.GetNextMsgId | TEADFS/src/global_param.c:38-49 | the n-th call gets the n-th id, never 0 and below 2^64 |
| RequestModel.IdsCycle | TEADFS/src/global_param.c:23-49 | the ids run through 1 to 2^64-1 round and round |
| RequestModel.IdsRepeat | TEADFS/src/global_param.c:41-45 | two ids are equal if and only if a multiple of 2^64-1 calls lie between them |
| RequestModel.IdsDistinctInWindow | TEADFS/src/user_com.c:92 | any 2^64-1 consecutive ids are pairwise distinct |
| RequestInvariants.RunInv | TEADFS/src/user_com.c:43-87 | the invariant of requests and deliveries in every run, whatever messages arrive |
| RequestTheorems.QueuedContexts | TEADFS/src/user_com.c:65-81 | a context is queued exactly between its own linking and unlinking; when two share an id |
| RequestTheorems.QueueKeepsOrder | TEADFS/src/user_com.c:65-81 | contexts are linked at the back, unlinked from their place, and otherwise keep their order |
| RequestTheorems.AnswerReachesItsContext | TEADFS/src/user_com.c:70-76 | an arriving answer is dropped exactly if no queued context bears its id; otherwise it goes to the first queued one that does |
| RequestTheorems.OnlyLateAnswers | TEADFS/src/user_com.c:27-37 | once a requester has stored its timeout, nothing delivered before is left: what it holds or returns was allocated and sized after that |
| RequestTheorems.RefusedIffNoMemory | TEADFS/src/user_com.c:49-54 | a request is refused exactly if its context cannot be allocated |
| RequestTheorems.RefusedForGood | TEADFS/src/user_com.c:51-53 | a refused request never enters the queue |
| RequestTheorems.NoReplyIffNoMemory | TEADFS/src/user_com.c:74-76 | a delivery leaves the context without a reply exactly if its buffer cannot be allocated |
| RequestTheorems.ReceiverTouchesQueued | TEADFS/src/user_com.c:70-83 | the context a receiver works on is queued, so not freed, and bears the message's id; the receiver is never blocked there |
| RequestTheorems.RequestsNeverStuck | TEADFS/src/user_com.c:18-37 | a requester that cannot move has returned or waits for a receiver that can move |
| RequestTheorems.ReplyMatching | TEADFS/src/user_com.c:70-83 | a requester returns no reply or the whole of one with its own id, and size 0 or the size of one with its id |
| RequestTheorems.ReplyIsWhole | TEADFS/src/user_com.c:158-163 | with at most one message per id, a size other than 0 comes with exactly the bytes of one message, the answer to this very request |
| RequestTheorems.WhyAnAnswerIsMissed | TEADFS/src/user_com.c:27-38 | without a timeout, size 0 is read only if the receiver is between its two stores, failed to allocate or had an empty message; and always then, when no two messages bear the same id |
| RequestTheorems.AnswerMissed | TEADFS/src/user_com.c:74-76 | a run in which the only answer is delivered whole and in time and the requester returns size 0 |
| RequestTheorems.AnswerReturned | TEADFS/src/user_com.c:70-83 | a run in which the answer is returned whole, without a timeout |
| Packets.PutHeader | TEADFS/src/user_com.c:90-99 | every field of the header at its place, the rest of the packet untouched |
| Packets.BuildTransform | TEADFS/src/user_com.c:333-348 | the packet that asks to transform the source bytes |
| Packets.BuildNotice | TEADFS/src/user_com.c:126-140 | the packet that names a file by path |
| Packets.Fetch | TEADFS-utils/main.cpp:120-134 | the client gets the first 8192 bytes of a packet; what it reads behind them is whatever its memory holds |
| Packets.Deal | TEADFS-utils/main.cpp:29-118 | the answer for each type: header copied, the callback's bytes or code; any code if there is no callback for a notice; nothing for other types |
| Packets.Receive | TEADFS/src/user_com.c:365-389 | accepts an answer exactly when all tests pass, then copies exactly the bytes it names, even if they lie behind it; otherwise -ENOMEM and the destination untouched |
| Packets.Exchange | TEADFS/src/user_com.c:402-485 | a whole exchange returns n and exactly the callback's n bytes if and only if they fit, the client is there and the answer is not lost; the callback gets the source as far as it fits the client's buffer |
| Packets.SourceSeen | TEADFS-utils/main.cpp:73-82 | the client finds every field of a request, and its data as far as its buffer goes |
| Packets.SourceSeenIff | TEADFS-utils/main.cpp:92-101 | whatever lies in its memory, the client sees exactly the data, if and only if that fits its buffer |
| Packets.TransformRoundTrip | TEADFS/src/user_com.c:311-398 | the answer bears the request's id and the kernel finds in it exactly what the callback wrote for the source it saw |
| Packets.Inform | TEADFS/src/user_com.c:104-178 | the callback gets file id, pid and path, and its code comes back with its sign |
| Packets.OpenFile | TEADFS/src/user_com.c:180-199 | the callback's code, or OFR_INIT in place of anything negative |
| Bytes.Xor13Flips | test/test.cpp:148-148 | the transform of a byte flips its digits 0, 1 and 4 and no other |
| Bytes.XorAllAt | test/test.cpp:147-149 | the transform of a sequence is that of each of its bytes |
| Packets.XorCallback | test/test.cpp:145-153 | the destination holds the transform of the source, nothing else changes |
| Packets.SampleClientKeeps | test/test.cpp:147-150 | the sample client's transform keeps within its room, so all of the above applies to it |
| Packets.WriteAndReadBack | test/test.cpp:145-163 | with that client, a whole write exchange and then a whole read exchange give back data that fits its buffer |
| Packets.WriteThenRead | test/test.cpp:155-163 | what a write makes of data that fits the client's buffer, sent through a read, is the data again |
| Label.Release | test/test.cpp:83-144 | which files are rewritten and what file and temporary file hold afterwards, for every outcome of the calls and all read lengths from 1 to 1024 |
| Label.Rewrite | test/test.cpp:113-125 | the loop writes the header and the transform of all that was read, however it is cut |
| Label.ContainsIff | test/test.cpp:92-92 | the test for a part of a path: some text, the part, some text |
| Label.FlagIsWord | test/test.cpp:15-15 | the four bytes of the flag are the word 0x44414554 |
| Label.Open | test/test.cpp:49-82 | labelled files are told from others, and by whom they are opened |
| Label.RewrittenIsLabelled | test/test.cpp:113-115 | any rewrite gives a labelled file, even of contents shorter than a header; after the flag the header holds the original's leading bytes, then zeros |
| Label.RecoveredContents | test/test.cpp:116-125 | what lies behind the header: what was read, then what an old temporary file had beyond it |
| Label.RoundTrip | test/test.cpp:109-126 | the original comes back if and only if the leftover of an old temporary file stands for the part not read |
| Label.RoundTripCases | test/test.cpp:116-125 | so without a longer leftover exactly if every byte was read, and if every byte was read exactly without one |
| Label.LeftoverRestores | test/test.cpp:142-144 | after a rewrite that only failed to be renamed, even a rewrite that reads nothing gives the original back |
| Label.SecondReleaseKeeps | test/test.cpp:101-106 | a second release leaves the files alone |
| Label.OpenAgreesWithRelease | test/test.cpp:64-76 | release rewrites exactly the text files that open finds unlabelled |
| Label.ReleaseTwiceAndOpen | test/test.cpp:145-153 | release twice, open and read: the label is seen and the original is shown |
| Handles.InodeInfo.GetLowerFile | TEADFS/src/file.c:59-96 | the count and the result of an open, failures and the client's own opens included |
| Handles.InodeInfo.PutLowerFile | TEADFS/src/file.c:98-145 | the count after a close and whether the release request is sent |
| Handles.CallsAreSteps | TEADFS/src/file.c:81-119 | undisturbed, the steps of the model of overlapping calls do what the calls do |
| Handles.CountExactIff | TEADFS/src/file.c:76-90 | over overlapping opens and closes, the count stays exact and no release request is owed if and only if no open failed that began while other handles were open |
| Handles.RequestOnLastClose | TEADFS/src/file.c:114-134 | then the release request goes out exactly at the close that leaves no handle |
| Handles.ReleaseLost | TEADFS/src/file.c:403-408 | a run in which a failed open makes the request be lost for good |
| Handles.NextOpenRefused | TEADFS/src/file.c:81-84 | a run in which a failed open makes a later open be refused |

## Left out

- Weak memory: atomic accesses are sequentially consistent steps.
- Clocks and fairness: a finite wait may time out at any step before it is signalled, and no bound on time is proved.
- The event library is modelled as a transition system over values, not as classes with methods, since its results are about interleavings of the methods' steps; `Purge` has the purge in place.
- Compile-time choice: the waits for several events are compiled only when `WFMO` is defined; the model has them.
- PulseEvent: it is SetEvent followed by ResetEvent, both of which are steps of the model.
- The end of DestroyEvent: only its purge is a step; the event is not used afterwards, and an event is not destroyed while a live waiter is queued on it.
- The fast paths that read an event's state before taking its mutex are steps of the model; that skipping them would change no result is not stated.
- WaitTheorems.SignalConservation: its balance says nothing once ResetEvent has been called on the event, as the code itself disclaims.
- WaitDeadlock.DeadlockFreeIffOrdered: its runs may begin with ResetEvent calls on events that start out signalled.
- WaitTheorems.AnyConsumesWhatItReports: that the index names the consumed signal is for calls whose events are all auto-reset (`WaitIndex.AnyReportsASignal` has the others), because the setter of a manual-reset event does not look at StillWaiting again under the waiter's mutex.
- The Win32 WaitForMultipleEvents: it splits its timeout as `Timeouts.WaitForEvent` does and then decodes the result.
- Destructors of the pool and its workers, and handlers that throw anything but std::exception.
- Events inside the pool: modelled by the contract of auto-reset events, proved in `WaitTheorems.SetServesEarliestWaiter` (a set latches) and `WaitSingle` (a wait that times out consumes nothing), not by composing the two transition systems.
- NO_REPLY, a context state that the wait tests for and nothing stores.
- Packets.Exchange: apart from the size of the client's receive buffer the transport is the identity, and failed allocations appear only as a lost answer.
- Packets.Deal: requires that the callback for the request stays within the room it is given, for data that fits a packet of an int size; the cleanup message only calls its callback.
- Packets.Receive: what lies in memory behind an answer is a parameter, long enough for the data that the answer names.
- RequestTheorems.ReplyMatching: reply buffers are values that stay in place; when the kernel frees them is not modelled.
- Label.Release: writes are complete and close, mode, owner and times of the file are not modelled.
- Handles.CountExactIff: each handle is closed by the side, client or not, that opened it, and the count does not reach the width of an int; the lower files that a counted close does not release are not modelled.
- CRequestInfo, the hello and close messages, the misc device, the page cache and the forwarding of other file system calls.
