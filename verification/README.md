# Wake-up protocols of wasm_safe_mutex

A Dafny model of the crate's `Mutex`, `RwLock`, `Condvar` and `mpsc` channel as systems of
interleaved atomic steps, with proofs about every run of any number of threads under any schedule.

A step is one access to an atomic, to a list's spinlock, to the list it protects, to a park token or
to the protected value. For each primitive:

- `*Model` gives the state, the program points, which steps are enabled and what each does (`State`,
  `Pc`, `Enabled`, `Next`, `Run`). The source's retry loops are cycles of program points; a spin is a
  step that is enabled only when the spinlock is free; a park is a step that needs the thread's
  idempotent token; a spurious return of park and the passing of a deadline are steps of their own
  that may or may not happen.
- `*Object` is the same primitive as a class updated in place, one method per atomic step, each
  proved to be that step of the model, and whole calls built from them when nobody interferes: `Lock`,
  `Retry` and the drop's wake-ups of `Mutex` and `RwLock`, `Condvar.WaitInVain`, `WakeUp`, `NotifyOne`
  and `NotifyAll`, `Channel.Send`, `DropSender`, `TryReceive`, `ReceiveTimeout`, `NextMessage`,
  `ReceiveRest` and `DropReceiver`.
  `RunRounds` drives the mutex and the lock under an arbitrary scheduler. Methods that are one step
  and promise no more than that have no row in the table below.
- `*Calls` says, for every run, what each call comes back with: a call is always under way as it was
  made - same list, same deadline, same value - or has returned what it may return, and a thread with a
  deadline can always come to its decision by moves of its own.
- The other modules prove what every run keeps and the theorems that follow.

| modules | about |
|---|---|
| `Sums`, `Parking`, `Traces` | totals of weights over all threads; handles, continuations and lists of them; schedules and the states they go through |
| `MutexTheorems`, `RwLockTheorems`, `CondvarTheorems`, `MonitorTheorems`, `ChannelTheorems`, `WorkloadTheorems` | the main results about whole runs |
| `MutexCalls`, `RwLockCalls`, `CondvarCalls`, `ChannelCalls` | the answers of every call; nothing sent after `Receiver::drop` |
| `MutexModel`, `MutexInvariant` | mutual exclusion, no lost wake-up |
| `MutexHistory` | the mutex refines an atomic lock around one value |
| `MutexWorkload`, `RwLockWorkload` | finite workloads of blocking rounds complete, with one guard for every round |
| `MutexObject`, `RwLockObject`, `CondvarObject`, `ChannelObject` | the classes |
| `RwLockModel`, `RwLockInvariant`, `RwLockPanic` | encoding, no lost wake-up, the panic of the 128th reader |
| `CondvarModel`, `CondvarAccounting` | every wait is listed, popped or self-removed; exact spin waits |
| `CondvarTimed`, `CondvarDeadline`, `CondvarScenes` | what timed waits report, on their own and mixed; the runs in which a report is wrong |
| `CondvarSignals` | a notified spin or async wait returns only once its notifier has let go of it |
| `CondvarNotify` | `notify_one` coverage and counts, no lost `notify_all` |
| `MonitorModel`, `MonitorInvariant`, `MonitorHistory` | the condition variable and its contended mutex as one system with one set of park tokens |
| `Permits`, `MutexPermits`, `RwLockPermits`, `MonitorPermits` | conservation of park permits across all lists |
| `ChannelModel`, `ChannelOrder` | FIFO, conservation, the meaning of `Disconnected` |
| `ChannelLastSender`, `ChannelMissed` | the last Sender's wake-up and the window in which it is lost |
| `ChannelWake`, `ChannelSteady` | values in the queue and the notifiers that are due for them |
| `ChannelBounds` | every run without spurious wakes ends |
| `ChannelScenes` | the runs in which a wake-up is lost |

In the mutex and the lock the spinlock, the attempt, the push and the take are separate steps, because
`data_lock` can change between a failed attempt and the push. In the condition variable and the
channel one `with_mut` is one step. Most of those closures touch nothing but their list. Two do more,
and taking each as one step loses no behaviour. The closure that registers an async wait also draws an
id from a global counter (`src/condvar/wait_async.rs:54-73`): ids are only compared for equality, so
all that matters is that each is new, whenever it is drawn. The closure that removes a timed-out async
wait also sends its continuation (`src/condvar/wait_async.rs:268-276`): that completes only the wait's
own future, which nobody can hand to a notifier any more once the entry is out of the list, and no
other thread can look at the list between the removal and the send.

In `CondvarModel` the user's mutex is the atomic lock that `MutexHistory.RefinesAtomicLock` shows it to
be, and a park token set or consumed by another primitive of the same thread appears as `StrayToken`
or `StrayPark`; `MutexModel` and `RwLockModel` have the same two steps. `MonitorModel` puts the
condition variable and the mutex together: the mutex is contended step by step, waits re-acquire it
through its own lists, and the tokens are shared. In the channel the queue's mutex is the atomic lock.

Assumptions: the atomics are sequentially consistent. `thread::park` tokens are idempotent
booleans; any other code may set a thread's token at any moment, and may consume it while the thread
is not parked in the primitive at hand. A continuation is a one-shot cell. A deadline passes at an
arbitrary moment. The protected value and the values sent are arbitrary; nothing is assumed of them.

Where the code is not what its documentation or a natural reading promises, the model follows the
code, gives a concrete run, and proves exactly when the promise holds:

- `Spinlock::with_mut` says that the lock is released even if the closure panics
  (`src/spinlock.rs:67-68`); the code (`src/spinlock.rs:125-142`) does not. `RwLockPanic` shows the run
  and that the panic happens if and only if a reader finds 127 live readers inside `with_mut`.
- `wait_async_timeout` reports a timeout even if a notifier had popped the wait
  (`src/condvar/wait_async.rs:268-276`). `CondvarTheorems.TimeoutCanSwallow` shows the run, and
  `TimeoutSwallowsExactly` that it happens if and only if the id was no longer listed at the removal.
- Dropping the last Sender does not always wake the receiver (`src/mpsc.rs:57-65`): the
  notification is sent without the queue's mutex. `ChannelTheorems.TheWindowIsReal` shows the run,
  `MissedExactly` that the wake-up is missing if and only if the notifier took the receiver's list
  between its load of `sender_count` and its registration, and `MissedSleepsForEver` that it then never
  comes.
- A `wait_block_timeout` that is mixed with `wait_block` on one condition variable can report a timeout
  although a notifier popped it, or go back to sleep (`src/condvar/wait_block.rs:214-227`, `243-252`).
  `CondvarTheorems.MixCanSwallow` shows the run; `BlockTimeoutSwallowsExactly` and
  `BlockCheckMissesExactly` prove, for every mix, that it happens if and only if the list holds an
  entry of the thread but not that of the present wait. Where all blocking waits are timed it never
  does (`BlockTimeoutExact`).
- A value sent does not always wake the receiver (`src/condvar/notify.rs:47-51`): an entry left behind by
  a spurious wake diverts `notify_one` from a receiver that awaits a continuation or is listed twice.
  `ChannelTheorems.TheDiversionIsReal` shows the run, `SleepsPastAValueExactly` proves for every mix of
  recv variants that a receiver sleeps past a value if and only if every notifier due to it was
  diverted, and `DivertsExactly` which pops are diversions. `NeverSleepsPastAValue` and
  `QuietNeverSleepsPastAValue` name two families of runs in which it never happens.

## Model

| member | source | states |
|---|---|---|
| MutexInvariant.InvNext | src/mutex/block.rs:15-36 | every atomic step of every acquisition path, of the guard's drop and of did_unlock keeps the inductive invariant: data_lock counts live guards, a list's spinlock counts the threads inside with_mut, and whoever sleeps or is about to push is bound to be found |
| MutexInvariant.StepPush | src/mutex/block.rs:24-28 | a handle pushed after a failed compare-exchange lands on a list that somebody is bound to take, although data_lock may have changed since the attempt |
| MutexInvariant.StepTake | src/mutex.rs:428-441 | taking a whole list loses nobody, because while the taker is inside with_mut no other thread is between its failed attempt and its push |
| MutexInvariant.StepWake | src/mutex.rs:431-434 | waking a batch one by one loses nobody: what leaves the batch has its token or continuation set |
| MutexInvariant.StepDrop | src/guard.rs:59-68 | the store of false makes every listed sleeper depend on the dropper's visits, which are still to come |
| MutexInvariant.StepResume | src/mutex/block.rs:33 | the return of park removes the thread's own token from the set of tokens, and no other; a completed continuation stays completed |
| MutexInvariant.InsideIsLocked | src/spinlock.rs:125-142 | a thread inside with_mut has the spinlock set and is the only one inside |
| MutexInvariant.HolderIsAlone | src/mutex.rs:169-185 | a live guard has data_lock set and is the only one |
| MutexHistory.SerialNext | src/mutex/with.rs:9-12 | every step keeps: the value is the fold of all stores so far, each store was made under the latest acquisition by its author, stores of different guards do not interleave |
| MutexHistory.HeldHasOwner | src/mutex.rs:169-185 | data_lock is true exactly when the thread that acquired last still has its guard |
| MutexHistory.RefinesAtomicLock | src/mutex/spin.rs:11-32 | each step of try_lock, lock_spin, lock_block, lock_async and their timed forms is a step of an atomic lock with one owner and one value, or invisible to it; while the lock is held only Store and Drop by the owner change anything, so a failed swap and a None timeout change nothing |
| MutexTheorems.MutualExclusion | src/guard.rs:59-68 | in every reachable state data_lock is true if and only if some guard is live, and never two guards are live |
| MutexTheorems.NoLostWakeup | src/mutex.rs:428-441 | with spurious wakes, deadlines, stale and duplicate entries: a sleeper of lock_block or lock_async has its signal, is in somebody's taken batch, or is listed while a guard is live or a dropper has still to take that list |
| MutexTheorems.SpinEnds | src/spinlock.rs:129-132 | while some thread waits for a list's spinlock, that thread or one inside this list's with_mut can move |
| MutexTheorems.NeverStuck | src/mutex/block.rs:15-68 | while any call is unfinished some thread can move without a spurious wake or a deadline, or uses a guard |
| MutexTheorems.SerialHistory | src/mutex/with.rs:9-12 | in every run the value, and whatever a closure read, equals the fold of the stores in acquisition order |
| MutexCalls.CallAnswers | src/mutex/block.rs:15-68 | in every run, for each acquisition call: it is under way on the list and with the deadline it was made with, or has the guard, or comes back without: as try_lock that found the lock taken, or with a deadline that was noticed during this very call, and then never from a last try that found the lock free |
| MutexCalls.UntimedReturnsGuard | src/mutex/block.rs:15-36 | lock_block, lock_async and lock_spin return only with the guard, whatever wakes them |
| MutexCalls.TimedCallEnds | src/mutex/block.rs:38-68 | from every point of a timed call the thread can end the call by at most six moves of its own |
| MutexCalls.DeadlineIsKept | src/mutex/block.rs:38-68 | in every run a timed call that has not returned is at such a point: a deadline is never ignored |
| MutexWorkload.WorkInvNext | src/mutex/block.rs:15-36 | every step of a lock_block workload keeps exactly one permit for each waiting thread and none for the others |
| MutexWorkload.MeasureDecreases | src/mutex/block.rs:15-36 | every step of every schedule of a lock_block / drop workload lowers a natural-number measure |
| MutexWorkload.WorkNeverStuck | src/mutex/block.rs:15-36 | no unfinished state of a workload is stuck |
| MutexWorkload.WorkInitMeasure | src/mutex/block.rs:15-36 | the measure at the start is the explicit bound |
| MutexWorkload.WalkInv | src/mutex/block.rs:15-36 | a schedule of k moves costs at least k of the measure |
| WorkloadTheorems.MutexRoundsComplete | src/mutex/block.rs:15-36 | for any number of threads and rounds every schedule is no longer than an explicit bound and, where it stops, either all rounds are complete, and every thread has then acquired the lock exactly once for each of its rounds, or somebody can move |
| MutexPermits.FollowsAny | src/mutex/block.rs:15-68 | every step of MutexModel but a spurious wake or a foreign token is a move of the permit machine or leaves it alone |
| MutexPermits.OnePermitEach | src/mutex/block.rs:22-34 | in every run without spurious wakes and foreign tokens, over all acquisition paths, a thread's entries, handles in batches and token total one between its push and the return of park and zero otherwise |
| MutexObject.Mutex.constructor | src/mutex.rs:124-131 | a new mutex is the initial state of the model and valid |
| MutexObject.Mutex.UnlockWaiting | src/spinlock.rs:137-141 | the spinlock's store of false; the list it protected is free |
| MutexObject.Mutex.TryLock | src/mutex.rs:169-185 | succeeds if and only if data_lock was false, sets it exactly then, and the caller has a guard exactly then |
| MutexObject.Mutex.SwapLock | src/mutex/spin.rs:11-19 | returns the old data_lock; when that was true nothing is changed but the caller's own position |
| MutexObject.Mutex.PushWaiter | src/mutex/block.rs:24-28 | appends the caller's handle or continuation to its list and nothing else |
| MutexObject.Mutex.Awaken | src/mutex/block.rs:33 | park returns with the token, which is gone afterwards, and the loop goes round |
| MutexObject.Mutex.DeadlinePassed | src/mutex/block.rs:40-47 | at the deadline: one last try_lock at the top of the loop, None elsewhere |
| MutexObject.Mutex.ReadInner | src/mutex/with.rs:4-7 | the value read is the fold of all earlier stores |
| MutexObject.Mutex.WriteInner | src/mutex/with.rs:9-12 | the closure's result on the current value is stored, although the value was read in an earlier step |
| MutexObject.Mutex.DropGuard | src/guard.rs:59-68 | stores false; afterwards no thread has a guard |
| MutexObject.Mutex.TakeWaiting | src/mutex.rs:430 | empties the list into the caller's batch |
| MutexObject.Mutex.WakeOne | src/mutex.rs:431-434 | wakes the first of the batch and keeps the rest |
| MutexObject.Mutex.WakeAll | src/mutex.rs:431-434 | the loop over a batch wakes exactly what was in it |
| MutexObject.Mutex.TakeBatch | src/mutex.rs:430 | undisturbed, the critical section of a visit moves the whole list into the batch and frees the spinlock |
| MutexObject.Mutex.TakeAndWakeAll | src/mutex.rs:428-434 | a visit to a list empties it and wakes exactly what was on it |
| MutexObject.Mutex.DidUnlock | src/mutex.rs:428-441 | undisturbed, did_unlock empties both lists and wakes exactly what was on them |
| MutexObject.Mutex.Attempt | src/mutex/block.rs:17-34 | undisturbed, one turn of the loop: a free lock is taken, a taken one leaves the caller asleep and its new key at the end of its own list |
| MutexObject.Mutex.Lock | src/mutex/block.rs:15-36 | undisturbed, the whole call up to the guard or the first sleep |
| MutexObject.Mutex.Retry | src/mutex/block.rs:17-34 | a woken or spuriously woken waiter tries again: the guard, or listed and asleep once more |
| MutexObject.Mutex.LastAttempt | src/mutex/block.rs:40-47 | at the deadline: the guard exactly if the lock is free, None otherwise |
| MutexObject.Mutex.Advance | src/mutex/block.rs:15-36 | the next move of a thread in a workload is one of the methods above |
| MutexObject.Mutex.MovableIsEnabled | src/mutex/block.rs:15-36 | the executable guard for "this thread can move" is the model's |
| MutexObject.RunRounds | src/mutex/block.rs:15-36 | an arbitrary scheduler drives any workload to the end within the explicit bound: all threads idle, data_lock false, and every thread has acquired the lock once for each of its rounds |
| RwLockInvariant.InvNext | src/rwlock/inner.rs:155-188 | every atomic step keeps: the word encodes the guards, spinlocks match, and every sleeper or pusher is bound to be found |
| RwLockInvariant.AcquireEncodes | src/rwlock/read.rs:49-63 | a successful attempt makes the word count one guard more and never carries into bit 7 |
| RwLockInvariant.AcquireOutcome | src/rwlock/write.rs:53-61 | an attempt never lowers the word; a refused reader saw bit 7, a refused writer saw a nonzero word |
| RwLockInvariant.ReleaseEncodes | src/guard.rs:213-233 | both drops find what they assert, the wrapping fetch_sub does not wrap, the word counts one guard less |
| RwLockInvariant.StepDrop | src/guard.rs:213-233 | after a release every sleeper is still bound to be found, although a reader's release visits only the writers' lists |
| RwLockInvariant.StepTake | src/rwlock/inner.rs:155-188 | taking a list loses nobody |
| RwLockInvariant.StepPush | src/rwlock/read.rs:142-146 | whoever pushes after a refused attempt is bound to be found |
| RwLockTheorems.GuardCounts | src/rwlock.rs:143-144 | the totals used by the invariant are the numbers of threads with live guards |
| RwLockTheorems.WordEncodesGuards | src/rwlock.rs:143-144 | in every reachable state: at most one writer, a writer excludes readers, the word is 128 with a writer and the number of readers otherwise, at most 127 readers, no drop assertion fails |
| RwLockTheorems.AttemptOutcome | src/rwlock/read.rs:49-63 | every attempt of every acquisition path: a reader is refused exactly by a live writer and panics exactly at 127 live readers; a writer is refused exactly by a live guard |
| RwLockTheorems.NoLostWakeup | src/rwlock/inner.rs:178-188 | a sleeper that nobody is about to wake is listed: a reader while a writer holds or a releaser has yet to take that list, a writer while any guard is live or a releaser has yet to take it; so waking only writers on a reader's release suffices |
| RwLockTheorems.OnlyWritersWakeReaders | src/rwlock/inner.rs:178-188 | in every run, whoever visits, takes or wakes a readers' list has come there from a write guard it released at an earlier step |
| RwLockTheorems.SpinEnds | src/spinlock.rs:129-132 | without panics, while some thread waits for a list's spinlock, that thread or one inside this list's with_mut can move |
| RwLockTheorems.NeverStuck | src/rwlock/write.rs:135-152 | without panics, while any call is unfinished somebody can move or uses a guard |
| RwLockCalls.CallAnswers | src/rwlock/write.rs:135-152 | in every run, for each acquisition call: it is under way on the list it was made for, or has the guard of its kind, or is a reader that panicked; only try_lock_* comes back without a guard |
| RwLockPanic.PanicsExactly | src/rwlock/read.rs:53-54 | an attempt inside with_mut panics if and only if it is a reader's and 127 readers are live |
| RwLockPanic.PanicKeepsListLocked | src/spinlock.rs:125-142 | after a panic inside with_mut the list's spinlock is set in every continuation and nobody can enter that list: the release on panic that src/spinlock.rs:67-68 documents does not happen |
| RwLockPanic.TheDocumentedReleaseFails | src/rwlock/read.rs:133-154 | a concrete run: 127 readers hold, the next lock_block_read panics and leaves the readers' list locked |
| RwLockWorkload.RoomForReader | src/rwlock/read.rs:53-54 | when at most 127 threads ever read, an attempt never finds 127 readers |
| RwLockWorkload.WorkInvNext | src/rwlock/write.rs:135-152 | every step of a mixed workload keeps one permit for each waiting thread over both lists of threads |
| RwLockWorkload.MeasureDecreases | src/rwlock/write.rs:135-152 | every step of every schedule lowers a natural-number measure |
| RwLockWorkload.WorkNeverStuck | src/rwlock/write.rs:135-152 | no unfinished state is stuck although readers and writers wait on different lists |
| WorkloadTheorems.RwLockRoundsComplete | src/rwlock/write.rs:135-152 | any mix of finitely many read and write rounds, at most 127 threads ever reading: every schedule is bounded, nobody panics, and where it stops somebody can move or all rounds are complete, and then every thread has had a ReadGuard or WriteGuard for each of its rounds, of the right kind and in order |
| RwLockPermits.FollowsAny | src/rwlock/write.rs:135-152 | every step of every acquisition path of the lock but a spurious wake or a foreign token is a move of the permit machine with two lists of threads, or leaves it alone |
| RwLockPermits.OnePermitEach | src/rwlock/write.rs:135-152 | in every run without spurious wakes and foreign tokens, over all acquisition paths, a thread's entries on the readers' and the writers' list, its handles in batches and its token total one between its push and the return of park, and zero otherwise |
| RwLockObject.RwLock.constructor | src/rwlock/inner.rs:144-153 | a new lock is the initial state of the model and valid |
| RwLockObject.RwLock.UnlockWaiting | src/spinlock.rs:137-141 | the spinlock's store of false |
| RwLockObject.RwLock.TryLockRead | src/rwlock/read.rs:49-63 | succeeds if and only if the word was below 127, then adds one; panics if and only if it was 127 |
| RwLockObject.RwLock.TryLockWrite | src/rwlock/write.rs:53-61 | succeeds if and only if the word was 0, then makes it 128 |
| RwLockObject.RwLock.PushWaiter | src/rwlock/write.rs:141-145 | appends the caller to its list and nothing else |
| RwLockObject.RwLock.DropReadGuard | src/guard.rs:213-222 | subtracts one from a positive word; the assertion holds; the writers' lists are visited next |
| RwLockObject.RwLock.DropWriteGuard | src/guard.rs:224-233 | swaps 128 for 0; the assertion holds; all lists are visited |
| RwLockObject.RwLock.TakeWaiting | src/rwlock/inner.rs:155-188 | empties the list into the caller's batch |
| RwLockObject.RwLock.TryInside | src/rwlock/read.rs:136-147 | undisturbed, the attempt under the spinlock succeeds exactly if the word admits the kind; exactly the 128th reader panics, with the spinlock set |
| RwLockObject.RwLock.Attempt | src/rwlock/read.rs:135-153 | one turn of the loop: the guard of its kind, or asleep with the new key at the end of its own list, or the panic |
| RwLockObject.RwLock.Lock | src/rwlock/write.rs:135-152 | the whole call up to the guard, the first sleep or the panic |
| RwLockObject.RwLock.Retry | src/rwlock/write.rs:135-152 | a woken or spuriously woken waiter tries again |
| RwLockObject.RwLock.WakeAll | src/rwlock/inner.rs:157-175 | the loop over a batch wakes exactly what was in it |
| RwLockObject.RwLock.VisitFrom | src/rwlock/inner.rs:155-188 | the rest of did_unlock_read or did_unlock_write empties the lists from the present one on and wakes exactly what was on them |
| RwLockObject.RwLock.ReleaseGuard | src/guard.rs:213-233 | undisturbed, a whole drop: a reader wakes exactly the waiting writers, a writer everybody |
| RwLockObject.RwLock.Advance | src/rwlock/write.rs:135-152 | the next move of a thread in a workload is one of the methods above |
| RwLockObject.RunRounds | src/rwlock/write.rs:135-152 | an arbitrary scheduler drives any mixed workload to the end within the explicit bound: all threads idle, the word 0, and every thread has had a guard of the right kind for each of its rounds, in order |
| CondvarAccounting.InvNext | src/condvar/wait_spin.rs:171-216 | every step keeps: each wait ever registered is listed, popped by a notifier or removed by itself, exactly one of the three |
| CondvarDeadline.LeavesOwn | src/condvar/wait_spin.rs:192-200 | a spin or async wait that removes itself at its deadline removes exactly its own entry: all others stay, in every list, and it is listed nowhere afterwards |
| CondvarAccounting.NotListed | src/condvar/wait_spin.rs:194-199 | a wait whose key is not on its list is on no list |
| CondvarTheorems.SpinExact | src/condvar/wait_spin.rs:171-216 | in every run a spin wait's flag is in exactly one of list, notifier's hands, set, self-removed; a finished wait timed out if and only if it removed itself, if and only if no notifier popped it; its flag is on no list |
| CondvarTheorems.ReturnsSignalled | src/condvar/wait_spin.rs:201-211 | a spin or async wait that returned without a timeout has its flag or continuation set and no notifier still holds it: a spin wait popped at its deadline waits for the store |
| CondvarSignals.SignalNext | src/condvar/wait_spin.rs:201-211 | every step keeps that, for returns under way and for finished waits |
| CondvarCalls.WaitAnswers | src/condvar/wait_spin.rs:171-216 | in every run a wait is under way on the list and with the deadline it was made with, or returns holding the mutex with what it found; it reports a timeout only if it is timed and its deadline was noticed during this very call |
| CondvarCalls.TimedWaitDecides | src/condvar/wait_spin.rs:183-211 | from every point of a timed wait, on any list, the thread can come to the decision at its deadline by at most five moves of its own |
| CondvarCalls.DeadlineIsKept | src/condvar/wait_spin.rs:183-211 | in every run a timed wait that has not decided is at such a point, on the list it was called for |
| CondvarTimed.GoneMeansPopped | src/condvar/wait_block.rs:243-252 | where all blocking waits are timed, a waiter that finds no entry of its thread has been popped |
| CondvarTimed.OwnEntry | src/condvar/wait_block.rs:221-223 | the first entry with the thread's id is that of the current wait and the only one |
| CondvarTimed.TimedNext | src/condvar/wait_block.rs:198-258 | every step keeps: each listed entry is that of its thread's current wait |
| CondvarTheorems.BlockTimeoutExact | src/condvar/wait_block.rs:198-258 | under arbitrary spurious wakes and pops racing the deadline: a thread is listed at most once and only while it waits; timed_out is true if and only if no notifier popped the wait, if and only if it removed itself |
| CondvarTheorems.AsyncReports | src/condvar/wait_async.rs:194-283 | an async wait that did not time out was popped; one that did was removed exactly once, by itself or by a notifier; it is on no list |
| CondvarDeadline.DeadlineNext | src/condvar/wait_async.rs:194-283 | every step keeps, whatever waits are mixed: no entry leaves a list other than by a notifier or its own wait, and a continuation completes only for a wait that was removed |
| CondvarDeadline.GoneIsPopped | src/condvar/wait_async.rs:268-276 | an unfinished wait of any kind has been popped if and only if its own entry is not on its list |
| CondvarTheorems.TimeoutSwallowsExactly | src/condvar/wait_async.rs:268-276 | wait_async_timeout reports a timeout in either case, and the report swallows a notification if and only if the id was no longer listed at the removal |
| CondvarTheorems.TimeoutCanSwallow | src/condvar/wait_async.rs:268-276 | a concrete run: the only wait reports a timeout and the only notify_one popped that very wait |
| CondvarTheorems.BlockTimeoutSwallowsExactly | src/condvar/wait_block.rs:214-227 | wait_block_timeout mixed with anything: a timeout is reported if and only if some entry of the thread is listed, and it is reported although a notifier popped the wait if and only if only entries of earlier waits of the thread are listed |
| CondvarTheorems.BlockCheckMissesExactly | src/condvar/wait_block.rs:243-252 | before the deadline: a wait that was popped goes back to sleep if and only if only entries of earlier waits are listed, and one that returns was popped |
| CondvarTheorems.MixCanSwallow | src/condvar/wait_block.rs:214-227 | a concrete run: wait_block returns from a spurious wake, then wait_block_timeout reports a timeout although the only notify_one popped it |
| CondvarTheorems.OnePopPerCall | src/condvar/notify.rs:37-58 | entries popped by notify_one plus calls that have yet to pop are at most the calls, and all pops together are exactly the waits popped: none is popped twice |
| CondvarNotify.SearchContinues | src/condvar/notify.rs:37-58 | as long as an entry stays on list l since the call, the call has popped something or has list l still ahead |
| CondvarTheorems.NotifyOneCoverage | src/condvar/notify.rs:37-58 | if some entry stays listed from before a notify_one until it returns, that call popped an entry |
| CondvarNotify.SweepPush | src/condvar/wait_block.rs:59-65 | a wait that registers after the sweep cannot have seen the predicate unset, because registration happens under the mutex |
| CondvarNotify.SweepNext | src/condvar/notify.rs:97-115 | every step keeps: after a notify_all that followed the predicate has taken a list, no waiter that saw it unset is on that list |
| CondvarTheorems.NotifyAllReachesEverybody | src/condvar/notify.rs:97-115 | every spin, block or async waiter that saw the predicate unset and still sleeps when that notify_all has taken its list has its wake set or in a notifier's batch |
| CondvarTheorems.SleepersAreFindable | src/condvar/wait_block.rs:56-72 | in every run a registered sleeper has its signal, is in a batch or is listed: nothing is lost between the release of the mutex and the park |
| CondvarObject.FindKey | src/condvar/wait_block.rs:221 | finds the first entry with the key, and finds none exactly when there is none |
| CondvarObject.Condvar.constructor | src/condvar.rs:129-135 | a new condition variable is the initial state of the model and valid |
| CondvarObject.Condvar.RegisterSelf | src/condvar/wait_block.rs:60-62 | appends the wait's entry to its list, where it then is exactly once |
| CondvarObject.Condvar.AtMostOnce | src/condvar/wait_spin.rs:52-55 | a wait is listed at most once over the three lists |
| CondvarObject.Condvar.ReleaseMutex | src/condvar/wait_block.rs:64-65 | the guard dropped is the owner's |
| CondvarObject.Condvar.WasNotified | src/condvar/wait_block.rs:243-252 | notified if and only if no entry of the thread is listed |
| CondvarObject.Condvar.RemoveSelf | src/condvar/wait_block.rs:216-227 | notified if and only if the key is not listed |
| CondvarObject.Condvar.Reacquire | src/condvar/wait_spin.rs:209-211 | returns with the mutex; a spin wait reports a timeout if and only if it removed itself, if and only if it was not popped |
| CondvarObject.Condvar.WaitInVain | src/condvar/wait_spin.rs:171-216 | wait_spin_timeout, wait_block_timeout and wait_async_timeout with nobody notifying: the whole call returns with the mutex and timed_out, and the lists are as before; only an older entry of the thread is exchanged for the new one |
| CondvarObject.Condvar.WakeUp | src/condvar/wait_block.rs:238-256 | a sleeper whose signal is set returns with the mutex and without a timeout, except a timed blocking wait whose thread is listed, which sleeps on |
| CondvarObject.Condvar.NotifyOne | src/condvar/notify.rs:37-58 | undisturbed, the whole call removes exactly the newest entry of the first list that is not empty and wakes exactly it; it changes nothing if and only if all three lists are empty |
| CondvarObject.Condvar.DeliverAll | src/condvar/notify.rs:100-102 | the loop over a batch wakes exactly what was in it |
| CondvarObject.Condvar.NotifyAll | src/condvar/notify.rs:97-115 | undisturbed, the whole call empties the three lists and wakes exactly what was on them |
| Permits.ConservedNext | src/condvar/wait_block.rs:56-72 | every push, take, pop, unpark and park return, over any number of lists of threads, keeps the permits |
| Permits.UnparkConserves | src/condvar/notify.rs:105-108 | unpark never meets a token already set, so its idempotence swallows nothing |
| Permits.ReturnConserves | src/condvar/wait_block.rs:67-68 | when park returns the token was the thread's only permit: nothing of it is listed or in transit |
| Permits.PermitsAreConserved | src/condvar/wait_block.rs:56-72 | over all mutex, lock and condition-variable lists together: one permit from push to park return, none otherwise; every entry is of a thread waiting on that very list; every return is paid for by exactly one removal from that very list |
| Permits.NotifyOneReleasesAtMostOne | src/condvar/notify.rs:37-58 | on any one list of the machine that only pops remove from, the waits that have returned are at most the pops; MonitorTheorems.KCallsReleaseAtMostK is about calls and all lists |
| MonitorInvariant.InvNext | src/condvar/wait_block.rs:56-72 | every step of the composed system, in which wait_block re-acquires by parking on the mutex's own list, keeps the invariants of both sides and their agreement on holder and tokens |
| MonitorInvariant.NothingIsBlocked | src/condvar/wait_block.rs:71 | whatever a thread can do in its own code is enabled in the composed system: the two sides never disagree on who may move |
| MonitorTheorems.EachSideIsARun | src/condvar/wait_block.rs:56-72 | either side of every run of the composed system is a run of its own model, so every theorem about that model holds here |
| MonitorTheorems.HolderHasTheGuard | src/condvar/wait_block.rs:56-72 | the owner of the condition variable's abstract lock is the thread with the mutex's guard |
| MonitorTheorems.NothingBlocksAnybody | src/condvar/wait_block.rs:71 | the same in every reachable state, however the mutex is contended |
| MonitorPermits.FollowsAny | src/condvar/wait_block.rs:56-72 | without spurious wakes and timed blocking calls every step of the composed system is a move of the permit machine with two lists, the condition variable's and the mutex's, or leaves it alone |
| MonitorTheorems.OnePermitOverBoth | src/condvar/wait_block.rs:67-71 | over both lists, both sides' batches and the one token: a thread has one permit from its push on either list to the return of that park, and none otherwise |
| MonitorTheorems.NoStaleEntry | src/condvar/wait_block.rs:56-72 | with contended re-acquisition: whoever is on the condition variable's list is inside wait_block, between its push and the return of its park |
| MonitorHistory.WokenWasPopped | src/condvar/wait_block.rs:67-68 | a thread asleep in wait_block whose token is set has been popped from that very list |
| MonitorTheorems.ReturnsOnlyWhenPopped | src/condvar/wait_block.rs:67-71 | with contended re-acquisition: wait_block's park returns only after a notifier popped the wait, and a token set by the mutex's wake-ups is never mistaken for one |
| MonitorTheorems.KCallsReleaseAtMostK | src/condvar/notify.rs:37-58 | without notify_all, the spin, block and async waits that have returned other than by a timeout are no more than the calls of notify_one |
| ChannelOrder.InvNext | src/mpsc.rs:206-478 | every step of every send, recv, clone and drop keeps: pushed values are received, in hand or queued, in order; sender_count counts the Senders |
| ChannelOrder.TxPushStep | src/mpsc.rs:233-245 | a push happens with the queue's mutex held by the pusher and sender_count above zero, and keeps the invariant |
| ChannelOrder.RxCountStep | src/mpsc.rs:355-357 | Disconnected is found if and only if the count is zero, with the mutex held and the queue empty |
| ChannelTheorems.Fifo | src/mpsc.rs:206-478 | in every reachable state: received values, then the one about to be returned, then the queue, are exactly the pushed values in mutex order |
| ChannelTheorems.SendersOrder | src/mpsc.rs:206-282 | a user's pushes are the values of its Ok sends in order, plus that of its unfinished send if it has pushed: Err sends and timeouts add and lose nothing |
| ChannelTheorems.CountsSenders | src/mpsc.rs:57-74 | sender_count equals the number of Senders that exist or are being dropped |
| ChannelOrder.NobodySends | src/mpsc.rs:57-65 | with sender_count zero nobody is inside a send |
| ChannelTheorems.DisconnectedIsComplete | src/mpsc.rs:286-301 | once any recv variant or try_recv found Disconnected, everything pushed has been received and every user's pushes are exactly its Ok sends |
| ChannelTheorems.DisconnectedIsFinal | src/mpsc.rs:286-301 | in every continuation nothing is received, pushed or sent with Ok any more |
| ChannelCalls.RecvAnswers | src/mpsc.rs:286-478 | in every run a recv variant or try_recv is under way on the list and with the deadline it was made with, or returns from a point where it may; after its wait timed out it never looks at the queue again |
| ChannelCalls.UntimedAnswers | src/mpsc.rs:349-360 | an untimed recv variant returns a value or Disconnected and nothing else |
| ChannelCalls.TryRecvNeverWaits | src/mpsc.rs:286-301 | between its call and its return try_recv is never registered or asleep |
| ChannelCalls.EndsNotified | src/condvar/wait_block.rs:238-256 | what ends each kind of wait without a timeout: flag or continuation set, token or spurious wake, or no entry of the thread listed |
| ChannelCalls.TimedRecvDecides | src/mpsc.rs:318-340 | from every point of a timed wait the receiver can come to its decision by at most three moves of its own |
| ChannelCalls.SendAnswers | src/mpsc.rs:206-282 | in every run a send is under way with its own value or has returned: Ok exactly if it has pushed, Err only with the Receiver gone |
| ChannelTheorems.ActiveExactly | src/mpsc.rs:88-94 | in every reachable state receiver_active is false exactly from the first step of Receiver::drop on |
| ChannelTheorems.NothingSentAfterDrop | src/mpsc.rs:233-245 | from then on, in every continuation, a send that has not loaded the flag under the mutex never returns Ok, and at most one value is pushed, that of the send that was past it |
| ChannelWake.NobodyCarries | src/condvar/wait_spin.rs:51-55 | a wait's flag or continuation is new: nobody can be about to set it before it is registered |
| ChannelLastSender.LastNext | src/mpsc.rs:57-65 | every step keeps: with no Sender left, the final notify_all still has every nonempty list, and the list the receiver is about to register on, ahead of it, unless it missed the receiver |
| ChannelLastSender.PendingSums | src/condvar/notify.rs:97-115 | what "a wake is pending" means: set, in somebody's hands, or listed with the final notify_all still to take that list |
| ChannelTheorems.LastSenderWakes | src/mpsc.rs:57-65 | for every recv variant in any mix: a sleeping receiver of a channel without Senders has its wake pending, except in runs where that notify_all took its list between the load of sender_count and the registration |
| ChannelWake.WakeNext | src/mpsc.rs:206-478 | every step of any mix of recv variants keeps: while the receiver is listed, the notifiers ahead of it at its registration and those of the values pushed since are still coming or have been diverted; the list of threads holds nobody but the receiver's thread |
| ChannelTheorems.SleepsPastAValueExactly | src/condvar/notify.rs:37-58 | in every run of every mix, with spurious wakes, deadlines, stale entries and foreign tokens: a sleeping receiver with a value in the queue and no wake under way has no notifier coming if and only if all of them were diverted |
| ChannelTheorems.DivertsExactly | src/condvar/notify.rs:47-51 | a notify_one is diverted if and only if it pops from the list of threads a handle while the receiver awaits a continuation or has several entries there |
| ChannelTheorems.TheDiversionIsReal | src/condvar/notify.rs:47-51 | a concrete run: after a spurious wake in recv_block a send finds a recv_async asleep, pops the stale handle instead, and nobody is left to wake the receiver |
| ChannelSteady.SteadyNext | src/mpsc.rs:304-360 | every step of recv_block, recv_spin, recv_spin_timeout and try_recv keeps: a diversion has woken the receiver or is about to |
| ChannelTheorems.NeverSleepsPastAValue | src/mpsc.rs:304-360 | in those variants, with spurious wakes, stale entries and foreign tokens: a receiver asleep with a nonempty queue is set, about to be set, or listed while a sender that has pushed has yet to reach its list |
| ChannelTheorems.QuietNeverSleepsPastAValue | src/mpsc.rs:304-478 | the same for any mix of the untimed variants, recv_async included, in runs without spurious wakes and foreign tokens |
| ChannelMissed.QuietNext | src/mpsc.rs:349-360 | without spurious wakes, every step of any mix of untimed recv variants keeps exactly one permit for the waiting receiver |
| ChannelMissed.MissedTake | src/mpsc.rs:59-62 | there is one final notify_all; when it takes the list the receiver is about to register on, nobody is left to come |
| ChannelTheorems.NothingLeftBehind | src/mpsc.rs:349-360 | a receiver that does not wait has no entry on any list and no token |
| ChannelTheorems.MissedExactly | src/mpsc.rs:57-65 | a receiver asleep on a channel without Senders has its wake pending if and only if the final notify_all did not take its list in the window |
| ChannelTheorems.MissedSleepsForEver | src/mpsc.rs:349-360 | a receiver asleep after the window was hit stays asleep in every continuation |
| ChannelTheorems.TheWindowIsReal | src/mpsc.rs:349-360 | a concrete run that ends with the receiver asleep, no Sender, everybody else idle and no wake pending |
| ChannelBounds.TxLowers | src/condvar/notify.rs:37-58 | every step of a send or a Sender's drop lowers the work left, the turn of the receiver's loop that it causes included |
| ChannelBounds.RxLowers | src/mpsc.rs:349-360 | every step of the receiver lowers the work left: its retry loop goes round once for each wake-up |
| ChannelTheorems.RunsAreShort | src/mpsc.rs:206-478 | without spurious wakes every schedule of any number of users takes at most 32 moves for each call made |
| ChannelTheorems.RunsStopIdle | src/mpsc.rs:206-478 | where nobody inside a call can move, the mutex is free, all users are idle, and the receiver is idle, gone or asleep |
| ChannelTheorems.RunsStopWithAllReceived | src/mpsc.rs:349-360 | if asleep there, it has received everything ever pushed, and no Sender is left if and only if the window of the last Sender was hit |
| ChannelTheorems.WorkloadsComplete | src/mpsc.rs:480-485 | users that send, clone and drop all Senders and a receiver that iterates: at the end the value of every Ok send has been received, and the receiver sleeps for ever if and only if the window was hit |
| ChannelObject.Channel.constructor | src/mpsc.rs:188-204 | a new channel is the initial state of the model and valid |
| ChannelObject.Channel.CloneSender | src/mpsc.rs:67-74 | one Sender more, a new one, and sender_count one more |
| ChannelObject.Channel.PushBack | src/mpsc.rs:241 | appends exactly the value sent, holding the mutex, with sender_count above zero |
| ChannelObject.Channel.ReleaseQueue | src/mpsc.rs:242 | releases the mutex its owner holds |
| ChannelObject.Channel.SubtractSender | src/mpsc.rs:59-60 | takes one from sender_count without wrapping; tells whether it was the last |
| ChannelObject.Channel.BeginTryRecv | src/mpsc.rs:286-290 | try_lock succeeds if and only if the queue's mutex is free |
| ChannelObject.Channel.PopFront | src/mpsc.rs:352-354 | removes and returns the front value; None exactly when the queue is empty |
| ChannelObject.Channel.LoadSenderCount | src/mpsc.rs:291-298 | Disconnected if and only if sender_count is zero, and then the queue is empty; otherwise try_recv fails and the others go on to wait |
| ChannelObject.Channel.Return | src/mpsc.rs:286-301 | the value popped or the error found is what is returned; a value joins the received ones; Disconnected means that everything pushed has been received |
| ChannelObject.Channel.RegisterSelf | src/condvar/wait_block.rs:59-62 | appends the receiver to the list it waits on |
| ChannelObject.Channel.WasNotified | src/condvar/wait_block.rs:243-252 | notified if and only if no entry of the thread is listed |
| ChannelObject.Channel.Resume | src/mpsc.rs:349-360 | an untimed recv variant from its acquisition of the mutex: it returns the oldest value, finds Disconnected, goes to sleep registered, or has to wait for the mutex, according to mutex, queue and count |
| ChannelObject.Channel.NextMessage | src/mpsc.rs:480-485 | IntoIter::next, or any untimed recv, in any state of the channel: the same outcomes; None only when everything pushed has been received |
| ChannelObject.Channel.ReceiveRest | src/mpsc.rs:480-485 | the for loop over a Receiver until it ends or has to wait, in any state of the channel: it yields the whole queue in order if the mutex is free, and ends exactly when no Sender is left |
| ChannelObject.Channel.Search | src/condvar/notify.rs:37-58 | the notify_one of a send removes exactly the newest entry of the first list that is not empty and wakes exactly it |
| ChannelObject.Channel.Send | src/mpsc.rs:233-245 | a whole send: refused exactly if Receiver::drop has begun, held up exactly by a held mutex, otherwise the value is at the back of the queue and one receiver is notified |
| ChannelObject.Channel.WakeAll | src/condvar/notify.rs:100-102 | the loop over a batch wakes exactly what was in it |
| ChannelObject.Channel.DropSender | src/mpsc.rs:57-65 | a whole Sender::drop: the count is one lower, and exactly the last one empties the three lists and wakes exactly what was on them |
| ChannelObject.Channel.TryReceive | src/mpsc.rs:286-301 | a whole try_recv in any state: Empty if the mutex is held, else the front value, else Disconnected exactly without Senders, else Empty; it waits for nothing |
| ChannelObject.Channel.ReceiveTimeout | src/mpsc.rs:318-340 | a whole timed recv in any state with nobody interfering: the same answers with Timeout for Empty, and the lists are as before |
| ChannelObject.Channel.DropReceiver | src/mpsc.rs:88-94 | a whole Receiver::drop: receiver_active is false, the three lists are empty and exactly what was on them is woken |

## Left out

- Weak memory orderings, `UnsafeCell` aliasing, and the `Send` and `Sync` implementations: steps interleave.
- The `continue` crate, executors, cancelled futures and timeout helper threads: a continuation is a one-shot cell and a timeout an event that may happen at any time.
- Platform dispatch: `src/condvar/wait_sync.rs`, `src/mutex/sync_impl.rs` and `src/wasm_support.rs` choose one of the modelled strategies.
- Display, Debug, Default, From, AsRef, Deref and the error types: no protocol content.
- Panics other than "Too many readers" and the drop assertions, and unwinding: a panicked thread stops where it is.
- A thread that holds several guards of one lock at once, or blocks on a lock whose guard it holds.
- The value protected by `RwLock`: guards exclude each other (`RwLockTheorems.WordEncodesGuards`), the value itself is not part of the state.
- Fairness of spinning acquirers: the code promises none.
- `with_sync`, `with_async`, `with_mut_async` and the `_while` forms of the waits: they add a closure around the modelled calls; `with_mut_sync` is a load and a store under the guard.
- Waits on one condition variable with guards of different mutexes, and more than one predicate per condition variable.
- CondvarTheorems.BlockTimeoutExact: is about condition variables on which all blocking waits are timed; `CondvarTheorems.BlockTimeoutSwallowsExactly` and `BlockCheckMissesExactly` are about every mix.
- A receiver moved between threads: its handle would change with it.
- ChannelTheorems.NeverSleepsPastAValue: is about `recv_block`, `recv_spin`, `recv_spin_timeout` and `try_recv`; `ChannelTheorems.SleepsPastAValueExactly` is about every mix of variants.
- ChannelTheorems.RunsAreShort: is about runs of the untimed recv variants without spurious wakes and foreign tokens; a deadline read again and again, or endless spurious wakes, make a run as long as one likes.
- WorkloadTheorems.RwLockRoundsComplete: at most 127 threads ever read, because the 128th simultaneous reader panics (`RwLockPanic.PanicsExactly`).
- ChannelTheorems.MissedExactly: is about runs of the untimed recv variants without spurious wakes and foreign tokens; a spurious wake or a deadline ends the sleep of a receiver that was missed. `ChannelTheorems.LastSenderWakes` has no such restriction.
- MonitorTheorems.KCallsReleaseAtMostK: in runs without spurious wakes, foreign tokens and timed blocking waits; a spurious wake releases a `wait_block` that nobody notified.
- The composed system has one condition variable and one mutex; the channel's queue mutex is atomic there.
- Permits.PermitsAreConserved: no timed blocking calls and no spurious wakes, since both leave stale entries behind.
- `Mutex::lock_block_timeout` as used by the channel's timed variants: giving up or acquiring are both possible at the deadline; the last `try_lock` is a step of the mutex model only.
- `usize` overflow of `sender_count` by more than 2^64 clones, and of the async id counter.
- The `eprintln!` of `notify_one`.
