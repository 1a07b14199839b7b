# Verification model of the asyn core

A Dafny 4.11 model of the parts of asyn whose correctness is least obvious from reading one
function: the port scheduler of `asynManager.c` with its threads, locks and events; the two
protocols by which clients wait for it; the parameter library of asynPortDriver; and the ring
buffers, read-back and averaging of device support. Check everything with
`dafny verify dfyconfig.toml`.

## How it is organised

| files | subject |
|---|---|
| `Common.dfy` | an option type, columns of record fields, 32-bit words as sets of bit numbers |
| `PortQueues.dfy`, `PortRegions.dfy` | the four request lists; one function for each stretch of code between taking and releasing `asynManagerLock` |
| `PortMonitor.dfy` | the same regions as a class that updates its fields in place, loops included, proved against those functions |
| `PortScan.dfy`, `PortScanSteps.dfy`, `PortFlag.dfy` | the scan of `portThread` as one computation, what it finds, that the thread's small steps agree with it, and the flag `callTimeoutUser` |
| `PortSystem.dfy` | the transition system: port thread, any number of clients, timer thread |
| `PortRep`, `PortEffects` | its representation invariant; what each request, control action and client operation does to the whole state, condition by condition |
| `PortWake`, `PortProgress`, `PortPass`, `PortOrder`, `PortHolders`, `PortLedger`, `PortCancel`, `PortOverlap`, `PortLife` | the theorems over all runs |
| `LockPort.dfy` | `queueLockPort` and `queueUnlockPort` against `lockPort` and other callbacks |
| `InterruptList.dfy` | adding and removing interrupt users while callbacks are under way |
| `ParamLibrary.dfy`, `ParamTracking.dfy`, `ParamEffects.dfy`, `ParamObjects.dfy` | the parameter library: functions, runs, what setters store and whom callbacks reach, classes |
| `Ring.dfy`, `Readback.dfy`, `Averaging.dfy` | device support: ring buffer, read-back of output records, averaging |
| `Shutdown.dfy`, `ShutdownObjects.dfy` | shutdown of a destructible port and its driver |
| `MemPool.dfy` | the size-class pool of `memMalloc` |

The scheduler is a set of states and events. An event is one lock region, or one action outside
any region; every interleaving of them is a run. While the port thread holds `asynManagerLock`
it moves in small steps, between which only events that do not take that lock can happen. User
callbacks are arbitrary: between the beginning and the end of a callback any client event is
possible. What a thread still has to do after a region (signal, stop a timer, finish a callback,
wait) is kept in counters, so that any number of threads and any nesting is covered.

## Hypotheses

The code does not enforce the following. Each is a predicate over events; where it says so, it is
the exact condition.

- `PortHolders.EndsWell`: when a callback ends, its user is still at the device it was called for, if it blocks a device; and nobody else holds its device, if it blocks the port. This is exact: the holders have been sound at every moment exactly if every callback so far has ended well (`HeldIff`). It is enough that no user is connected to another device inside its own callback (`Stays`, `StayingEndsWell`). `MovedHolderStays` and `MutualLockout` are the two ways to fail it: a device that is held for ever, and two holders that lock each other out.
- `PortCancel.Orderly`, of one user: no second callback of it begins while one is in progress, and no second cancel begins to wait. This is exact too (`ShakenIff`), and other users do not matter. For its clients it is enough to be `Serial`: no request inside the timeout callback, none between dispatch and the end of a callback that has a timeout or comes while a timer still runs, and no second waiting cancel. A request against this, and nothing else, makes a second callback possible (`GuardedStepIff`, `HastyTimerIsSecond`, `HastyInTimeoutIsSecond`); every second callback and every second wait breaks the handshake (`SecondCallbackBreaks`, `OverlapReturnsEarly`, `UnheardGoesOn`, `SecondWaitReturnsEarly`); and `EarlyReturnIsReached` is a run from the start of a port to a cancel that returns too early.
- `PortLife.Prompt`: no callback of a user ends between the two steps of `freeAsynUser`. `LostStep` says that this is exact, `LostForever` that a user that is lost is never reused, and `PromptWithoutEnd` that it holds of itself inside the callback.
- `InterruptList.DisjointRun`: brackets of `interruptStart` and `interruptEnd` do not overlap. The model allows overlap: the list is protected exactly when the latest start or end was a start (`ProtectedIff`), it stays as it is exactly if no call succeeds (`StaysIffNoSuccess`), and all who wait will be found exactly if no start comes while somebody waits (`FoundIffNobodyForgotten`). A node has one addition or removal in flight.
- `ParamTracking`: callbacks are done for the list's own address, the interrupt source is registered, a subscriber names an existing parameter, and does not set parameters inside its callback.
- `Readback.OnlyPactSkips`: `dbProcess` skips the record only because of PACT; needed only for `NeverStranded` and what starts from it. `SkipStrandsIff` is the exact condition.
- `Shutdown.Can`: nobody deletes a driver twice. `MemPool.Can`: blocks are freed once, with the size they were asked for, and that is not 0.

Where the property that one would expect fails, the code is modelled as it is: `callTimeoutUser`
stays set when the disconnected request that raised it is skipped. `DispatchFlagIff` says when it is
set, `FlagIsRightIff` when it is right, and `StaleTimeoutFlag` is a run from the start of a port to a
user that is called back by timeout although it has no timeout callback. `processAo` of Int32 takes
a second ring element when the break table conversion fails (`AoBalancedIff`, `AoWritesToDevice`);
an array ring of one slot retains nothing (`CapacityOfRings`). About timers the model assumes that
one that was cancelled does not expire later, and the expiry of a timer is one event with the first
lock region of `queueTimeoutCallback`.

## Model

| member | source | states |
|---|---|---|
| PortQueues.LocateFindsQueued | asyn/asynDriver/asynManager.c:1663-1675 | the search from the Connect list down finds a user exactly when it is on one of the lists |
| PortQueues.DeleteShifts | asyn/asynDriver/asynManager.c:894-895 | taking one request off leaves every other one, each moved up by at most one place |
| PortMonitor.Monitor.constructor | asyn/asynDriver/asynManager.c:2047-2102 | a new port has empty lists, no holders, and is enabled and not connected |
| PortMonitor.Monitor.QueueRequest | asyn/asynDriver/asynManager.c:1516-1630 | every refusal in its order, and the whole new state of an accepted request |
| PortMonitor.Monitor.Search | asyn/asynDriver/asynManager.c:1663-1675 | the nested loops return the place that the abstract search names |
| PortMonitor.Monitor.CancelRequest | asyn/asynDriver/asynManager.c:1632-1692 | what is removed, whether the timer is to be stopped, and when a cancel has to wait |
| PortMonitor.Monitor.TimerExpires | asyn/asynDriver/asynManager.c:649-688 | a stale expiry changes nothing but the timer; any other takes the request off and makes the scan start again |
| PortMonitor.Monitor.Scan | asyn/asynDriver/asynManager.c:869-900 | the two for loops dispatch what the scan function finds, stop where the lock has to be dropped, and change nothing otherwise |
| PortMonitor.Monitor.AfterCallback | asyn/asynDriver/asynManager.c:930-943 | holders taken, callbackDone signalled if cancelled, state idle, in one region |
| PortMonitor.Monitor.UnblockProcessCallback | asyn/asynDriver/asynManager.c:1727-1776 | the count goes down, the holder is released with the last one, and then a signal is owed |
| PortScan.ScanFindsFirst | asyn/asynDriver/asynManager.c:869-900 | the scan stops at the first request, in the order of priority and list, that is enabled and has a device to be connected automatically or is not locked out; exactly when the flag is up there; or there is none |
| PortScanSteps.StepsRefineScanFrom | asyn/asynDriver/asynManager.c:869-900 | from any place of a scan the thread's steps end in the state that the scan function describes: a dispatch, the end, or in front of a call of autoConnectDevice |
| PortScanSteps.StepsRefineTestSlot | asyn/asynDriver/asynManager.c:886-900 | likewise from the second half of the loop's body |
| PortScanSteps.AttemptGoesOn | asyn/asynDriver/asynManager.c:878-885 | a call of autoConnectDevice, with or without a dropped lock, leads to the second half for the same request, or to a restart if the lists changed |
| PortScanSteps.ScanIsRefined | asyn/asynDriver/asynManager.c:869-900 | so in every run, wherever the thread is in a scan with the lock held |
| PortFlag.DispatchFlagIff | asyn/asynDriver/asynManager.c:869-888 | in every run, callTimeoutUser is set at a dispatch exactly if since the scan began a request was tested that was disconnected and had a timeout callback then |
| PortFlag.FlagIsRightIff | asyn/asynDriver/asynManager.c:886-919 | so the callback is the one meant for the request exactly if that itself raises the flag, or none passed over did |
| PortFlag.StaleTimeoutFlag | asyn/asynDriver/asynManager.c:886-919 | a reachable state in which a user without timeout callback has been dispatched to be called by timeout |
| PortRep.RepStep | asyn/asynDriver/asynManager.c:797-948 | every event of every thread keeps the lists, the flags, the free list and the place of the scan consistent |
| PortRep.RepAlways | asyn/asynDriver/asynManager.c:797-948 | so they are consistent in every state of every run |
| PortRep.ListsRemove | asyn/asynDriver/asynManager.c:1665-1685 | a request taken off the lists leaves them in step with the flags |
| PortRep.FlaggedIffInOneSlot | asyn/asynDriver/asynManager.c:1586-1618 | isQueued holds exactly when the user occurs on the lists, and then it occurs once |
| PortRep.DispatchIsQueued | asyn/asynDriver/asynManager.c:813-820 | the asserts on isQueued never fail: whatever the thread takes off is queued and connected |
| PortRep.NoLogicError | asyn/asynDriver/asynManager.c:1676-1682 | the LOGIC ERROR branches of cancel and timeout are unreachable |
| PortRep.RecycledIsClean | asyn/asynDriver/asynManager.c:1194-1208 | whatever is on the free list is there once, not queued, not connected, blocks nothing: the asserts of createAsynUser hold |
| PortRep.CancelEffect | asyn/asynDriver/asynManager.c:1632-1692 | a cancel removes a queued request and owes a signal, or waits for an active callback, or does nothing |
| PortRep.ExpireEffect | asyn/asynDriver/asynManager.c:649-688 | an expiry removes a queued request and starts the timeout callback if there is one |
| PortEffects.LinkedAlways | asyn/asynDriver/asynManager.c:1324-1357 | in every run exactly the connected users have a device, and a device other than the port only on a multi-device port |
| PortEffects.QueueIff | asyn/asynDriver/asynManager.c:1516-1630 | a request becomes queued exactly if its user is connected, has a process callback and none queued, the port is enabled, and connected unless it is a Connect request for the port or one that asks not to check, and a timeout comes with a timeout callback; then its place, the timer and the signal; otherwise nothing changes |
| PortEffects.RefusalIff | asyn/asynDriver/asynManager.c:1527-1597 | each refusal is returned exactly if its own condition is the first that fails |
| PortEffects.AcceptedIsPlaced | asyn/asynDriver/asynManager.c:1599-1616 | an accepted request comes after all that wait in its list, or before them if its user blocks and holds the port or its device |
| PortEffects.FirstComeFirstServed | asyn/asynDriver/asynManager.c:1599-1616 | a request that is no blocking holder's is dispatched before one that already waited in its list only if that could not be dispatched at some moment since |
| PortEffects.CancelIff | asyn/asynDriver/asynManager.c:1632-1692 | a cancel takes the request off its list and leaves all others in place, and leaves the timer to be stopped if it has a timeout; or waits, exactly if the callback is active and not canceled yet; or changes nothing |
| PortEffects.OutcomesIff | asyn/asynDriver/asynManager.c:1632-1692 | each outcome of cancel and of the timeout has its own condition |
| PortEffects.CancelCompletes | asyn/asynDriver/asynManager.c:1684-1691 | the tail of a cancel stops the timer, if there is one to stop, and owes a signal; that of one that waited empties the event |
| PortEffects.ExpiryIff | asyn/asynDriver/asynManager.c:649-688 | an expiry of a queued request takes it off its list and begins the timeout callback or owes a signal; a stale one only ends the timer |
| PortEffects.TimerRunsIff | asyn/asynDriver/asynManager.c:1619-1627 | in every step: a timer runs exactly if an accepted request with a timeout has started it and it has neither expired nor been stopped by a cancel or the start of the callback |
| PortEffects.TestIff | asyn/asynDriver/asynManager.c:886-900 | the request at hand is dispatched exactly if nobody else holds the port or the device of its user; then it is off its list, active, and no other request has moved |
| PortEffects.CallbackBegins | asyn/asynDriver/asynManager.c:904-907 | when the callback begins, the timer is stopped exactly if the request had a timeout |
| PortEffects.CallbackEnds | asyn/asynDriver/asynManager.c:930-946 | the three places where a callback ends do the same for its user; after a Low, Medium or High callback the holders are taken, and the thread stops the pass exactly if the lists have changed |
| PortEffects.BlockIff | asyn/asynDriver/asynManager.c:1694-1725 | only a connected user without a queued request can block, and then only its own count of that kind goes up |
| PortEffects.UnblockPortIff | asyn/asynDriver/asynManager.c:1727-1776 | only who blocks and has no queued request can unblock; the count goes down by one; the last one gives back the port, if it is held, and owes a signal |
| PortEffects.UnblockDeviceIff | asyn/asynDriver/asynManager.c:1727-1776 | likewise for the device that the user is connected to |
| PortEffects.BlockRefusalIff | asyn/asynDriver/asynManager.c:1694-1776 | each refusal of both by its own condition |
| PortEffects.DeviceIff | asyn/asynDriver/asynManager.c:2224-2310 | enable, shutdown and a change of connection act on one dpCommon and owe an announcement, or are refused and change nothing |
| PortEffects.AnnouncementEnds | asyn/asynDriver/asynManager.c:632-638 | the end of an announcement makes the scan start again and owes a signal |
| PortEffects.AttachIff | asyn/asynDriver/asynManager.c:1324-1357 | which device an address means, and how a new one begins |
| PortEffects.DetachIff | asyn/asynDriver/asynManager.c:1359-1414 | a user is disconnected exactly if it is connected, has no queued request, blocks nothing and is on no exception list |
| PortEffects.ExceptionListIff | asyn/asynDriver/asynManager.c:2142-2192 | a user on the exception list cannot be disconnected, and only its own place there changes |
| PortEffects.CreateGives | asyn/asynDriver/asynManager.c:1176-1215 | the first of the free list or, when that is empty, a new user; not queued and no longer released |
| PortEffects.FreeIff | asyn/asynDriver/asynManager.c:1248-1253 | an idle user is for the free list, any other is left to the end of its callback |
| PortEffects.FreeEndsIn | asyn/asynDriver/asynManager.c:1248-1253 | it goes to the end of the free list, or is marked for the end of its callback |
| PortWake.WakefulStep | asyn/asynDriver/asynManager.c:797-948 | every event keeps: nobody owes a signal, or the thread has nothing to find behind it |
| PortWake.NoLostWakeup | asyn/asynDriver/asynManager.c:805-812 | when the thread sleeps with an empty event, the port is enabled and nobody owes a signal, no Connect request waits and, on a connected port, no request is dispatchable |
| PortWake.RequestQuiet | asyn/asynDriver/asynManager.c:1617-1628 | a request, cancel or timeout that leaves no signal owed has not changed the lists |
| PortWake.ControlQuiet | asyn/asynDriver/asynManager.c:624-638 | nor has an unblock, enable, shutdown or connect that leaves none owed changed what the scan depends on |
| PortProgress.SleeperCanBeWoken | asyn/asynDriver/asynManager.c:613-639 | what the other threads have begun can always be finished without the port thread, and then its event is full |
| PortProgress.ThreadGoesOnIff | asyn/asynDriver/asynManager.c:805-948 | the port thread can always take a step, except when it sleeps and its event is empty |
| PortProgress.StepsDescend | asyn/asynDriver/asynManager.c:812-947 | every step but the wake-up, whatever it finds, lowers the queued requests, the stage of the pass or the rest of the scan: the thread cannot go round in circles |
| PortProgress.ServedInTheEnd | asyn/asynDriver/asynManager.c:805-948 | from every state of every run: when what was begun is finished the thread sleeps, nothing is owed, and of an enabled port no Connect request is left and, if it is connected, nothing that can be dispatched |
| PortProgress.AttemptIff | asyn/asynDriver/asynManager.c:706-741 | the lock is dropped to connect automatically exactly for what is enabled, not connected and to be connected automatically, the port before a device |
| PortHolders.HoldersAskedForIt | asyn/asynDriver/asynManager.c:931-934 | the holder of the port or of a device has a positive count for it, is connected, and to that device |
| PortHolders.OnlyHoldersRun | asyn/asynDriver/asynManager.c:889-896 | while somebody holds the port, or a device, no callback of another user runs there from the Low, Medium and High lists |
| PortHolders.BlockerBecomesHolder | asyn/asynDriver/asynManager.c:931-934 | after its callback a user holds the port exactly when it blocks that, and its device exactly when it blocks that |
| PortHolders.HolderUntilUnblocked | asyn/asynDriver/asynManager.c:1758-1764 | the holder of the port stays that until its own last unblock, and is one no longer then |
| PortHolders.DeviceHolderUntilUnblocked | asyn/asynDriver/asynManager.c:1765-1772 | likewise the holder of a device |
| PortHolders.HolderNeverReplaced | asyn/asynDriver/asynManager.c:1758-1772 | a holder changes only from nobody to a user and from a user to nobody |
| PortHolders.HolderIsDispatchable | asyn/asynDriver/asynManager.c:889-892 | the holder of the port is never locked out by the holder of its own device |
| PortHolders.HolderIsServed | asyn/asynDriver/asynManager.c:805-901 | blocking cannot deadlock with itself: the thread does not go to sleep on the holder's request |
| PortHolders.HeldStepIff | asyn/asynDriver/asynManager.c:930-934 | every event keeps holders, counts and devices matched, except the end of a callback that does not end well, which never does |
| PortHolders.HeldIff | asyn/asynDriver/asynManager.c:930-934 | over any run they have been matched at every moment exactly if every callback so far has ended well |
| PortHolders.TakeHoldersIff | asyn/asynDriver/asynManager.c:931-934 | the two assignments leave the holders sound exactly if the user is still at the device it was called for, if it blocks a device, and nobody else holds its device, if it blocks the port |
| PortHolders.StayingEndsWell | asyn/asynDriver/asynManager.c:1324-1357 | it is enough that no user is connected to another device inside its own callback |
| PortHolders.MovedHolderStays | asyn/asynDriver/asynManager.c:1765-1772 | a run in which a moved user keeps a device that no unblock releases |
| PortHolders.MutualLockout | asyn/asynDriver/asynManager.c:889-892 | a run in which a moved user holds the port and another user its device, and neither can be dispatched although the device is enabled |
| PortOrder.ScanExplained | asyn/asynDriver/asynManager.c:869-900 | a scan, dropped locks included, has looked at every request behind it at a moment when that could not be dispatched |
| PortOrder.DispatchTakesFirst | asyn/asynDriver/asynManager.c:869-900 | every dispatch takes the first request that was found enabled and not locked out when the scan came to it |
| PortOrder.OrderStep | asyn/asynDriver/asynManager.c:1605-1616 | two requests of a list keep their order for as long as both are queued |
| PortOrder.NotOvertaken | asyn/asynDriver/asynManager.c:871-900 | a request is dispatched before an earlier one of its list only if that one could not be dispatched at some moment since |
| PortOrder.ConnectListDrained | asyn/asynDriver/asynManager.c:812-857 | each pass has found the Connect list empty since it woke up, before it scans the others |
| PortPass.DisabledPortSleeps | asyn/asynDriver/asynManager.c:808-811 | a thread that takes the lock of a disabled port sleeps again and has changed nothing; else its pass begins |
| PortPass.PassBegan | asyn/asynDriver/asynManager.c:805-812 | whatever the thread does, it took the lock while the port was enabled, and has not slept since |
| PortPass.ServesConnectedPort | asyn/asynDriver/asynManager.c:812-864 | whenever it scans, has dispatched or runs a Low, Medium or High request, it has in the same pass found first the Connect list empty and then the port connected |
| PortPass.ScansIffConnected | asyn/asynDriver/asynManager.c:858-863 | with the Connect list empty it scans exactly if the port is connected, at once or after an attempt |
| PortPass.ConnectFirst | asyn/asynDriver/asynManager.c:812-901 | nothing is dispatched from the other lists while a Connect request waits, unless that came while the lock was dropped in this pass to connect the port |
| PortPass.ConnectTakesFirst | asyn/asynDriver/asynManager.c:812-827 | the first Connect request is taken, whatever its device and whoever holds it |
| PortPass.ConnectNotOvertaken | asyn/asynDriver/asynManager.c:812-820 | a Connect request is never dispatched before one that waits in front of it |
| PortPass.WakesAreSignalled | asyn/asynDriver/asynManager.c:806 | the thread never wakes more often than it was signalled |
| PortLedger.ExactlyOneOutcome | asyn/asynDriver/asynManager.c:1516-1692 | over every run, requests accepted = dispatched + timed out + cancelled + still queued, for each user |
| PortLedger.LedgerStep | asyn/asynDriver/asynManager.c:649-703 | an event has at most one of these effects, and only on a request in the right state |
| PortCancel.ShakenStepIff | asyn/asynDriver/asynManager.c:1632-1692 | for each user, every event keeps one callback at a time, its state, and a callback or a signal for each waiting cancel, except a second callback or a second wait, which never do |
| PortCancel.ShakenIff | asyn/asynDriver/asynManager.c:1632-1692 | over any run that has held at every moment exactly if there has been no second callback and no second wait |
| PortCancel.GuardedStepIff | asyn/asynDriver/asynManager.c:1586-1628 | a request accepted inside the timeout callback, or with a timeout or a running timer between dispatch and the end of a callback, and nothing else, leaves a queued request that can begin a second callback |
| PortCancel.SerialIsOrderly | asyn/asynDriver/asynManager.c:1516-1630 | without such requests and second waits of a user none begins, whatever other users do |
| PortCancel.CanceledKept | asyn/asynDriver/asynManager.c:826-850 | only the end of its callback ends the canceled state of a user |
| PortCancel.TurnsAddUp | asyn/asynDriver/asynManager.c:935-937 | waits begun are those returned from plus those waiting; signals given are those taken plus the one in the event |
| PortCancel.CancelWaitsForCallback | asyn/asynDriver/asynManager.c:1646-1655 | a cancel that finds the callback active returns only after that callback has ended |
| PortCancel.OneSignalPerWait | asyn/asynDriver/asynManager.c:935-937 | callbackDone is signalled once for each waiting cancel, never left over, and always given when the callback is over |
| PortOverlap.SecondCallbackBreaks | asyn/asynDriver/asynManager.c:687-693 | a second callback loses the signal of a cancel that waits, or leaves two callbacks that no cancel can wait for |
| PortOverlap.OverlapReturnsEarly | asyn/asynDriver/asynManager.c:687-693 | with two callbacks of a user in progress a cancel that finds it active returns while one of them still is |
| PortOverlap.UnheardGoesOn | asyn/asynDriver/asynManager.c:1646-1652 | a cancel that has lost its signal never returns, unless another one begins to wait |
| PortOverlap.SecondWaitReturnsEarly | asyn/asynDriver/asynManager.c:1646-1652 | a second waiting cancel can return by the signal for the first |
| PortOverlap.HastyTimerIsSecond | asyn/asynDriver/asynManager.c:1619-1626 | a hasty request between dispatch and the end of a callback: the timer can begin a second one at once |
| PortOverlap.HastyInTimeoutIsSecond | asyn/asynDriver/asynManager.c:687-693 | a hasty request inside the timeout callback: whatever takes it before that ends begins a second one |
| PortOverlap.EarlyReturnIsReached | asyn/asynDriver/asynManager.c:649-703 | a run from the start of a port to a cancel that returns too early |
| PortLife.FreedExactlyOnce | asyn/asynDriver/asynManager.c:1239-1256 | a user given to freeAsynUser is on the free list exactly once, as soon as no callback of it is in progress |
| PortLife.NotFreedInCallback | asyn/asynDriver/asynManager.c:1249-1253 | and with callbacks that do not overlap it is not there while one is in progress |
| PortLife.PromptWithoutEnd | asyn/asynDriver/asynManager.c:1248-1253 | freeAsynUser is prompt if no callback of the user ends between its two steps, so always inside the callback |
| PortLife.LostStep | asyn/asynDriver/asynManager.c:694-699 | a user becomes lost exactly when freeAfterCallback is set with no callback in progress |
| PortLife.LostForever | asyn/asynDriver/asynManager.c:1248-1253 | and is then never on the free list again |
| LockPort.OkStep | asyn/asynDriver/asynManager.c:949-992 | every step keeps event, mutex, count, request and the port thread's place in the relation each phase of a caller demands |
| LockPort.Exclusive | asyn/asynDriver/asynManager.c:1834-1929 | while a thread has the port, the port thread is parked in its callback with synchronousLock; nobody else has the port by queueLockPort or lockPort and no other callback runs |
| LockPort.OnlyItsOwnerReleases | asyn/asynDriver/asynManager.c:1931-1980 | that lasts until this thread itself releases the mutex |
| LockPort.NothingLeftOver | asyn/asynDriver/asynManager.c:1892-1919 | after success and unlock, failure or timeout alike, the event is empty, the mutex free and the count 0 |
| LockPort.WakesForOneReason | asyn/asynDriver/asynManager.c:1905-1919 | the caller wakes with the port locked or with a timeout, and can tell which |
| LockPort.FailsIffTimedOut | asyn/asynDriver/asynManager.c:1892-1919 | a call fails exactly if after its request was queued the timer took it off the queue or it was dispatched as timed out; otherwise it returns with the port locked |
| LockPort.WaitersAreServed | asyn/asynDriver/asynManager.c:949-970 | whoever waits for an event has it, or the thread that will signal it can go on unless a lockPort caller has synchronousLock |
| LockPort.CountIsNesting | asyn/asynDriver/asynManager.c:1873-1878 | recursion only counts: the count is the successful locks less the unlocks |
| LockPort.LockPortNests | asyn/asynDriver/asynManager.c:1778-1832 | a thread has the port by lockPort exactly while it has locked more often than unlocked, and then neither another thread nor a callback has it |
| InterruptList.ListIsStable | asyn/asynDriver/asynManager.c:2636-2671 | with brackets that do not overlap, from interruptStart to interruptEnd the callback list does not change |
| InterruptList.ProtectedIff | asyn/asynDriver/asynManager.c:2574-2590 | with any overlap, until the port is shut down, no event can change the list exactly when the latest start or end of a bracket was a start |
| InterruptList.StaysIffNoSuccess | asyn/asynDriver/asynManager.c:2588-2589 | the list stays the same over an interval exactly if no call succeeds in it |
| InterruptList.NobodyForgotten | asyn/asynDriver/asynManager.c:2649-2671 | with brackets that do not overlap, everyone who waits while none is open has its signal |
| InterruptList.FoundIffNobodyForgotten | asyn/asynDriver/asynManager.c:2641-2644 | with any overlap, everyone who waits will be found at every moment exactly if no interruptStart comes while somebody waits |
| InterruptList.ForgottenIsNotSignalled | asyn/asynDriver/asynManager.c:2655-2660 | after such a start the interruptEnd that follows wakes nobody |
| InterruptList.FlagsTellTheLists | asyn/asynDriver/asynManager.c:2552-2634 | the two flags say exactly who is on the two lists, without duplicates, and the already-waiting error is not met |
| InterruptList.OnlySuccessChanges | asyn/asynDriver/asynManager.c:2588-2591 | a call that succeeds has added or removed its node; nothing else changes who is on the list |
| InterruptList.CallIff | asyn/asynDriver/asynManager.c:2552-2634 | a call is refused exactly if the port was shut down or the node is, or is not, on the list already; done at once if no callback is active; otherwise put off; nobody else moves on the list |
| InterruptList.RetryIff | asyn/asynDriver/asynManager.c:2574-2590 | who is woken tries again, and waits again if another callback has become active |
| InterruptList.DrainSignalsAll | asyn/asynDriver/asynManager.c:2661-2668 | the loop of interruptEnd signals every node on the addRemoveList and leaves none |
| InterruptList.InterruptBase.LoopUser | asyn/asynDriver/asynManager.c:2574-2590 | one pass over the wait loop: wait, or change the list |
| InterruptList.InterruptBase.InterruptEnd | asyn/asynDriver/asynManager.c:2649-2671 | the draining loop in place |
| ParamTracking.OkStep | asyn/asynPortDriver/asynPortDriver.cpp:833-873 | every setter, callback, subscription keeps flags and views consistent |
| ParamTracking.OkAlways | asyn/asynPortDriver/asynPortDriver.cpp:833-873 | and so in every run, in particular the loop over the flags never meets one that is no index |
| ParamTracking.CallFlaggedOk | asyn/asynPortDriver/asynPortDriver.cpp:842-867 | the loop over the flags brings every subscriber up to date, one flag at a time |
| ParamTracking.FlagsAreASet | asyn/asynPortDriver/asynPortDriver.cpp:106-116 | the flags have no duplicates and valueChanged is false between calls |
| ParamTracking.NobodyIsStale | asyn/asynPortDriver/asynPortDriver.cpp:605-646 | a defined parameter that is not flagged is known, with status and alarms, to everyone subscribed since before its last change |
| ParamTracking.DifferencesAreDue | asyn/asynPortDriver/asynPortDriver.cpp:853-856 | bits in which the last delivered digital value differs from the masked current one are in the callback mask |
| ParamTracking.NoDigitalValueIsStale | asyn/asynPortDriver/asynPortDriver.cpp:693-735 | when a digital parameter is not flagged, the value delivered last is the current one; who was never called could read the current bits when joining; and who has a mask knows status and alarms |
| ParamTracking.CallbacksBringUpToDate | asyn/asynPortDriver/asynPortDriver.cpp:833-873 | after a callCallbacks that is let through every subscriber of every defined parameter is up to date, and no flag is left |
| ParamTracking.BitsAfterSet | asyn/asynPortDriver/paramVal.cpp:190-225 | a masked set adds to the callback mask every bit that it changes |
| ParamTracking.BitsSkipped | asyn/asynPortDriver/asynPortDriver.cpp:718-720 | a subscriber whose mask meets no bit of the callback mask has the current bits already |
| ParamTracking.FlagsPersist | asyn/asynPortDriver/asynPortDriver.cpp:837-838 | nothing is lost while interruptAccept is 0: a flag stays until the callbacks are done |
| ParamTracking.SetTakesEffect | asyn/asynPortDriver/asynPortDriver.cpp:165-211 | a setter stores what it is given, touches no other parameter, and newly flags this one exactly when something has changed |
| ParamEffects.ValuesFitKinds | asyn/asynPortDriver/paramVal.cpp:126-280 | in every run a defined parameter holds a value of its own kind |
| ParamEffects.CreatedIsUndefined | asyn/asynPortDriver/asynPortDriver.cpp:126-138 | a new parameter has the kind it was created with and is neither defined nor flagged |
| ParamEffects.SettersStore | asyn/asynPortDriver/paramVal.cpp:126-280 | each value setter works for its own kind and stores what it is given |
| ParamEffects.DigitalSetterStores | asyn/asynPortDriver/paramVal.cpp:190-225 | bit by bit: what a digital parameter holds and which bits are then to be called back |
| ParamEffects.HealthSettersStore | asyn/asynPortDriver/paramVal.cpp:71-106 | status and alarms can be set for every kind, each without the others; for a digital parameter a change concerns all bits |
| ParamEffects.RefusedIff | asyn/asynPortDriver/asynPortDriver.cpp:165-211 | a bad index, or a value setter for another kind, is refused by name and nothing changes |
| ParamEffects.CallsExactly | asyn/asynPortDriver/asynPortDriver.cpp:842-867 | the loop over the flags calls a subscriber exactly if its parameter is flagged and defined, of its kind, at its address and, for a digital one, some bit of its mask is to be called back |
| ParamEffects.BadFlagEnds | asyn/asynPortDriver/asynPortDriver.cpp:842-873 | a flag that is no index ends the loop there: those before it have been served, none after it, and the flags stay |
| ParamEffects.ReceivesInRuns | asyn/asynPortDriver/asynPortDriver.cpp:605-646 | over any run what a subscriber has received last changes only then, in a callCallbacks that interruptAccept lets through, and is then the current value with status and alarms |
| ParamObjects.ParamVal.SetBits | asyn/asynPortDriver/paramVal.cpp:190-225 | the bits under the mask are replaced, changed and forced bits go into the callback mask |
| ParamObjects.ParamList.SetFlag | asyn/asynPortDriver/asynPortDriver.cpp:106-116 | the search keeps the flags free of duplicates |
| ParamObjects.ParamList.SetParam | asyn/asynPortDriver/asynPortDriver.cpp:165-211 | bad index, wrong type, or the change registered and the mark taken back |
| ParamObjects.ParamList.Callback | asyn/asynPortDriver/asynPortDriver.cpp:605-646 | the walk over the client list calls each subscriber it concerns and no other; whom that is, ParamEffects.CallsExactly says |
| ParamObjects.ParamList.CallCallbacks | asyn/asynPortDriver/asynPortDriver.cpp:833-873 | the loop over the flags, then none is left; or an early end at a bad index, and the flags stay |
| Ring.QueueIsNewest | asyn/devEpics/devAsynInt32.c:557-577 | after any pushes and pops the ring holds the newest elements pushed, in order |
| Ring.DropsOnlyWhenFull | asyn/devEpics/devAsynInt32.c:564-571 | a push drops an element, the oldest, only when the ring is full |
| Ring.PopsAreInOrder | asyn/devEpics/devAsynInt32.c:768-790 | what was popped and what is left is in the order of the pushes |
| Ring.WrittenSlot | asyn/devEpics/devAsynInt32.c:564-571 | writing a slot and moving the indices adds at the end, and drops the first when the ring was full |
| Ring.LatestIsRetainedIff | asyn/devEpics/devAsynInt32.c:564-571 | the latest push is retained exactly when the capacity is not 0 |
| Ring.RequestsMatchOccupancy | asyn/devEpics/devAsynInt32.c:572-576 | process requests made less elements popped is the number of elements in the ring |
| Ring.CapacityOfRings | asyn/devEpics/devAsynXXXArray.cpp:442-450 | the scalar ring holds ringSize elements, the array ring ringSize - 1, and none at all if that is 0 |
| Ring.RingBuffer.Push | asyn/devEpics/devAsynInt32.c:557-577 | the circular buffer refines the drop-oldest queue, and requests processing unless it dropped one |
| Ring.RingBuffer.Pop | asyn/devEpics/devAsynInt32.c:768-790 | the oldest element, or none |
| Readback.CallbackFindsElement | asyn/devEpics/devAsynInt32.c:619-645 | callbacks requested and deferred are together the elements in the ring, so a callback takes the oldest and never writes to the device |
| Readback.BalancedAlways | asyn/devEpics/devAsynInt32.c:580-645 | requested and deferred callbacks balance the ring in every run |
| Readback.NeverStranded | asyn/devEpics/devAsynInt32.c:1117-1122 | a deferred callback always has a write to wait for or a pending callback before it |
| Readback.SkipStrandsIff | asyn/devEpics/devAsynInt32.c:632-641 | a skip for another reason strands one exactly when it was the last pending and others are deferred |
| Readback.LatestArrives | asyn/devEpics/devAsynInt32.c:1089-1131 | once the driver is quiet the callbacks empty the ring; the record ends with the last element pushed, and with the value of the last one without an error |
| Readback.ElementsArriveInOrder | asyn/devEpics/devAsynInt32.c:1094-1099 | and gets every element of the ring in order on the way; one with an error leaves the value as it was |
| Readback.SkippedCallbackTakes | asyn/devEpics/devAsynInt32.c:632-641 | a callback that finds the record busy or is skipped takes its element all the same and leaves the value |
| Readback.ProcessingWrites | asyn/devEpics/devAsynInt32.c:1101-1116 | processing for any other reason writes to the device and leaves ring and callbacks alone |
| Readback.DeferredDuringWrite | asyn/devEpics/devAsynInt32.c:572-576 | a value that arrives during an asynchronous write has its callback deferred, and none is requested before the write ends |
| Readback.RequestedOutsideWrite | asyn/devEpics/devAsynInt32.c:1117-1122 | otherwise it is requested at once, and the end of processing requests exactly one that was deferred |
| Readback.AoBalancedIff | asyn/devEpics/devAsynInt32.c:983-991 | with the early return of processAo the accounts stay balanced exactly when the conversion succeeds, is not tried, or the element was the only one |
| Readback.AoWritesToDevice | asyn/devEpics/devAsynInt32.c:983-991 | otherwise a later callback finds no element and writes to the device |
| Readback.DevPvt.OutputCallbackCallback | asyn/devEpics/devAsynInt32.c:619-645 | the callback with its clean-up when the record did not process |
| Averaging.MeanIsRounded | asyn/devEpics/devAsynInt32.c:679-681 | what is emitted is the mean rounded to nearest, ties away from zero |
| Averaging.RoundedIsUnique | asyn/devEpics/devAsynInt32.c:906-908 | and that describes one integer only |
| Averaging.MeanIsBetween | asyn/devEpics/devAsynInt32.c:679-681 | it lies between the least and the greatest sample, so the cast cannot overflow |
| Averaging.SumBounds | asyn/devEpics/devAsynInt32.c:658-659 | the sum lies between count times least and count times greatest sample |
| Averaging.WindowsPartition | asyn/devEpics/devAsynInt32.c:664-709 | sum and count describe the samples since the last emission; every sample is in one window; every emitted value is the mean of its window |
| Averaging.ValuesAreInRange | asyn/devEpics/devAsynInt32.c:664-709 | every emitted value is in the range of its own window |
| Averaging.WindowsHaveTheirSize | asyn/devEpics/devAsynInt32.c:673-676 | under I/O Intr with SVAL fixed every window has SVAL samples, or one |
| Averaging.SampleIsTaken | asyn/devEpics/devAsynInt32.c:658-690 | a sample ends the window, whose rounded mean goes to the ring, exactly if the record is I/O Intr scanned and SVAL samples have come; otherwise it only joins it |
| Averaging.RecordReads | asyn/devEpics/devAsynInt32.c:893-912 | a record that processes reads the oldest value in the ring, else the mean of the samples since the last emission, and is undefined exactly if there are none |
| Averaging.ReadingsFollowEmissions | asyn/devEpics/devAsynInt32.c:893-899 | over any run the values read, then those left in the ring, are the emitted values in order, and all of them if no push found a full ring |
| Averaging.ReadingsAreMeans | asyn/devEpics/devAsynInt32.c:893-912 | every value ever read is the rounded mean of one window of samples |
| Averaging.DevPvt.InterruptCallbackAverage | asyn/devEpics/devAsynInt32.c:647-709 | one sample, with the emission into the ring |
| Averaging.DevPvt.ProcessAiAverage | asyn/devEpics/devAsynInt32.c:887-912 | the processing in place; what it reads, Averaging.RecordReads says |
| Shutdown.ShutdownOnce | asyn/asynDriver/asynManager.c:2253-2310 | a call of shutdownPort marks the port, raises the exception once and deletes the driver once, or does nothing |
| Shutdown.DestroyOnce | asyn/asynPortDriver/asynPortDriver.cpp:4164-4190 | direct deletion of the driver comes to the same |
| Shutdown.AnnouncementDestroys | asyn/asynPortDriver/asynPortDriver.cpp:3969-3982 | whoever else is on the list, the driver is told once, deletes itself once, and the rest of the walk does nothing |
| Shutdown.ShutdownIsOnceOnly | asyn/asynPortDriver/asynPortDriver.cpp:3969-3982 | over any run the exception is raised at most once, the driver deleted at most once and not used afterwards |
| Shutdown.DriverIsToldFirst | asyn/asynDriver/asynManager.c:1430-1432 | the driver comes first on the exception list, so every client is told after it has deleted itself |
| Shutdown.DefunctForever | asyn/asynDriver/asynManager.c:2236-2241 | a port that was shut down is never enabled again |
| Shutdown.EnabledIff | asyn/asynDriver/asynManager.c:2224-2251 | enable does what it is told exactly if the port was not shut down; nothing else enables |
| Shutdown.StatusIff | asyn/asynDriver/asynManager.c:2253-2310 | what enable and shutdownPort report |
| ShutdownObjects.PortDriver.ShutdownPort | asyn/asynDriver/asynManager.c:2253-2310 | the recursion through the exception handler, in place and terminating |
| ShutdownObjects.PortDriver.Announce | asyn/asynDriver/asynManager.c:613-639 | the walk over the exception users, each of which may call back |
| MemPool.MallocPathIsFreePath | asyn/asynDriver/asynManager.c:1265-1297 | memMalloc uses malloc for exactly the sizes that memFree gives to free |
| MemPool.OkAlways | asyn/asynDriver/asynManager.c:1258-1308 | in every run blocks are apart, each free node is once on the list of its class, none in use is on a list, and none is lost |
| MemPool.LiveBlocksAreApart | asyn/asynDriver/asynManager.c:1258-1284 | the bytes of two blocks in use never overlap, nor a node |
| MemPool.AllocGivesRoom | asyn/asynDriver/asynManager.c:1258-1284 | what is handed out was not in use and has room for the request |
| MemPool.MallocOnlyIfNoneIsFree | asyn/asynDriver/asynManager.c:1269-1284 | memMalloc calls malloc only when every block of the class is in use, and else hands out one that is not; the blocks in use are not touched |
| MemPool.BlockIsWhatMallocGave | asyn/asynDriver/asynManager.c:1269-1284 | a block with its node is exactly the memory that malloc was asked for |
| MemPool.FreeFindsItsNode | asyn/asynDriver/asynManager.c:1286-1308 | a block freed by way of the lists has a node and is of that class; the asserts hold |
| MemPool.FreeGivesBack | asyn/asynDriver/asynManager.c:1286-1308 | a release gives back this block and no other |
| MemPool.MemLists.FindClass | asyn/asynDriver/asynManager.c:1265-1267 | the loop finds the first class that is large enough |
| MemPool.MemLists.MemMalloc | asyn/asynDriver/asynManager.c:1258-1284 | the allocation in place, with its loop over the classes |
| MemPool.MemLists.MemFree | asyn/asynDriver/asynManager.c:1286-1308 | the release in place |

## Left out

- Ports that cannot block: `queueRequest` then runs the callback directly.
- Tracing, `report`, error messages and real time; the rule that a connection is tried again only after two seconds, and `autoConnectActive`, are left to chance.
- Timers are events that may happen once started; `epicsTimerCancel` is taken to guarantee no later expiry. A timer that fires for a user that is no longer connected to a port is not modelled.
- Fields that the code reads without a lock just before a region (pport, pdevice, a block count) are read inside it.
- The `connect`, `read` and `write` functions of drivers and `asynLockPortNotify` are arbitrary; changes of `connected` can happen at any moment, lock or no lock.
- The timer thread may run callbacks of several users at once, more than the one thread of the timer queue can.
- `duplicateAsynUser` is a creation followed by a connection; users of other ports are not modelled.
- Waiting for a running exception announcement (`exceptionCallbackAdd`, `exceptionCallbackRemove`) has the shape of InterruptList and is not repeated.
- PortMonitor keeps the fields of the records in columns, not in linked nodes, so aliasing of list nodes is not captured.
- A `queueLockPort` by the port thread itself, or for a port that cannot block, and the calls of `pasynLockPortNotify`.
- LockPort dispatches a waiting request whenever the port thread is at rest: priorities and holders are the subject of PortOrder and PortHolders.
- Integers of parameters and samples are unbounded, sums and quotients exact, floating point values real numbers; the words of digital parameters are sets of bit numbers.
- Array, enum and generic pointer parameters, `setUInt32Interrupt`, parameter names, and lists whose callbacks are done for another address than their own.
- The copy of array data after a pop, the variants without a ring, and the mask and sign extension of Int32 values.
- Ring elements are opaque in Ring, a value and a flag for success in Readback.
- A full callback queue of EPICS, which would refuse a requested callback.
- Shutdown of a port with several devices; drivers that override `shutdownPortDriver` are taken to call the base function.
- Alignment in the memory pool; `NODESIZE` is a constant.
- asynRecord, asynGpib, asynPortClient, SyncIO wrappers and link parsing.
