/**
 A blocking port, its thread, its clients and the timer thread as a transition system.

 An event is one lock region, or one action outside any region. While the port thread holds
 asynManagerLock it moves in small steps, and the only events of others that can come between
 are those that do not take that lock. What a client or the timer thread still has to do after
 a region (announce an exception, stop a timer, signal the port thread, finish a timeout
 callback, wait for a callback, finish a free) is kept in multisets, so any number of threads
 and any nesting of callbacks is allowed.
 */
module PortSystem {
  import opened Common
  import opened PortQueues
  import opened PortRegions
  import opened PortScan

  /**
   Where the port thread is. The lock is held in ConnectLoop, CheckConnected, AutoPort,
   ScanStart, Scanning and Testing. `stops` records timeout > 0 as read in the region.
   */
  datatype Pc =
    | Waiting
    | Woken
    | ConnectLoop
    | ConnectDispatched(user: UserId, stops: bool)
    | ConnectRunning(user: UserId)
    | CheckConnected
    | AutoPort
    | AutoPortDropped
    | ScanStart
    | Scanning(i: nat, k: nat, callTimeout: bool)
    | Testing(i: nat, k: nat, callTimeout: bool)
    | Dropped(i: nat, k: nat, user: UserId, callTimeout: bool)
    | Dispatched(user: UserId, dpc: DpcId, callTimeout: bool, stops: bool)
    | Running(user: UserId, dpc: DpcId, callTimeout: bool)

  predicate HoldsLock(pc: Pc) {
    pc.ConnectLoop? || pc.CheckConnected? || pc.AutoPort? || pc.ScanStart? || pc.Scanning? || pc.Testing?
  }

  /**
   What other threads have begun and not finished. These end by signalling the port thread:
   announcing an exception, about to signal, inside a timeout callback on the timer thread, and
   the tail of cancelRequest, with or without a timer to stop. The last is cancelRequest
   waiting for the event callbackDone.
   */
  datatype Pending = Pending(
    announcing: nat,
    signaling: nat,
    inTimeout: Counter,
    stopping: Counter,
    leaving: Counter,
    canceling: Counter)

  /** asynUserFreeList, first to last. */
  datatype FreeList = FreeList(users: seq<UserId>)

  /**
   Which asynUsers there are, which of them their client has given to freeAsynUser, and how far
   freeAsynUser has come: having read an idle or a busy state, or freeAfterCallback set.
   */
  datatype Pool = Pool(
    users: Flag,
    released: Flag,
    freeingIdle: Counter,
    freeingBusy: Counter,
    freeAfterCallback: Flag,
    freeList: FreeList)

  /** `notify` is the event notifyPortThread. */
  datatype Sys = Sys(port: Port, pc: Pc, notify: bool, pending: Pending, pool: Pool)

  /** Requests: queueRequest, cancelRequest and the timer. */
  datatype RequestEvent =
    | Queue(u: UserId, priority: Priority, timeout: real, evenIfNotConnected: bool)
    | Cancel(u: UserId)
    | CancelReturns(u: UserId)
    | TimerStopped(u: UserId, stops: bool)
    | TimerExpires(u: UserId)
    | TimeoutEnds(u: UserId)

  /** Holders, the state of a dpCommon, exceptions and the wake-up signal. */
  datatype ControlEvent =
    | BlockUser(u: UserId, allDevices: bool)
    | UnblockUser(u: UserId, allDevices: bool)
    | SetEnabled(d: DpcId, yes: bool)
    | ShutDown(d: DpcId)
    | SetConnected(d: DpcId, yes: bool)
    | AnnounceEnds
    | Signal

  /** The life of an asynUser. */
  datatype LifeEvent =
    | Create(u: UserId, hasProcess: bool, hasTimeoutUser: bool)
    | AttachUser(u: UserId, addr: int)
    | DetachUser(u: UserId)
    | SetOnExceptionList(u: UserId, yes: bool)
    | FreeStarts(u: UserId)
    | FreeEnds(u: UserId, sawIdle: bool)

  /** portThread */
  datatype ThreadEvent =
    | Wake
    | TakeLock
    | NextConnect
    | StartConnectCallback
    | EndConnectCallback
    | ReadConnected
    | SkipConnect
    | DropForConnect
    | RetakeAfterConnect
    | StartScan
    | Look(drop: bool)
    | RetakeInScan
    | Test
    | StartCallback
    | EndUserCallback

  datatype Event = Request(r: RequestEvent) | Control(c: ControlEvent) | Life(l: LifeEvent) | Thread(t: ThreadEvent)

  /** A client still owns this asynUser. */
  predicate Live(s: Sys, u: UserId) {
    s.pool.users.Has(u) && !s.pool.released.Has(u)
  }

  predicate Unlocked(s: Sys) {
    !HoldsLock(s.pc)
  }

  predicate CanRequest(s: Sys, e: RequestEvent) {
    match e
    case Queue(u, _, _, _) => Unlocked(s) && Live(s, u)
    case Cancel(u) => Unlocked(s) && Live(s, u)
    case CancelReturns(u) => s.pending.canceling.Has(u) && s.port.callbacks.done.Has(u)
    case TimerStopped(u, stops) => (if stops then s.pending.stopping else s.pending.leaving).Has(u)
    case TimerExpires(u) => Unlocked(s) && s.pool.users.Has(u) && s.port.clients.attached.Has(u) &&
      s.port.requests.armed.Has(u)
    case TimeoutEnds(u) => Unlocked(s) && s.pending.inTimeout.Has(u)
  }

  predicate CanControl(s: Sys, e: ControlEvent) {
    match e
    case BlockUser(u, _) => Unlocked(s) && Live(s, u)
    case UnblockUser(u, _) => Unlocked(s) && Live(s, u)
    case SetEnabled(d, _) => Unlocked(s) && s.port.devices.known.Has(d)
    case ShutDown(d) => Unlocked(s) && s.port.devices.known.Has(d)
    case SetConnected(d, yes) => s.port.devices.known.Has(d) && s.port.devices.connected.Has(d) != yes
    case AnnounceEnds => Unlocked(s) && s.pending.announcing > 0
    case Signal => s.pending.signaling > 0
  }

  predicate CanLife(s: Sys, e: LifeEvent) {
    match e
    case Create(u, _, _) => CanCreate(s.pool, u)
    case AttachUser(u, _) => Unlocked(s) && Live(s, u)
    case DetachUser(u) => Unlocked(s) && Live(s, u)
    case SetOnExceptionList(u, yes) => Unlocked(s) && Live(s, u) && s.port.clients.attached.Has(u)
    case FreeStarts(u) => Live(s, u) && !s.port.clients.attached.Has(u)
    case FreeEnds(u, sawIdle) => (if sawIdle then s.pool.freeingIdle else s.pool.freeingBusy).Has(u)
  }

  /** createAsynUser takes the first user of the free list; when that is empty, a new one. */
  predicate CanCreate(l: Pool, u: UserId) {
    if l.freeList.users == [] then !l.users.Has(u) else u == l.freeList.users[0]
  }

  /** The place of the scan is a request, or also the end of a list. */
  predicate InList(q: Queues, i: nat, k: nat) {
    i <= HIGH && k < |q.List(i)|
  }

  predicate InListOrAtEnd(q: Queues, i: nat, k: nat) {
    i <= HIGH && k <= |q.List(i)|
  }

  /** autoConnectDevice is called, and drops the lock, only for such a request. */
  predicate MayDrop(p: Port, i: nat, k: nat) {
    InList(p.requests.queues, i, k) &&
    var d := DpcOf(p.clients, p.requests.queues.List(i)[k]);
    p.devices.enabled.Has(d) && !p.devices.connected.Has(d) && MayAutoConnect(p, d)
  }

  predicate CanThread(s: Sys, e: ThreadEvent) {
    match e
    case Wake => s.pc == Waiting && s.notify
    case TakeLock => s.pc == Woken
    case NextConnect => s.pc == ConnectLoop
    case StartConnectCallback => s.pc.ConnectDispatched?
    case EndConnectCallback => s.pc.ConnectRunning?
    case ReadConnected => s.pc == CheckConnected
    case SkipConnect => s.pc == AutoPort
    case DropForConnect => s.pc == AutoPort && !s.port.devices.connected.Has(PORT) &&
      s.port.devices.autoConnect.Has(PORT)
    case RetakeAfterConnect => s.pc == AutoPortDropped
    case StartScan => s.pc == ScanStart
    case Look(drop) =>
      s.pc.Scanning? && InListOrAtEnd(s.port.requests.queues, s.pc.i, s.pc.k) &&
        (drop ==> MayDrop(s.port, s.pc.i, s.pc.k))
    case RetakeInScan => s.pc.Dropped?
    case Test => s.pc.Testing? && InList(s.port.requests.queues, s.pc.i, s.pc.k)
    case StartCallback => s.pc.Dispatched?
    case EndUserCallback => s.pc.Running?
  }

  predicate Can(s: Sys, e: Event) {
    match e
    case Request(r) => CanRequest(s, r)
    case Control(c) => CanControl(s, c)
    case Life(l) => CanLife(s, l)
    case Thread(t) => CanThread(s, t)
  }

  function OweSignal(s: Sys): Sys {
    s.(pending := s.pending.(signaling := s.pending.signaling + 1))
  }

  function OweAnnouncement(s: Sys): Sys {
    s.(pending := s.pending.(announcing := s.pending.announcing + 1))
  }

  function StopTimer(p: Port, u: UserId): Port {
    p.(requests := Disarm(p.requests, u))
  }

  /** The end of a callback frees a user that was given to freeAsynUser meanwhile. */
  function FreeAfter(l: Pool, u: UserId): Pool {
    if l.freeAfterCallback.Has(u)
    then l.(freeAfterCallback := l.freeAfterCallback.Del(u), freeList := FreeList(l.freeList.users + [u]))
    else l
  }

  function FinishCallback(s: Sys, u: UserId): Sys {
    s.(port := s.port.(callbacks := EndCallback(s.port.callbacks, u)), pool := FreeAfter(s.pool, u))
  }

  function QueueStep(s: Sys, u: UserId, priority: Priority, timeout: real, evenIfNotConnected: bool): Sys {
    var t := s.(port := QueueRequest(s.port, u, priority, timeout, evenIfNotConnected));
    if QueueStatus(s.port, u, priority, timeout, evenIfNotConnected) == Accepted then OweSignal(t) else t
  }

  function CancelStep(s: Sys, u: UserId): Sys {
    var t := s.(port := CancelRequest(s.port, u));
    match CancelOutcome(s.port, u)
    case Removed =>
      if s.port.requests.timed.Has(u) then t.(pending := s.pending.(stopping := s.pending.stopping.Up(u)))
      else t.(pending := s.pending.(leaving := s.pending.leaving.Up(u)))
    case WaitForCallback => t.(pending := s.pending.(canceling := s.pending.canceling.Up(u)))
    case CancelNotAttached => t
    case NotQueued => t
    case CancelLogicError => t
  }

  /** The cancelled request's timer is stopped after the lock has been released. */
  function StoppedStep(s: Sys, u: UserId, stops: bool): Sys {
    var w := s.pending;
    OweSignal(
      if stops then s.(port := StopTimer(s.port, u), pending := w.(stopping := w.stopping.Down(u)))
      else s.(pending := w.(leaving := w.leaving.Down(u))))
  }

  function ExpireStep(s: Sys, u: UserId): Sys {
    var t := s.(port := Expire(s.port, u));
    match ExpireOutcome(s.port, u)
    case RunTimeoutUser => t.(pending := s.pending.(inTimeout := s.pending.inTimeout.Up(u)))
    case NoTimeoutUser => OweSignal(t)
    case NotPending => t
    case ExpireLogicError => t
  }

  /** cancelRequest returns from its wait on callbackDone. */
  function CancelReturnStep(s: Sys, u: UserId): Sys {
    s.(port := s.port.(callbacks := s.port.callbacks.(done := s.port.callbacks.done.Del(u))),
       pending := s.pending.(canceling := s.pending.canceling.Down(u)))
  }

  function TimeoutEndStep(s: Sys, u: UserId): Sys {
    OweSignal(FinishCallback(s, u).(pending := s.pending.(inTimeout := s.pending.inTimeout.Down(u))))
  }

  function RequestNext(s: Sys, e: RequestEvent): Sys
    requires CanRequest(s, e)
  {
    match e
    case Queue(u, priority, timeout, evenIfNotConnected) => QueueStep(s, u, priority, timeout, evenIfNotConnected)
    case Cancel(u) => CancelStep(s, u)
    case CancelReturns(u) => CancelReturnStep(s, u)
    case TimerStopped(u, stops) => StoppedStep(s, u, stops)
    case TimerExpires(u) => ExpireStep(s, u)
    case TimeoutEnds(u) => TimeoutEndStep(s, u)
  }

  function UnblockStep(s: Sys, u: UserId, allDevices: bool): Sys {
    var t := s.(port := Unblock(s.port, u, allDevices));
    if Releases(s.port, u, allDevices) then OweSignal(t) else t
  }

  /** `changes` is the new state of the dpCommons; the client then announces the exception. */
  function DeviceStep(s: Sys, changed: Devices): Sys {
    OweAnnouncement(s.(port := s.port.(devices := changed)))
  }

  /** The second region of announceException. */
  function AnnounceStep(s: Sys): Sys
    requires s.pending.announcing > 0
  {
    OweSignal(s.(port := s.port.(requests := s.port.requests.(changed := true)),
                 pending := s.pending.(announcing := s.pending.announcing - 1)))
  }

  function ControlNext(s: Sys, e: ControlEvent): Sys
    requires CanControl(s, e)
  {
    var v := s.port.devices;
    match e
    case BlockUser(u, allDevices) => s.(port := Block(s.port, u, allDevices))
    case UnblockUser(u, allDevices) => UnblockStep(s, u, allDevices)
    case SetEnabled(d, yes) => if EnableOk(v, d) then DeviceStep(s, Enable(v, d, yes)) else s
    case ShutDown(d) => if ShutdownOk(v, d) then DeviceStep(s, Shutdown(v, d)) else s
    case SetConnected(d, yes) => DeviceStep(s, Connected(v, d, yes))
    case AnnounceEnds => AnnounceStep(s)
    case Signal => s.(notify := true, pending := s.pending.(signaling := s.pending.signaling - 1))
  }

  function CreateUser(s: Sys, u: UserId, hasProcess: bool, hasTimeoutUser: bool): Sys {
    var p := if s.pool.freeList.users == [] then Allocate(s.port, u) else s.port;
    s.(port := Recycle(p, u, hasProcess, hasTimeoutUser),
       pool := TakeUser(s.pool, u))
  }

  function TakeUser(l: Pool, u: UserId): Pool {
    if l.freeList.users == []
    then l.(users := l.users.Add(u), released := l.released.Del(u), freeAfterCallback := l.freeAfterCallback.Del(u))
    else l.(freeList := FreeList(l.freeList.users[1..]), released := l.released.Del(u))
  }

  /** freeAsynUser reads the state of the callback ... */
  function StartFree(l: Pool, u: UserId, state: CallbackState): Pool {
    if state == Idle then l.(released := l.released.Add(u), freeingIdle := l.freeingIdle.Up(u))
    else l.(released := l.released.Add(u), freeingBusy := l.freeingBusy.Up(u))
  }

  /** ... and then acts on what it read. The callback may have ended in between. */
  function EndFree(l: Pool, u: UserId, sawIdle: bool): Pool {
    if sawIdle then l.(freeingIdle := l.freeingIdle.Down(u), freeList := FreeList(l.freeList.users + [u]))
    else l.(freeingBusy := l.freeingBusy.Down(u), freeAfterCallback := l.freeAfterCallback.Add(u))
  }

  function LifeNext(s: Sys, e: LifeEvent): Sys
    requires CanLife(s, e)
  {
    var c := s.port.clients;
    match e
    case Create(u, hasProcess, hasTimeoutUser) => CreateUser(s, u, hasProcess, hasTimeoutUser)
    case AttachUser(u, addr) => s.(port := Attach(s.port, u, addr))
    case DetachUser(u) => s.(port := Detach(s.port, u))
    case SetOnExceptionList(u, yes) =>
      s.(port := s.port.(clients := c.(onExceptionList := c.onExceptionList.Put(u, yes))))
    case FreeStarts(u) => s.(pool := StartFree(s.pool, u, StateOf(s.port.callbacks, u)))
    case FreeEnds(u, sawIdle) => s.(pool := EndFree(s.pool, u, sawIdle))
  }

  /** One turn of the loop over the Connect list. */
  function ConnectStep(s: Sys): Sys {
    var r := s.port.requests;
    if r.queues.List(CONNECT) == [] then s.(pc := CheckConnected)
    else
      var u := r.queues.List(CONNECT)[0];
      s.(port := Dispatch(s.port, Slot(CONNECT, 0)), pc := ConnectDispatched(u, r.timed.Has(u)))
  }

  /** The scan comes to position `k` of list `i`: the end of the list, or a request. */
  function LookStep(p: Port, i: nat, k: nat, flag: bool, drop: bool): Pc
    requires InListOrAtEnd(p.requests.queues, i, k)
  {
    if k == |p.requests.queues.List(i)| then
      if p.requests.changed || i == LOW then Waiting else Scanning(i - 1, 0, flag)
    else
      var u := p.requests.queues.List(i)[k];
      var d := DpcOf(p.clients, u);
      if !p.devices.enabled.Has(d) then Scanning(i, k + 1, flag)
      else if p.devices.connected.Has(d) then Testing(i, k, flag)
      else if drop then Dropped(i, k, u, flag)
      else if p.requests.changed then Waiting
      else Testing(i, k, flag)
  }

  /** The holder test on the request at hand: dispatch it or go on. */
  function TestStep(s: Sys, i: nat, k: nat, callTimeout: bool): Sys
    requires InList(s.port.requests.queues, i, k)
  {
    var p, here := s.port, Slot(i, k);
    var u := At(p.requests.queues, here);
    var d := DpcOf(p.clients, u);
    var flag := FlagAfter(p, u, callTimeout);
    if NotLockedOut(p.blocking, u, d)
    then s.(port := Dispatch(p, here), pc := Dispatched(u, d, flag, p.requests.timed.Has(u)))
    else s.(pc := Scanning(i, k + 1, flag))
  }

  /** The region after a Low, Medium or High callback. */
  function EndStep(s: Sys, u: UserId, d: DpcId): Sys {
    FinishCallback(s.(port := s.port.(blocking := TakeHolders(s.port.blocking, u, d))), u)
     .(pc := if s.port.requests.changed then Waiting else ScanStart)
  }

  function ThreadNext(s: Sys, e: ThreadEvent): Sys
    requires CanThread(s, e)
  {
    var p := s.port;
    match e
    case Wake => s.(pc := Woken, notify := false)
    case TakeLock => s.(pc := if p.devices.enabled.Has(PORT) then ConnectLoop else Waiting)
    case NextConnect => ConnectStep(s)
    case StartConnectCallback =>
      s.(port := if s.pc.stops then StopTimer(p, s.pc.user) else p, pc := ConnectRunning(s.pc.user))
    case EndConnectCallback => FinishCallback(s, s.pc.user).(pc := ConnectLoop)
    case ReadConnected => s.(pc := if p.devices.connected.Has(PORT) then ScanStart else AutoPort)
    case SkipConnect => s.(pc := if p.devices.connected.Has(PORT) then ScanStart else Waiting)
    case DropForConnect => s.(pc := AutoPortDropped)
    case RetakeAfterConnect => s.(pc := if p.devices.connected.Has(PORT) then ScanStart else Waiting)
    case StartScan => s.(port := p.(requests := p.requests.(changed := false)), pc := Scanning(HIGH, 0, false))
    case Look(drop) => s.(pc := LookStep(p, s.pc.i, s.pc.k, s.pc.callTimeout, drop))
    case RetakeInScan => s.(pc := if p.requests.changed then Waiting else Testing(s.pc.i, s.pc.k, s.pc.callTimeout))
    case Test => TestStep(s, s.pc.i, s.pc.k, s.pc.callTimeout)
    case StartCallback =>
      s.(port := if s.pc.stops then StopTimer(p, s.pc.user) else p,
         pc := Running(s.pc.user, s.pc.dpc, s.pc.callTimeout))
    case EndUserCallback => EndStep(s, s.pc.user, s.pc.dpc)
  }

  function Next(s: Sys, e: Event): Sys
    requires Can(s, e)
  {
    match e
    case Request(r) => RequestNext(s, r)
    case Control(c) => ControlNext(s, c)
    case Life(l) => LifeNext(s, l)
    case Thread(t) => ThreadNext(s, t)
  }

  /** registerPort: no users, an enabled and disconnected port, an empty event, the thread waiting. */
  ghost predicate Init(s: Sys) {
    var none, zero, v := Flag({}), Counter(multiset{}), s.port.devices;
    && v == Devices(v.multiDevice, v.destructible, Flag({PORT}), Flag({PORT}), none, none, v.autoConnect)
    && (v.autoConnect == none || v.autoConnect == Flag({PORT}))
    && s.port.clients == Clients(none, Table(map[]), none, none, none)
    && s.port.callbacks == Callbacks(none, none, none)
    && s.port.blocking == Blocking(zero, zero, None, Table(map[]))
    && s.port.requests == Requests(Queues([], [], [], []), none, false, none, none)
    && s.pc == Waiting && !s.notify
    && s.pending == Pending(0, 0, zero, zero, zero, zero)
    && s.pool == Pool(none, none, zero, zero, none, FreeList([]))
  }

  const none: Flag := Flag({})
  const zero: Counter := Counter(multiset{})

  /** One such state: a port for several devices that is not connected automatically. */
  const Start: Sys := Sys(
    Port(Devices(true, false, Flag({PORT}), Flag({PORT}), none, none, none),
         Clients(none, Table(map[]), none, none, none), Callbacks(none, none, none),
         Blocking(zero, zero, None, Table(map[])), Requests(Queues([], [], [], []), none, false, none, none)),
    Waiting, false, Pending(0, 0, zero, zero, zero, zero), Pool(none, none, zero, zero, none, FreeList([])))

  predicate Moment(es: seq<Event>, m: nat) {
    m < |es|
  }

  /** A run: the states it passes through and the events between them. */
  ghost predicate Run(ss: seq<Sys>, es: seq<Event>) {
    && |ss| == |es| + 1 && Init(ss[0])
    && forall m: nat {:trigger Moment(es, m)} | Moment(es, m) :: Can(ss[m], es[m]) && ss[m + 1] == Next(ss[m], es[m])
  }

  lemma RunStep(ss: seq<Sys>, es: seq<Event>, m: nat)
    requires Run(ss, es) && m < |es|
    ensures Can(ss[m], es[m]) && ss[m + 1] == Next(ss[m], es[m])
  {
    assert Moment(es, m);
  }

  /** Some run comes to this state. */
  ghost predicate Reachable(s: Sys) {
    exists ss, es :: Run(ss, es) && ss[|es|] == s
  }

  lemma ReachableInit(s: Sys)
    requires Init(s)
    ensures Reachable(s)
  {
    var ss, es: seq<Event> := [s], [];
    assert Run(ss, es) && ss[|es|] == s;
  }

  lemma ReachableNext(s: Sys, e: Event)
    requires Reachable(s) && Can(s, e)
    ensures Reachable(Next(s, e))
  {
    var ss, es :| Run(ss, es) && ss[|es|] == s;
    var ss', es' := ss + [Next(s, e)], es + [e];
    forall m: nat | Moment(es', m)
      ensures Can(ss'[m], es'[m]) && ss'[m + 1] == Next(ss'[m], es'[m])
    {
      if m < |es| {
        RunStep(ss, es, m);
      }
    }
    assert Run(ss', es') && ss'[|es'|] == Next(s, e);
  }
}
