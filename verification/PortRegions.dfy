/**
 The state that asynManagerLock protects (asynManager.c: port, dpCommon, userPvt) and one
 function for each region of code between taking and releasing that lock.

 Each field of a userPvt or a dpCommon is one component here, a column over users or dpCommons:
 a Flag for a BOOL (or for a pointer that is only compared with 0), a Counter or a Table.
 */
module PortRegions {
  import opened Common
  import opened PortQueues

  /** A dpCommon: PORT is the port's own, addr + 1 the one of the device with that address. */
  type DpcId = int

  const PORT: DpcId := 0

  datatype CallbackState = Idle | Active | Canceled

  /** The attributes of the port and, for each dpCommon, its fields. */
  datatype Devices = Devices(
    multiDevice: bool,
    destructible: bool,
    known: Flag,
    enabled: Flag,
    defunct: Flag,
    connected: Flag,
    autoConnect: Flag)

  /** struct userPvt, what a client connects and provides. attached and device are pport and pdevice. */
  datatype Clients = Clients(
    attached: Flag,
    device: Table<DpcId>,
    hasProcess: Flag,
    hasTimeoutUser: Flag,
    onExceptionList: Flag)

  /** struct userPvt, the state of the callback, and whether the event callbackDone is full. */
  datatype Callbacks = Callbacks(active: Flag, canceled: Flag, done: Flag)

  /** blockPortCount and blockDeviceCount, and the holders of the port and of each dpCommon. */
  datatype Blocking = Blocking(
    portCount: Counter,
    deviceCount: Counter,
    holder: Option<UserId>,
    dpcHolder: Table<UserId>)

  /** The lists; `changed` is queueStateChange, `timed` is timeout > 0, `armed` that the timer runs. */
  datatype Requests = Requests(queues: Queues, isQueued: Flag, changed: bool, timed: Flag, armed: Flag)

  datatype Port = Port(
    devices: Devices,
    clients: Clients,
    callbacks: Callbacks,
    blocking: Blocking,
    requests: Requests)

  /** findDpCommon */
  function DpcOf(c: Clients, u: UserId): DpcId {
    if c.device.Has(u) then c.device.Get(u) else PORT
  }

  function StateOf(c: Callbacks, u: UserId): CallbackState {
    if c.canceled.Has(u) then Canceled else if c.active.Has(u) then Active else Idle
  }

  function SetState(c: Callbacks, u: UserId, state: CallbackState): Callbacks {
    c.(active := if state == Active then c.active.Add(u) else c.active.Del(u),
       canceled := if state == Canceled then c.canceled.Add(u) else c.canceled.Del(u))
  }

  // ----- queueRequest -----

  datatype QueueResult =
    | Accepted | NotAttached | NoProcessCallback | PortDisabled | PortDisconnected
    | AlreadyQueued | NoTimeoutCallback

  /** A Connect request for the port, or one that asks for it, does not need a connected port. */
  predicate ChecksPortConnect(p: Port, u: UserId, priority: Priority, evenIfNotConnected: bool) {
    !(priority == CONNECT && (DpcOf(p.clients, u) == PORT || evenIfNotConnected))
  }

  function QueueStatus(p: Port, u: UserId, priority: Priority, timeout: real, evenIfNotConnected: bool): QueueResult {
    if !p.clients.attached.Has(u) then NotAttached
    else if !p.clients.hasProcess.Has(u) then NoProcessCallback
    else if !p.devices.enabled.Has(PORT) then PortDisabled
    else if ChecksPortConnect(p, u, priority, evenIfNotConnected) && !p.devices.connected.Has(PORT)
    then PortDisconnected
    else if p.requests.isQueued.Has(u) then AlreadyQueued
    else if timeout > 0.0 && !p.clients.hasTimeoutUser.Has(u) then NoTimeoutCallback
    else Accepted
  }

  predicate HoldsPort(b: Blocking, u: UserId) {
    b.holder == Some(u)
  }

  predicate HoldsDpc(b: Blocking, u: UserId, d: DpcId) {
    b.dpcHolder.Has(d) && b.dpcHolder.Get(d) == u
  }

  /** A holder's request goes to the front of its list. */
  predicate AddsToFront(p: Port, u: UserId) {
    var b := p.blocking;
    (b.portCount.Has(u) || b.deviceCount.Has(u)) && (HoldsPort(b, u) || HoldsDpc(b, u, DpcOf(p.clients, u)))
  }

  function Enqueue(r: Requests, u: UserId, priority: Priority, timeout: real, front: bool): Requests {
    Requests(if front then Prepend(r.queues, priority, u) else Append(r.queues, priority, u),
             r.isQueued.Add(u),
             true,
             r.timed.Put(u, timeout > 0.0),
             if timeout > 0.0 then r.armed.Add(u) else r.armed)
  }

  function QueueRequest(p: Port, u: UserId, priority: Priority, timeout: real, evenIfNotConnected: bool): Port {
    if QueueStatus(p, u, priority, timeout, evenIfNotConnected) != Accepted then p
    else p.(requests := Enqueue(p.requests, u, priority, timeout, AddsToFront(p, u)))
  }

  // ----- cancelRequest and queueTimeoutCallback -----

  /** Off the lists without a dispatch: the scan has to start again. */
  function Remove(r: Requests, s: Slot): Requests
    requires ValidSlot(r.queues, s)
  {
    r.(queues := Delete(r.queues, s), isQueued := r.isQueued.Del(At(r.queues, s)), changed := true)
  }

  datatype CancelResult = CancelNotAttached | NotQueued | WaitForCallback | Removed | CancelLogicError

  function CancelOutcome(p: Port, u: UserId): CancelResult {
    if !p.clients.attached.Has(u) then CancelNotAttached
    else if !p.requests.isQueued.Has(u) then if StateOf(p.callbacks, u) == Active then WaitForCallback else NotQueued
    else if Locate(p.requests.queues, u, CONNECT).Some? then Removed
    else CancelLogicError
  }

  function CancelRequest(p: Port, u: UserId): Port {
    match CancelOutcome(p, u)
    case CancelNotAttached => p
    case NotQueued => p
    case WaitForCallback => p.(callbacks := SetState(p.callbacks, u, Canceled))
    case CancelLogicError => p
    case Removed => p.(requests := Remove(p.requests, Locate(p.requests.queues, u, CONNECT).value))
  }

  datatype ExpireResult = NotPending | RunTimeoutUser | NoTimeoutUser | ExpireLogicError

  function ExpireOutcome(p: Port, u: UserId): ExpireResult {
    if !p.requests.isQueued.Has(u) then NotPending
    else if Locate(p.requests.queues, u, CONNECT).None? then ExpireLogicError
    else if p.clients.hasTimeoutUser.Has(u) then RunTimeoutUser
    else NoTimeoutUser
  }

  function Disarm(r: Requests, u: UserId): Requests {
    r.(armed := r.armed.Del(u))
  }

  /** The first lock region of queueTimeoutCallback. The timer has run out. */
  function Expire(p: Port, u: UserId): Port {
    var r := Disarm(p.requests, u);
    match ExpireOutcome(p, u)
    case NotPending => p.(requests := r)
    case ExpireLogicError => p.(requests := r)
    case NoTimeoutUser => p.(requests := Remove(r, Locate(r.queues, u, CONNECT).value))
    case RunTimeoutUser =>
      p.(requests := Remove(r, Locate(r.queues, u, CONNECT).value), callbacks := SetState(p.callbacks, u, Active))
  }

  // ----- dispatching, and the end of a callback -----

  function Dispatch(p: Port, s: Slot): Port
    requires ValidSlot(p.requests.queues, s)
  {
    var u := At(p.requests.queues, s);
    p.(callbacks := SetState(p.callbacks, u, Active),
       requests := p.requests.(queues := Delete(p.requests.queues, s), isQueued := p.requests.isQueued.Del(u)))
  }

  predicate NotLockedOut(b: Blocking, u: UserId, d: DpcId) {
    (b.holder == None || HoldsPort(b, u)) && (!b.dpcHolder.Has(d) || HoldsDpc(b, u, d))
  }

  /** What the scan looks for: the device is enabled and nobody else holds the port or the device. */
  predicate Dispatchable(p: Port, u: UserId) {
    var d := DpcOf(p.clients, u);
    p.devices.enabled.Has(d) && NotLockedOut(p.blocking, u, d)
  }

  /** What portThread (twice) and queueTimeoutCallback do once the callback has returned. */
  function EndCallback(c: Callbacks, u: UserId): Callbacks {
    SetState(c, u, Idle).(done := if StateOf(c, u) == Canceled then c.done.Add(u) else c.done)
  }

  /** After a Low, Medium or High callback its user becomes the holder it asked to be. */
  function TakeHolders(b: Blocking, u: UserId, d: DpcId): Blocking {
    b.(holder := if b.portCount.Has(u) then Some(u) else b.holder,
       dpcHolder := if b.deviceCount.Has(u) then b.dpcHolder.Put(d, u) else b.dpcHolder)
  }

  // ----- blockProcessCallback and unblockProcessCallback -----

  datatype BlockResult = BlockOk | BlockNotAttached | BlockQueued | NotBlocked

  function BlockStatus(p: Port, u: UserId): BlockResult {
    if !p.clients.attached.Has(u) then BlockNotAttached else if p.requests.isQueued.Has(u) then BlockQueued else BlockOk
  }

  function CountUp(b: Blocking, u: UserId, allDevices: bool): Blocking {
    if allDevices then b.(portCount := b.portCount.Up(u)) else b.(deviceCount := b.deviceCount.Up(u))
  }

  function Block(p: Port, u: UserId, allDevices: bool): Port {
    if BlockStatus(p, u) != BlockOk then p else p.(blocking := CountUp(p.blocking, u, allDevices))
  }

  function UnblockStatus(p: Port, u: UserId, allDevices: bool): BlockResult {
    if !p.clients.attached.Has(u) then BlockNotAttached
    else if !(if allDevices then p.blocking.portCount else p.blocking.deviceCount).Has(u) then NotBlocked
    else if p.requests.isQueued.Has(u) then BlockQueued
    else BlockOk
  }

  /** wasOwner: the count reaches zero and the user was the holder. */
  predicate WasOwner(b: Blocking, u: UserId, d: DpcId, allDevices: bool) {
    if allDevices then b.portCount.Count(u) == 1 && HoldsPort(b, u)
    else b.deviceCount.Count(u) == 1 && HoldsDpc(b, u, d)
  }

  predicate Releases(p: Port, u: UserId, allDevices: bool) {
    UnblockStatus(p, u, allDevices) == BlockOk && WasOwner(p.blocking, u, DpcOf(p.clients, u), allDevices)
  }

  function CountDown(b: Blocking, u: UserId, d: DpcId, allDevices: bool): Blocking {
    if allDevices then
      b.(portCount := b.portCount.Down(u), holder := if WasOwner(b, u, d, true) then None else b.holder)
    else
      b.(deviceCount := b.deviceCount.Down(u),
         dpcHolder := if WasOwner(b, u, d, false) then b.dpcHolder.Drop(d) else b.dpcHolder)
  }

  function Unblock(p: Port, u: UserId, allDevices: bool): Port {
    if UnblockStatus(p, u, allDevices) != BlockOk then p
    else p.(blocking := CountDown(p.blocking, u, DpcOf(p.clients, u), allDevices))
  }

  // ----- enable, shutdownPort, connectDevice, disconnect -----

  predicate EnableOk(d: Devices, i: DpcId) {
    !d.defunct.Has(i)
  }

  function Enable(d: Devices, i: DpcId, yes: bool): Devices {
    if EnableOk(d, i) then d.(enabled := d.enabled.Put(i, yes)) else d
  }

  predicate ShutdownOk(d: Devices, i: DpcId) {
    !d.defunct.Has(i) && d.destructible
  }

  function Shutdown(d: Devices, i: DpcId): Devices {
    if ShutdownOk(d, i) then d.(enabled := d.enabled.Del(i), defunct := d.defunct.Add(i)) else d
  }

  function Connected(d: Devices, i: DpcId, yes: bool): Devices {
    d.(connected := d.connected.Put(i, yes))
  }

  /** locateDevice: an address below zero, or a port that is not multi-device, means the port itself. */
  function DpcAt(d: Devices, addr: int): DpcId {
    if d.multiDevice && addr >= 0 then addr + 1 else PORT
  }

  /** A device that is new gets dpCommonInit: enabled, not connected, the autoConnect of the port. */
  function Locating(d: Devices, i: DpcId): Devices {
    if d.known.Has(i) then d
    else d.(known := d.known.Add(i), enabled := d.enabled.Add(i),
      autoConnect := d.autoConnect.Put(i, d.autoConnect.Has(PORT)))
  }

  function Attaching(c: Clients, u: UserId, i: DpcId): Clients {
    c.(attached := c.attached.Add(u), device := c.device.Put(u, i))
  }

  /** connectDevice */
  function Attach(p: Port, u: UserId, addr: int): Port {
    if p.clients.attached.Has(u) then p
    else
      var i := DpcAt(p.devices, addr);
      p.(clients := Attaching(p.clients, u, i), devices := Locating(p.devices, i))
  }

  predicate DetachOk(p: Port, u: UserId) {
    && p.clients.attached.Has(u) && !p.requests.isQueued.Has(u)
    && !p.blocking.portCount.Has(u) && !p.blocking.deviceCount.Has(u)
    && !p.clients.onExceptionList.Has(u)
  }

  function Detaching(c: Clients, u: UserId): Clients {
    c.(attached := c.attached.Del(u), device := c.device.Drop(u))
  }

  /** disconnect */
  function Detach(p: Port, u: UserId): Port {
    if DetachOk(p, u) then p.(clients := Detaching(p.clients, u)) else p
  }

  // ----- createAsynUser -----

  /** What createAsynUser sets in a userPvt, recycled or new ... */
  function Recycle(p: Port, u: UserId, hasProcess: bool, hasTimeoutUser: bool): Port {
    p.(callbacks := SetState(p.callbacks, u, Idle),
       clients := p.clients.(hasProcess := p.clients.hasProcess.Put(u, hasProcess),
                             hasTimeoutUser := p.clients.hasTimeoutUser.Put(u, hasTimeoutUser)),
       requests := p.requests.(isQueued := p.requests.isQueued.Del(u), timed := p.requests.timed.Del(u)))
  }

  /** ... and what a new one has besides: its counts are zero, its event and its timer are new. */
  function Allocate(p: Port, u: UserId): Port {
    p.(clients := Detaching(p.clients, u).(onExceptionList := p.clients.onExceptionList.Del(u)),
       callbacks := p.callbacks.(done := p.callbacks.done.Del(u)),
       blocking := p.blocking.(portCount := p.blocking.portCount.Clear(u),
         deviceCount := p.blocking.deviceCount.Clear(u)),
       requests := Disarm(p.requests, u))
  }
}
