/**
 Blocking at two levels, the port and a device: who can hold what, what others can then not
 do, and that a holder is never locked out by the holder of its own device.

 The code does not check whether a user has moved to another device inside its own callback.
 EndsWell is the exact condition under which the holders stay sound when a callback ends; it is
 met by every user that has not moved (Stays). MovedHolderStays and MutualLockout are two ways
 to fail it.
 */
module PortHolders {
  import opened Common
  import opened PortQueues
  import opened PortRegions
  import opened PortSystem
  import opened PortRep
  import opened PortWake

  predicate PortHolderOk(b: Blocking) {
    b.holder.Some? ==> b.holder.value in b.portCount.counts
  }

  ghost predicate DpcHoldersOk(b: Blocking, c: Clients) {
    forall d | d in b.dpcHolder.entries ::
      var u := b.dpcHolder.entries[d];
      u in b.deviceCount.counts && u in c.attached.on && DpcOf(c, u) == d
  }

  /** The holder of the port is the only possible holder of its own device. */
  predicate OwnDeviceOk(b: Blocking, c: Clients) {
    b.holder.Some? ==>
      var h := b.holder.value;
      b.dpcHolder.Has(DpcOf(c, h)) ==> b.dpcHolder.Get(DpcOf(c, h)) == h
  }

  predicate InCallback(pc: Pc) {
    pc.Dispatched? || pc.Running?
  }

  /** Nobody but the user being called back holds the port, or the device it was dispatched for. */
  predicate CalledOk(pc: Pc, b: Blocking) {
    InCallback(pc) ==> NotLockedOut(b, pc.user, pc.dpc)
  }

  ghost predicate Holders(b: Blocking, c: Clients, pc: Pc) {
    PortHolderOk(b) && DpcHoldersOk(b, c) && OwnDeviceOk(b, c) && CalledOk(pc, b)
  }

  ghost predicate Held(s: Sys) {
    Holders(s.port.blocking, s.port.clients, s.pc)
  }

  /**
   At the end of a callback: if its user blocks a device, that is still the one it was called
   for; and if it blocks the port, nobody else holds its device.
   */
  predicate EndsWellFor(b: Blocking, c: Clients, u: UserId, d: DpcId) {
    && (b.deviceCount.Has(u) ==> DpcOf(c, u) == d)
    && (b.portCount.Has(u) && b.dpcHolder.Has(DpcOf(c, u)) ==> b.dpcHolder.Get(DpcOf(c, u)) == u)
  }

  predicate EndsWell(s: Sys, e: Event) {
    e == Thread(EndUserCallback) && s.pc.Running? ==>
      EndsWellFor(s.port.blocking, s.port.clients, s.pc.user, s.pc.dpc)
  }

  ghost predicate WellRun(ss: seq<Sys>, es: seq<Event>) {
    Run(ss, es) && forall m | 0 <= m < |es| :: EndsWell(ss[m], es[m])
  }

  // ----- steps -----

  lemma HeldUnblockPort(b: Blocking, c: Clients, pc: Pc, u: UserId)
    requires Holders(b, c, pc)
    ensures Holders(CountDown(b, u, DpcOf(c, u), true), c, pc)
  {
  }

  lemma HeldUnblockDevice(b: Blocking, c: Clients, pc: Pc, u: UserId)
    requires Holders(b, c, pc)
    ensures Holders(CountDown(b, u, DpcOf(c, u), false), c, pc)
  {
  }

  lemma HeldControl(s: Sys, e: ControlEvent)
    requires Held(s) && CanControl(s, e)
    ensures Held(ControlNext(s, e))
  {
    if e.UnblockUser? {
      if e.allDevices {
        HeldUnblockPort(s.port.blocking, s.port.clients, s.pc, e.u);
      } else {
        HeldUnblockDevice(s.port.blocking, s.port.clients, s.pc, e.u);
      }
    }
  }

  lemma HeldAttach(b: Blocking, c: Clients, pc: Pc, u: UserId, d: DpcId)
    requires Holders(b, c, pc) && BlocksOk(b, c) && u !in c.attached.on
    ensures Holders(b, Attaching(c, u, d), pc)
  {
  }

  lemma HeldDetach(b: Blocking, c: Clients, pc: Pc, u: UserId)
    requires Holders(b, c, pc) && u !in b.portCount.counts && u !in b.deviceCount.counts
    ensures Holders(b, Detaching(c, u), pc)
  {
  }

  lemma HeldLife(s: Sys, e: LifeEvent)
    requires Rep(s) && Held(s) && CanLife(s, e)
    ensures Held(LifeNext(s, e))
  {
    match e
    case Create(u, _, _) => CreatedIsFree(s, u);
    case AttachUser(u, addr) =>
      if !s.port.clients.attached.Has(u) {
        HeldAttach(s.port.blocking, s.port.clients, s.pc, u, DpcAt(s.port.devices, addr));
      }
    case DetachUser(u) =>
      if DetachOk(s.port, u) {
        HeldDetach(s.port.blocking, s.port.clients, s.pc, u);
      }
    case _ =>
  }

  /** The heart of it: the end of a callback leaves the holders sound exactly if it ends well. */
  lemma TakeHoldersIff(b: Blocking, c: Clients, u: UserId, d: DpcId)
    requires PortHolderOk(b) && DpcHoldersOk(b, c) && OwnDeviceOk(b, c) && BlocksOk(b, c) && NotLockedOut(b, u, d)
    ensures
      var t := TakeHolders(b, u, d);
      PortHolderOk(t) && DpcHoldersOk(t, c) && OwnDeviceOk(t, c) <==> EndsWellFor(b, c, u, d)
  {
    var t := TakeHolders(b, u, d);
    if b.deviceCount.Has(u) {
      assert t.dpcHolder.entries[d] == u;
    }
  }

  lemma HeldTest(s: Sys, i: nat, k: nat, callTimeout: bool)
    requires InList(s.port.requests.queues, i, k) && Held(s)
    ensures Held(TestStep(s, i, k, callTimeout))
  {
  }

  lemma ThreadBlocking(s: Sys, e: ThreadEvent)
    requires CanThread(s, e) && !e.Test?
    ensures
      var t := ThreadNext(s, e);
      && t.port.clients == s.port.clients
      && t.port.blocking ==
         (if e == EndUserCallback then TakeHolders(s.port.blocking, s.pc.user, s.pc.dpc) else s.port.blocking)
      && (InCallback(t.pc) ==> InCallback(s.pc) && t.pc.user == s.pc.user && t.pc.dpc == s.pc.dpc)
      && (e == EndUserCallback ==> InCallback(s.pc) && !InCallback(t.pc))
  {
  }

  lemma HeldThread(s: Sys, e: ThreadEvent)
    requires Rep(s) && Held(s) && CanThread(s, e)
    ensures Held(ThreadNext(s, e)) <==> EndsWell(s, Thread(e))
  {
    if e.Test? {
      HeldTest(s, s.pc.i, s.pc.k, s.pc.callTimeout);
    } else {
      ThreadBlocking(s, e);
      if e == EndUserCallback {
        TakeHoldersIff(s.port.blocking, s.port.clients, s.pc.user, s.pc.dpc);
      }
    }
  }

  /** Every event keeps the holders sound, except the end of a callback that does not end well, which never does. */
  lemma HeldStepIff(s: Sys, e: Event)
    requires Rep(s) && Held(s) && Can(s, e)
    ensures Held(Next(s, e)) <==> EndsWell(s, e)
  {
    match e
    case Request(r) => RequestFrame(s, r);
    case Control(c) => HeldControl(s, c);
    case Life(l) => HeldLife(s, l);
    case Thread(t) => HeldThread(s, t);
  }

  lemma HeldMoment(ss: seq<Sys>, es: seq<Event>, m: nat)
    requires Run(ss, es) && m < |es| && Held(ss[m])
    ensures Held(ss[m + 1]) <==> EndsWell(ss[m], es[m])
  {
    RepAlways(ss, es, m);
    RunStep(ss, es, m);
    HeldStepIff(ss[m], es[m]);
  }

  lemma InitHeld(s: Sys)
    requires Init(s)
    ensures Held(s)
  {
  }

  /** Over any run: the holders have been sound at every moment exactly if every callback so far has ended well. */
  lemma {:induction false} HeldIff(ss: seq<Sys>, es: seq<Event>, m: nat)
    requires Run(ss, es) && m < |ss|
    ensures (forall k | 0 <= k <= m :: Held(ss[k])) <==> (forall k | 0 <= k < m :: EndsWell(ss[k], es[k]))
  {
    if m == 0 {
      InitHeld(ss[0]);
    } else {
      HeldIff(ss, es, m - 1);
      if Held(ss[m - 1]) {
        HeldMoment(ss, es, m - 1);
      }
    }
  }

  lemma HeldAlways(ss: seq<Sys>, es: seq<Event>, m: nat)
    requires WellRun(ss, es) && m < |ss|
    ensures Held(ss[m])
  {
    HeldIff(ss, es, m);
  }

  // ----- what it means -----

  /** A holder asked to be one and is still connected; and it is the holder of its own device only. */
  lemma HoldersAskedForIt(ss: seq<Sys>, es: seq<Event>, m: nat, u: UserId, d: DpcId)
    requires WellRun(ss, es) && m < |ss|
    ensures HoldsPort(ss[m].port.blocking, u) ==>
      ss[m].port.blocking.portCount.Count(u) > 0 && ss[m].port.clients.attached.Has(u)
    ensures HoldsDpc(ss[m].port.blocking, u, d) ==>
      ss[m].port.blocking.deviceCount.Count(u) > 0 && ss[m].port.clients.attached.Has(u) &&
        DpcOf(ss[m].port.clients, u) == d
  {
    HeldAlways(ss, es, m);
    RepAlways(ss, es, m);
  }

  /** While somebody holds the port, or a device, only its own callbacks run there. */
  lemma OnlyHoldersRun(ss: seq<Sys>, es: seq<Event>, m: nat, h: UserId)
    requires WellRun(ss, es) && m < |ss| && InCallback(ss[m].pc)
    ensures HoldsPort(ss[m].port.blocking, h) ==> ss[m].pc.user == h
    ensures HoldsDpc(ss[m].port.blocking, h, ss[m].pc.dpc) ==> ss[m].pc.user == h
  {
    HeldAlways(ss, es, m);
  }

  /** At the end of its callback a user that blocks the port, or its device, is the holder of that. */
  lemma BlockerBecomesHolder(s: Sys)
    requires Rep(s) && Held(s) && s.pc.Running?
    ensures
      var u, b := s.pc.user, ThreadNext(s, EndUserCallback).port.blocking;
      && (HoldsPort(b, u) <==> s.port.blocking.portCount.Count(u) > 0)
      && (HoldsDpc(b, u, s.pc.dpc) <==> s.port.blocking.deviceCount.Count(u) > 0)
  {
    var u, b := s.pc.user, s.port.blocking;
    assert HoldsPort(b, u) ==> u in b.portCount.counts;
    assert HoldsDpc(b, u, s.pc.dpc) ==> u in b.deviceCount.counts;
  }

  /** It stays the holder until it has itself undone the last of its blocks, and then it is one no longer. */
  lemma HolderUntilUnblocked(s: Sys, e: Event, u: UserId)
    requires Rep(s) && Held(s) && Can(s, e) && HoldsPort(s.port.blocking, u)
    ensures HoldsPort(Next(s, e).port.blocking, u) <==>
      !(e == Control(UnblockUser(u, true)) && s.port.blocking.portCount.Count(u) == 1 &&
        !s.port.requests.isQueued.Has(u))
  {
    match e
    case Request(r) => RequestFrame(s, r);
    case _ =>
  }

  lemma DeviceHolderCountDown(b: Blocking, c: Clients, u: UserId, d: DpcId, v: UserId, allDevices: bool)
    requires DpcHoldersOk(b, c) && HoldsDpc(b, u, d)
    ensures HoldsDpc(CountDown(b, v, DpcOf(c, v), allDevices), u, d) <==>
      !(v == u && !allDevices && b.deviceCount.Count(u) == 1)
  {
    assert u in b.deviceCount.counts && DpcOf(c, u) == d;
  }

  lemma DeviceHolderUntilUnblocked(s: Sys, e: Event, u: UserId, d: DpcId)
    requires Rep(s) && Held(s) && Can(s, e) && HoldsDpc(s.port.blocking, u, d)
    ensures HoldsDpc(Next(s, e).port.blocking, u, d) <==>
      !(e == Control(UnblockUser(u, false)) && s.port.blocking.deviceCount.Count(u) == 1 &&
        !s.port.requests.isQueued.Has(u))
  {
    match e
    case Request(r) => RequestFrame(s, r);
    case Control(c) => DeviceHolderControl(s, c, u, d);
    case Life(l) =>
    case Thread(t) =>
      if !t.Test? {
        ThreadBlocking(s, t);
      }
  }

  lemma DeviceHolderControl(s: Sys, e: ControlEvent, u: UserId, d: DpcId)
    requires Rep(s) && Held(s) && CanControl(s, e) && HoldsDpc(s.port.blocking, u, d)
    ensures HoldsDpc(ControlNext(s, e).port.blocking, u, d) <==>
      !(e == UnblockUser(u, false) && s.port.blocking.deviceCount.Count(u) == 1 && !s.port.requests.isQueued.Has(u))
  {
    assert u in s.port.blocking.deviceCount.counts && u in s.port.clients.attached.on;
    match e
    case UnblockUser(v, allDevices) => DeviceHolderCountDown(s.port.blocking, s.port.clients, u, d, v, allDevices);
    case _ =>
  }

  predicate KeepsFreesOrTakes(was: Option<UserId>, now: Option<UserId>) {
    now == was || was == None || now == None
  }

  function DpcHolder(b: Blocking, d: DpcId): Option<UserId> {
    if b.dpcHolder.Has(d) then Some(b.dpcHolder.Get(d)) else None
  }

  /** A holder is never replaced by another one without an unblock in between. */
  lemma HolderNeverReplaced(s: Sys, e: Event, d: DpcId)
    requires Held(s) && Can(s, e)
    ensures KeepsFreesOrTakes(s.port.blocking.holder, Next(s, e).port.blocking.holder)
    ensures KeepsFreesOrTakes(DpcHolder(s.port.blocking, d), DpcHolder(Next(s, e).port.blocking, d))
  {
    match e
    case Request(r) => RequestFrame(s, r);
    case _ =>
  }

  /** The request of the port's holder can be dispatched as soon as its device is enabled ... */
  lemma HolderIsDispatchable(ss: seq<Sys>, es: seq<Event>, m: nat, h: UserId)
    requires WellRun(ss, es) && m < |ss| && HoldsPort(ss[m].port.blocking, h)
    ensures Dispatchable(ss[m].port, h) <==> ss[m].port.devices.enabled.Has(DpcOf(ss[m].port.clients, h))
  {
    HeldAlways(ss, es, m);
  }

  /** ... so blocking cannot deadlock with itself: the thread does not go to sleep on it. */
  lemma HolderIsServed(ss: seq<Sys>, es: seq<Event>, m: nat, h: UserId)
    requires WellRun(ss, es) && m < |ss| && HoldsPort(ss[m].port.blocking, h)
    requires ss[m].pc == Waiting && !ss[m].notify && NothingPending(ss[m].pending)
    requires ss[m].port.devices.enabled.Has(PORT) && ss[m].port.devices.connected.Has(PORT)
    requires ss[m].port.devices.enabled.Has(DpcOf(ss[m].port.clients, h))
    ensures !ss[m].port.requests.isQueued.Has(h)
  {
    HolderIsDispatchable(ss, es, m, h);
    NoLostWakeup(ss, es, m);
    RepAlways(ss, es, m);
    FlaggedIffInOneSlot(ss[m], h);
  }

  // ----- users that do not move -----

  /** A user in its callback is not connected to another device. */
  predicate Stays(s: Sys, e: Event) {
    e.Life? && e.l.AttachUser? && InCallback(s.pc) && s.pc.user == e.l.u ==>
      s.port.clients.attached.Has(e.l.u) || DpcAt(s.port.devices, e.l.addr) == s.pc.dpc
  }

  /** The user being called back is where it was when it was dispatched, if it is connected at all. */
  predicate AtItsPlace(s: Sys) {
    InCallback(s.pc) && s.pc.user in s.port.clients.attached.on ==> DpcOf(s.port.clients, s.pc.user) == s.pc.dpc
  }

  lemma PlaceKept(s: Sys, e: Event)
    requires Rep(s) && AtItsPlace(s) && Can(s, e) && Stays(s, e)
    ensures AtItsPlace(Next(s, e))
  {
    match e
    case Request(r) => RequestFrame(s, r);
    case Control(c) => ControlFrame(s, c);
    case Life(l) =>
      if l.Create? {
        CreatedIsFree(s, l.u);
      }
    case Thread(t) =>
      if !t.Test? {
        ThreadBlocking(s, t);
      }
  }

  lemma {:induction false} PlaceAlways(ss: seq<Sys>, es: seq<Event>, m: nat)
    requires Run(ss, es) && m <= |es| && forall k | 0 <= k < m :: Stays(ss[k], es[k])
    ensures AtItsPlace(ss[m])
  {
    if m > 0 {
      PlaceAlways(ss, es, m - 1);
      RepAlways(ss, es, m - 1);
      RunStep(ss, es, m - 1);
      PlaceKept(ss[m - 1], es[m - 1]);
    }
  }

  /** Then every callback ends well: it is enough that no user moves inside its own callback. */
  lemma {:induction false} StayingEndsWell(ss: seq<Sys>, es: seq<Event>, m: nat)
    requires Run(ss, es) && m <= |es| && forall k | 0 <= k < m :: Stays(ss[k], es[k])
    ensures forall k | 0 <= k < m :: EndsWell(ss[k], es[k])
  {
    if m > 0 {
      StayingEndsWell(ss, es, m - 1);
      HeldIff(ss, es, m - 1);
      RepAlways(ss, es, m - 1);
      PlaceAlways(ss, es, m - 1);
      PlaceIsWell(ss[m - 1]);
    }
  }

  lemma PlaceIsWell(s: Sys)
    requires Rep(s) && Held(s) && AtItsPlace(s)
    ensures InCallback(s.pc) ==> EndsWellFor(s.port.blocking, s.port.clients, s.pc.user, s.pc.dpc)
  {
  }

  // ----- users that do -----

  /** Leave the device, join another one, block that, end the callback. */
  function Moving(u: UserId, addr: int): seq<Event> {
    [Life(DetachUser(u)), Life(AttachUser(u, addr)), Control(BlockUser(u, false)), Thread(EndUserCallback)]
  }

  /**
   A device is lost: whenever a callback runs, its user can move to another device of the port
   and block that, and from then on it holds the device it came from, although its own unblock
   does not release that and succeeds only once.
   */
  lemma MovedHolderStays(s: Sys, addr: int) returns (ss: seq<Sys>)
    requires s.pc.Running? && Live(s, s.pc.user) && DetachOk(s.port, s.pc.user)
    requires DpcAt(s.port.devices, addr) != s.pc.dpc
    ensures |ss| == 5 && ss[0] == s
    ensures
      var es := Moving(s.pc.user, addr);
      forall m | 0 <= m < 4 :: Can(ss[m], es[m]) && ss[m + 1] == Next(ss[m], es[m])
    ensures
      var p := Unblock(ss[4].port, s.pc.user, false);
      && UnblockStatus(ss[4].port, s.pc.user, false) == BlockOk
      && HoldsDpc(p.blocking, s.pc.user, s.pc.dpc) && UnblockStatus(p, s.pc.user, false) == NotBlocked
  {
    var u := s.pc.user;
    var a := s.(port := Detach(s.port, u));
    var b := a.(port := Attach(a.port, u, addr));
    var c := b.(port := Block(b.port, u, false));
    var d := EndStep(c, u, s.pc.dpc);
    assert Can(s, Life(DetachUser(u))) && a == Next(s, Life(DetachUser(u)));
    assert Can(a, Life(AttachUser(u, addr))) && b == Next(a, Life(AttachUser(u, addr)));
    assert Can(b, Control(BlockUser(u, false))) && c == Next(b, Control(BlockUser(u, false)));
    assert Can(c, Thread(EndUserCallback)) && d == Next(c, Thread(EndUserCallback));
    ss := [s, a, b, c, d];
  }

  /** Leave the device, join another one, block the port, end the callback. */
  function Invading(u: UserId, addr: int): seq<Event> {
    [Life(DetachUser(u)), Life(AttachUser(u, addr)), Control(BlockUser(u, true)), Thread(EndUserCallback)]
  }

  /**
   Two holders lock each other out: if the user moves to a device that `v` holds, and blocks the
   port, then the port has a holder that waits for the device, and the device one that waits for
   the port. Neither can be dispatched, although the device is enabled.
   */
  lemma MutualLockout(s: Sys, addr: int, v: UserId) returns (ss: seq<Sys>)
    requires s.pc.Running? && Live(s, s.pc.user) && DetachOk(s.port, s.pc.user)
    requires
      var d := DpcAt(s.port.devices, addr);
      && d != s.pc.dpc && s.port.devices.known.Has(d) && s.port.devices.enabled.Has(d)
      && HoldsDpc(s.port.blocking, v, d) && v != s.pc.user && DpcOf(s.port.clients, v) == d
    ensures |ss| == 5 && ss[0] == s
    ensures
      var es := Invading(s.pc.user, addr);
      forall m | 0 <= m < 4 :: Can(ss[m], es[m]) && ss[m + 1] == Next(ss[m], es[m])
    ensures
      var p, u, d := ss[4].port, s.pc.user, DpcAt(s.port.devices, addr);
      && HoldsPort(p.blocking, u) && HoldsDpc(p.blocking, v, d) && DpcOf(p.clients, u) == DpcOf(p.clients, v) == d
      && p.devices.enabled.Has(d) && !Dispatchable(p, u) && !Dispatchable(p, v)
  {
    var u := s.pc.user;
    var a := s.(port := Detach(s.port, u));
    var b := a.(port := Attach(a.port, u, addr));
    var c := b.(port := Block(b.port, u, true));
    var d := EndStep(c, u, s.pc.dpc);
    assert Can(s, Life(DetachUser(u))) && a == Next(s, Life(DetachUser(u)));
    assert Can(a, Life(AttachUser(u, addr))) && b == Next(a, Life(AttachUser(u, addr)));
    assert Can(b, Control(BlockUser(u, true))) && c == Next(b, Control(BlockUser(u, true)));
    assert Can(c, Thread(EndUserCallback)) && d == Next(c, Thread(EndUserCallback));
    ss := [s, a, b, c, d];
  }
}
