/**
 The representation invariant of the scheduler and its consequences: the lists and `isQueued`
 agree in every state of every run, so the asserts of portThread hold and the LOGIC ERROR
 branches of cancelRequest and queueTimeoutCallback are dead; and an asynUser is never in the
 lists and on the free list at once.
 */
module PortRep {
  import opened PortQueues
  import opened PortRegions
  import opened PortSystem

  /** isQueued says exactly who is on the lists, and nobody is there twice. */
  ghost predicate ListsOk(r: Requests) {
    Queued(r.queues) == multiset(r.isQueued.on)
  }

  /** A queued user is attached, one that its client has given away is not. */
  ghost predicate LinksOk(r: Requests, c: Clients, l: Pool) {
    && r.isQueued.on <= c.attached.on <= l.users.on
    && c.onExceptionList.on <= c.attached.on
    && l.released.on <= l.users.on && l.released.on !! c.attached.on
  }

  /** A detached user blocks nothing. */
  ghost predicate BlocksOk(b: Blocking, c: Clients) {
    && (forall u :: u in b.portCount.counts ==> u in c.attached.on)
    && (forall u :: u in b.deviceCount.counts ==> u in c.attached.on)
  }

  /** A dpCommon that has been shut down is not enabled, and every user's dpCommon is known. */
  ghost predicate DevicesOk(d: Devices, c: Clients) {
    && d.known.Has(PORT)
    && d.defunct.on !! d.enabled.on && d.defunct.on <= d.known.on
    && forall u | u in c.attached.on :: DpcOf(c, u) in d.known.on
  }

  /** How often `u` is, or is about to be, on the free list. */
  function FreeCount(l: Pool, u: UserId): nat {
    multiset(l.freeList.users)[u] + l.freeingIdle.Count(u) + l.freeingBusy.Count(u) +
    if l.freeAfterCallback.Has(u) then 1 else 0
  }

  /** That is exactly once, between freeAsynUser and the next createAsynUser, and not at all otherwise. */
  ghost predicate PoolOk(l: Pool) {
    forall u :: FreeCount(l, u) == if l.released.Has(u) then 1 else 0
  }

  predicate PcOk(s: Sys) {
    var r := s.port.requests;
    match s.pc
    case Scanning(i, k, _) => InListOrAtEnd(r.queues, i, k)
    case Testing(i, k, _) => InList(r.queues, i, k)
    case Dropped(i, k, u, _) => r.changed || (InList(r.queues, i, k) && r.queues.List(i)[k] == u)
    case _ => true
  }

  ghost predicate Rep(s: Sys) {
    && ListsOk(s.port.requests)
    && LinksOk(s.port.requests, s.port.clients, s.pool)
    && BlocksOk(s.port.blocking, s.port.clients)
    && DevicesOk(s.port.devices, s.port.clients)
    && PoolOk(s.pool)
    && PcOk(s)
  }

  lemma InitRep(s: Sys)
    requires Init(s)
    ensures Rep(s)
  {
  }

  // ----- the lists -----

  lemma ListsAdd(r: Requests, u: UserId, priority: Priority, timeout: real, front: bool)
    requires ListsOk(r) && !r.isQueued.Has(u)
    ensures ListsOk(Enqueue(r, u, priority, timeout, front))
  {
    AddedIsQueued(r.queues, priority, u);
    assert multiset(r.isQueued.on + {u}) == multiset(r.isQueued.on) + multiset{u};
  }

  lemma SetLess(x: set<UserId>, u: UserId, rest: multiset<UserId>)
    requires u in x && multiset(x) == rest + multiset{u}
    ensures rest == multiset(x - {u})
  {
    assert x == x - {u} + {u};
    assert multiset(x) == multiset(x - {u}) + multiset{u};
    assert (rest + multiset{u}) - multiset{u} == rest;
  }

  lemma ListedIsFlagged(r: Requests, s: Slot)
    requires ListsOk(r) && ValidSlot(r.queues, s)
    ensures r.isQueued.Has(At(r.queues, s))
  {
    ListedIsQueued(r.queues, s.list, At(r.queues, s));
  }

  lemma ListsRemove(r: Requests, s: Slot)
    requires ListsOk(r) && ValidSlot(r.queues, s)
    ensures Queued(Delete(r.queues, s)) == multiset(r.isQueued.Del(At(r.queues, s)).on)
  {
    ListedIsFlagged(r, s);
    DeletedIsNotQueued(r.queues, s);
    SetLess(r.isQueued.on, At(r.queues, s), Queued(Delete(r.queues, s)));
  }

  lemma ListsLocate(r: Requests, u: UserId)
    requires ListsOk(r)
    ensures r.isQueued.Has(u) <==> Locate(r.queues, u, CONNECT).Some?
    ensures var w := Locate(r.queues, u, CONNECT); w.Some? ==> ListsOk(Remove(r, w.value))
  {
    LocateFindsQueued(r.queues, u);
    var w := Locate(r.queues, u, CONNECT);
    if w.Some? {
      ListsRemove(r, w.value);
    }
  }

  lemma ListsCancel(p: Port, u: UserId)
    requires ListsOk(p.requests)
    ensures ListsOk(CancelRequest(p, u).requests)
  {
    ListsLocate(p.requests, u);
  }

  lemma ListsExpire(p: Port, u: UserId)
    requires ListsOk(p.requests)
    ensures ListsOk(Expire(p, u).requests)
  {
    ListsLocate(Disarm(p.requests, u), u);
  }

  lemma ListsRequest(s: Sys, e: RequestEvent)
    requires ListsOk(s.port.requests) && CanRequest(s, e)
    ensures ListsOk(RequestNext(s, e).port.requests)
  {
    match e
    case Queue(u, priority, timeout, even) =>
      if QueueStatus(s.port, u, priority, timeout, even) == Accepted {
        ListsAdd(s.port.requests, u, priority, timeout, AddsToFront(s.port, u));
      }
    case Cancel(u) => ListsCancel(s.port, u);
    case TimerExpires(u) => ListsExpire(s.port, u);
    case _ =>
  }

  lemma ListsThread(s: Sys, e: ThreadEvent)
    requires ListsOk(s.port.requests) && CanThread(s, e)
    ensures ListsOk(ThreadNext(s, e).port.requests)
  {
    match e
    case NextConnect =>
      if s.port.requests.queues.List(CONNECT) != [] {
        ListsRemove(s.port.requests, Slot(CONNECT, 0));
      }
    case Test => ListsRemove(s.port.requests, Slot(s.pc.i, s.pc.k));
    case _ =>
  }

  /** The asserts of portThread: whatever it takes off a list has isQueued set. */
  lemma DispatchIsQueued(s: Sys, e: ThreadEvent)
    requires Rep(s) && CanThread(s, e) && ThreadNext(s, e).port.requests.queues != s.port.requests.queues
    ensures ThreadNext(s, e).pc.ConnectDispatched? || ThreadNext(s, e).pc.Dispatched?
    ensures s.port.requests.isQueued.Has(ThreadNext(s, e).pc.user)
    ensures s.port.clients.attached.Has(ThreadNext(s, e).pc.user)
  {
    if e == NextConnect {
      ListedIsFlagged(s.port.requests, Slot(CONNECT, 0));
    } else {
      ListedIsFlagged(s.port.requests, Slot(s.pc.i, s.pc.k));
    }
  }

  /** The LOGIC ERROR branches are dead. */
  lemma NoLogicError(s: Sys, u: UserId)
    requires Rep(s)
    ensures CancelOutcome(s.port, u) != CancelLogicError && ExpireOutcome(s.port, u) != ExpireLogicError
  {
    ListsLocate(s.port.requests, u);
  }

  /** Membership in words: `u` is flagged exactly when one slot, and one only, is its. */
  lemma FlaggedIffInOneSlot(s: Sys, u: UserId)
    requires Rep(s)
    ensures s.port.requests.isQueued.Has(u) <==>
      exists a: Slot :: ValidSlot(s.port.requests.queues, a) && At(s.port.requests.queues, a) == u
    ensures forall a: Slot, b: Slot ::
      (ValidSlot(s.port.requests.queues, a) && ValidSlot(s.port.requests.queues, b) &&
       At(s.port.requests.queues, a) == u && At(s.port.requests.queues, b) == u) ==> a == b
  {
    var q := s.port.requests.queues;
    ListsLocate(s.port.requests, u);
    forall a: Slot | ValidSlot(q, a) && At(q, a) == u
      ensures s.port.requests.isQueued.Has(u)
    {
      ListedIsFlagged(s.port.requests, a);
    }
    forall a: Slot, b: Slot | ValidSlot(q, a) && ValidSlot(q, b) && At(q, a) == u && At(q, b) == u
      ensures a == b
    {
      UniqueSlot(q, a, b);
    }
  }

  // ----- the users -----

  /** What is on the free list can be used again: the asserts of createAsynUser hold for it. */
  lemma RecycledIsClean(s: Sys, u: UserId)
    requires Rep(s) && u in s.pool.freeList.users
    ensures s.pool.released.Has(u) && multiset(s.pool.freeList.users)[u] == 1
    ensures !s.port.requests.isQueued.Has(u) && u !in Queued(s.port.requests.queues)
    ensures !s.port.clients.attached.Has(u) && !s.port.clients.onExceptionList.Has(u)
    ensures s.port.blocking.portCount.Count(u) == 0 && s.port.blocking.deviceCount.Count(u) == 0
    ensures !s.pool.freeAfterCallback.Has(u)
  {
    assert FreeCount(s.pool, u) >= multiset(s.pool.freeList.users)[u] >= 1;
    assert !s.port.blocking.portCount.Has(u) && !s.port.blocking.deviceCount.Has(u);
    assert u !in multiset(s.port.requests.isQueued.on);
  }

  lemma CreatedIsFree(s: Sys, u: UserId)
    requires Rep(s) && CanCreate(s.pool, u)
    ensures !s.port.requests.isQueued.Has(u) && !s.port.clients.attached.Has(u)
    ensures FreeCount(s.pool, u) == if s.pool.freeList.users == [] then 0 else 1
  {
    if s.pool.freeList.users != [] {
      RecycledIsClean(s, u);
    }
    assert FreeCount(s.pool, u) == if s.pool.released.Has(u) then 1 else 0;
  }

  lemma PoolCreate(l: Pool, u: UserId)
    requires PoolOk(l) && CanCreate(l, u) && l.released.on <= l.users.on
    ensures PoolOk(TakeUser(l, u))
  {
    if l.freeList.users != [] {
      assert l.freeList.users == [u] + l.freeList.users[1..];
      assert multiset(l.freeList.users) == multiset{u} + multiset(l.freeList.users[1..]);
    }
    forall v
      ensures FreeCount(TakeUser(l, u), v) == if TakeUser(l, u).released.Has(v) then 1 else 0
    {
      assert FreeCount(l, v) == if l.released.Has(v) then 1 else 0;
    }
  }

  lemma PoolFinish(l: Pool, u: UserId)
    requires PoolOk(l)
    ensures PoolOk(FreeAfter(l, u))
    ensures FreeAfter(l, u).released == l.released && FreeAfter(l, u).users == l.users
  {
    forall v
      ensures FreeCount(FreeAfter(l, u), v) == FreeCount(l, v)
    {
    }
  }

  lemma PoolFree(l: Pool, u: UserId, state: CallbackState)
    requires PoolOk(l) && !l.released.Has(u)
    ensures PoolOk(StartFree(l, u, state))
  {
    forall v
      ensures FreeCount(StartFree(l, u, state), v) == if l.released.Has(v) || v == u then 1 else 0
    {
      assert FreeCount(l, v) == if l.released.Has(v) then 1 else 0;
    }
  }

  lemma PoolFreed(l: Pool, u: UserId, sawIdle: bool)
    requires PoolOk(l) && (if sawIdle then l.freeingIdle else l.freeingBusy).Has(u)
    ensures PoolOk(EndFree(l, u, sawIdle))
  {
    assert FreeCount(l, u) <= 1;
    forall v
      ensures FreeCount(EndFree(l, u, sawIdle), v) == FreeCount(l, v)
    {
      assert FreeCount(l, v) == if l.released.Has(v) then 1 else 0;
    }
  }

  /** What cancelRequest does, the lists apart. */
  lemma CancelEffect(s: Sys, u: UserId)
    requires Rep(s)
    ensures
      var t, r, w := CancelStep(s, u), s.port.requests, s.pending;
      && t.port.requests.isQueued == r.isQueued.Del(u) && t.port.requests.timed == r.timed &&
        t.port.requests.armed == r.armed
      && t.pc == s.pc && t.pool == s.pool
      && if r.isQueued.Has(u) then
           && t.port.callbacks == s.port.callbacks
           && t.pending == if r.timed.Has(u) then w.(stopping := w.stopping.Up(u)) else w.(leaving := w.leaving.Up(u))
         else if s.port.clients.attached.Has(u) && StateOf(s.port.callbacks, u) == Active then
           && t.port.callbacks == SetState(s.port.callbacks, u, Canceled)
           && t.pending == w.(canceling := w.canceling.Up(u))
         else t.port.callbacks == s.port.callbacks && t.pending == w
  {
    NoLogicError(s, u);
    assert !s.port.requests.isQueued.Has(u) ==> s.port.requests.isQueued.Del(u) == s.port.requests.isQueued;
  }

  /** What the expiry of a timer does, the lists apart. */
  lemma ExpireEffect(s: Sys, u: UserId)
    requires Rep(s)
    ensures
      var t, r, w := ExpireStep(s, u), s.port.requests, s.pending;
      && t.port.requests.isQueued == r.isQueued.Del(u) && t.port.requests.timed == r.timed &&
        t.port.requests.armed == r.armed.Del(u)
      && t.pc == s.pc && t.pool == s.pool
      && if r.isQueued.Has(u) && s.port.clients.hasTimeoutUser.Has(u) then
           && t.port.callbacks == SetState(s.port.callbacks, u, Active)
           && t.pending == w.(inTimeout := w.inTimeout.Up(u))
         else t.port.callbacks == s.port.callbacks && t.pending == w.(signaling := t.pending.signaling)
  {
    NoLogicError(s, u);
    assert !s.port.requests.isQueued.Has(u) ==> s.port.requests.isQueued.Del(u) == s.port.requests.isQueued;
  }

  lemma AttachedIsNotFreed(s: Sys, u: UserId)
    requires Rep(s) && u in s.port.clients.attached.on
    ensures u !in s.pool.freeList.users && u !in s.pool.freeingIdle.counts && u in s.pool.users.on
  {
    assert FreeCount(s.pool, u) <= 0;
    assert multiset(s.pool.freeList.users)[u] == 0;
  }

  // ----- one step -----

  /** The clients and the timer do not touch what the users are connected to, nor the thread. */
  lemma RequestFrame(s: Sys, e: RequestEvent)
    requires CanRequest(s, e)
    ensures
      var t := RequestNext(s, e);
      && t.port.clients == s.port.clients && t.port.devices == s.port.devices && t.port.blocking == s.port.blocking
      && t.pc == s.pc
      && t.pool == (if e.TimeoutEnds? then FreeAfter(s.pool, e.u) else s.pool)
  {
  }

  lemma RequestLinks(s: Sys, e: RequestEvent)
    requires CanRequest(s, e)
    ensures RequestNext(s, e).port.requests.isQueued.on <= s.port.requests.isQueued.on + s.port.clients.attached.on
  {
  }

  /** While the lock is dropped the lists stay as they are, or the scan is told to start again. */
  lemma RequestChanged(s: Sys, e: RequestEvent)
    requires CanRequest(s, e)
    ensures
      var r := RequestNext(s, e).port.requests;
      (r.queues == s.port.requests.queues && r.changed == s.port.requests.changed) || (Unlocked(s) && r.changed)
  {
  }

  lemma RepRequest(s: Sys, e: RequestEvent)
    requires Rep(s) && CanRequest(s, e)
    ensures Rep(RequestNext(s, e))
  {
    ListsRequest(s, e);
    RequestFrame(s, e);
    RequestLinks(s, e);
    RequestChanged(s, e);
    if e.TimeoutEnds? {
      PoolFinish(s.pool, e.u);
    }
  }

  lemma ControlFrame(s: Sys, e: ControlEvent)
    requires CanControl(s, e)
    ensures
      var t := ControlNext(s, e);
      && t.port.clients == s.port.clients && t.port.callbacks == s.port.callbacks
      && t.port.requests == s.port.requests.(changed := t.port.requests.changed)
      && (s.port.requests.changed ==> t.port.requests.changed)
      && t.pc == s.pc && t.pool == s.pool
  {
  }

  lemma BlocksUp(b: Blocking, c: Clients, u: UserId, allDevices: bool)
    requires BlocksOk(b, c) && u in c.attached.on
    ensures BlocksOk(CountUp(b, u, allDevices), c)
  {
  }

  lemma BlocksDown(b: Blocking, c: Clients, u: UserId, allDevices: bool)
    requires BlocksOk(b, c)
    ensures BlocksOk(CountDown(b, u, DpcOf(c, u), allDevices), c)
  {
  }

  lemma ControlBlocks(s: Sys, e: ControlEvent)
    requires BlocksOk(s.port.blocking, s.port.clients) && CanControl(s, e)
    ensures BlocksOk(ControlNext(s, e).port.blocking, s.port.clients)
  {
    match e
    case BlockUser(u, allDevices) =>
      if BlockStatus(s.port, u) == BlockOk {
        BlocksUp(s.port.blocking, s.port.clients, u, allDevices);
      }
    case UnblockUser(u, allDevices) => BlocksDown(s.port.blocking, s.port.clients, u, allDevices);
    case _ =>
  }

  lemma ControlDevices(s: Sys, e: ControlEvent)
    requires DevicesOk(s.port.devices, s.port.clients) && CanControl(s, e)
    ensures DevicesOk(ControlNext(s, e).port.devices, s.port.clients)
  {
  }

  lemma RepControl(s: Sys, e: ControlEvent)
    requires Rep(s) && CanControl(s, e)
    ensures Rep(ControlNext(s, e))
  {
    ControlFrame(s, e);
    ControlBlocks(s, e);
    ControlDevices(s, e);
  }

  lemma RepCreate(s: Sys, u: UserId, hasProcess: bool, hasTimeoutUser: bool)
    requires Rep(s) && CanCreate(s.pool, u)
    ensures Rep(CreateUser(s, u, hasProcess, hasTimeoutUser))
  {
    CreatedIsFree(s, u);
    PoolCreate(s.pool, u);
  }

  lemma RepAttach(s: Sys, u: UserId, addr: int)
    requires Rep(s) && Live(s, u)
    ensures Rep(s.(port := Attach(s.port, u, addr)))
  {
  }

  lemma RepDetach(s: Sys, u: UserId)
    requires Rep(s)
    ensures Rep(s.(port := Detach(s.port, u)))
  {
  }

  lemma RepLife(s: Sys, e: LifeEvent)
    requires Rep(s) && CanLife(s, e)
    ensures Rep(LifeNext(s, e))
  {
    match e
    case Create(u, hasProcess, hasTimeoutUser) => RepCreate(s, u, hasProcess, hasTimeoutUser);
    case AttachUser(u, addr) => RepAttach(s, u, addr);
    case DetachUser(u) => RepDetach(s, u);
    case FreeStarts(u) => PoolFree(s.pool, u, StateOf(s.port.callbacks, u));
    case FreeEnds(u, sawIdle) => PoolFreed(s.pool, u, sawIdle);
    case _ =>
  }

  lemma ThreadFrame(s: Sys, e: ThreadEvent)
    requires CanThread(s, e)
    ensures
      var t := ThreadNext(s, e);
      && t.port.clients == s.port.clients && t.port.devices == s.port.devices
      && t.port.blocking.portCount == s.port.blocking.portCount &&
        t.port.blocking.deviceCount == s.port.blocking.deviceCount
      && t.port.requests.isQueued.on <= s.port.requests.isQueued.on
      && t.pool == (if e == EndConnectCallback || e == EndUserCallback then FreeAfter(s.pool, s.pc.user) else s.pool)
  {
  }

  lemma ThreadPc(s: Sys, e: ThreadEvent)
    requires PcOk(s) && CanThread(s, e)
    ensures PcOk(ThreadNext(s, e))
  {
  }

  lemma RepThread(s: Sys, e: ThreadEvent)
    requires Rep(s) && CanThread(s, e)
    ensures Rep(ThreadNext(s, e))
  {
    ListsThread(s, e);
    ThreadFrame(s, e);
    ThreadPc(s, e);
    if e == EndConnectCallback || e == EndUserCallback {
      PoolFinish(s.pool, s.pc.user);
    }
  }

  lemma RepStep(s: Sys, e: Event)
    requires Rep(s) && Can(s, e)
    ensures Rep(Next(s, e))
  {
    match e
    case Request(r) => RepRequest(s, r);
    case Control(c) => RepControl(s, c);
    case Life(l) => RepLife(s, l);
    case Thread(t) => RepThread(s, t);
  }

  lemma {:induction false} RepAlways(ss: seq<Sys>, es: seq<Event>, m: nat)
    requires Run(ss, es) && m < |ss|
    ensures Rep(ss[m])
  {
    if m == 0 {
      InitRep(ss[0]);
    } else {
      RepAlways(ss, es, m - 1);
      RunStep(ss, es, m - 1);
      RepStep(ss[m - 1], es[m - 1]);
    }
  }
}
