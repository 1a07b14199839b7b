/**
 What each request, each control action and each client operation does to the whole state,
 said on the fields themselves: the exact condition under which it acts, the new state then, and
 that nothing at all changes otherwise.
 */
module PortEffects {
  import opened Common
  import opened PortQueues
  import opened PortRegions
  import opened PortSystem
  import opened PortRep
  import opened PortOrder

  // ----- the device of a user -----

  /** Exactly the attached users have a device: the port itself or, on a multi-device port only, one of its devices. */
  ghost predicate Linked(p: Port) {
    && p.clients.attached.on == p.clients.device.entries.Keys
    && forall u | u in p.clients.device.entries ::
         p.clients.device.entries[u] == PORT || (p.devices.multiDevice && p.clients.device.entries[u] > 0)
  }

  lemma LinkedStep(s: Sys, e: Event)
    requires Rep(s) && Linked(s.port) && Can(s, e)
    ensures Linked(Next(s, e).port)
  {
    match e
    case Request(r) => RequestFrame(s, r);
    case Control(c) =>
      ControlFrame(s, c);
      assert ControlNext(s, c).port.devices.multiDevice == s.port.devices.multiDevice;
    case Life(l) => LinkedLife(s, l);
    case Thread(t) => ThreadFrame(s, t);
  }

  lemma LinkedLife(s: Sys, e: LifeEvent)
    requires Rep(s) && Linked(s.port) && CanLife(s, e)
    ensures Linked(LifeNext(s, e).port)
  {
    if e.Create? {
      CreatedIsFree(s, e.u);
      assert e.u !in s.port.clients.device.entries;
      assert s.port.clients.device.Drop(e.u) == s.port.clients.device;
    }
  }

  lemma {:induction false} LinkedAlways(ss: seq<Sys>, es: seq<Event>, m: nat)
    requires Run(ss, es) && m < |ss|
    ensures Linked(ss[m].port)
  {
    if m > 0 {
      LinkedAlways(ss, es, m - 1);
      RepAlways(ss, es, m - 1);
      RunStep(ss, es, m - 1);
      LinkedStep(ss[m - 1], es[m - 1]);
    }
  }

  /** The user holds the port, or the device it is connected to. */
  predicate Holder(p: Port, u: UserId) {
    var table := p.clients.device.entries;
    || p.blocking.holder == Some(u)
    || (u in table && table[u] in p.blocking.dpcHolder.entries && p.blocking.dpcHolder.entries[table[u]] == u)
  }

  // ----- queueRequest -----

  /** All that queueRequest asks for. */
  predicate MayQueue(p: Port, u: UserId, priority: Priority, timeout: real, even: bool) {
    && u in p.clients.attached.on && u in p.clients.hasProcess.on
    && PORT in p.devices.enabled.on
    && (|| PORT in p.devices.connected.on
        || (priority == CONNECT && (even || (u in p.clients.device.entries && p.clients.device.entries[u] == PORT))))
    && u !in p.requests.isQueued.on
    && (timeout <= 0.0 || u in p.clients.hasTimeoutUser.on)
  }

  /** Only the request of a holder that blocks goes to the front. */
  predicate ToFront(p: Port, u: UserId) {
    (u in p.blocking.portCount.counts || u in p.blocking.deviceCount.counts) && Holder(p, u)
  }

  lemma StatusIff(p: Port, u: UserId, priority: Priority, timeout: real, even: bool)
    requires Linked(p)
    ensures QueueStatus(p, u, priority, timeout, even) == Accepted <==> MayQueue(p, u, priority, timeout, even)
    ensures u in p.clients.attached.on ==> (AddsToFront(p, u) <==> ToFront(p, u))
  {
  }

  /**
   The request of `u` becomes queued exactly if all that is asked for holds. It is then at the
   front or at the end of its own list, the scan has to start again, the timer is started if there
   is a timeout, and a signal is owed. Otherwise nothing has changed.
   */
  lemma QueueIff(s: Sys, u: UserId, priority: Priority, timeout: real, even: bool)
    requires Linked(s.port) && Can(s, Request(Queue(u, priority, timeout, even)))
    ensures
      var t, r := Next(s, Request(Queue(u, priority, timeout, even))), s.port.requests;
      && (u !in r.isQueued.on && u in t.port.requests.isQueued.on <==> MayQueue(s.port, u, priority, timeout, even))
      && if MayQueue(s.port, u, priority, timeout, even) then
           var l := r.queues.List(priority);
           && t == s.(port := s.port.(requests := t.port.requests),
                      pending := s.pending.(signaling := s.pending.signaling + 1))
           && t.port.requests.queues == r.queues.With(priority, if ToFront(s.port, u) then [u] + l else l + [u])
           && t.port.requests.isQueued.on == r.isQueued.on + {u} && t.port.requests.changed
           && t.port.requests.timed.on == (if timeout > 0.0 then r.timed.on + {u} else r.timed.on - {u})
           && t.port.requests.armed.on == (if timeout > 0.0 then r.armed.on + {u} else r.armed.on)
         else t == s
  {
    StatusIff(s.port, u, priority, timeout, even);
  }

  /** An accepted request comes after all that wait in its list; that of a holder that blocks comes before them. */
  lemma AcceptedIsPlaced(s: Sys, u: UserId, priority: Priority, timeout: real, even: bool, v: UserId)
    requires Linked(s.port) && Can(s, Request(Queue(u, priority, timeout, even)))
    requires MayQueue(s.port, u, priority, timeout, even) && v in s.port.requests.queues.List(priority)
    ensures
      var q := Next(s, Request(Queue(u, priority, timeout, even))).port.requests.queues;
      if ToFront(s.port, u) then InOrder(q, priority, u, v) else InOrder(q, priority, v, u)
  {
    QueueIff(s, u, priority, timeout, even);
    var l := s.port.requests.queues.List(priority);
    var k: nat :| k < |l| && l[k] == v;
    WithList(s.port.requests.queues, priority, l + [u], priority);
    WithList(s.port.requests.queues, priority, [u] + l, priority);
    var q := Next(s, Request(Queue(u, priority, timeout, even))).port.requests.queues;
    if ToFront(s.port, u) {
      assert q.List(priority) == [u] + l && q.List(priority)[0] == u && q.List(priority)[k + 1] == v;
    } else {
      assert q.List(priority) == l + [u] && q.List(priority)[k] == v && q.List(priority)[|l|] == u;
    }
  }

  /**
   First come, first served: if the request of `b` becomes queued while that of `a` waits in the
   same list, and `b` is not a holder that blocks, then `b` is dispatched before `a` only if `a`
   could not be dispatched at some moment after the request of `b`.
   */
  lemma FirstComeFirstServed(
    ss: seq<Sys>, es: seq<Event>, from: nat, m: nat, a: UserId, s: Slot, timeout: real, even: bool)
    requires Run(ss, es) && from < m && Dispatches(ss, es, m, s) && s.list < 4
    requires
      var b, p := ss[m + 1].pc.user, ss[from].port;
      && es[from] == Request(Queue(b, s.list, timeout, even)) && b !in p.requests.isQueued.on
      && a in p.requests.queues.List(s.list) && !ToFront(p, b)
    requires forall j | from < j <= m :: BothQueued(ss[j], a, ss[m + 1].pc.user)
    ensures exists j :: from < j < m && !Dispatchable(ss[j].port, a)
  {
    var b := ss[m + 1].pc.user;
    RunStep(ss, es, from);
    LinkedAlways(ss, es, from);
    assert BothQueued(ss[from + 1], a, b);
    QueueIff(ss[from], b, s.list, timeout, even);
    AcceptedIsPlaced(ss[from], b, s.list, timeout, even, a);
    NotOvertaken(ss, es, from + 1, m, a, s);
  }

  /** Which refusal is returned: the first one, in the order of the code, whose condition holds. */
  lemma RefusalIff(p: Port, u: UserId, priority: Priority, timeout: real, even: bool)
    requires Linked(p)
    ensures
      var status := QueueStatus(p, u, priority, timeout, even);
      var known := u in p.clients.attached.on;
      var callable := known && u in p.clients.hasProcess.on;
      var enabled := callable && PORT in p.devices.enabled.on;
      var open := enabled && (PORT in p.devices.connected.on ||
        (priority == CONNECT && (even || p.clients.device.entries[u] == PORT)));
      && (status == NotAttached <==> !known)
      && (status == NoProcessCallback <==> known && u !in p.clients.hasProcess.on)
      && (status == PortDisabled <==> callable && PORT !in p.devices.enabled.on)
      && (status == PortDisconnected <==> enabled && !open)
      && (status == AlreadyQueued <==> open && u in p.requests.isQueued.on)
      && (status == NoTimeoutCallback <==>
          open && u !in p.requests.isQueued.on && timeout > 0.0 && u !in p.clients.hasTimeoutUser.on)
  {
  }

  // ----- cancelRequest, the timer and queueTimeoutCallback -----

  function AllOthers(q: Queues, u: UserId): Queues {
    Queues(Others(q.low, u), Others(q.medium, u), Others(q.high, u), Others(q.connect, u))
  }

  lemma {:induction false} OthersWithout(l: seq<UserId>, k: nat)
    requires k < |l| && l[k] !in Without(l, k)
    ensures Others(l, l[k]) == Without(l, k)
  {
    var u := l[k];
    if k == 0 {
      assert Without(l, 0) == l[1..];
      OthersOnly(l[1..], u);
    } else {
      assert Without(l, k) == [l[0]] + Without(l[1..], k - 1);
      assert Without(l, k)[0] == l[0];
      OthersWithout(l[1..], k - 1);
    }
  }

  lemma DeleteIsOthers(q: Queues, s: Slot)
    requires ValidSlot(q, s) && Queued(q)[At(q, s)] == 1
    ensures Delete(q, s) == AllOthers(q, At(q, s))
  {
    var u := At(q, s);
    DeletedIsNotQueued(q, s);
    assert u !in Queued(Delete(q, s));
    forall i: Priority
      ensures u !in Delete(q, s).List(i)
    {
      if u in Delete(q, s).List(i) {
        ListedIsQueued(Delete(q, s), i, u);
      }
    }
    WithList(q, s.list, Without(q.List(s.list), s.pos), s.list);
    OthersWithout(q.List(s.list), s.pos);
    OthersOfLists(q, s, u);
  }

  lemma OthersOfLists(q: Queues, s: Slot, u: UserId)
    requires ValidSlot(q, s) && At(q, s) == u && Others(q.List(s.list), u) == Without(q.List(s.list), s.pos)
    requires forall i: Priority :: u !in Delete(q, s).List(i)
    ensures Delete(q, s) == AllOthers(q, u)
  {
    assert u !in Delete(q, s).List(LOW) && u !in Delete(q, s).List(MEDIUM);
    assert u !in Delete(q, s).List(HIGH) && u !in Delete(q, s).List(CONNECT);
    if s.list != LOW {
      OthersOnly(q.low, u);
    }
    if s.list != MEDIUM {
      OthersOnly(q.medium, u);
    }
    if s.list != HIGH {
      OthersOnly(q.high, u);
    }
    if s.list != CONNECT {
      OthersOnly(q.connect, u);
    }
  }

  lemma FoundIsOthers(r: Requests, u: UserId)
    requires ListsOk(r) && u in r.isQueued.on
    ensures
      var w := Locate(r.queues, u, CONNECT);
      w.Some? && At(r.queues, w.value) == u && Delete(r.queues, w.value) == AllOthers(r.queues, u)
  {
    ListsLocate(r, u);
    assert Queued(r.queues)[u] == 1;
    DeleteIsOthers(r.queues, Locate(r.queues, u, CONNECT).value);
  }

  /** The request of `u` is off its list, all others are where they were, and the scan has to start again. */
  predicate TakenOff(r: Requests, r': Requests, u: UserId) {
    r'.queues == AllOthers(r.queues, u) && r'.isQueued.on == r.isQueued.on - {u} && r'.changed && r'.timed == r.timed
  }

  /**
   A cancel takes a queued request off its list, and its timer is then to be stopped if it has a
   timeout; of a request that is no longer queued, it waits for the callback if that is active,
   neither idle nor canceled already. Otherwise nothing changes.
   */
  lemma CancelIff(s: Sys, u: UserId)
    requires Rep(s) && Can(s, Request(Cancel(u)))
    ensures
      var t, r, c, w := Next(s, Request(Cancel(u))), s.port.requests, s.port.callbacks, s.pending;
      if u in r.isQueued.on then
        && t == s.(port := s.port.(requests := t.port.requests), pending := t.pending)
        && TakenOff(r, t.port.requests, u) && t.port.requests.armed == r.armed
        && t.pending == if u in r.timed.on then w.(stopping := Counter(w.stopping.counts + multiset{u}))
                        else w.(leaving := Counter(w.leaving.counts + multiset{u}))
      else if u in s.port.clients.attached.on && u in c.active.on && u !in c.canceled.on then
        && t == s.(port := s.port.(callbacks := t.port.callbacks), pending := t.pending)
        && t.port.callbacks.active.on == c.active.on - {u} && t.port.callbacks.canceled.on == c.canceled.on + {u}
        && t.port.callbacks.done == c.done
        && t.pending == w.(canceling := Counter(w.canceling.counts + multiset{u}))
      else t == s
  {
    if u in s.port.requests.isQueued.on {
      FoundIsOthers(s.port.requests, u);
    }
  }

  lemma RemovedIsTakenOff(r: Requests, u: UserId)
    requires ListsOk(r) && u in r.isQueued.on
    ensures
      var w := Locate(r.queues, u, CONNECT);
      && w.Some? && TakenOff(r, Remove(Disarm(r, u), w.value), u)
      && Remove(Disarm(r, u), w.value).armed.on == r.armed.on - {u}
  {
    FoundIsOthers(r, u);
  }

  lemma ExpiresTo(s: Sys, u: UserId)
    requires Rep(s) && u in s.port.requests.isQueued.on
    ensures
      var w := Locate(s.port.requests.queues, u, CONNECT);
      w.Some? &&
      var p := s.port.(requests := Remove(Disarm(s.port.requests, u), w.value));
      ExpireStep(s, u) ==
        if u in s.port.clients.hasTimeoutUser.on
        then s.(port := p.(callbacks := SetState(s.port.callbacks, u, Active)),
                pending := s.pending.(inTimeout := s.pending.inTimeout.Up(u)))
        else OweSignal(s.(port := p))
  {
    ListsLocate(s.port.requests, u);
  }

  /** An expiry takes a queued request off its list, and begins the timeout callback or, without one, owes a signal. */
  lemma ExpiryIff(s: Sys, u: UserId)
    requires Rep(s) && Can(s, Request(TimerExpires(u)))
    ensures
      var t, r, c, w := Next(s, Request(TimerExpires(u))), s.port.requests, s.port.callbacks, s.pending;
      && t.port.requests.armed.on == r.armed.on - {u}
      && if u !in r.isQueued.on then t == s.(port := s.port.(requests := r.(armed := t.port.requests.armed)))
         else
           && TakenOff(r, t.port.requests, u)
           && if u in s.port.clients.hasTimeoutUser.on then
                && t == s.(port := s.port.(requests := t.port.requests, callbacks := t.port.callbacks),
                           pending := w.(inTimeout := Counter(w.inTimeout.counts + multiset{u})))
                && t.port.callbacks.active.on == c.active.on + {u}
                && t.port.callbacks.canceled.on == c.canceled.on - {u} && t.port.callbacks.done == c.done
              else
                t == s.(port := s.port.(requests := t.port.requests), pending := w.(signaling := w.signaling + 1))
  {
    if u in s.port.requests.isQueued.on {
      RemovedIsTakenOff(s.port.requests, u);
      ExpiresTo(s, u);
    }
  }

  /** What cancelRequest and queueTimeoutCallback find: each of their outcomes by its own condition. */
  lemma OutcomesIff(s: Sys, u: UserId)
    requires Rep(s)
    ensures
      var outcome, c := CancelOutcome(s.port, u), s.port.callbacks;
      var attached, queued := u in s.port.clients.attached.on, u in s.port.requests.isQueued.on;
      var active := u in c.active.on && u !in c.canceled.on;
      && (outcome == CancelNotAttached <==> !attached) && (outcome == Removed <==> queued)
      && (outcome == WaitForCallback <==> attached && !queued && active)
      && (outcome == NotQueued <==> attached && !queued && !active)
    ensures
      var outcome, queued := ExpireOutcome(s.port, u), u in s.port.requests.isQueued.on;
      && (outcome == NotPending <==> !queued)
      && (outcome == RunTimeoutUser <==> queued && u in s.port.clients.hasTimeoutUser.on)
      && (outcome == NoTimeoutUser <==> queued && u !in s.port.clients.hasTimeoutUser.on)
  {
    NoLogicError(s, u);
  }

  /**
   The tail of cancelRequest stops the timer, if there is one to stop, and owes a signal; that of
   one that waited empties the event.
   */
  lemma CancelCompletes(s: Sys, u: UserId, stops: bool)
    ensures Can(s, Request(TimerStopped(u, stops))) ==>
      var t, r, w := Next(s, Request(TimerStopped(u, stops))), s.port.requests, s.pending;
      && t.port.requests.armed.on == (if stops then r.armed.on - {u} else r.armed.on)
      && t == s.(port := s.port.(requests := r.(armed := t.port.requests.armed)),
                 pending := w.(
                   stopping := if stops then Counter(w.stopping.counts - multiset{u}) else w.stopping,
                   leaving := if stops then w.leaving else Counter(w.leaving.counts - multiset{u}),
                   signaling := w.signaling + 1))
    ensures Can(s, Request(CancelReturns(u))) ==>
      var c, w := s.port.callbacks, s.pending;
      && u in c.done.on
      && Next(s, Request(CancelReturns(u))) ==
         s.(port := s.port.(callbacks := c.(done := Flag(c.done.on - {u}))),
            pending := w.(canceling := Counter(w.canceling.counts - multiset{u})))
  {
  }

  /** The timer of `u` is started. */
  predicate StartsTimer(s: Sys, e: Event, u: UserId) {
    match e
    case Request(Queue(v, priority, timeout, even)) =>
      v == u && timeout > 0.0 && MayQueue(s.port, u, priority, timeout, even)
    case _ => false
  }

  /** The timer of `u` runs out or is stopped: by a cancel, when the callback starts, or as that of a new user. */
  predicate EndsTimer(s: Sys, e: Event, u: UserId) {
    match e
    case Request(TimerExpires(v)) => v == u
    case Request(TimerStopped(v, stops)) => v == u && stops
    case Thread(StartConnectCallback) => s.pc.ConnectDispatched? && s.pc.user == u && s.pc.stops
    case Thread(StartCallback) => s.pc.Dispatched? && s.pc.user == u && s.pc.stops
    case Life(Create(v, _, _)) => v == u && s.pool.freeList.users == []
    case _ => false
  }

  /** A timer runs exactly if it was started, by an accepted request with a timeout, and has not ended. */
  lemma {:induction false} TimerRunsIff(s: Sys, e: Event, u: UserId)
    requires Rep(s) && Linked(s.port) && Can(s, e)
    ensures u in Next(s, e).port.requests.armed.on <==>
      StartsTimer(s, e, u) || (u in s.port.requests.armed.on && !EndsTimer(s, e, u))
  {
    match e
    case Request(Queue(v, priority, timeout, even)) => QueueIff(s, v, priority, timeout, even);
    case Request(Cancel(v)) => CancelIff(s, v);
    case Request(TimerExpires(v)) => ExpiryIff(s, v);
    case Control(c) => ControlFrame(s, c);
    case _ =>
  }

  // ----- dispatch and the end of a callback -----

  lemma DispatchTakes(p: Port, here: Slot)
    requires ListsOk(p.requests) && ValidSlot(p.requests.queues, here)
    ensures
      var u, t := At(p.requests.queues, here), Dispatch(p, here);
      && t == p.(requests := t.requests, callbacks := t.callbacks)
      && t.requests.queues == AllOthers(p.requests.queues, u) && t.requests.isQueued.on == p.requests.isQueued.on - {u}
      && t.requests == p.requests.(queues := t.requests.queues, isQueued := t.requests.isQueued)
      && t.callbacks.active.on == p.callbacks.active.on + {u}
      && t.callbacks.canceled.on == p.callbacks.canceled.on - {u} && t.callbacks.done == p.callbacks.done
  {
    ListedIsFlagged(p.requests, here);
    assert Queued(p.requests.queues)[At(p.requests.queues, here)] == 1;
    DeleteIsOthers(p.requests.queues, here);
  }

  /** Nobody else holds the port or device `d`. */
  predicate FreeFor(b: Blocking, u: UserId, d: DpcId) {
    && (b.holder == None || b.holder == Some(u))
    && (d !in b.dpcHolder.entries || b.dpcHolder.entries[d] == u)
  }

  lemma TestsTo(s: Sys, u: UserId, d: DpcId)
    requires Can(s, Thread(Test)) && u == s.port.requests.queues.List(s.pc.i)[s.pc.k]
    requires u in s.port.clients.device.entries && d == s.port.clients.device.entries[u]
    ensures
      var p, pc := s.port, s.pc;
      var flag := pc.callTimeout || (d !in p.devices.connected.on && u in p.clients.hasTimeoutUser.on);
      Next(s, Thread(Test)) ==
        if FreeFor(p.blocking, u, d)
        then s.(port := Dispatch(p, Slot(pc.i, pc.k)), pc := Dispatched(u, d, flag, u in p.requests.timed.on))
        else s.(pc := Scanning(pc.i, pc.k + 1, flag))
  {
  }

  lemma ListedHasDevice(p: Port, l: Pool, here: Slot)
    requires ListsOk(p.requests) && LinksOk(p.requests, p.clients, l) && Linked(p) && ValidSlot(p.requests.queues, here)
    ensures At(p.requests.queues, here) in p.clients.device.entries
  {
    ListedIsFlagged(p.requests, here);
  }

  /**
   The request at hand is dispatched exactly if nobody else holds the port or the device of its
   user. It is then off its list and its callback active; the thread remembers whether it has a timeout.
   */
  lemma TestIff(s: Sys)
    requires Rep(s) && Linked(s.port) && Can(s, Thread(Test))
    ensures
      var p, pc, t := s.port, s.pc, Next(s, Thread(Test));
      var u := p.requests.queues.List(pc.i)[pc.k];
      && u in p.clients.device.entries
      && var d := p.clients.device.entries[u];
         var flag := pc.callTimeout || (d !in p.devices.connected.on && u in p.clients.hasTimeoutUser.on);
         if FreeFor(p.blocking, u, d) then
           && t == s.(port := p.(requests := t.port.requests, callbacks := t.port.callbacks),
                      pc := Dispatched(u, d, flag, u in p.requests.timed.on))
           && t.port.requests.queues == AllOthers(p.requests.queues, u)
           && t.port.requests.isQueued.on == p.requests.isQueued.on - {u}
           && t.port.requests == p.requests.(queues := t.port.requests.queues, isQueued := t.port.requests.isQueued)
           && t.port.callbacks.active.on == p.callbacks.active.on + {u}
           && t.port.callbacks.canceled.on == p.callbacks.canceled.on - {u} && t.port.callbacks.done == p.callbacks.done
         else t == s.(pc := Scanning(pc.i, pc.k + 1, flag))
  {
    var p, here := s.port, Slot(s.pc.i, s.pc.k);
    ListedHasDevice(p, s.pool, here);
    TestsTo(s, At(p.requests.queues, here), p.clients.device.entries[At(p.requests.queues, here)]);
    DispatchTakes(p, here);
  }

  /** The callback of the user that was dispatched begins; its timer is stopped if the request had a timeout. */
  lemma CallbackBegins(s: Sys, e: ThreadEvent)
    requires Can(s, Thread(e)) && (e == StartConnectCallback || e == StartCallback)
    ensures
      var t, r, pc := Next(s, Thread(e)), s.port.requests, s.pc;
      && t.port.requests.armed.on == (if pc.stops then r.armed.on - {pc.user} else r.armed.on)
      && t == s.(port := s.port.(requests := r.(armed := t.port.requests.armed)),
                 pc := if e == StartCallback then Running(pc.user, pc.dpc, pc.callTimeout) else ConnectRunning(pc.user))
  {
  }

  /**
   The end of a callback of `u`: idle, the event full if it was canceled, and `u` free if
   freeAsynUser left it to the callback.
   */
  predicate Finished(s: Sys, t: Sys, u: UserId) {
    var c, c', l, l' := s.port.callbacks, t.port.callbacks, s.pool, t.pool;
    && c'.active.on == c.active.on - {u} && c'.canceled.on == c.canceled.on - {u}
    && c'.done.on == (if u in c.canceled.on then c.done.on + {u} else c.done.on)
    && l' == l.(freeAfterCallback := l'.freeAfterCallback, freeList := l'.freeList)
    && l'.freeAfterCallback.on == l.freeAfterCallback.on - {u}
    && l'.freeList.users == l.freeList.users + if u in l.freeAfterCallback.on then [u] else []
  }

  /**
   The three places where a callback ends do the same for its user. After a Low, Medium or High
   callback the user becomes the holder it asked to be, of the port and of the device it was
   called for, and the thread goes to sleep if the lists have changed or else scans again.
   */
  lemma CallbackEnds(s: Sys, e: Event)
    requires Can(s, e)
    requires (e.Request? && e.r.TimeoutEnds?) || e == Thread(EndConnectCallback) || e == Thread(EndUserCallback)
    ensures
      var t, b, w := Next(s, e), s.port.blocking, s.pending;
      var u := if e.Request? then e.r.u else s.pc.user;
      && Finished(s, t, u)
      && t.port == s.port.(callbacks := t.port.callbacks, blocking := t.port.blocking) && t.notify == s.notify
      && match e
         case Request(_) =>
           && t.port.blocking == b && t.pc == s.pc
           && t.pending == w.(inTimeout := Counter(w.inTimeout.counts - multiset{u}), signaling := w.signaling + 1)
         case Thread(EndConnectCallback) => t.port.blocking == b && t.pc == ConnectLoop && t.pending == w
         case _ =>
           && t.port.blocking == b.(holder := t.port.blocking.holder, dpcHolder := t.port.blocking.dpcHolder)
           && t.port.blocking.holder == (if u in b.portCount.counts then Some(u) else b.holder)
           && t.port.blocking.dpcHolder.entries ==
             (if u in b.deviceCount.counts then b.dpcHolder.entries[s.pc.dpc := u] else b.dpcHolder.entries)
           && t.pc == (if s.port.requests.changed then Waiting else ScanStart) && t.pending == w
  {
  }

  // ----- blockProcessCallback and unblockProcessCallback -----

  /** Only a connected user without a queued request can block; and then only its own count of that kind goes up. */
  lemma BlockIff(s: Sys, u: UserId, allDevices: bool)
    requires Can(s, Control(BlockUser(u, allDevices)))
    ensures
      var t, b := Next(s, Control(BlockUser(u, allDevices))), s.port.blocking;
      if u !in s.port.clients.attached.on || u in s.port.requests.isQueued.on then t == s
      else
        t == s.(port := s.port.(blocking :=
          if allDevices then b.(portCount := Counter(b.portCount.counts + multiset{u}))
          else b.(deviceCount := Counter(b.deviceCount.counts + multiset{u}))))
  {
  }

  /** Only a connected user that blocks and has no queued request can unblock. */
  predicate MayUnblock(p: Port, u: UserId, allDevices: bool) {
    && u in p.clients.attached.on && u !in p.requests.isQueued.on
    && u in if allDevices then p.blocking.portCount.counts else p.blocking.deviceCount.counts
  }

  /**
   One unblock of the port lowers that count by one; the last one gives back the port, if the user
   holds it, and then, and only then, a signal is owed.
   */
  lemma UnblockPortIff(s: Sys, u: UserId)
    requires Can(s, Control(UnblockUser(u, true)))
    ensures
      var t, b, w := Next(s, Control(UnblockUser(u, true))), s.port.blocking, s.pending;
      if !MayUnblock(s.port, u, true) then t == s
      else if b.portCount.counts[u] == 1 && b.holder == Some(u) then
        t == s.(port := s.port.(blocking := b.(portCount := Counter(b.portCount.counts - multiset{u}), holder := None)),
                pending := w.(signaling := w.signaling + 1))
      else t == s.(port := s.port.(blocking := b.(portCount := Counter(b.portCount.counts - multiset{u}))))
  {
  }

  /** Likewise for the device that the user is connected to. */
  lemma UnblockDeviceIff(s: Sys, u: UserId)
    requires Linked(s.port) && Can(s, Control(UnblockUser(u, false)))
    ensures
      var t, b, w := Next(s, Control(UnblockUser(u, false))), s.port.blocking, s.pending;
      if !MayUnblock(s.port, u, false) then t == s
      else
        var d, fewer := s.port.clients.device.entries[u], Counter(b.deviceCount.counts - multiset{u});
        if b.deviceCount.counts[u] == 1 && d in b.dpcHolder.entries && b.dpcHolder.entries[d] == u then
          t == s.(port := s.port.(blocking := b.(deviceCount := fewer, dpcHolder := Table(b.dpcHolder.entries - {d}))),
                  pending := w.(signaling := w.signaling + 1))
        else t == s.(port := s.port.(blocking := b.(deviceCount := fewer)))
  {
  }

  /** The refusals of both by name, and when an unblock gives something back. */
  lemma BlockRefusalIff(p: Port, u: UserId, allDevices: bool)
    requires Linked(p)
    ensures
      var block, unblock := BlockStatus(p, u), UnblockStatus(p, u, allDevices);
      var attached, queued := u in p.clients.attached.on, u in p.requests.isQueued.on;
      var blocks := u in if allDevices then p.blocking.portCount.counts else p.blocking.deviceCount.counts;
      && (block == BlockNotAttached <==> !attached) && (block == BlockQueued <==> attached && queued)
      && (block == BlockOk <==> attached && !queued)
      && (unblock == BlockNotAttached <==> !attached) && (unblock == NotBlocked <==> attached && !blocks)
      && (unblock == BlockQueued <==> attached && blocks && queued)
      && (unblock == BlockOk <==> MayUnblock(p, u, allDevices))
    ensures Releases(p, u, allDevices) <==>
      MayUnblock(p, u, allDevices) &&
      if allDevices then p.blocking.portCount.counts[u] == 1 && p.blocking.holder == Some(u)
      else
        var d := p.clients.device.entries[u];
        && p.blocking.deviceCount.counts[u] == 1
        && d in p.blocking.dpcHolder.entries && p.blocking.dpcHolder.entries[d] == u
  {
  }

  // ----- enable, shutdownPort, connected and disconnected -----

  /** What each does to the dpCommon it is for; the others stay as they are, and an announcement is owed. */
  lemma DeviceIff(s: Sys, e: ControlEvent)
    requires Can(s, Control(e)) && (e.SetEnabled? || e.ShutDown? || e.SetConnected?)
    ensures
      var t, v := Next(s, Control(e)), s.port.devices;
      var v' := t.port.devices;
      var acts := match e
        case SetEnabled(d, _) => d !in v.defunct.on
        case ShutDown(d) => d !in v.defunct.on && v.destructible
        case _ => true;
      if !acts then t == s
      else
        && t == s.(port := s.port.(devices := v'), pending := s.pending.(announcing := s.pending.announcing + 1))
        && v' == v.(enabled := v'.enabled, defunct := v'.defunct, connected := v'.connected)
        && match e
           case SetEnabled(d, yes) =>
             && v'.enabled.on == (if yes then v.enabled.on + {d} else v.enabled.on - {d})
             && v'.defunct == v.defunct && v'.connected == v.connected
           case ShutDown(d) =>
             v'.enabled.on == v.enabled.on - {d} && v'.defunct.on == v.defunct.on + {d} && v'.connected == v.connected
           case SetConnected(d, yes) =>
             && v'.connected.on == (if yes then v.connected.on + {d} else v.connected.on - {d})
             && v'.enabled == v.enabled && v'.defunct == v.defunct
           case _ => false
  {
  }

  /** The end of an announcement makes the scan start again and owes a signal; a signal fills the event. */
  lemma AnnouncementEnds(s: Sys)
    ensures Can(s, Control(Signal)) ==>
      Next(s, Control(Signal)) == s.(notify := true, pending := s.pending.(signaling := s.pending.signaling - 1))
    ensures Can(s, Control(AnnounceEnds)) ==>
      var w := s.pending;
      Next(s, Control(AnnounceEnds)) == s.(
        port := s.port.(requests := s.port.requests.(changed := true)),
        pending := w.(announcing := w.announcing - 1, signaling := w.signaling + 1))
  {
  }

  // ----- connectDevice, disconnect, createAsynUser, freeAsynUser -----

  /**
   A user that is not connected yet is, to the device of that address if the port has devices and
   the address is not negative, and else to the port. A device that is new is enabled, not
   connected, and connected automatically if the port is.
   */
  lemma AttachIff(s: Sys, u: UserId, addr: int)
    requires Can(s, Life(AttachUser(u, addr)))
    ensures
      var t, c, v := Next(s, Life(AttachUser(u, addr))), s.port.clients, s.port.devices;
      if u in c.attached.on then t == s
      else
        var d := if v.multiDevice && addr >= 0 then addr + 1 else PORT;
        && t == s.(port := s.port.(clients := t.port.clients, devices := t.port.devices))
        && t.port.clients == c.(attached := Flag(c.attached.on + {u}), device := Table(c.device.entries[u := d]))
        && if d in v.known.on then t.port.devices == v
           else
             && t.port.devices == v.(known := Flag(v.known.on + {d}), enabled := Flag(v.enabled.on + {d}),
                                     autoConnect := t.port.devices.autoConnect)
             && t.port.devices.autoConnect.on ==
               (if PORT in v.autoConnect.on then v.autoConnect.on + {d} else v.autoConnect.on - {d})
  {
  }

  /**
   A user is disconnected exactly if it is connected, has no queued request, blocks nothing and is
   on no exception list.
   */
  lemma DetachIff(s: Sys, u: UserId)
    requires Can(s, Life(DetachUser(u)))
    ensures
      var t, c, b := Next(s, Life(DetachUser(u))), s.port.clients, s.port.blocking;
      if u in c.attached.on && u !in s.port.requests.isQueued.on && u !in b.portCount.counts &&
        u !in b.deviceCount.counts && u !in c.onExceptionList.on
      then
        t == s.(port := s.port.(clients :=
          c.(attached := Flag(c.attached.on - {u}), device := Table(c.device.entries - {u}))))
      else t == s
  {
  }

  /**
   Joining or leaving the list of exception callbacks concerns this user only, which cannot be
   disconnected while it is there.
   */
  lemma ExceptionListIff(s: Sys, u: UserId, yes: bool)
    requires Can(s, Life(SetOnExceptionList(u, yes)))
    ensures
      var t, c := Next(s, Life(SetOnExceptionList(u, yes))), s.port.clients;
      && t == s.(port := s.port.(clients := c.(onExceptionList := t.port.clients.onExceptionList)))
      && t.port.clients.onExceptionList.on == (if yes then c.onExceptionList.on + {u} else c.onExceptionList.on - {u})
      && (yes && Can(t, Life(DetachUser(u))) ==> Next(t, Life(DetachUser(u))) == t)
  {
  }

  lemma Recycles(p: Port, u: UserId, hasProcess: bool, hasTimeoutUser: bool)
    requires u !in p.requests.isQueued.on
    ensures
      var t, c := Recycle(p, u, hasProcess, hasTimeoutUser), p.clients;
      && t == p.(clients := c.(hasProcess := t.clients.hasProcess, hasTimeoutUser := t.clients.hasTimeoutUser),
                 callbacks := p.callbacks.(active := t.callbacks.active, canceled := t.callbacks.canceled),
                 requests := p.requests.(timed := t.requests.timed))
      && t.clients.hasProcess.on == (if hasProcess then c.hasProcess.on + {u} else c.hasProcess.on - {u})
      && t.clients.hasTimeoutUser.on ==
        (if hasTimeoutUser then c.hasTimeoutUser.on + {u} else c.hasTimeoutUser.on - {u})
      && t.callbacks.active.on == p.callbacks.active.on - {u}
      && t.callbacks.canceled.on == p.callbacks.canceled.on - {u} && t.requests.timed.on == p.requests.timed.on - {u}
  {
    assert p.requests.isQueued.Del(u) == p.requests.isQueued;
  }

  lemma AllocatesClean(s: Sys, u: UserId)
    requires Rep(s) && Linked(s.port) && u !in s.pool.users.on
    ensures
      var p, t := s.port, Allocate(s.port, u);
      t == p.(callbacks := p.callbacks.(done := Flag(p.callbacks.done.on - {u})),
              requests := p.requests.(armed := Flag(p.requests.armed.on - {u})))
  {
    var c, b := s.port.clients, s.port.blocking;
    assert u !in c.attached.on && u !in c.onExceptionList.on && u !in c.device.entries;
    assert Detaching(c, u) == c;
    assert b.portCount.Clear(u) == b.portCount && b.deviceCount.Clear(u) == b.deviceCount;
    assert c.onExceptionList.Del(u) == c.onExceptionList;
  }

  /**
   A user that is created is the first of the free list or, when that is empty, a new one. It is
   idle, not queued and no longer released, and has the callbacks it was given; only a new one gets
   an empty event and a timer that does not run.
   */
  lemma CreateGives(s: Sys, u: UserId, hasProcess: bool, hasTimeoutUser: bool)
    requires Rep(s) && Linked(s.port) && Can(s, Life(Create(u, hasProcess, hasTimeoutUser)))
    ensures
      var t, l := Next(s, Life(Create(u, hasProcess, hasTimeoutUser))), s.pool;
      var p, c := if l.freeList.users == [] then Allocate(s.port, u) else s.port, s.port.callbacks;
      && t == s.(port := Recycle(p, u, hasProcess, hasTimeoutUser), pool := t.pool)
      && u !in s.port.requests.isQueued.on
      && t.pool == l.(users := t.pool.users, released := Flag(l.released.on - {u}), freeList := t.pool.freeList)
      && t.pool.users.on == l.users.on + {u}
      && if l.freeList.users == [] then u !in l.users.on && t.pool.freeList == l.freeList
         else u == l.freeList.users[0] && t.pool.freeList.users == l.freeList.users[1..]
  {
    CreatedIsFree(s, u);
    var l := s.pool;
    if l.freeList.users == [] {
      assert u !in l.freeAfterCallback.on;
    } else {
      assert u in l.freeList.users;
      RecycledIsClean(s, u);
      assert l.users.on + {u} == l.users.on;
    }
  }

  /**
   freeAsynUser goes by the state it reads: an idle user is for the free list, any other is left to
   the end of its callback.
   */
  lemma FreeIff(s: Sys, u: UserId)
    requires Can(s, Life(FreeStarts(u)))
    ensures
      var t, c, l := Next(s, Life(FreeStarts(u))), s.port.callbacks, s.pool;
      && t == s.(pool := t.pool)
      && t.pool == if u in c.active.on || u in c.canceled.on
           then l.(released := Flag(l.released.on + {u}), freeingBusy := Counter(l.freeingBusy.counts + multiset{u}))
           else l.(released := Flag(l.released.on + {u}), freeingIdle := Counter(l.freeingIdle.counts + multiset{u}))
  {
  }

  /** Its second step: on the free list, at the end, or marked for the end of the callback. */
  lemma FreeEndsIn(s: Sys, u: UserId, sawIdle: bool)
    requires Can(s, Life(FreeEnds(u, sawIdle)))
    ensures
      var t, l := Next(s, Life(FreeEnds(u, sawIdle))), s.pool;
      && t == s.(pool := t.pool)
      && t.pool == if sawIdle
           then l.(freeingIdle := Counter(l.freeingIdle.counts - multiset{u}),
                   freeList := FreeList(l.freeList.users + [u]))
           else l.(freeingBusy := Counter(l.freeingBusy.counts - multiset{u}),
                   freeAfterCallback := Flag(l.freeAfterCallback.on + {u}))
  {
  }
}
