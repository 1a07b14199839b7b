/**
 The handshake between cancelRequest and a callback that is already running, for one user.

 It holds exactly as long as no second callback of the user begins beside one in progress, and
 no second cancel begins to wait beside one that does (Orderly). What the user's clients have to
 do for that is Serial; other users do not matter.
 */
module PortCancel {
  import opened PortQueues
  import opened PortRegions
  import opened PortSystem
  import opened PortRep

  /** The port thread has taken a request of `u` off its list and not yet begun the callback. */
  predicate Starts(pc: Pc, u: UserId) {
    (pc.ConnectDispatched? || pc.Dispatched?) && pc.user == u
  }

  predicate Runs(pc: Pc, u: UserId) {
    (pc.ConnectRunning? || pc.Running?) && pc.user == u
  }

  /** How many callbacks of `u` are in progress on the port thread and the timer thread. */
  function InProgress(w: Pending, pc: Pc, u: UserId): nat {
    w.inTimeout.counts[u] + if Starts(pc, u) || Runs(pc, u) then 1 else 0
  }

  // ----- what must not happen -----

  /** The event takes the request of `u` off the lists and begins a callback of it. */
  predicate Takes(s: Sys, e: Event, u: UserId) {
    match e
    case Thread(NextConnect) => s.port.requests.queues.connect != [] && s.port.requests.queues.connect[0] == u
    case Thread(Test) =>
      && s.pc.Testing? && InList(s.port.requests.queues, s.pc.i, s.pc.k)
      && s.port.requests.queues.List(s.pc.i)[s.pc.k] == u
      && NotLockedOut(s.port.blocking, u, DpcOf(s.port.clients, u))
    case Request(TimerExpires(v)) => v == u && ExpireOutcome(s.port, u) == RunTimeoutUser
    case _ => false
  }

  predicate SecondBegins(s: Sys, e: Event, u: UserId) {
    Takes(s, e, u) && InProgress(s.pending, s.pc, u) > 0
  }

  /** This event is a cancelRequest for `u` that finds its callback active, and waits. */
  predicate StartsWaiting(s: Sys, e: Event, u: UserId) {
    e == Request(Cancel(u)) && CancelOutcome(s.port, u) == WaitForCallback
  }

  predicate SecondWaits(s: Sys, e: Event, u: UserId) {
    StartsWaiting(s, e, u) && s.pending.canceling.Has(u)
  }

  predicate Orderly(s: Sys, e: Event, u: UserId) {
    !SecondBegins(s, e, u) && !SecondWaits(s, e, u)
  }

  ghost predicate OrderlyRun(ss: seq<Sys>, es: seq<Event>, u: UserId) {
    Run(ss, es) && forall m | 0 <= m < |es| :: Orderly(ss[m], es[m], u)
  }

  // ----- the invariant -----

  /** The state of a user is not idle exactly while a callback of it is in progress, and there is at most one. */
  predicate StateOk(c: Callbacks, w: Pending, pc: Pc, u: UserId) {
    && !(u in c.active.on && u in c.canceled.on)
    && InProgress(w, pc, u) == if u in c.active.on || u in c.canceled.on then 1 else 0
  }

  /** For a cancel that waits, the callback is still to end, or the event is full. */
  predicate HandshakeOk(c: Callbacks, w: Pending, u: UserId) {
    && !(u in c.canceled.on && u in c.done.on)
    && w.canceling.counts[u] == if u in c.canceled.on || u in c.done.on then 1 else 0
  }

  /** A user on the free list, or on its way there, has no callback in progress; and only users that exist have. */
  predicate IdleOk(l: Pool, c: Callbacks, w: Pending, pc: Pc, u: UserId) {
    && (u in l.freeList.users || u in l.freeingIdle.counts ==> InProgress(w, pc, u) == 0)
    && (u in c.done.on || InProgress(w, pc, u) > 0 ==> u in l.users.on)
  }

  predicate Shaken(s: Sys, u: UserId) {
    var c, w := s.port.callbacks, s.pending;
    StateOk(c, w, s.pc, u) && HandshakeOk(c, w, u) && IdleOk(s.pool, c, w, s.pc, u)
  }

  lemma InitShaken(s: Sys, u: UserId)
    requires Init(s)
    ensures Shaken(s, u)
  {
  }

  // ----- requests -----

  lemma ShakenCancel(s: Sys, v: UserId, u: UserId)
    requires Rep(s) && Shaken(s, u) && CanRequest(s, Cancel(v))
    ensures Shaken(CancelStep(s, v), u) <==> !SecondWaits(s, Request(Cancel(v)), u)
  {
    NoLogicError(s, v);
    CancelEffect(s, v);
  }

  lemma ShakenExpire(s: Sys, v: UserId, u: UserId)
    requires Rep(s) && Shaken(s, u) && CanRequest(s, TimerExpires(v))
    ensures Shaken(ExpireStep(s, v), u) <==> !SecondBegins(s, Request(TimerExpires(v)), u)
  {
    NoLogicError(s, v);
    ExpireEffect(s, v);
    AttachedIsNotFreed(s, v);
  }

  lemma ShakenTimeoutEnds(s: Sys, v: UserId, u: UserId)
    requires Rep(s) && Shaken(s, u) && CanRequest(s, TimeoutEnds(v))
    ensures Shaken(TimeoutEndStep(s, v), u)
  {
  }

  lemma ShakenRequest(s: Sys, e: RequestEvent, u: UserId)
    requires Rep(s) && Shaken(s, u) && CanRequest(s, e)
    ensures Shaken(RequestNext(s, e), u) <==> Orderly(s, Request(e), u)
  {
    match e
    case Cancel(v) => ShakenCancel(s, v, u);
    case TimerExpires(v) => ShakenExpire(s, v, u);
    case TimeoutEnds(v) => ShakenTimeoutEnds(s, v, u);
    case _ =>
  }

  // ----- the others -----

  lemma ShakenLife(s: Sys, e: LifeEvent, u: UserId)
    requires Rep(s) && Shaken(s, u) && CanLife(s, e)
    ensures Shaken(LifeNext(s, e), u)
  {
    if e.Create? {
      CreatedIsFree(s, e.u);
    }
  }

  lemma ShakenDispatch(s: Sys, slot: Slot, pc: Pc, u: UserId)
    requires Rep(s) && Shaken(s, u) && ValidSlot(s.port.requests.queues, slot) && HoldsLock(s.pc)
    requires Starts(pc, At(s.port.requests.queues, slot))
    ensures Shaken(s.(port := Dispatch(s.port, slot), pc := pc), u) <==>
      !(At(s.port.requests.queues, slot) == u && InProgress(s.pending, s.pc, u) > 0)
  {
    ListedIsFlagged(s.port.requests, slot);
    AttachedIsNotFreed(s, At(s.port.requests.queues, slot));
  }

  lemma ShakenConnect(s: Sys, u: UserId)
    requires Rep(s) && Shaken(s, u) && s.pc == ConnectLoop
    ensures Shaken(ConnectStep(s), u) <==> !SecondBegins(s, Thread(NextConnect), u)
  {
    if s.port.requests.queues.List(CONNECT) != [] {
      ShakenDispatch(s, Slot(CONNECT, 0), ConnectStep(s).pc, u);
    }
  }

  lemma ShakenTest(s: Sys, i: nat, k: nat, callTimeout: bool, u: UserId)
    requires Rep(s) && Shaken(s, u) && s.pc == Testing(i, k, callTimeout) && InList(s.port.requests.queues, i, k)
    ensures Shaken(TestStep(s, i, k, callTimeout), u) <==> !SecondBegins(s, Thread(Test), u)
  {
    if TestStep(s, i, k, callTimeout).pc.Dispatched? {
      ShakenDispatch(s, Slot(i, k), TestStep(s, i, k, callTimeout).pc, u);
    }
  }

  lemma ShakenEnd(s: Sys, v: UserId, pc: Pc, u: UserId)
    requires Shaken(s, u) && Runs(s.pc, v) && (HoldsLock(pc) || pc == Waiting)
    ensures Shaken(FinishCallback(s, v).(pc := pc), u)
  {
  }

  /** Steps in which the thread neither dispatches nor ends a callback. */
  predicate Plain(e: ThreadEvent) {
    !e.NextConnect? && !e.EndConnectCallback? && !e.Test? && !e.EndUserCallback?
  }

  lemma ShakenPlain(s: Sys, e: ThreadEvent, u: UserId)
    requires Shaken(s, u) && CanThread(s, e) && Plain(e)
    ensures Shaken(ThreadNext(s, e), u)
  {
    var t := ThreadNext(s, e);
    assert t.port.callbacks == s.port.callbacks && t.pending == s.pending && t.pool == s.pool;
    assert Starts(s.pc, u) || Runs(s.pc, u) <==> Starts(t.pc, u) || Runs(t.pc, u);
  }

  lemma ShakenThread(s: Sys, e: ThreadEvent, u: UserId)
    requires Rep(s) && Shaken(s, u) && CanThread(s, e)
    ensures Shaken(ThreadNext(s, e), u) <==> Orderly(s, Thread(e), u)
  {
    match e
    case NextConnect => ShakenConnect(s, u);
    case EndConnectCallback => ShakenEnd(s, s.pc.user, ConnectLoop, u);
    case Test => ShakenTest(s, s.pc.i, s.pc.k, s.pc.callTimeout, u);
    case EndUserCallback => ShakenEnd(s, s.pc.user, ThreadNext(s, e).pc, u);
    case _ => ShakenPlain(s, e, u);
  }

  /** Every event keeps the handshake of `u` sound, except a second callback or a second wait, which never do. */
  lemma ShakenStepIff(s: Sys, e: Event, u: UserId)
    requires Rep(s) && Shaken(s, u) && Can(s, e)
    ensures Shaken(Next(s, e), u) <==> Orderly(s, e, u)
  {
    match e
    case Request(r) => ShakenRequest(s, r, u);
    case Control(c) => ControlFrame(s, c);
    case Life(l) => ShakenLife(s, l, u);
    case Thread(t) => ShakenThread(s, t, u);
  }

  lemma ShakenMoment(ss: seq<Sys>, es: seq<Event>, m: nat, u: UserId)
    requires Run(ss, es) && m < |es| && Shaken(ss[m], u)
    ensures Shaken(ss[m + 1], u) <==> Orderly(ss[m], es[m], u)
  {
    RepAlways(ss, es, m);
    RunStep(ss, es, m);
    ShakenStepIff(ss[m], es[m], u);
  }

  /** Over any run: the handshake of `u` has been sound at every moment exactly if all has been orderly so far. */
  lemma {:induction false} ShakenIff(ss: seq<Sys>, es: seq<Event>, m: nat, u: UserId)
    requires Run(ss, es) && m < |ss|
    ensures (forall k | 0 <= k <= m :: Shaken(ss[k], u)) <==> (forall k | 0 <= k < m :: Orderly(ss[k], es[k], u))
  {
    if m == 0 {
      InitShaken(ss[0], u);
    } else {
      ShakenIff(ss, es, m - 1, u);
      if Shaken(ss[m - 1], u) {
        ShakenMoment(ss, es, m - 1, u);
      }
    }
  }

  lemma ShakenAlways(ss: seq<Sys>, es: seq<Event>, m: nat, u: UserId)
    requires OrderlyRun(ss, es, u) && m < |ss|
    ensures Shaken(ss[m], u)
  {
    ShakenIff(ss, es, m, u);
  }

  // ----- what clients have to do for it -----

  /** A timer of `u` runs that would begin a callback. */
  predicate Threatens(p: Port, u: UserId) {
    p.requests.armed.Has(u) && p.clients.hasTimeoutUser.Has(u)
  }

  /**
   A request is accepted too early: while the timeout callback runs; or, between dispatch and the
   end of a callback on the port thread, with a timeout or while a timer still runs.
   */
  predicate Hasty(s: Sys, e: Event, u: UserId) {
    match e
    case Request(Queue(v, priority, timeout, even)) =>
      && v == u && QueueStatus(s.port, u, priority, timeout, even) == Accepted
      && (s.pending.inTimeout.Has(u) || ((Starts(s.pc, u) || Runs(s.pc, u)) && (timeout > 0.0 || Threatens(s.port, u))))
    case _ => false
  }

  /** The discipline of a user's clients: no such request, and no second cancel waits. */
  predicate Serial(s: Sys, e: Event, u: UserId) {
    !Hasty(s, e, u) && !SecondWaits(s, e, u)
  }

  /** While a callback is in progress, the queued request of its user cannot begin another one. */
  predicate Guarded(s: Sys, u: UserId) {
    s.port.requests.isQueued.Has(u) ==>
      && !s.pending.inTimeout.Has(u)
      && (Starts(s.pc, u) || Runs(s.pc, u) ==> !Threatens(s.port, u))
  }

  lemma GuardedQueue(s: Sys, v: UserId, priority: Priority, timeout: real, even: bool, u: UserId)
    requires Guarded(s, u)
    ensures Guarded(QueueStep(s, v, priority, timeout, even), u) <==>
      !Hasty(s, Request(Queue(v, priority, timeout, even)), u)
  {
  }

  lemma GuardedRequest(s: Sys, e: RequestEvent, u: UserId)
    requires Rep(s) && Guarded(s, u) && CanRequest(s, e)
    ensures Guarded(RequestNext(s, e), u) <==> !Hasty(s, Request(e), u)
  {
    match e
    case Queue(v, priority, timeout, even) => GuardedQueue(s, v, priority, timeout, even, u);
    case Cancel(v) => CancelEffect(s, v);
    case TimerExpires(v) => ExpireEffect(s, v);
    case _ =>
  }

  lemma GuardedLife(s: Sys, e: LifeEvent, u: UserId)
    requires Rep(s) && Guarded(s, u) && CanLife(s, e)
    ensures Guarded(LifeNext(s, e), u)
  {
    if e.Create? {
      CreatedIsFree(s, e.u);
    }
  }

  lemma GuardedThread(s: Sys, e: ThreadEvent, u: UserId)
    requires Rep(s) && Guarded(s, u) && CanThread(s, e)
    ensures Guarded(ThreadNext(s, e), u)
  {
    if e == NextConnect || e == Test {
      GuardedDispatch(s, e, u);
    }
  }

  lemma GuardedDispatch(s: Sys, e: ThreadEvent, u: UserId)
    requires Guarded(s, u) && CanThread(s, e) && (e == NextConnect || e == Test)
    ensures Guarded(ThreadNext(s, e), u)
  {
  }

  /** A hasty request, and nothing else, leaves a queued request that can begin a second callback. */
  lemma GuardedStepIff(s: Sys, e: Event, u: UserId)
    requires Rep(s) && Guarded(s, u) && Can(s, e)
    ensures Guarded(Next(s, e), u) <==> !Hasty(s, e, u)
  {
    match e
    case Request(r) => GuardedRequest(s, r, u);
    case Control(c) => ControlFrame(s, c);
    case Life(l) => GuardedLife(s, l, u);
    case Thread(t) => GuardedThread(s, t, u);
  }

  lemma GuardedTakesNoSecond(s: Sys, e: Event, u: UserId)
    requires Rep(s) && Guarded(s, u) && Can(s, e)
    ensures !SecondBegins(s, e, u)
  {
    if Takes(s, e, u) {
      match e
      case Thread(NextConnect) => ListedIsFlagged(s.port.requests, Slot(CONNECT, 0));
      case Thread(Test) => ListedIsFlagged(s.port.requests, Slot(s.pc.i, s.pc.k));
      case _ =>
    }
  }

  lemma {:induction false} SerialIsGuarded(ss: seq<Sys>, es: seq<Event>, m: nat, u: UserId)
    requires Run(ss, es) && m < |ss| && forall k | 0 <= k < m :: Serial(ss[k], es[k], u)
    ensures Guarded(ss[m], u)
  {
    if m > 0 {
      SerialIsGuarded(ss, es, m - 1, u);
      RepAlways(ss, es, m - 1);
      RunStep(ss, es, m - 1);
      GuardedStepIff(ss[m - 1], es[m - 1], u);
    }
  }

  /** The discipline is enough, whatever other users do. */
  lemma SerialIsOrderly(ss: seq<Sys>, es: seq<Event>, m: nat, u: UserId)
    requires Run(ss, es) && m < |es| && forall k | 0 <= k <= m :: Serial(ss[k], es[k], u)
    ensures Orderly(ss[m], es[m], u)
  {
    SerialIsGuarded(ss, es, m, u);
    RepAlways(ss, es, m);
    RunStep(ss, es, m);
    GuardedTakesNoSecond(ss[m], es[m], u);
  }

  // ----- what it means -----

  /** This event is the end of a callback of `u`. */
  predicate EndsCallback(s: Sys, e: Event, u: UserId) {
    || e == Request(TimeoutEnds(u))
    || ((e == Thread(EndConnectCallback) || e == Thread(EndUserCallback)) && Runs(s.pc, u))
  }

  predicate IsCanceled(s: Sys, u: UserId) {
    s.port.callbacks.canceled.Has(u)
  }

  /** Only the end of its callback changes the state of a canceled user. */
  lemma CanceledKept(s: Sys, e: Event, u: UserId)
    requires Rep(s) && Shaken(s, u) && Can(s, e) && Orderly(s, e, u) && IsCanceled(s, u)
    ensures IsCanceled(Next(s, e), u) <==> !EndsCallback(s, e, u)
  {
    match e
    case Request(r) => CanceledRequest(s, r, u);
    case Control(c) => ControlFrame(s, c);
    case Life(l) => CanceledLife(s, l, u);
    case Thread(t) => CanceledThread(s, t, u);
  }

  lemma CanceledRequest(s: Sys, e: RequestEvent, u: UserId)
    requires Rep(s) && Shaken(s, u) && CanRequest(s, e) && Orderly(s, Request(e), u) && IsCanceled(s, u)
    ensures IsCanceled(RequestNext(s, e), u) <==> e != TimeoutEnds(u)
  {
    match e
    case Cancel(v) => CancelEffect(s, v);
    case TimerExpires(v) =>
      NoLogicError(s, v);
      ExpireEffect(s, v);
    case _ =>
  }

  lemma CanceledLife(s: Sys, e: LifeEvent, u: UserId)
    requires Rep(s) && Shaken(s, u) && CanLife(s, e) && IsCanceled(s, u)
    ensures IsCanceled(LifeNext(s, e), u)
  {
    if e.Create? {
      CreatedIsFree(s, e.u);
    }
  }

  lemma CanceledThread(s: Sys, e: ThreadEvent, u: UserId)
    requires Rep(s) && Shaken(s, u) && CanThread(s, e) && Orderly(s, Thread(e), u) && IsCanceled(s, u)
    ensures IsCanceled(ThreadNext(s, e), u) <==> !EndsCallback(s, Thread(e), u)
  {
    assert InProgress(s.pending, s.pc, u) == 1;
    match e
    case NextConnect =>
    case Test =>
    case _ =>
  }

  lemma CanceledMoment(ss: seq<Sys>, es: seq<Event>, k: nat, u: UserId)
    requires OrderlyRun(ss, es, u) && k < |es| && IsCanceled(ss[k], u)
    ensures InProgress(ss[k].pending, ss[k].pc, u) == 1 && !ss[k].port.callbacks.done.Has(u)
    ensures IsCanceled(ss[k + 1], u) <==> !EndsCallback(ss[k], es[k], u)
  {
    ShakenAlways(ss, es, k, u);
    RepAlways(ss, es, k);
    RunStep(ss, es, k);
    CanceledKept(ss[k], es[k], u);
  }

  /** From a canceled state at moment `k` to the return of the cancel at `m`. */
  lemma {:induction false} EndsBeforeReturn(ss: seq<Sys>, es: seq<Event>, k: nat, m: nat, u: UserId) returns (j: nat)
    requires OrderlyRun(ss, es, u) && k <= m < |es| && IsCanceled(ss[k], u) && ss[m].port.callbacks.done.Has(u)
    ensures k <= j < m && EndsCallback(ss[j], es[j], u)
    ensures forall i | k <= i <= j :: IsCanceled(ss[i], u) && InProgress(ss[i].pending, ss[i].pc, u) == 1
    decreases m - k
  {
    CanceledMoment(ss, es, k, u);
    if EndsCallback(ss[k], es[k], u) {
      j := k;
    } else {
      j := EndsBeforeReturn(ss, es, k + 1, m, u);
    }
  }

  /**
   A cancelRequest that finds the callback active does not return before that callback has
   ended: between its beginning at `from` and its return at `m` there is the end of a callback
   of the user, and up to then the user is canceled and that callback in progress.
   */
  lemma CancelWaitsForCallback(ss: seq<Sys>, es: seq<Event>, from: nat, m: nat, u: UserId) returns (j: nat)
    requires OrderlyRun(ss, es, u) && from < m < |es|
    requires StartsWaiting(ss[from], es[from], u) && es[m] == Request(CancelReturns(u))
    ensures from < j < m && EndsCallback(ss[j], es[j], u)
    ensures forall i | from < i <= j :: IsCanceled(ss[i], u) && InProgress(ss[i].pending, ss[i].pc, u) == 1
  {
    RunStep(ss, es, from);
    RunStep(ss, es, m);
    j := EndsBeforeReturn(ss, es, from + 1, m, u);
  }

  // ----- one signal for each waiting cancel -----

  datatype Turn = Waits | Signals | Returns

  /** A cancel begins to wait, callbackDone is signalled, a cancel returns from its wait. */
  predicate Happens(turn: Turn, s: Sys, e: Event, u: UserId) {
    match turn
    case Waits => StartsWaiting(s, e, u)
    case Signals => EndsCallback(s, e, u) && IsCanceled(s, u)
    case Returns => e == Request(CancelReturns(u))
  }

  function Times(turn: Turn, ss: seq<Sys>, es: seq<Event>, u: UserId, m: nat): nat
    requires |ss| == |es| + 1 && m <= |es|
  {
    if m == 0 then 0 else Times(turn, ss, es, u, m - 1) + One(Happens(turn, ss[m - 1], es[m - 1], u))
  }

  function One(yes: bool): nat {
    if yes then 1 else 0
  }

  /** The waiting cancels of `u`, and the signals nobody has taken yet. */
  function WaitingCancels(s: Sys, u: UserId): nat {
    s.pending.canceling.counts[u]
  }

  function UntakenSignals(s: Sys, u: UserId): nat {
    One(s.port.callbacks.done.Has(u))
  }

  lemma TurnStep(s: Sys, e: Event, u: UserId)
    requires Rep(s) && Shaken(s, u) && Can(s, e) && Orderly(s, e, u)
    ensures WaitingCancels(Next(s, e), u) + One(Happens(Returns, s, e, u)) ==
      WaitingCancels(s, u) + One(Happens(Waits, s, e, u))
    ensures UntakenSignals(Next(s, e), u) + One(Happens(Returns, s, e, u)) ==
      UntakenSignals(s, u) + One(Happens(Signals, s, e, u))
  {
    match e
    case Request(r) => TurnRequest(s, r, u);
    case Control(c) => TurnControl(s, c, u);
    case Life(l) => TurnLife(s, l, u);
    case Thread(t) => TurnThread(s, t, u);
  }

  lemma TurnRequest(s: Sys, e: RequestEvent, u: UserId)
    requires Rep(s) && Shaken(s, u) && CanRequest(s, e) && Orderly(s, Request(e), u)
    ensures
      var t, f := RequestNext(s, e), Request(e);
      && WaitingCancels(t, u) + One(Happens(Returns, s, f, u)) == WaitingCancels(s, u) + One(Happens(Waits, s, f, u))
      && UntakenSignals(t, u) + One(Happens(Returns, s, f, u)) == UntakenSignals(s, u) + One(Happens(Signals, s, f, u))
  {
    match e
    case Cancel(v) =>
      NoLogicError(s, v);
      CancelEffect(s, v);
    case TimerExpires(v) => ExpireEffect(s, v);
    case _ =>
  }

  lemma TurnControl(s: Sys, e: ControlEvent, u: UserId)
    requires CanControl(s, e)
    ensures WaitingCancels(ControlNext(s, e), u) == WaitingCancels(s, u) &&
      UntakenSignals(ControlNext(s, e), u) == UntakenSignals(s, u)
  {
  }

  lemma TurnLife(s: Sys, e: LifeEvent, u: UserId)
    requires Rep(s) && Shaken(s, u) && CanLife(s, e)
    ensures WaitingCancels(LifeNext(s, e), u) == WaitingCancels(s, u) &&
      UntakenSignals(LifeNext(s, e), u) == UntakenSignals(s, u)
  {
  }

  lemma TurnThread(s: Sys, e: ThreadEvent, u: UserId)
    requires Shaken(s, u) && CanThread(s, e)
    ensures
      var t := ThreadNext(s, e);
      WaitingCancels(t, u) == WaitingCancels(s, u) &&
        UntakenSignals(t, u) == UntakenSignals(s, u) + One(Happens(Signals, s, Thread(e), u))
  {
  }

  lemma TurnNext(ss: seq<Sys>, es: seq<Event>, u: UserId, m: nat)
    requires OrderlyRun(ss, es, u) && m < |es|
    ensures WaitingCancels(ss[m + 1], u) + One(Happens(Returns, ss[m], es[m], u)) ==
      WaitingCancels(ss[m], u) + One(Happens(Waits, ss[m], es[m], u))
    ensures UntakenSignals(ss[m + 1], u) + One(Happens(Returns, ss[m], es[m], u)) ==
      UntakenSignals(ss[m], u) + One(Happens(Signals, ss[m], es[m], u))
  {
    ShakenAlways(ss, es, m, u);
    RepAlways(ss, es, m);
    RunStep(ss, es, m);
    TurnStep(ss[m], es[m], u);
  }

  /** The ledger of the handshake: what has happened so far adds up. */
  lemma {:induction false} TurnsAddUp(ss: seq<Sys>, es: seq<Event>, u: UserId, m: nat)
    requires OrderlyRun(ss, es, u) && m <= |es|
    ensures Times(Waits, ss, es, u, m) == Times(Returns, ss, es, u, m) + WaitingCancels(ss[m], u)
    ensures Times(Signals, ss, es, u, m) == Times(Returns, ss, es, u, m) + UntakenSignals(ss[m], u)
  {
    if m > 0 {
      TurnsAddUp(ss, es, u, m - 1);
      TurnNext(ss, es, u, m - 1);
    }
  }

  /**
   callbackDone is signalled exactly once for each cancel that waits, and a signal is never
   left over for a later one: at every moment the waits begun are those returned from and at
   most one more, the signals given are those taken and at most one more, and the event is full
   only while there is a wait. A wait whose callback is over has its signal.
   */
  lemma OneSignalPerWait(ss: seq<Sys>, es: seq<Event>, u: UserId, m: nat)
    requires OrderlyRun(ss, es, u) && m <= |es|
    ensures
      var waits, signals, taken := Times(Waits, ss, es, u, m), Times(Signals, ss, es, u, m),
        Times(Returns, ss, es, u, m);
      && taken <= signals <= waits <= taken + 1
      && (signals > taken <==> ss[m].port.callbacks.done.Has(u))
      && (waits > taken && InProgress(ss[m].pending, ss[m].pc, u) == 0 ==> signals > taken)
  {
    TurnsAddUp(ss, es, u, m);
    ShakenAlways(ss, es, m, u);
  }
}
