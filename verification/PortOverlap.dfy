/**
 What goes wrong with cancelRequest when the conditions of PortCancel are not met: every second
 callback and every second wait breaks the handshake, every hasty request makes a second callback
 possible, and a run from the start of the port shows it.
 */
module PortOverlap {
  import opened Common
  import opened PortQueues
  import opened PortRegions
  import opened PortSystem
  import opened PortRep
  import opened PortCancel

  // ----- a second callback -----

  /** Two callbacks of `u` are in progress, and nobody waits for one. */
  predicate Overlapped(s: Sys, u: UserId) {
    && InProgress(s.pending, s.pc, u) >= 2 && StateOf(s.port.callbacks, u) == Active
    && !s.port.requests.isQueued.Has(u) && s.port.clients.attached.Has(u) && Live(s, u) && Unlocked(s)
    && !s.pending.canceling.Has(u) && !s.port.callbacks.done.Has(u)
  }

  /** A cancel waits whose signal has been lost: the event is empty, and no callback will fill it. */
  predicate Unheard(s: Sys, u: UserId) {
    s.pending.canceling.Has(u) && !IsCanceled(s, u) && !s.port.callbacks.done.Has(u)
  }

  /** What a second callback leads to. */
  predicate Broken(canceled: bool, done: bool, t: Sys, u: UserId) {
    if canceled then Unheard(t, u)
    else if done then CanRequest(t, CancelReturns(u)) && Overlapped(CancelReturnStep(t, u), u)
    else Overlapped(t, u)
  }

  lemma SecondByTimer(s: Sys, u: UserId)
    requires Rep(s) && Shaken(s, u) && CanRequest(s, TimerExpires(u)) && SecondBegins(s, Request(TimerExpires(u)), u)
    ensures Broken(IsCanceled(s, u), s.port.callbacks.done.Has(u), ExpireStep(s, u), u)
  {
    NoLogicError(s, u);
    ExpireEffect(s, u);
  }

  lemma SecondByThread(s: Sys, slot: Slot, pc: Pc, u: UserId)
    requires Rep(s) && Shaken(s, u) && ValidSlot(s.port.requests.queues, slot) && At(s.port.requests.queues, slot) == u
    requires HoldsLock(s.pc) && Starts(pc, u) && InProgress(s.pending, s.pc, u) > 0
    ensures Broken(IsCanceled(s, u), s.port.callbacks.done.Has(u), s.(port := Dispatch(s.port, slot), pc := pc), u)
  {
    ListedIsFlagged(s.port.requests, slot);
  }

  /**
   When a second callback begins while no cancel waits, two overlap. When a cancel waits for the
   first, it will not be heard. And when a cancel has its signal but has not returned yet, two
   overlap as soon as it has.
   */
  lemma SecondCallbackBreaks(s: Sys, e: Event, u: UserId)
    requires Rep(s) && Shaken(s, u) && Can(s, e) && SecondBegins(s, e, u)
    ensures Broken(IsCanceled(s, u), s.port.callbacks.done.Has(u), Next(s, e), u)
  {
    match e
    case Request(r) => SecondByTimer(s, u);
    case Thread(t) =>
      if t == NextConnect {
        SecondByThread(s, Slot(CONNECT, 0), ThreadNext(s, t).pc, u);
      } else {
        SecondByThread(s, Slot(s.pc.i, s.pc.k), ThreadNext(s, t).pc, u);
      }
    case _ =>
  }

  /** A cancel begins, the timeout callback ends, the cancel returns. */
  function Returning(u: UserId): seq<Event> {
    [Request(Cancel(u)), Request(TimeoutEnds(u)), Request(CancelReturns(u))]
  }

  /**
   From there a cancel returns too early: it finds the user active while two callbacks are in
   progress, none begins afterwards, and when it returns one of the two still is.
   */
  lemma OverlapReturnsEarly(s: Sys, u: UserId) returns (ss: seq<Sys>)
    requires Overlapped(s, u)
    ensures |ss| == 4 && ss[0] == s && StartsWaiting(s, Returning(u)[0], u)
    ensures forall m | 0 <= m < 3 :: Can(ss[m], Returning(u)[m]) && ss[m + 1] == Next(ss[m], Returning(u)[m])
    ensures forall m | 0 <= m < 3 :: !Takes(ss[m], Returning(u)[m], u)
    ensures InProgress(ss[3].pending, ss[3].pc, u) == InProgress(s.pending, s.pc, u) - 1 >= 1
  {
    var a := CancelStep(s, u);
    var b := TimeoutEndStep(a, u);
    var c := CancelReturnStep(b, u);
    assert Can(s, Request(Cancel(u))) && a == Next(s, Request(Cancel(u))) && StartsWaiting(s, Request(Cancel(u)), u);
    assert Can(a, Request(TimeoutEnds(u))) && b == Next(a, Request(TimeoutEnds(u)));
    assert Can(b, Request(CancelReturns(u))) && c == Next(b, Request(CancelReturns(u)));
    ss := [s, a, b, c];
  }

  /** A cancel that is not heard cannot return, whatever happens, unless another cancel begins to wait. */
  lemma UnheardGoesOn(s: Sys, e: Event, u: UserId)
    requires Rep(s) && Unheard(s, u) && Can(s, e) && !StartsWaiting(s, e, u)
    ensures e != Request(CancelReturns(u)) && Unheard(Next(s, e), u)
  {
    match e
    case Request(r) => UnheardRequest(s, r, u);
    case Control(c) => ControlFrame(s, c);
    case Life(l) =>
    case Thread(t) => UnheardThread(s, t, u);
  }

  lemma UnheardRequest(s: Sys, e: RequestEvent, u: UserId)
    requires Rep(s) && Unheard(s, u) && CanRequest(s, e) && !StartsWaiting(s, Request(e), u)
    ensures Unheard(RequestNext(s, e), u)
  {
    match e
    case Cancel(v) =>
      NoLogicError(s, v);
      CancelEffect(s, v);
    case TimerExpires(v) => ExpireEffect(s, v);
    case _ =>
  }

  lemma UnheardThread(s: Sys, e: ThreadEvent, u: UserId)
    requires Unheard(s, u) && CanThread(s, e)
    ensures Unheard(ThreadNext(s, e), u)
  {
  }

  // ----- a second wait -----

  /** The second cancel to wait can return at once, by the signal for the first, while its callback is in progress. */
  lemma SecondWaitReturnsEarly(s: Sys, u: UserId)
    requires Rep(s) && Shaken(s, u) && Can(s, Request(Cancel(u))) && SecondWaits(s, Request(Cancel(u)), u)
    ensures
      var t := Next(s, Request(Cancel(u)));
      Can(t, Request(CancelReturns(u))) && InProgress(t.pending, t.pc, u) == 1 && IsCanceled(t, u)
  {
    CancelEffect(s, u);
  }

  // ----- hasty requests -----

  /**
   A hasty request between dispatch and the end of a callback: at once the timer can begin a
   second one.
   */
  lemma HastyTimerIsSecond(s: Sys, e: Event, u: UserId)
    requires Rep(s) && Can(s, e) && Hasty(s, e, u) && (Starts(s.pc, u) || Runs(s.pc, u))
    requires !s.pending.inTimeout.Has(u)
    ensures
      var t := Next(s, e);
      Can(t, Request(TimerExpires(u))) && SecondBegins(t, Request(TimerExpires(u)), u)
  {
    var t := Next(s, e);
    RepStep(s, e);
    NoLogicError(t, u);
    AttachedIsNotFreed(t, u);
  }

  lemma TimeoutGoesOn(s: Sys, e: Event, u: UserId)
    requires Rep(s) && Can(s, e) && e != Request(TimeoutEnds(u)) && s.pending.inTimeout.Has(u)
    ensures Next(s, e).pending.inTimeout.Has(u)
  {
    match e
    case Request(r) =>
      if r.TimerExpires? {
        ExpireEffect(s, r.u);
      } else if r.Cancel? {
        CancelEffect(s, r.u);
      }
    case Control(c) =>
    case Life(l) =>
    case Thread(t) =>
  }

  lemma {:induction false} TimeoutStays(ss: seq<Sys>, es: seq<Event>, from: nat, m: nat, u: UserId)
    requires Run(ss, es) && from <= m <= |es| && ss[from].pending.inTimeout.Has(u)
    requires forall k | from <= k < m :: es[k] != Request(TimeoutEnds(u))
    ensures ss[m].pending.inTimeout.Has(u)
    decreases m
  {
    if from < m {
      TimeoutStays(ss, es, from, m - 1, u);
      RepAlways(ss, es, m - 1);
      RunStep(ss, es, m - 1);
      TimeoutGoesOn(ss[m - 1], es[m - 1], u);
    }
  }

  /** A hasty request during the timeout callback: if it is taken before that callback ends, a second one begins. */
  lemma HastyInTimeoutIsSecond(ss: seq<Sys>, es: seq<Event>, from: nat, m: nat, u: UserId)
    requires Run(ss, es) && from < m < |es| && Hasty(ss[from], es[from], u) && ss[from].pending.inTimeout.Has(u)
    requires forall k | from <= k < m :: es[k] != Request(TimeoutEnds(u))
    requires Takes(ss[m], es[m], u)
    ensures SecondBegins(ss[m], es[m], u)
  {
    TimeoutStays(ss, es, from, m, u);
  }

  // ----- a run from the start -----

  /** User 1 of the port itself, with both callbacks. */
  predicate OneUser(s: Sys) {
    && s.port.devices == Start.port.devices && s.port.blocking == Start.port.blocking
    && s.port.clients == Clients(Flag({1}), Table(map[1 := PORT]), Flag({1}), Flag({1}), none)
    && s.pool == Start.pool.(users := Flag({1}))
    && s.port.callbacks.done == none && s.port.callbacks.canceled == none && s.pending.canceling == zero
  }

  lemma OneJoins() returns (s: Sys)
    ensures Reachable(s) && OneUser(s) && s.pc == Waiting && s.pending == Start.pending
    ensures s.port.requests == Start.port.requests && s.port.callbacks == Start.port.callbacks
  {
    ReachableInit(Start);
    var a := Next(Start, Life(Create(1, true, true)));
    ReachableNext(Start, Life(Create(1, true, true)));
    assert a.pool == Start.pool.(users := Flag({1}));
    s := Next(a, Life(AttachUser(1, -1)));
    ReachableNext(a, Life(AttachUser(1, -1)));
  }

  /** Its request is queued, with a timeout or during the timeout callback. */
  predicate OneQueued(s: Sys) {
    OneUser(s) && s.pc == Waiting && s.port.requests.queues == Queues([], [], [], [1]) &&
      s.port.requests.isQueued == Flag({1})
  }

  lemma OneIsQueued() returns (s: Sys)
    ensures Reachable(s) && OneQueued(s) && s.port.requests.armed.Has(1)
  {
    var a := OneJoins();
    s := Next(a, Request(Queue(1, CONNECT, 1.0, false)));
    ReachableNext(a, Request(Queue(1, CONNECT, 1.0, false)));
  }

  lemma OneTimesOut() returns (s: Sys)
    ensures Reachable(s) && OneUser(s) && s.pc == Waiting && s.pending.inTimeout.Has(1)
    ensures s.port.requests.queues == Queues([], [], [], []) && s.port.requests.isQueued == none
  {
    var a := OneIsQueued();
    assert a.port.requests.queues.List(CONNECT) == [1];
    ListsOfReachable(a);
    NoLogicError(a, 1);
    ExpireEffect(a, 1);
    assert Locate(a.port.requests.queues, 1, CONNECT) == Some(Slot(CONNECT, 0));
    s := Next(a, Request(TimerExpires(1)));
    ReachableNext(a, Request(TimerExpires(1)));
    assert s.port.requests.queues.connect == [];
  }

  lemma ListsOfReachable(s: Sys)
    requires Reachable(s)
    ensures Rep(s)
  {
    var ss, es :| Run(ss, es) && ss[|es|] == s;
    RepAlways(ss, es, |es|);
  }

  lemma OneIsHasty() returns (s: Sys)
    ensures Reachable(s) && OneQueued(s) && s.pending.inTimeout.Has(1) && s.pending.signaling > 0
  {
    var a := OneTimesOut();
    s := Next(a, Request(Queue(1, CONNECT, 0.0, false)));
    ReachableNext(a, Request(Queue(1, CONNECT, 0.0, false)));
  }

  lemma ThreadComes(s: Sys)
    requires Reachable(s) && s.pc == Waiting && s.pending.signaling > 0 && s.port.devices.enabled.Has(PORT)
    ensures Reachable(s.(pc := ConnectLoop, notify := false,
      pending := s.pending.(signaling := s.pending.signaling - 1)))
  {
    var a := s.(notify := true, pending := s.pending.(signaling := s.pending.signaling - 1));
    ReachableNext(s, Control(Signal));
    assert a == Next(s, Control(Signal));
    ReachableNext(a, Thread(Wake));
    ReachableNext(a.(pc := Woken, notify := false), Thread(TakeLock));
  }

  lemma OverlapIsReached() returns (s: Sys)
    ensures Reachable(s) && Overlapped(s, 1)
  {
    var a := OneIsHasty();
    ThreadComes(a);
    var b := a.(pc := ConnectLoop, notify := false, pending := a.pending.(signaling := a.pending.signaling - 1));
    assert b.port.requests.queues.List(CONNECT) == [1];
    s := Next(b, Thread(NextConnect));
    ReachableNext(b, Thread(NextConnect));
  }

  /**
   A run from the start of the port to a cancel that returns too early: a user queues itself in
   its timeout callback, the port thread calls it back, and a cancel that finds both callbacks
   in progress returns after the first has ended, before the second has.
   */
  lemma EarlyReturnIsReached() returns (ss: seq<Sys>)
    ensures |ss| == 4 && Reachable(ss[0]) && StartsWaiting(ss[0], Returning(1)[0], 1)
    ensures forall m | 0 <= m < 3 :: Can(ss[m], Returning(1)[m]) && ss[m + 1] == Next(ss[m], Returning(1)[m])
    ensures InProgress(ss[0].pending, ss[0].pc, 1) >= 2 && InProgress(ss[3].pending, ss[3].pc, 1) >= 1
    ensures forall m | 0 <= m < 3 :: !Takes(ss[m], Returning(1)[m], 1)
  {
    var s := OverlapIsReached();
    ss := OverlapReturnsEarly(s, 1);
  }
}
