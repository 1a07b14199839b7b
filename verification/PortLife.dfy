/**
 The end of an asynUser's life. freeAsynUser reads the state of the callback under one lock
 and the callback's end writes it under another, so a callback that ends between the reading
 and the setting of freeAfterCallback leaves the user lost; in every other case it comes to the
 free list exactly once.
 */
module PortLife {
  import opened PortQueues
  import opened PortRegions
  import opened PortSystem
  import opened PortRep
  import opened PortCancel

  /** No callback of `u` ends between the reading of its state by freeAsynUser and the setting of freeAfterCallback. */
  predicate Prompt(s: Sys, e: Event, u: UserId) {
    e == Life(FreeEnds(u, false)) ==> InProgress(s.pending, s.pc, u) > 0
  }

  ghost predicate PromptRun(ss: seq<Sys>, es: seq<Event>, u: UserId) {
    Run(ss, es) && forall m | 0 <= m < |es| :: Prompt(ss[m], es[m], u)
  }

  /** Given away, with freeAfterCallback set, but no callback left that would act on it. */
  predicate Lost(s: Sys, u: UserId) {
    s.pool.freeAfterCallback.Has(u) && InProgress(s.pending, s.pc, u) == 0
  }

  predicate Detached(s: Sys, u: UserId) {
    !s.port.clients.attached.Has(u) && !s.port.requests.isQueued.Has(u)
  }

  lemma FreeAfterIsDetached(s: Sys, u: UserId)
    requires Rep(s) && s.pool.freeAfterCallback.Has(u)
    ensures Detached(s, u) && s.pool.released.Has(u) && u !in s.pool.freeList.users && s.pool.users.Has(u)
    ensures s.pool.freeingBusy.Count(u) == 0
  {
    assert FreeCount(s.pool, u) == if s.pool.released.Has(u) then 1 else 0;
    assert u in s.pool.freeList.users ==> multiset(s.pool.freeList.users)[u] > 0;
  }

  /** Becoming lost takes exactly one thing: to set freeAfterCallback when no callback is in progress. */
  lemma LostStep(s: Sys, e: Event, u: UserId)
    requires Rep(s) && Can(s, e)
    ensures Lost(Next(s, e), u) <==> Lost(s, u) || !Prompt(s, e, u)
  {
    if s.pool.freeAfterCallback.Has(u) {
      FreeAfterIsDetached(s, u);
    }
    match e
    case Request(r) => LostRequest(s, r, u);
    case Control(c) => ControlFrame(s, c);
    case Life(l) => LostLife(s, l, u);
    case Thread(t) => LostThread(s, t, u);
  }

  lemma LostRequest(s: Sys, e: RequestEvent, u: UserId)
    requires Rep(s) && CanRequest(s, e) && (s.pool.freeAfterCallback.Has(u) ==> Detached(s, u))
    ensures Lost(RequestNext(s, e), u) <==> Lost(s, u)
  {
    match e
    case Cancel(v) => CancelEffect(s, v);
    case TimerExpires(v) => ExpireEffect(s, v);
    case _ =>
  }

  lemma LostLife(s: Sys, e: LifeEvent, u: UserId)
    requires Rep(s) && CanLife(s, e)
    requires s.pool.freeAfterCallback.Has(u) ==> s.pool.users.Has(u) && u !in s.pool.freeList.users
    ensures Lost(LifeNext(s, e), u) <==> Lost(s, u) || !Prompt(s, Life(e), u)
  {
  }

  lemma LostThread(s: Sys, e: ThreadEvent, u: UserId)
    requires Rep(s) && CanThread(s, e) && (s.pool.freeAfterCallback.Has(u) ==> Detached(s, u))
    ensures Lost(ThreadNext(s, e), u) <==> Lost(s, u)
  {
    ThreadFrame(s, e);
    if e != EndConnectCallback && e != EndUserCallback {
      ThreadProgress(s, e, u);
    }
  }

  lemma ThreadProgress(s: Sys, e: ThreadEvent, u: UserId)
    requires Rep(s) && CanThread(s, e) && e != EndConnectCallback && e != EndUserCallback
    ensures
      var t := ThreadNext(s, e);
      Detached(s, u) ==> InProgress(t.pending, t.pc, u) == InProgress(s.pending, s.pc, u)
  {
    if !Detached(s, u) {
      return;
    }
    match e
    case NextConnect => ConnectProgress(s, u);
    case Test => TestProgress(s, s.pc.i, s.pc.k, s.pc.callTimeout, u);
    case _ =>
  }

  lemma ConnectProgress(s: Sys, u: UserId)
    requires Rep(s) && s.pc == ConnectLoop && Detached(s, u)
    ensures InProgress(ConnectStep(s).pending, ConnectStep(s).pc, u) == InProgress(s.pending, s.pc, u)
  {
    if s.port.requests.queues.List(CONNECT) != [] {
      ListedIsFlagged(s.port.requests, Slot(CONNECT, 0));
    }
  }

  lemma TestProgress(s: Sys, i: nat, k: nat, callTimeout: bool, u: UserId)
    requires Rep(s) && s.pc.Testing? && InList(s.port.requests.queues, i, k) && Detached(s, u)
    ensures var t := TestStep(s, i, k, callTimeout); InProgress(t.pending, t.pc, u) == InProgress(s.pending, s.pc, u)
  {
    ListedIsFlagged(s.port.requests, Slot(i, k));
  }

  lemma {:induction false} NeverLost(ss: seq<Sys>, es: seq<Event>, m: nat, u: UserId)
    requires PromptRun(ss, es, u) && m < |ss|
    ensures !Lost(ss[m], u)
  {
    if m > 0 {
      NeverLost(ss, es, m - 1, u);
      RepAlways(ss, es, m - 1);
      RunStep(ss, es, m - 1);
      LostStep(ss[m - 1], es[m - 1], u);
    }
  }

  /**
   A user given to freeAsynUser is on the free list exactly once as soon as that has returned
   and no callback of it is in progress, wherever it was called from: inside the callback, from
   another thread or with no callback at all.
   */
  lemma FreedExactlyOnce(ss: seq<Sys>, es: seq<Event>, m: nat, u: UserId)
    requires PromptRun(ss, es, u) && m < |ss| && ss[m].pool.released.Has(u)
    requires !ss[m].pool.freeingIdle.Has(u) && !ss[m].pool.freeingBusy.Has(u)
    requires InProgress(ss[m].pending, ss[m].pc, u) == 0
    ensures multiset(ss[m].pool.freeList.users)[u] == 1
  {
    NeverLost(ss, es, m, u);
    RepAlways(ss, es, m);
    assert FreeCount(ss[m].pool, u) == 1;
  }

  /** And not before: with callbacks of the user that do not overlap, it is not there while one is in progress. */
  lemma NotFreedInCallback(ss: seq<Sys>, es: seq<Event>, m: nat, u: UserId)
    requires OrderlyRun(ss, es, u) && m < |ss| && InProgress(ss[m].pending, ss[m].pc, u) > 0
    ensures u !in ss[m].pool.freeList.users && !CanCreate(ss[m].pool, u)
  {
    ShakenAlways(ss, es, m, u);
  }

  // ----- when it is prompt -----

  /** A user whose state is not idle has a callback in progress. */
  predicate BusyIsCalled(s: Sys, u: UserId) {
    StateOf(s.port.callbacks, u) != Idle ==> InProgress(s.pending, s.pc, u) > 0
  }

  lemma BusyRequest(s: Sys, e: RequestEvent, u: UserId)
    requires Rep(s) && BusyIsCalled(s, u) && CanRequest(s, e)
    ensures BusyIsCalled(RequestNext(s, e), u)
  {
    match e
    case Cancel(v) => CancelEffect(s, v);
    case TimerExpires(v) => ExpireEffect(s, v);
    case _ =>
  }

  lemma BusyThread(s: Sys, e: ThreadEvent, u: UserId)
    requires BusyIsCalled(s, u) && CanThread(s, e)
    ensures BusyIsCalled(ThreadNext(s, e), u)
  {
    match e
    case NextConnect =>
    case Test =>
    case _ =>
  }

  lemma BusyLife(s: Sys, e: LifeEvent, u: UserId)
    requires BusyIsCalled(s, u) && CanLife(s, e)
    ensures BusyIsCalled(LifeNext(s, e), u)
  {
  }

  lemma {:induction false} BusyAlways(ss: seq<Sys>, es: seq<Event>, m: nat, u: UserId)
    requires Run(ss, es) && m < |ss|
    ensures BusyIsCalled(ss[m], u)
  {
    if m > 0 {
      BusyAlways(ss, es, m - 1, u);
      RepAlways(ss, es, m - 1);
      RunStep(ss, es, m - 1);
      BusyStep(ss[m - 1], es[m - 1], u);
    }
  }

  lemma BusyStep(s: Sys, e: Event, u: UserId)
    requires Rep(s) && BusyIsCalled(s, u) && Can(s, e)
    ensures BusyIsCalled(Next(s, e), u)
  {
    match e
    case Request(r) => BusyRequest(s, r, u);
    case Control(c) => ControlFrame(s, c);
    case Life(l) => BusyLife(s, l, u);
    case Thread(t) => BusyThread(s, t, u);
  }

  /** A callback stays in progress until the end of one of its user's. */
  lemma CallsGoOn(s: Sys, e: Event, u: UserId)
    requires Rep(s) && Can(s, e) && !EndsCallback(s, e, u)
    ensures InProgress(Next(s, e).pending, Next(s, e).pc, u) >= InProgress(s.pending, s.pc, u)
  {
    match e
    case Request(r) => CallsGoOnRequest(s, r, u);
    case Control(c) => ControlFrame(s, c);
    case Life(l) =>
    case Thread(t) =>
  }

  lemma CallsGoOnRequest(s: Sys, e: RequestEvent, u: UserId)
    requires Rep(s) && CanRequest(s, e) && !EndsCallback(s, Request(e), u)
    ensures InProgress(RequestNext(s, e).pending, RequestNext(s, e).pc, u) >= InProgress(s.pending, s.pc, u)
  {
    match e
    case Cancel(v) => CancelEffect(s, v);
    case TimerExpires(v) => ExpireEffect(s, v);
    case _ =>
  }

  /** From `from` to `m` no callback of `u` ends. */
  ghost predicate NoEndBetween(ss: seq<Sys>, es: seq<Event>, from: nat, m: nat, u: UserId)
    requires |ss| == |es| + 1 && m <= |es|
  {
    forall k | from <= k < m :: !EndsCallback(ss[k], es[k], u)
  }

  lemma {:induction false} StillCalled(ss: seq<Sys>, es: seq<Event>, from: nat, m: nat, u: UserId)
    requires Run(ss, es) && from <= m <= |es| && NoEndBetween(ss, es, from, m, u)
    requires InProgress(ss[from].pending, ss[from].pc, u) > 0
    ensures InProgress(ss[m].pending, ss[m].pc, u) > 0
    decreases m
  {
    if from < m {
      StillCalled(ss, es, from, m - 1, u);
      RepAlways(ss, es, m - 1);
      RunStep(ss, es, m - 1);
      CallsGoOn(ss[m - 1], es[m - 1], u);
    }
  }

  /**
   freeAsynUser is prompt whenever no callback of the user ends between its two steps. So it
   always is when it is called inside the callback: the thread that would end that is then
   inside freeAsynUser.
   */
  lemma PromptWithoutEnd(ss: seq<Sys>, es: seq<Event>, from: nat, m: nat, u: UserId)
    requires Run(ss, es) && from < m < |es| && NoEndBetween(ss, es, from, m, u)
    requires es[from] == Life(FreeStarts(u)) && es[m] == Life(FreeEnds(u, false))
    requires StateOf(ss[from].port.callbacks, u) != Idle
    ensures Prompt(ss[m], es[m], u)
  {
    BusyAlways(ss, es, from, u);
    StillCalled(ss, es, from, m, u);
  }

  // ----- when it is not -----

  lemma {:induction false} LostAlways(ss: seq<Sys>, es: seq<Event>, from: nat, m: nat, u: UserId)
    requires Run(ss, es) && from < m < |ss| && !Prompt(ss[from], es[from], u)
    ensures Lost(ss[m], u)
    decreases m
  {
    if from < m - 1 {
      LostAlways(ss, es, from, m - 1, u);
    }
    RepAlways(ss, es, m - 1);
    RunStep(ss, es, m - 1);
    LostStep(ss[m - 1], es[m - 1], u);
  }

  /** Without that hypothesis it never gets there: lost once, it is not on the free list and never created again. */
  lemma LostForever(ss: seq<Sys>, es: seq<Event>, from: nat, m: nat, u: UserId)
    requires Run(ss, es) && from < m < |ss| && !Prompt(ss[from], es[from], u)
    ensures Lost(ss[m], u) && u !in ss[m].pool.freeList.users && !CanCreate(ss[m].pool, u)
  {
    LostAlways(ss, es, from, m, u);
    RepAlways(ss, es, m);
    FreeAfterIsDetached(ss[m], u);
  }
}
