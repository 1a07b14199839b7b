/**
 queueLockPort, queueUnlockPort and their callbacks on a blocking port (asynManager.c:949-992,
 1834-1980), together with lockPort and the other callbacks of the port thread, as a
 transition system. Each thread that locks has its own event and mutex (queueLockPortPvt); the
 port thread runs every callback holding synchronousLock.
 */
module LockPort {

  type ThreadId = int

  /**
   Where a client thread is: outside, having its mutex, waiting for the begin event, woken
   after a timeout, the port locked, waiting for the end event.
   */
  datatype Phase = Outside | Prepared | Waiting | Failing | Locked | Unlocking

  /** Who has the client's queueLockPortMutex. */
  datatype MutexOwner = Free | ByClient | ByPortThread

  /** Its request: none, on the queue, or taken off it by the timer thread. */
  datatype Request = NoRequest | OnQueue | Expired

  /** `event` and `mutex` are queueLockPortEvent and queueLockPortMutex, `timedOut` is auxStatus. */
  datatype Client = Client(phase: Phase, event: bool, mutex: MutexOwner, count: nat, request: Request, timedOut: bool)

  const NewClient := Client(Outside, false, Free, 0, NoRequest, false)

  /**
   The port thread: at rest; with a callback dispatched, still without synchronousLock; inside
   queueLockPortCallback before and after its first signal, with the mutex, and after releasing
   it; inside queueLockPortTimeoutCallback; inside another callback; about to release
   synchronousLock.
   */
  datatype PortPc =
    | Resting
    | Called(t: ThreadId)
    | Began(t: ThreadId)
    | Parked(t: ThreadId)
    | HasMutex(t: ThreadId)
    | FreedMutex(t: ThreadId)
    | CalledTimeout(t: ThreadId)
    | BeganTimeout(t: ThreadId)
    | CalledOther
    | RunsOther
    | Leaving

  /** synchronousLock is recursive; `depth` is how often a lockPort caller has it. */
  datatype SyncOwner = Nobody | PortThread | Caller(t: ThreadId, depth: nat)

  datatype Clients = Clients(known: map<ThreadId, Client>)

  datatype State = State(clients: Clients, pc: PortPc, sync: SyncOwner)

  function At(s: State, t: ThreadId): Client {
    if t in s.clients.known then s.clients.known[t] else NewClient
  }

  function Set(s: State, t: ThreadId, c: Client): (r: State)
    ensures forall u :: At(r, u) == if u == t then c else At(s, u)
  {
    s.(clients := Clients(s.clients.known[t := c]))
  }

  datatype Event =
    | TakeMutex(t: ThreadId)
    | QueueFails(t: ThreadId)
    | QueueSucceeds(t: ThreadId)
    | WakesUp(t: ThreadId)
    | ReturnsTimeout(t: ThreadId)
    | LocksAgain(t: ThreadId)
    | UnlocksOnce(t: ThreadId)
    | ReleasesMutex(t: ThreadId)
    | UnlockReturns(t: ThreadId)
    | LockPortReturns(t: ThreadId)
    | UnlockPort(t: ThreadId)
    | TimerTakes(t: ThreadId)
    | TimerCalls(t: ThreadId)
    | Dispatch(t: ThreadId, callTimeout: bool)
    | DispatchOther
    | TakeSync
    | SignalBegin
    | LockMutex
    | UnlockMutex
    | SignalEnd
    | SignalTimeout
    | OtherEnds
    | ReleaseSync

  predicate Can(s: State, e: Event) {
    match e
    case TakeMutex(t) => At(s, t).phase == Outside && At(s, t).mutex == Free
    case QueueFails(t) => At(s, t).phase == Prepared
    case QueueSucceeds(t) => At(s, t).phase == Prepared
    case WakesUp(t) => At(s, t).phase == Waiting && At(s, t).event
    case ReturnsTimeout(t) => At(s, t).phase == Failing
    case LocksAgain(t) => At(s, t).phase == Locked && At(s, t).count > 0
    case UnlocksOnce(t) => At(s, t).phase == Locked && At(s, t).count > 1
    case ReleasesMutex(t) => At(s, t).phase == Locked && At(s, t).count == 1
    case UnlockReturns(t) => At(s, t).phase == Unlocking && At(s, t).event
    case LockPortReturns(t) => s.sync == Nobody || (s.sync.Caller? && s.sync.t == t)
    case UnlockPort(t) => s.sync.Caller? && s.sync.t == t && s.sync.depth > 0
    case TimerTakes(t) => At(s, t).request == OnQueue
    case TimerCalls(t) => At(s, t).request == Expired
    case Dispatch(t, _) => s.pc == Resting && At(s, t).request == OnQueue
    case DispatchOther => s.pc == Resting
    case TakeSync => s.sync == Nobody && (s.pc.Called? || s.pc.CalledTimeout? || s.pc == CalledOther)
    case SignalBegin => s.pc.Began?
    case LockMutex => s.pc.Parked? && At(s, s.pc.t).mutex == Free
    case UnlockMutex => s.pc.HasMutex?
    case SignalEnd => s.pc.FreedMutex?
    case SignalTimeout => s.pc.BeganTimeout?
    case OtherEnds => s.pc == RunsOther
    case ReleaseSync => s.pc == Leaving
  }

  function Next(s: State, e: Event): State
    requires Can(s, e)
  {
    match e
    case TakeMutex(t) => Set(s, t, At(s, t).(phase := Prepared, mutex := ByClient, timedOut := false))
    case QueueFails(t) => Set(s, t, At(s, t).(phase := Outside, mutex := Free))
    case QueueSucceeds(t) => Set(s, t, At(s, t).(phase := Waiting, request := OnQueue))
    case WakesUp(t) =>
      var c := At(s, t);
      if c.timedOut then Set(s, t, c.(phase := Failing, event := false))
      else Set(s, t, c.(phase := Locked, event := false, count := c.count + 1))
    case ReturnsTimeout(t) => Set(s, t, At(s, t).(phase := Outside, mutex := Free))
    case LocksAgain(t) => Set(s, t, At(s, t).(count := At(s, t).count + 1))
    case UnlocksOnce(t) => Set(s, t, At(s, t).(count := At(s, t).count - 1))
    case ReleasesMutex(t) => Set(s, t, At(s, t).(phase := Unlocking, mutex := Free))
    case UnlockReturns(t) =>
      var c := At(s, t);
      Set(s, t, c.(phase := Outside, event := false, count := if c.count > 0 then c.count - 1 else 0))
    case LockPortReturns(t) => s.(sync := Caller(t, if s.sync.Caller? then s.sync.depth + 1 else 1))
    case UnlockPort(t) => s.(sync := if s.sync.depth == 1 then Nobody else Caller(t, s.sync.depth - 1))
    case TimerTakes(t) => Set(s, t, At(s, t).(request := Expired))
    case TimerCalls(t) => Set(s, t, At(s, t).(request := NoRequest, timedOut := true, event := true))
    case Dispatch(t, callTimeout) =>
      Set(s, t, At(s, t).(request := NoRequest)).(pc := if callTimeout then CalledTimeout(t) else Called(t))
    case DispatchOther => s.(pc := CalledOther)
    case TakeSync =>
      s.(sync := PortThread,
         pc := match s.pc case Called(t) => Began(t) case CalledTimeout(t) => BeganTimeout(t) case _ => RunsOther)
    case SignalBegin => Set(s, s.pc.t, At(s, s.pc.t).(event := true)).(pc := Parked(s.pc.t))
    case LockMutex => Set(s, s.pc.t, At(s, s.pc.t).(mutex := ByPortThread)).(pc := HasMutex(s.pc.t))
    case UnlockMutex => Set(s, s.pc.t, At(s, s.pc.t).(mutex := Free)).(pc := FreedMutex(s.pc.t))
    case SignalEnd => Set(s, s.pc.t, At(s, s.pc.t).(event := true)).(pc := Leaving)
    case SignalTimeout => Set(s, s.pc.t, At(s, s.pc.t).(timedOut := true, event := true)).(pc := Leaving)
    case OtherEnds => s.(pc := Leaving)
    case ReleaseSync => s.(sync := Nobody, pc := Resting)
  }

  ghost predicate Init(s: State) {
    s == State(Clients(map[]), Resting, Nobody)
  }

  predicate Moment(es: seq<Event>, m: nat) {
    m < |es|
  }

  ghost predicate Run(ss: seq<State>, es: seq<Event>) {
    && |ss| == |es| + 1 && Init(ss[0])
    && forall m: nat {:trigger Moment(es, m)} | Moment(es, m) :: Can(ss[m], es[m]) && ss[m + 1] == Next(ss[m], es[m])
  }

  // ----- the invariant -----

  /** The port thread has something to do with client `t`. */
  predicate Serves(pc: PortPc, t: ThreadId) {
    !pc.Resting? && !pc.CalledOther? && !pc.RunsOther? && !pc.Leaving? && pc.t == t
  }

  predicate HoldsSync(pc: PortPc) {
    !pc.Resting? && !pc.Called? && !pc.CalledTimeout? && !pc.CalledOther?
  }

  /** Everything about one client, phase by phase. */
  predicate ClientOk(c: Client, pc: PortPc, t: ThreadId) {
    match c.phase
    case Outside => c == c.(event := false, mutex := Free, count := 0, request := NoRequest) && !Serves(pc, t)
    case Prepared =>
      && c == c.(event := false, mutex := ByClient, count := 0, request := NoRequest, timedOut := false)
      && !Serves(pc, t)
    case Failing => c == c.(event := false, mutex := ByClient, count := 0, request := NoRequest) && !Serves(pc, t)
    case Locked => c == c.(event := false, mutex := ByClient, request := NoRequest) && c.count > 0 && pc == Parked(t)
    case Waiting =>
      && c.mutex == ByClient && c.count == 0
      && (if c.request != NoRequest then !c.event && !c.timedOut && !Serves(pc, t)
          else if pc == Parked(t) then c.event && !c.timedOut
          else if Serves(pc, t) then
            !c.event && !c.timedOut &&
              (pc == Called(t) || pc == Began(t) || pc == CalledTimeout(t) || pc == BeganTimeout(t))
          else c.event && c.timedOut)
    case Unlocking =>
      && c.count == 1 && c.request == NoRequest
      && (if pc == Parked(t) || pc == FreedMutex(t) then !c.event && c.mutex == Free
          else if pc == HasMutex(t) then !c.event && c.mutex == ByPortThread
          else !Serves(pc, t) && c.event && c.mutex == Free)
  }

  predicate SyncOk(s: State) {
    && (HoldsSync(s.pc) <==> s.sync == PortThread)
    && (s.sync.Caller? ==> s.sync.depth > 0)
  }

  ghost predicate Ok(s: State) {
    SyncOk(s) && forall t :: ClientOk(At(s, t), s.pc, t)
  }

  lemma SyncStep(s: State, e: Event)
    requires SyncOk(s) && Can(s, e)
    ensures SyncOk(Next(s, e))
  {
  }

  /** An event of a client, or of the timer on its behalf. */
  predicate IsOfClient(e: Event) {
    || e.TakeMutex? || e.QueueFails? || e.QueueSucceeds? || e.WakesUp? || e.ReturnsTimeout? || e.LocksAgain?
    || e.UnlocksOnce? || e.ReleasesMutex? || e.UnlockReturns? || e.TimerTakes? || e.TimerCalls?
  }

  lemma ClientStep(s: State, e: Event, t: ThreadId)
    requires Ok(s) && Can(s, e) && IsOfClient(e)
    ensures ClientOk(At(Next(s, e), t), Next(s, e).pc, t)
  {
    assert ClientOk(At(s, t), s.pc, t);
  }

  lemma PortStep(s: State, e: Event, t: ThreadId)
    requires Ok(s) && Can(s, e) && !IsOfClient(e)
    ensures ClientOk(At(Next(s, e), t), Next(s, e).pc, t)
  {
    assert ClientOk(At(s, t), s.pc, t);
  }

  lemma OkStep(s: State, e: Event)
    requires Ok(s) && Can(s, e)
    ensures Ok(Next(s, e))
  {
    SyncStep(s, e);
    forall t
      ensures ClientOk(At(Next(s, e), t), Next(s, e).pc, t)
    {
      if IsOfClient(e) {
        ClientStep(s, e, t);
      } else {
        PortStep(s, e, t);
      }
    }
  }

  lemma RunStep(ss: seq<State>, es: seq<Event>, m: nat)
    requires Run(ss, es) && m < |es|
    ensures Can(ss[m], es[m]) && ss[m + 1] == Next(ss[m], es[m])
  {
    assert Moment(es, m);
  }

  lemma {:induction false} OkAlways(ss: seq<State>, es: seq<Event>, m: nat)
    requires Run(ss, es) && m < |ss|
    ensures Ok(ss[m])
  {
    if m > 0 {
      OkAlways(ss, es, m - 1);
      RunStep(ss, es, m - 1);
      OkStep(ss[m - 1], es[m - 1]);
    }
  }

  // ----- what it means -----

  /** A callback of the port thread other than the one parked for `t` is running. */
  predicate OtherCallbackRuns(s: State, t: ThreadId) {
    HoldsSync(s.pc) && s.pc != Parked(t)
  }

  /**
   Mutual exclusion: between the return of its outermost queueLockPort and the release of the
   mutex in queueUnlockPort, the port thread is parked in this client's callback and has
   synchronousLock; so no other client has the port by queueLockPort, none by lockPort, and no
   other callback runs.
   */
  lemma Exclusive(ss: seq<State>, es: seq<Event>, m: nat, t: ThreadId)
    requires Run(ss, es) && m < |ss| && At(ss[m], t).phase == Locked
    ensures ss[m].pc == Parked(t) && ss[m].sync == PortThread
    ensures forall u :: At(ss[m], u).phase == Locked ==> u == t
    ensures forall u :: !Can(ss[m], LockPortReturns(u)) && !Can(ss[m], UnlockPort(u))
    ensures !OtherCallbackRuns(ss[m], t) && !Can(ss[m], DispatchOther) && !Can(ss[m], TakeSync)
    ensures !Can(ss[m], LockMutex)
  {
    OkAlways(ss, es, m);
    assert ClientOk(At(ss[m], t), ss[m].pc, t);
    forall u | At(ss[m], u).phase == Locked
      ensures u == t
    {
      assert ClientOk(At(ss[m], u), ss[m].pc, u);
    }
  }

  /** The port stays with that client until the client itself releases the mutex. */
  lemma OnlyItsOwnerReleases(s: State, e: Event, t: ThreadId)
    requires Ok(s) && Can(s, e) && At(s, t).phase == Locked
    ensures At(Next(s, e), t).phase == Locked <==> e != ReleasesMutex(t)
    ensures At(Next(s, e), t).phase == Locked ==> Next(s, e).pc == s.pc && Next(s, e).sync == s.sync
  {
    assert ClientOk(At(s, t), s.pc, t);
    if e.WakesUp? || e.ReturnsTimeout? || e.UnlockReturns? || e.TimerCalls? || e.TimerTakes? || e.QueueFails? ||
      e.QueueSucceeds? || e.TakeMutex? {
      assert e.t != t;
    }
  }

  /** At quiescence, whether the last call succeeded, failed or timed out, nothing is left over. */
  lemma NothingLeftOver(ss: seq<State>, es: seq<Event>, m: nat, t: ThreadId)
    requires Run(ss, es) && m < |ss| && At(ss[m], t).phase == Outside
    ensures !At(ss[m], t).event && At(ss[m], t).mutex == Free && At(ss[m], t).count == 0
    ensures At(ss[m], t).request == NoRequest && !Serves(ss[m].pc, t)
  {
    OkAlways(ss, es, m);
  }

  /** A call reports a timeout exactly when queueLockPortTimeoutCallback ran for its request. */
  lemma WakesForOneReason(ss: seq<State>, es: seq<Event>, m: nat, t: ThreadId)
    requires Run(ss, es) && m < |es| && es[m] == WakesUp(t)
    ensures At(ss[m + 1], t).phase == Locked <==> ss[m].pc == Parked(t)
    ensures At(ss[m + 1], t).phase == Failing <==> At(ss[m], t).timedOut
    ensures !At(ss[m + 1], t).event
  {
    OkAlways(ss, es, m);
    RunStep(ss, es, m);
    assert ClientOk(At(ss[m], t), ss[m].pc, t);
  }

  /** The request of `t` comes to its timeout callback: the timer took it, or it is dispatched as timed out. */
  predicate TimesOut(e: Event, t: ThreadId) {
    e == TimerTakes(t) || e == Dispatch(t, true)
  }

  predicate Doomed(s: State, t: ThreadId) {
    At(s, t).request == Expired || At(s, t).timedOut || s.pc == CalledTimeout(t) || s.pc == BeganTimeout(t)
  }

  lemma DoomedStep(s: State, e: Event, t: ThreadId)
    requires Ok(s) && Can(s, e) && At(s, t).phase == Waiting && At(Next(s, e), t).phase == Waiting
    ensures Doomed(Next(s, e), t) <==> Doomed(s, t) || TimesOut(e, t)
  {
    assert ClientOk(At(s, t), s.pc, t);
  }

  /** The request that `t` queued at moment `from` is still waited for at moment `m`. */
  ghost predicate WaitsSince(ss: seq<State>, es: seq<Event>, t: ThreadId, from: nat, m: nat) {
    && from < m < |ss| && m <= |es| && es[from] == QueueSucceeds(t)
    && forall k | from < k <= m :: At(ss[k], t).phase == Waiting
  }

  ghost predicate TimedOutSince(es: seq<Event>, t: ThreadId, from: nat, m: nat)
    requires m <= |es|
  {
    exists j: nat :: from < j < m && TimesOut(es[j], t)
  }

  lemma TimedOutLater(es: seq<Event>, t: ThreadId, from: nat, m: nat)
    requires from < m < |es|
    ensures TimedOutSince(es, t, from, m + 1) <==> TimedOutSince(es, t, from, m) || TimesOut(es[m], t)
  {
    if TimedOutSince(es, t, from, m) {
      var j: nat :| from < j < m && TimesOut(es[j], t);
      assert from < j < m + 1 && TimesOut(es[j], t);
    }
    if TimesOut(es[m], t) {
      assert from < m < m + 1 && TimesOut(es[m], t);
    }
  }

  lemma {:induction false} DoomedIff(ss: seq<State>, es: seq<Event>, t: ThreadId, from: nat, m: nat)
    requires Run(ss, es) && WaitsSince(ss, es, t, from, m)
    ensures Doomed(ss[m], t) <==> TimedOutSince(es, t, from, m)
    decreases m
  {
    OkAlways(ss, es, m - 1);
    RunStep(ss, es, m - 1);
    if from < m - 1 {
      DoomedIff(ss, es, t, from, m - 1);
      DoomedStep(ss[m - 1], es[m - 1], t);
      TimedOutLater(es, t, from, m - 1);
    } else {
      assert ClientOk(At(ss[from], t), ss[from].pc, t);
    }
  }

  /**
   queueLockPort fails exactly if, after its request was queued, the timer took it off the queue or
   it was dispatched as timed out; otherwise it returns with the port locked.
   */
  lemma FailsIffTimedOut(ss: seq<State>, es: seq<Event>, t: ThreadId, from: nat, m: nat)
    requires Run(ss, es) && m < |es| && WaitsSince(ss, es, t, from, m) && es[m] == WakesUp(t)
    ensures At(ss[m + 1], t).phase == if TimedOutSince(es, t, from, m) then Failing else Locked
  {
    DoomedIff(ss, es, t, from, m);
    OkAlways(ss, es, m);
    RunStep(ss, es, m);
    assert ClientOk(At(ss[m], t), ss[m].pc, t);
  }

  /** The port thread's or the timer thread's next step for client `t`. */
  function ServingStep(s: State, t: ThreadId): Event {
    if At(s, t).request == Expired then TimerCalls(t)
    else if At(s, t).request == OnQueue then TimerTakes(t)
    else match s.pc
      case Began(_) => SignalBegin
      case Parked(_) => LockMutex
      case HasMutex(_) => UnlockMutex
      case FreedMutex(_) => SignalEnd
      case BeganTimeout(_) => SignalTimeout
      case _ => TakeSync
  }

  /**
   Nobody waits in vain: a client that waits for an event has it, or the thread that will
   signal it can move on, unless that needs synchronousLock and a caller of lockPort has it.
   */
  lemma WaitersAreServed(ss: seq<State>, es: seq<Event>, m: nat, t: ThreadId)
    requires Run(ss, es) && m < |ss|
    requires At(ss[m], t).phase == Waiting || At(ss[m], t).phase == Unlocking
    ensures At(ss[m], t).event || Can(ss[m], ServingStep(ss[m], t)) ||
      (ss[m].sync.Caller? && At(ss[m], t).phase == Waiting)
  {
    OkAlways(ss, es, m);
    assert ClientOk(At(ss[m], t), ss[m].pc, t);
  }

  // ----- recursion only counts -----

  /** Calls of queueLockPort by `t` that have returned success, and calls of queueUnlockPort that have. */
  function LocksDone(ss: seq<State>, es: seq<Event>, t: ThreadId, m: nat): nat
    requires |ss| == |es| + 1 && m <= |es|
  {
    if m == 0 then 0
    else LocksDone(ss, es, t, m - 1) +
         if es[m - 1] == LocksAgain(t) || (es[m - 1] == WakesUp(t) && !At(ss[m - 1], t).timedOut) then 1 else 0
  }

  function UnlocksDone(es: seq<Event>, t: ThreadId, m: nat): nat
    requires m <= |es|
  {
    if m == 0 then 0
    else UnlocksDone(es, t, m - 1) + if es[m - 1] == UnlocksOnce(t) || es[m - 1] == UnlockReturns(t) then 1 else 0
  }

  lemma CountStep(s: State, e: Event, t: ThreadId)
    requires Ok(s) && Can(s, e)
    ensures At(Next(s, e), t).count == At(s, t).count
      + (if e == LocksAgain(t) || (e == WakesUp(t) && !At(s, t).timedOut) then 1 else 0)
      - (if e == UnlocksOnce(t) || e == UnlockReturns(t) then 1 else 0)
  {
    assert ClientOk(At(s, t), s.pc, t);
  }

  /** The count is the number of locks without their unlock, and the port is this thread's until the last. */
  lemma {:induction false} CountIsNesting(ss: seq<State>, es: seq<Event>, t: ThreadId, m: nat)
    requires Run(ss, es) && m <= |es|
    ensures At(ss[m], t).count == LocksDone(ss, es, t, m) - UnlocksDone(es, t, m)
    ensures At(ss[m], t).count > 0 <==> At(ss[m], t).phase == Locked || At(ss[m], t).phase == Unlocking
  {
    OkAlways(ss, es, m);
    assert ClientOk(At(ss[m], t), ss[m].pc, t);
    if m > 0 {
      CountIsNesting(ss, es, t, m - 1);
      OkAlways(ss, es, m - 1);
      RunStep(ss, es, m - 1);
      CountStep(ss[m - 1], es[m - 1], t);
    }
  }

  // ----- lockPort -----

  /** Calls of lockPort by `t` that have returned, and its calls of unlockPort. */
  function PortLocks(es: seq<Event>, t: ThreadId, m: nat): nat
    requires m <= |es|
  {
    if m == 0 then 0 else PortLocks(es, t, m - 1) + if es[m - 1] == LockPortReturns(t) then 1 else 0
  }

  function PortUnlocks(es: seq<Event>, t: ThreadId, m: nat): nat
    requires m <= |es|
  {
    if m == 0 then 0 else PortUnlocks(es, t, m - 1) + if es[m - 1] == UnlockPort(t) then 1 else 0
  }

  function Depth(s: State, t: ThreadId): nat {
    if s.sync.Caller? && s.sync.t == t then s.sync.depth else 0
  }

  lemma DepthStep(s: State, e: Event, t: ThreadId)
    requires SyncOk(s) && Can(s, e)
    ensures Depth(Next(s, e), t) == Depth(s, t)
      + (if e == LockPortReturns(t) then 1 else 0) - (if e == UnlockPort(t) then 1 else 0)
  {
  }

  /**
   lockPort nests: a thread has synchronousLock exactly while it has locked more often than it has
   unlocked, however often others try. Meanwhile neither another thread nor the port thread has it.
   */
  lemma {:induction false} LockPortNests(ss: seq<State>, es: seq<Event>, t: ThreadId, m: nat)
    requires Run(ss, es) && m <= |es|
    ensures PortUnlocks(es, t, m) <= PortLocks(es, t, m)
    ensures
      var held := PortLocks(es, t, m) - PortUnlocks(es, t, m);
      && (held > 0 <==> ss[m].sync.Caller? && ss[m].sync.t == t)
      && (held > 0 ==> ss[m].sync == Caller(t, held) && !HoldsSync(ss[m].pc) && !Can(ss[m], TakeSync))
      && (held > 0 ==> forall u | u != t :: !Can(ss[m], LockPortReturns(u)) && At(ss[m], u).phase != Locked)
  {
    LockPortDepth(ss, es, t, m);
    OkAlways(ss, es, m);
    forall u
      ensures At(ss[m], u).phase == Locked ==> ss[m].pc == Parked(u)
    {
      assert ClientOk(At(ss[m], u), ss[m].pc, u);
    }
  }

  lemma {:induction false} LockPortDepth(ss: seq<State>, es: seq<Event>, t: ThreadId, m: nat)
    requires Run(ss, es) && m <= |es|
    ensures Depth(ss[m], t) == PortLocks(es, t, m) - PortUnlocks(es, t, m)
  {
    if m > 0 {
      LockPortDepth(ss, es, t, m - 1);
      OkAlways(ss, es, m - 1);
      RunStep(ss, es, m - 1);
      DepthStep(ss[m - 1], es[m - 1], t);
    }
  }
}
