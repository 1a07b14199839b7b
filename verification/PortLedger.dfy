/**
 Every accepted request has exactly one outcome: in every run, for every user, the requests
 accepted are those dispatched, timed out and cancelled and, at most one, the one still queued.
 */
module PortLedger {
  import opened PortQueues
  import opened PortRegions
  import opened PortSystem
  import opened PortRep

  datatype Effect = Nothing | Accepts(u: UserId) | Dispatches(u: UserId) | TimesOut(u: UserId) | Cancels(u: UserId)

  /** What an event means for the request of a user. */
  function EffectOf(s: Sys, e: Event): Effect
    requires Can(s, e)
  {
    match e
    case Request(Queue(u, priority, timeout, even)) =>
      if QueueStatus(s.port, u, priority, timeout, even) == Accepted then Accepts(u) else Nothing
    case Request(Cancel(u)) => if CancelOutcome(s.port, u) == Removed then Cancels(u) else Nothing
    case Request(TimerExpires(u)) =>
      if ExpireOutcome(s.port, u) == RunTimeoutUser || ExpireOutcome(s.port, u) == NoTimeoutUser then TimesOut(u)
      else Nothing
    case Thread(NextConnect) =>
      if s.port.requests.queues.List(CONNECT) != [] then Dispatches(s.port.requests.queues.List(CONNECT)[0])
      else Nothing
    case Thread(Test) =>
      var u := s.port.requests.queues.List(s.pc.i)[s.pc.k];
      if NotLockedOut(s.port.blocking, u, DpcOf(s.port.clients, u)) then Dispatches(u) else Nothing
    case _ => Nothing
  }

  /** How often `what` has happened before moment `m`. */
  function Times(ss: seq<Sys>, es: seq<Event>, what: Effect, m: nat): nat
    requires |ss| == |es| + 1 && m <= |es|
  {
    if m == 0 then 0 else Times(ss, es, what, m - 1) + One(Happens(ss[m - 1], es[m - 1], what))
  }

  function One(yes: bool): nat {
    if yes then 1 else 0
  }

  predicate Happens(s: Sys, e: Event, what: Effect) {
    Can(s, e) && EffectOf(s, e) == what
  }

  function Still(s: Sys, u: UserId): nat {
    if s.port.requests.isQueued.Has(u) then 1 else 0
  }

  /** Only an accepted request sets isQueued, and it was clear; all the other effects clear it, and it was set. */
  lemma LedgerStep(s: Sys, e: Event, u: UserId)
    requires Rep(s) && Can(s, e)
    ensures
      var f := EffectOf(s, e);
      Still(Next(s, e), u) == if f == Nothing || f.u != u then Still(s, u) else if f.Accepts? then 1 else 0
    ensures
      var f := EffectOf(s, e);
      f != Nothing ==> Still(s, f.u) == if f.Accepts? then 0 else 1
  {
    match e
    case Request(r) => LedgerRequest(s, r, u);
    case Control(c) => ControlFrame(s, c);
    case Life(l) => LedgerLife(s, l, u);
    case Thread(t) => LedgerThread(s, t, u);
  }

  lemma LedgerRequest(s: Sys, e: RequestEvent, u: UserId)
    requires Rep(s) && CanRequest(s, e)
    ensures
      var f := EffectOf(s, Request(e));
      && (Still(RequestNext(s, e), u) == if f == Nothing || f.u != u then Still(s, u) else if f.Accepts? then 1 else 0)
      && (f != Nothing ==> Still(s, f.u) == if f.Accepts? then 0 else 1)
  {
    match e
    case Cancel(v) =>
      NoLogicError(s, v);
      CancelEffect(s, v);
    case TimerExpires(v) =>
      NoLogicError(s, v);
      ExpireEffect(s, v);
    case _ =>
  }

  lemma LedgerLife(s: Sys, e: LifeEvent, u: UserId)
    requires Rep(s) && CanLife(s, e)
    ensures Still(LifeNext(s, e), u) == Still(s, u)
  {
    if e.Create? {
      CreatedIsFree(s, e.u);
    }
  }

  lemma LedgerThread(s: Sys, e: ThreadEvent, u: UserId)
    requires Rep(s) && CanThread(s, e)
    ensures
      var f := EffectOf(s, Thread(e));
      && (Still(ThreadNext(s, e), u) == if f == Nothing || f.u != u then Still(s, u) else 0)
      && (f != Nothing ==> f.Dispatches? && Still(s, f.u) == 1)
  {
    if e == NextConnect && s.port.requests.queues.List(CONNECT) != [] {
      ListedIsFlagged(s.port.requests, Slot(CONNECT, 0));
    } else if e == Test {
      ListedIsFlagged(s.port.requests, Slot(s.pc.i, s.pc.k));
    }
  }

  /** Of all the effects on the request of `u`, an event has one or none. */
  lemma OneEffect(s: Sys, e: Event, u: UserId)
    requires Rep(s) && Can(s, e)
    ensures
      Still(Next(s, e), u) + One(Happens(s, e, Dispatches(u))) + One(Happens(s, e, TimesOut(u))) +
        One(Happens(s, e, Cancels(u)))
      == Still(s, u) + One(Happens(s, e, Accepts(u)))
  {
    LedgerStep(s, e, u);
  }

  lemma {:induction false} ExactlyOneOutcome(ss: seq<Sys>, es: seq<Event>, u: UserId, m: nat)
    requires Run(ss, es) && m <= |es|
    ensures Times(ss, es, Accepts(u), m) ==
      Times(ss, es, Dispatches(u), m) + Times(ss, es, TimesOut(u), m) + Times(ss, es, Cancels(u), m) + Still(ss[m], u)
  {
    if m > 0 {
      ExactlyOneOutcome(ss, es, u, m - 1);
      RepAlways(ss, es, m - 1);
      RunStep(ss, es, m - 1);
      OneEffect(ss[m - 1], es[m - 1], u);
    }
  }
}
