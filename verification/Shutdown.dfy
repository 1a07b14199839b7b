/**
 Shutting down a destructible port and its driver (asynManager.c:2224-2310; the exception
 handler, shutdownPortDriver and the destructor in asynPortDriver.cpp), for the one dpCommon
 that both sides refer to. The functions call each other back; they terminate because each
 round uses up shutdownNeeded or the absence of defunct.
 */
module Shutdown {

  /** Who is on the exception list of the dpCommon: the driver, or a client that may call shutdownPort itself. */
  datatype Handler = Driver | Client(shutsDown: bool)

  datatype Handlers = Handlers(list: seq<Handler>)

  /**
   `raised` and `deleted` count the shutdown exceptions and the deletions of the driver, and
   `touchedDead` says that a deleted driver has been used.
   */
  datatype State = State(
    destructible: bool,
    enabled: bool,
    defunct: bool,
    shutdownNeeded: bool,
    handlers: Handlers,
    raised: nat,
    deleted: nat,
    touchedDead: bool)

  function One(yes: bool): nat {
    if yes then 1 else 0
  }

  /** What a round of calls can still use up. */
  function Left(s: State): nat {
    One(s.shutdownNeeded) + One(!s.defunct)
  }

  datatype Status = Success | Error | Disabled

  function ShutdownStatus(s: State): Status {
    if s.defunct || s.destructible then Success else Error
  }

  function Marked(s: State): State {
    s.(enabled := false, defunct := true, raised := s.raised + 1)
  }

  function ShutdownPort(s: State): (r: State)
    ensures Left(r) <= Left(s) && r.handlers == s.handlers && (r.shutdownNeeded ==> s.shutdownNeeded) &&
      (s.defunct ==> r == s)
    decreases Left(s), if s.defunct then 0 else 4, 0
  {
    if s.defunct || !s.destructible then s else Announce(Marked(s), 0)
  }

  /** announceExceptionOccurred, from position `k` of the list. */
  function Announce(s: State, k: nat): (r: State)
    requires s.defunct
    ensures Left(r) <= Left(s) && r.handlers == s.handlers && (r.shutdownNeeded ==> s.shutdownNeeded)
    decreases Left(s), 3, |s.handlers.list| - k
  {
    if k >= |s.handlers.list| then s else Announce(Handle(s, s.handlers.list[k]), k + 1)
  }

  function Handle(s: State, h: Handler): (r: State)
    requires s.defunct
    ensures r.defunct && Left(r) <= Left(s) && r.handlers == s.handlers && (r.shutdownNeeded ==> s.shutdownNeeded)
    decreases Left(s), 2, 0
  {
    match h
    case Driver => ExceptionHandler(s)
    case Client(shutsDown) => if shutsDown then ShutdownPort(s) else s
  }

  function Touch(s: State): State {
    s.(touchedDead := s.touchedDead || s.deleted > 0)
  }

  /** asynPortDriver::exceptionHandler, which first asks the driver whether it needs a shutdown */
  function ExceptionHandler(s: State): (r: State)
    requires s.defunct
    ensures r.defunct && Left(r) <= Left(s) && r.handlers == s.handlers && (r.shutdownNeeded ==> s.shutdownNeeded)
    decreases Left(s), 1, 1
  {
    if s.shutdownNeeded then Destroy(ShutdownPortDriver(Touch(s))) else Touch(s)
  }

  function ShutdownPortDriver(s: State): (r: State)
    ensures Left(r) <= Left(s) && r.handlers == s.handlers && (r.shutdownNeeded ==> s.shutdownNeeded) &&
      (s.defunct ==> r.defunct) && !r.shutdownNeeded
    decreases Left(s), 1, 0
  {
    if s.shutdownNeeded then ShutdownPort(s.(shutdownNeeded := false)) else s
  }

  /** The destructor. */
  function Destroy(s: State): (r: State)
    ensures Left(r) <= Left(s) && r.handlers == s.handlers && (r.shutdownNeeded ==> s.shutdownNeeded) &&
      (s.defunct ==> r.defunct)
    decreases Left(s), 1, if s.shutdownNeeded then 1 else 0
  {
    var t := if s.shutdownNeeded then ShutdownPortDriver(s) else s;
    t.(deleted := t.deleted + 1)
  }

  // ----- what a call does -----

  /** How often the driver is on the list from position `k` on. */
  function Drivers(h: Handlers, k: nat): nat
    decreases |h.list| - k
  {
    if k >= |h.list| then 0 else One(h.list[k] == Driver) + Drivers(h, k + 1)
  }

  /**
   Between calls: the driver is registered once, if it is destructible, and lives exactly as long
   as it is not shut down.
   */
  predicate Ok(s: State) {
    && Drivers(s.handlers, 0) == One(s.destructible)
    && (s.defunct ==> !s.enabled) && s.raised == One(s.defunct)
    && (s.destructible ==> s.shutdownNeeded == !s.defunct && s.deleted == One(s.defunct))
    && (!s.destructible ==> !s.shutdownNeeded && !s.defunct && s.deleted <= 1)
    && !s.touchedDead
  }

  /** Once the shutdown is done, nobody who is told of it does anything more. */
  lemma {:induction false} QuietAnnouncement(s: State, k: nat)
    requires s.defunct && !s.shutdownNeeded && (Drivers(s.handlers, k) > 0 ==> s.deleted == 0)
    ensures Announce(s, k) == s
    decreases |s.handlers.list| - k
  {
    if k < |s.handlers.list| {
      assert Handle(s, s.handlers.list[k]) == s;
      QuietAnnouncement(s, k + 1);
    }
  }

  /** What the driver does when it is told of a shutdown that it does not know of. */
  lemma HandlerDestroys(s: State)
    requires s.defunct && s.shutdownNeeded && s.deleted == 0
    ensures ExceptionHandler(s) == s.(shutdownNeeded := false, deleted := 1)
  {
    assert ShutdownPortDriver(Touch(s)) == s.(shutdownNeeded := false);
  }

  lemma {:induction false} AnnouncementDestroys(s: State, k: nat)
    requires s.defunct && s.shutdownNeeded && s.deleted == 0 && Drivers(s.handlers, k) == 1
    ensures Announce(s, k) == s.(shutdownNeeded := false, deleted := 1)
    decreases |s.handlers.list| - k
  {
    if s.handlers.list[k] == Driver {
      HandlerDestroys(s);
      QuietAnnouncement(s.(shutdownNeeded := false, deleted := 1), k + 1);
    } else {
      assert Handle(s, s.handlers.list[k]) == s;
      AnnouncementDestroys(s, k + 1);
    }
  }

  function Gone(s: State): State {
    s.(enabled := false, defunct := true, shutdownNeeded := false, raised := 1, deleted := 1)
  }

  /** shutdownPort from outside: the port is marked, the exception raised and the driver deleted, each once. */
  lemma ShutdownOnce(s: State)
    requires Ok(s)
    ensures ShutdownPort(s) == if s.destructible && !s.defunct then Gone(s) else s
  {
    if s.destructible && !s.defunct {
      AnnouncementDestroys(Marked(s), 0);
    }
  }

  /** Direct deletion of a driver that was not shut down comes to the same. */
  lemma DestroyOnce(s: State)
    requires Ok(s) && s.deleted == 0
    ensures Destroy(s) == if s.destructible then Gone(s) else s.(deleted := 1)
  {
    if s.destructible {
      var t := Marked(s.(shutdownNeeded := false));
      QuietAnnouncement(t, 0);
      assert ShutdownPortDriver(s) == ShutdownPort(s.(shutdownNeeded := false)) == Announce(t, 0) == t;
    }
  }

  // ----- runs -----

  datatype Event = ShutsDown | Deletes | Enables(yes: bool) | Joins(shutsDown: bool)

  /** Nobody deletes a driver twice. */
  predicate Can(s: State, e: Event) {
    e == Deletes ==> s.deleted == 0
  }

  function EnableStatus(s: State): Status {
    if s.defunct then Disabled else Success
  }

  function Next(s: State, e: Event): State
    requires Can(s, e)
  {
    match e
    case ShutsDown => ShutdownPort(s)
    case Deletes => Destroy(s)
    case Enables(yes) => if s.defunct then s else s.(enabled := yes)
    case Joins(shutsDown) => s.(handlers := Handlers(s.handlers.list + [Client(shutsDown)]))
  }

  /** What the two calls report: enable only that the port is shut down, shutdownPort only that it cannot be. */
  lemma StatusIff(s: State)
    requires Ok(s)
    ensures EnableStatus(s) == Disabled <==> s.defunct
    ensures ShutdownStatus(s) == Error <==> !s.destructible
    ensures ShutdownStatus(s) == Success <==> ShutdownPort(s).defunct
  {
    ShutdownOnce(s);
  }

  /** enable does what it is told unless the port was shut down, and it is the only call that does more than disable. */
  lemma EnabledIff(s: State, e: Event)
    requires Ok(s) && Can(s, e)
    ensures Next(s, e).enabled <==>
      match e
      case Enables(yes) => yes && !s.defunct
      case Joins(_) => s.enabled
      case _ => s.enabled && !s.destructible
    ensures e.Enables? ==> Next(s, e) == s.(enabled := Next(s, e).enabled)
  {
    ShutdownOnce(s);
    if e == Deletes {
      DestroyOnce(s);
    }
  }

  ghost predicate Init(s: State) {
    s == State(s.destructible, true, false, s.destructible, Handlers(if s.destructible then [Driver] else []), 0, 0,
      false)
  }

  predicate Moment(es: seq<Event>, m: nat) {
    m < |es|
  }

  ghost predicate Run(ss: seq<State>, es: seq<Event>) {
    && |ss| == |es| + 1 && Init(ss[0])
    && forall m: nat {:trigger Moment(es, m)} | Moment(es, m) :: Can(ss[m], es[m]) && ss[m + 1] == Next(ss[m], es[m])
  }

  lemma {:induction false} DriversWithClient(h: Handlers, shutsDown: bool, k: nat)
    requires k <= |h.list|
    ensures Drivers(Handlers(h.list + [Client(shutsDown)]), k) == Drivers(h, k)
    decreases |h.list| - k
  {
    if k < |h.list| {
      DriversWithClient(h, shutsDown, k + 1);
    } else {
      assert Drivers(Handlers(h.list + [Client(shutsDown)]), k + 1) == 0;
    }
  }

  lemma OkStep(s: State, e: Event)
    requires Ok(s) && Can(s, e)
    ensures Ok(Next(s, e)) && (s.defunct ==> Next(s, e).defunct)
  {
    match e
    case ShutsDown => ShutdownOnce(s);
    case Deletes => DestroyOnce(s);
    case Joins(shutsDown) => DriversWithClient(s.handlers, shutsDown, 0);
    case _ =>
  }

  lemma InitOk(s: State)
    requires Init(s)
    ensures Ok(s)
  {
    if s.destructible {
      assert Drivers(s.handlers, 0) == 1 + Drivers(s.handlers, 1);
    }
  }

  lemma RunStep(ss: seq<State>, es: seq<Event>, m: nat)
    requires Run(ss, es) && m < |es|
    ensures Can(ss[m], es[m]) && ss[m + 1] == Next(ss[m], es[m])
  {
    assert Moment(es, m);
  }

  lemma {:induction false} OkAlways(ss: seq<State>, es: seq<Event>, m: nat)
    requires Run(ss, es) && m < |ss|
    ensures Ok(ss[m])
  {
    if m == 0 {
      InitOk(ss[0]);
    } else {
      OkAlways(ss, es, m - 1);
      RunStep(ss, es, m - 1);
      OkStep(ss[m - 1], es[m - 1]);
    }
  }

  /**
   Over any run the exception is raised at most once and the driver deleted at most once, both
   exactly when the port has been shut down; and no handler ever uses a deleted driver.
   */
  lemma ShutdownIsOnceOnly(ss: seq<State>, es: seq<Event>, m: nat)
    requires Run(ss, es) && m < |ss|
    ensures ss[m].raised <= 1 && ss[m].deleted <= 1 && !ss[m].touchedDead
    ensures ss[m].raised == 1 <==> ss[m].defunct
    ensures ss[m].destructible ==> (ss[m].deleted == 1 <==> ss[m].defunct)
  {
    OkAlways(ss, es, m);
  }

  lemma HandlersKept(s: State, e: Event)
    requires Can(s, e)
    ensures s.handlers.list <= Next(s, e).handlers.list
  {
  }

  /**
   The driver has registered itself first, so every client is told of the shutdown after the
   driver has deleted itself.
   */
  lemma {:induction false} DriverIsToldFirst(ss: seq<State>, es: seq<Event>, m: nat)
    requires Run(ss, es) && m < |ss| && ss[0].destructible
    ensures ss[m].handlers.list != [] && ss[m].handlers.list[0] == Driver
  {
    if m > 0 {
      DriverIsToldFirst(ss, es, m - 1);
      RunStep(ss, es, m - 1);
      HandlersKept(ss[m - 1], es[m - 1]);
    }
  }

  /** A port that was shut down stays defunct and disabled, whatever comes. */
  lemma {:induction false} DefunctForever(ss: seq<State>, es: seq<Event>, from: nat, m: nat)
    requires Run(ss, es) && from <= m < |ss| && ss[from].defunct
    ensures ss[m].defunct && !ss[m].enabled
    decreases m
  {
    OkAlways(ss, es, m);
    if from < m {
      DefunctForever(ss, es, from, m - 1);
      OkAlways(ss, es, m - 1);
      RunStep(ss, es, m - 1);
      OkStep(ss[m - 1], es[m - 1]);
    }
  }
}
