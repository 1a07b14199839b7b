/**
 The order of service: what a dispatch has passed over, that requests of one priority are not
 overtaken while they can be dispatched, and that the Connect list is drained first.
 */
module PortOrder {
  import opened PortQueues
  import opened PortRegions
  import opened PortScan
  import opened PortSystem
  import opened PortRep

  predicate InScan(pc: Pc) {
    pc.Scanning? || pc.Testing? || pc.Dropped?
  }

  /** The thread looks at slot `t`. */
  predicate LooksAt(pc: Pc, t: Slot) {
    (pc.Scanning? || pc.Testing?) && pc.i == t.list && pc.k == t.pos
  }

  /** At moment `j` the thread looked at slot `t`, where `u` stood, and `u` could not be dispatched. */
  predicate FoundWanting(ss: seq<Sys>, j: nat, t: Slot, u: UserId) {
    && j < |ss| && LooksAt(ss[j].pc, t)
    && ValidSlot(ss[j].port.requests.queues, t) && At(ss[j].port.requests.queues, t) == u
    && !Dispatchable(ss[j].port, u)
  }

  /** At moment `j` the device of the request at slot `t` was found enabled. */
  predicate FoundEnabled(ss: seq<Sys>, j: nat, t: Slot) {
    && j < |ss| && LooksAt(ss[j].pc, t) && ValidSlot(ss[j].port.requests.queues, t)
    && ss[j].port.devices.enabled.Has(DpcOf(ss[j].port.clients, At(ss[j].port.requests.queues, t)))
  }

  /** The scan that is under way at moment `m` began at moment `from`. */
  ghost predicate ScanSince(ss: seq<Sys>, es: seq<Event>, from: nat, m: nat) {
    && from < m < |ss| && m <= |es| && es[from] == Thread(StartScan)
    && forall j | from < j <= m :: InScan(ss[j].pc)
  }

  ghost predicate WasWanting(ss: seq<Sys>, from: nat, m: nat, t: Slot, u: UserId) {
    exists j: nat :: from < j < m && FoundWanting(ss, j, t, u)
  }

  ghost predicate WasEnabled(ss: seq<Sys>, from: nat, m: nat, t: Slot) {
    exists j: nat :: from < j < m && FoundEnabled(ss, j, t)
  }

  ghost predicate PassedOver(ss: seq<Sys>, from: nat, m: nat)
    requires m < |ss| && InScan(ss[m].pc)
  {
    var q, pc := ss[m].port.requests.queues, ss[m].pc;
    forall t: Slot | ValidSlot(q, t) && Before(t, pc.i, pc.k) :: WasWanting(ss, from, m, t, At(q, t))
  }

  ghost predicate SeenEnabled(ss: seq<Sys>, from: nat, m: nat)
    requires m < |ss| && InScan(ss[m].pc)
  {
    ss[m].pc.Scanning? || WasEnabled(ss, from, m, Slot(ss[m].pc.i, ss[m].pc.k))
  }

  /** What the scan has seen so far, unless the lists changed and it will start again. */
  ghost predicate Explained(ss: seq<Sys>, from: nat, m: nat)
    requires m < |ss| && InScan(ss[m].pc)
  {
    ss[m].port.requests.changed ||
    (PassedOver(ss, from, m) && SeenEnabled(ss, from, m))
  }

  /** Others leave the lists alone, or they set queueStateChange, which they can do only while the lock is dropped. */
  lemma OthersTellTheScan(s: Sys, e: Event)
    requires Can(s, e) && !e.Thread?
    ensures
      var t := Next(s, e);
      && t.pc == s.pc
      && (t.port.requests.changed || t.port.requests.queues == s.port.requests.queues)
      && (s.port.requests.changed ==> t.port.requests.changed)
      && (t.port.requests.changed ==> s.port.requests.changed || Unlocked(s))
  {
    match e
    case Request(r) =>
      RequestChanged(s, r);
      RequestFrame(s, r);
    case Control(c) => ControlFrame(s, c);
    case Life(l) => LifeLists(s, l);
  }

  lemma LifeLists(s: Sys, e: LifeEvent)
    requires CanLife(s, e)
    ensures
      var t := LifeNext(s, e);
      t.pc == s.pc && t.port.requests.queues == s.port.requests.queues &&
        t.port.requests.changed == s.port.requests.changed
  {
  }

  /** A thread that holds the lock inside a scan has not been told to start again. */
  predicate Fresh(s: Sys) {
    s.pc.Scanning? || s.pc.Testing? ==> !s.port.requests.changed
  }

  lemma FreshStep(s: Sys, e: Event)
    requires Fresh(s) && Can(s, e)
    ensures Fresh(Next(s, e))
  {
    if !e.Thread? {
      OthersTellTheScan(s, e);
    } else {
      FreshThread(s, e.t);
    }
  }

  lemma FreshThread(s: Sys, e: ThreadEvent)
    requires Fresh(s) && CanThread(s, e)
    ensures Fresh(ThreadNext(s, e))
  {
  }

  lemma {:induction false} FreshAlways(ss: seq<Sys>, es: seq<Event>, m: nat)
    requires Run(ss, es) && m < |ss|
    ensures Fresh(ss[m])
  {
    if m > 0 {
      FreshAlways(ss, es, m - 1);
      RunStep(ss, es, m - 1);
      FreshStep(ss[m - 1], es[m - 1]);
    }
  }

  /** Looking at a request that is enabled leads to the test of it, perhaps by way of a dropped lock. */
  predicate LookMoves(p: Port, pc: Pc, next: Pc)
    requires pc.Scanning? && InListOrAtEnd(p.requests.queues, pc.i, pc.k) && InScan(next)
  {
    var q, here := p.requests.queues, Slot(pc.i, pc.k);
    if here.pos == |q.List(here.list)| then next.Scanning? && next.i + 1 == here.list && next.k == 0
    else if p.devices.enabled.Has(DpcOf(p.clients, At(q, here)))
      then next.i == here.list && next.k == here.pos && !next.Scanning?
    else !Dispatchable(p, At(q, here)) && next.Scanning? && next.i == here.list && next.k == here.pos + 1
  }

  lemma LookMove(p: Port, pc: Pc, drop: bool)
    requires pc.Scanning? && InListOrAtEnd(p.requests.queues, pc.i, pc.k)
    ensures var next := LookStep(p, pc.i, pc.k, pc.callTimeout, drop); InScan(next) ==> LookMoves(p, pc, next)
  {
  }

  lemma TestMove(s: Sys, i: nat, k: nat, callTimeout: bool)
    requires InList(s.port.requests.queues, i, k)
    ensures
      var t := TestStep(s, i, k, callTimeout);
      InScan(t.pc) ==>
        && t.port == s.port && t.pc.Scanning? && t.pc.i == i && t.pc.k == k + 1
        && !Dispatchable(s.port, At(s.port.requests.queues, Slot(i, k)))
  {
  }

  /** How the thread moves inside a scan. */
  lemma ScanMove(s: Sys, e: ThreadEvent)
    requires CanThread(s, e) && InScan(ThreadNext(s, e).pc) && e != StartScan
    ensures
      var q, t, here := s.port.requests.queues, ThreadNext(s, e), Slot(s.pc.i, s.pc.k);
      && InScan(s.pc) && t.port == s.port
      && match e
         case RetakeInScan => !s.port.requests.changed && t.pc == Testing(s.pc.i, s.pc.k, s.pc.callTimeout)
         case Test =>
           && ValidSlot(q, here) && LooksAt(s.pc, here) && !Dispatchable(s.port, At(q, here))
           && t.pc.Scanning? && t.pc.i == here.list && t.pc.k == here.pos + 1
         case Look(_) => s.pc.Scanning? && InListOrAtEnd(q, s.pc.i, s.pc.k) && LooksAt(s.pc, here) &&
           LookMoves(s.port, s.pc, t.pc)
         case _ => false
  {
    match e
    case Look(drop) => LookMove(s.port, s.pc, drop);
    case Test => TestMove(s, s.pc.i, s.pc.k, s.pc.callTimeout);
    case _ =>
  }

  lemma SeenLater(ss: seq<Sys>, from: nat, m: nat)
    ensures forall t, u :: WasWanting(ss, from, m, t, u) ==> WasWanting(ss, from, m + 1, t, u)
    ensures forall t :: WasEnabled(ss, from, m, t) ==> WasEnabled(ss, from, m + 1, t)
  {
    forall t, u | WasWanting(ss, from, m, t, u)
      ensures WasWanting(ss, from, m + 1, t, u)
    {
      var j: nat :| from < j < m && FoundWanting(ss, j, t, u);
      assert from < j < m + 1 && FoundWanting(ss, j, t, u);
    }
    forall t | WasEnabled(ss, from, m, t)
      ensures WasEnabled(ss, from, m + 1, t)
    {
      var j: nat :| from < j < m && FoundEnabled(ss, j, t);
      assert from < j < m + 1 && FoundEnabled(ss, j, t);
    }
  }

  lemma ExplainedMove(ss: seq<Sys>, es: seq<Event>, from: nat, m: nat)
    requires from < m < |es| && |ss| == |es| + 1 && InScan(ss[m].pc) && Explained(ss, from, m) && Can(ss[m], es[m])
    requires es[m].Thread? && es[m].t != StartScan && ss[m + 1] == Next(ss[m], es[m]) && InScan(ss[m + 1].pc)
    ensures Explained(ss, from, m + 1)
  {
    ScanMove(ss[m], es[m].t);
    SeenLater(ss, from, m);
    if !ss[m + 1].port.requests.changed {
      var q, pc, pc' := ss[m].port.requests.queues, ss[m].pc, ss[m + 1].pc;
      forall t: Slot | ValidSlot(q, t) && Before(t, pc'.i, pc'.k)
        ensures WasWanting(ss, from, m + 1, t, At(q, t))
      {
        if !Before(t, pc.i, pc.k) {
          assert FoundWanting(ss, m, t, At(q, t));
        }
      }
      if es[m].t != RetakeInScan && !pc'.Scanning? {
        assert FoundEnabled(ss, m, Slot(pc.i, pc.k));
      }
    }
  }

  lemma ExplainedStay(ss: seq<Sys>, es: seq<Event>, from: nat, m: nat)
    requires from < m < |es| && |ss| == |es| + 1 && InScan(ss[m].pc) && Explained(ss, from, m) && Can(ss[m], es[m])
    requires !es[m].Thread? && ss[m + 1] == Next(ss[m], es[m])
    ensures InScan(ss[m + 1].pc) && Explained(ss, from, m + 1)
  {
    OthersTellTheScan(ss[m], es[m]);
    SeenLater(ss, from, m);
  }

  /** A scan starts, or goes on from where it was. */
  lemma ScanGoesOn(s: Sys, e: Event)
    requires Can(s, e) && InScan(Next(s, e).pc)
    ensures e == Thread(StartScan) || InScan(s.pc)
  {
    if !e.Thread? {
      OthersTellTheScan(s, e);
    } else if e.t != StartScan {
      ScanMove(s, e.t);
    }
  }

  lemma NothingPassedYet(ss: seq<Sys>, m: nat)
    requires m + 1 < |ss| && CanThread(ss[m], StartScan) && ss[m + 1] == ThreadNext(ss[m], StartScan)
    ensures InScan(ss[m + 1].pc) && Explained(ss, m, m + 1)
  {
  }

  /**
   A scan that goes on has an explanation for every request behind it: it looked at that very
   slot, since it began, at a moment when that request could not be dispatched.
   */
  lemma {:induction false} ScanExplained(ss: seq<Sys>, es: seq<Event>, m: nat) returns (from: nat)
    requires Run(ss, es) && m < |ss| && InScan(ss[m].pc)
    ensures ScanSince(ss, es, from, m) && Explained(ss, from, m)
  {
    var e := es[m - 1];
    RunStep(ss, es, m - 1);
    if e == Thread(StartScan) {
      from := m - 1;
      NothingPassedYet(ss, m - 1);
    } else {
      ScanGoesOn(ss[m - 1], e);
      from := ScanExplained(ss, es, m - 1);
      if e.Thread? {
        ExplainedMove(ss, es, from, m - 1);
      } else {
        ExplainedStay(ss, es, from, m - 1);
      }
    }
  }

  /** The step at moment `m` dispatches the request at slot `s` of the Low, Medium and High lists. */
  predicate Dispatches(ss: seq<Sys>, es: seq<Event>, m: nat, s: Slot) {
    && m < |es| && |ss| == |es| + 1 && es[m] == Thread(Test) && ss[m + 1].pc.Dispatched?
    && ss[m].pc.Testing? && s == Slot(ss[m].pc.i, ss[m].pc.k)
  }

  /**
   Every dispatch takes the first request, in the order of priority and then of the list, that
   the scan found enabled and not locked out when it came to it: the one it takes was, and each
   one before it was not.
   */
  lemma DispatchTakesFirst(ss: seq<Sys>, es: seq<Event>, m: nat, s: Slot) returns (from: nat)
    requires Run(ss, es) && Dispatches(ss, es, m, s)
    ensures ScanSince(ss, es, from, m)
    ensures ValidSlot(ss[m].port.requests.queues, s) && ss[m + 1].pc.user == At(ss[m].port.requests.queues, s)
    ensures NotLockedOut(ss[m].port.blocking, ss[m + 1].pc.user, ss[m + 1].pc.dpc)
    ensures WasEnabled(ss, from, m, s)
    ensures forall t: Slot | ValidSlot(ss[m].port.requests.queues, t) && Before(t, s.list, s.pos) ::
              WasWanting(ss, from, m, t, At(ss[m].port.requests.queues, t))
  {
    from := ScanExplained(ss, es, m);
    FreshAlways(ss, es, m);
    RunStep(ss, es, m);
  }

  // ----- no overtaking -----

  /** On list `i`, `a` stands before `b`. */
  ghost predicate InOrder(q: Queues, i: Priority, a: UserId, b: UserId) {
    exists x: nat, y: nat :: x < y < |q.List(i)| && q.List(i)[x] == a && q.List(i)[y] == b
  }

  lemma OrderAdd(q: Queues, i: Priority, a: UserId, b: UserId, j: Priority, u: UserId)
    requires InOrder(q, i, a, b)
    ensures InOrder(Append(q, j, u), i, a, b) && InOrder(Prepend(q, j, u), i, a, b)
  {
    var x: nat, y: nat :| x < y < |q.List(i)| && q.List(i)[x] == a && q.List(i)[y] == b;
    WithList(q, j, q.List(j) + [u], i);
    WithList(q, j, [u] + q.List(j), i);
    assert Append(q, j, u).List(i)[x] == a && Append(q, j, u).List(i)[y] == b;
    var z: nat := if i == j then 1 else 0;
    assert Prepend(q, j, u).List(i)[x + z] == a && Prepend(q, j, u).List(i)[y + z] == b;
  }

  lemma OrderDelete(q: Queues, i: Priority, a: UserId, b: UserId, s: Slot)
    requires InOrder(q, i, a, b) && ValidSlot(q, s) && At(q, s) != a && At(q, s) != b
    ensures InOrder(Delete(q, s), i, a, b)
  {
    var x: nat, y: nat :| x < y < |q.List(i)| && q.List(i)[x] == a && q.List(i)[y] == b;
    DeleteShifts(q, s, Slot(i, x));
    DeleteShifts(q, s, Slot(i, y));
    var x', y' := Shifted(s, Slot(i, x)).pos, Shifted(s, Slot(i, y)).pos;
    assert Delete(q, s).List(i)[x'] == a && Delete(q, s).List(i)[y'] == b;
  }

  lemma OrderRequest(s: Sys, e: RequestEvent, i: Priority, a: UserId, b: UserId)
    requires CanRequest(s, e) && InOrder(s.port.requests.queues, i, a, b)
    requires RequestNext(s, e).port.requests.isQueued.Has(a) && RequestNext(s, e).port.requests.isQueued.Has(b)
    ensures InOrder(RequestNext(s, e).port.requests.queues, i, a, b)
  {
    var r := s.port.requests;
    match e
    case Queue(u, priority, _, _) => OrderAdd(r.queues, i, a, b, priority, u);
    case Cancel(u) => OrderCancel(s.port, i, a, b, u);
    case TimerExpires(u) => OrderExpire(s.port, i, a, b, u);
    case _ =>
  }

  lemma OrderCancel(p: Port, i: Priority, a: UserId, b: UserId, u: UserId)
    requires InOrder(p.requests.queues, i, a, b)
    ensures var r := CancelRequest(p, u).requests; r.isQueued.Has(a) && r.isQueued.Has(b) ==> InOrder(r.queues, i, a, b)
  {
    OrderRemove(p.requests, i, a, b, u);
  }

  lemma OrderExpire(p: Port, i: Priority, a: UserId, b: UserId, u: UserId)
    requires InOrder(p.requests.queues, i, a, b)
    ensures var r := Expire(p, u).requests; r.isQueued.Has(a) && r.isQueued.Has(b) ==> InOrder(r.queues, i, a, b)
  {
    OrderRemove(Disarm(p.requests, u), i, a, b, u);
  }

  lemma OrderRemove(r: Requests, i: Priority, a: UserId, b: UserId, u: UserId)
    requires InOrder(r.queues, i, a, b)
    ensures
      var w := Locate(r.queues, u, CONNECT);
      w.Some? ==> a == u || b == u || InOrder(Remove(r, w.value).queues, i, a, b)
  {
    var w := Locate(r.queues, u, CONNECT);
    if w.Some? && a != u && b != u {
      OrderDelete(r.queues, i, a, b, w.value);
    }
  }

  lemma OrderThread(s: Sys, e: ThreadEvent, i: Priority, a: UserId, b: UserId)
    requires CanThread(s, e) && InOrder(s.port.requests.queues, i, a, b)
    requires ThreadNext(s, e).port.requests.isQueued.Has(a) && ThreadNext(s, e).port.requests.isQueued.Has(b)
    ensures InOrder(ThreadNext(s, e).port.requests.queues, i, a, b)
  {
    var q := s.port.requests.queues;
    match e
    case NextConnect =>
      if q.List(CONNECT) != [] {
        OrderDispatch(s.port, i, a, b, Slot(CONNECT, 0));
      }
    case Test => OrderDispatch(s.port, i, a, b, Slot(s.pc.i, s.pc.k));
    case _ =>
  }

  lemma OrderDispatch(p: Port, i: Priority, a: UserId, b: UserId, s: Slot)
    requires InOrder(p.requests.queues, i, a, b) && ValidSlot(p.requests.queues, s)
    ensures
      var r := Dispatch(p, s).requests;
      r.isQueued.Has(a) && r.isQueued.Has(b) ==> InOrder(r.queues, i, a, b)
  {
    if At(p.requests.queues, s) != a && At(p.requests.queues, s) != b {
      OrderDelete(p.requests.queues, i, a, b, s);
    }
  }

  /** Two requests keep their order for as long as both are queued. */
  lemma OrderStep(s: Sys, e: Event, i: Priority, a: UserId, b: UserId)
    requires Can(s, e) && InOrder(s.port.requests.queues, i, a, b)
    requires Next(s, e).port.requests.isQueued.Has(a) && Next(s, e).port.requests.isQueued.Has(b)
    ensures InOrder(Next(s, e).port.requests.queues, i, a, b)
  {
    match e
    case Request(r) => OrderRequest(s, r, i, a, b);
    case Control(c) => ControlFrame(s, c);
    case Life(l) => LifeLists(s, l);
    case Thread(t) => OrderThread(s, t, i, a, b);
  }

  predicate BothQueued(s: Sys, a: UserId, b: UserId) {
    s.port.requests.isQueued.Has(a) && s.port.requests.isQueued.Has(b)
  }

  lemma {:induction false} OrderKept(ss: seq<Sys>, es: seq<Event>, from: nat, m: nat, i: Priority, a: UserId, b: UserId)
    requires Run(ss, es) && from <= m < |ss| && InOrder(ss[from].port.requests.queues, i, a, b)
    requires forall j | from <= j <= m :: BothQueued(ss[j], a, b)
    ensures InOrder(ss[m].port.requests.queues, i, a, b)
  {
    if from < m {
      OrderKept(ss, es, from, m - 1, i, a, b);
      RunStep(ss, es, m - 1);
      assert BothQueued(ss[m], a, b);
      OrderStep(ss[m - 1], es[m - 1], i, a, b);
    }
  }

  /** Once a scan has been told that the lists have changed, that is not taken back until it starts again. */
  lemma {:induction false} ChangeIsRemembered(ss: seq<Sys>, es: seq<Event>, began: nat, from: nat, m: nat)
    requires Run(ss, es) && ScanSince(ss, es, began, m) && began < from <= m && ss[from].port.requests.changed
    ensures ss[m].port.requests.changed
    decreases m
  {
    if from < m {
      ChangeIsRemembered(ss, es, began, from, m - 1);
      RunStep(ss, es, m - 1);
      if es[m - 1].Thread? {
        ChangedMove(ss[m - 1], es[m - 1].t);
      } else {
        OthersTellTheScan(ss[m - 1], es[m - 1]);
      }
    }
  }

  lemma ChangedMove(s: Sys, e: ThreadEvent)
    requires CanThread(s, e) && InScan(s.pc) && InScan(ThreadNext(s, e).pc) && s.port.requests.changed
    ensures ThreadNext(s, e).port.requests.changed
  {
    ScanMove(s, e);
  }

  /** At this moment no scan is under way that could still dispatch something. */
  predicate BetweenScans(s: Sys) {
    !InScan(s.pc) || s.port.requests.changed
  }

  /**
   No overtaking: `b` is dispatched from a list although `a` was already in front of it when
   the scan began, only if `a` at some moment since then could not be dispatched.
   */
  lemma NotOvertaken(ss: seq<Sys>, es: seq<Event>, from: nat, m: nat, a: UserId, s: Slot)
    requires Run(ss, es) && from <= m && Dispatches(ss, es, m, s) && s.list < 4
    requires InOrder(ss[from].port.requests.queues, s.list, a, ss[m + 1].pc.user) && BetweenScans(ss[from])
    requires forall j | from <= j <= m :: BothQueued(ss[j], a, ss[m + 1].pc.user)
    ensures exists j :: from < j < m && !Dispatchable(ss[j].port, a)
  {
    var b := ss[m + 1].pc.user;
    var began := DispatchTakesFirst(ss, es, m, s);
    OrderKept(ss, es, from, m, s.list, a, b);
    RepAlways(ss, es, m);
    var q := ss[m].port.requests.queues;
    var x: nat, y: nat :| x < y < |q.List(s.list)| && q.List(s.list)[x] == a && q.List(s.list)[y] == b;
    FlaggedIffInOneSlot(ss[m], b);
    assert At(q, Slot(s.list, y)) == b;
    assert Slot(s.list, y) == s;
    var t := Slot(s.list, x);
    assert ValidSlot(q, t) && Before(t, s.list, s.pos) && At(q, t) == a;
    assert WasWanting(ss, began, m, t, a);
    var j: nat :| began < j < m && FoundWanting(ss, j, t, a);
    BeganLater(ss, es, began, from, m);
  }

  lemma BeganLater(ss: seq<Sys>, es: seq<Event>, began: nat, from: nat, m: nat)
    requires Run(ss, es) && ScanSince(ss, es, began, m) && from <= m && BetweenScans(ss[from]) && ss[m].pc.Testing?
    ensures from <= began
  {
    if began < from {
      FreshAlways(ss, es, m);
      if ss[from].port.requests.changed {
        ChangeIsRemembered(ss, es, began, from, m);
      }
    }
  }

  // ----- Connect requests come first -----

  /** Between taking the lock after a wake-up with an empty Connect list and going to sleep again. */
  predicate PastConnect(pc: Pc) {
    !pc.Waiting? && !pc.Woken? && !pc.ConnectLoop? && !pc.ConnectDispatched? && !pc.ConnectRunning?
  }

  lemma PastConnectStep(s: Sys, e: Event)
    requires Can(s, e) && PastConnect(Next(s, e).pc)
    ensures PastConnect(s.pc) || (Next(s, e).pc == CheckConnected && Next(s, e).port.requests.queues.connect == [])
  {
    if !e.Thread? {
      OthersTellTheScan(s, e);
    }
  }

  /** Every pass over the lists has, since it woke up, found the Connect list empty. */
  lemma {:induction false} ConnectListDrained(ss: seq<Sys>, es: seq<Event>, m: nat) returns (j: nat)
    requires Run(ss, es) && m < |ss| && PastConnect(ss[m].pc)
    ensures j <= m && ss[j].pc == CheckConnected && ss[j].port.requests.queues.connect == []
    ensures forall k | j <= k <= m :: PastConnect(ss[k].pc)
  {
    RunStep(ss, es, m - 1);
    PastConnectStep(ss[m - 1], es[m - 1]);
    if PastConnect(ss[m - 1].pc) {
      j := ConnectListDrained(ss, es, m - 1);
    } else {
      j := m;
    }
  }
}
