/**
 The flag callTimeoutUser over whole runs, whatever autoConnectDevice does: when it is set at a
 dispatch, when it is right, and a run in which it is wrong.
 */
module PortFlag {
  import opened Common
  import opened PortQueues
  import opened PortRegions
  import opened PortScan
  import opened PortSystem
  import opened PortRep
  import opened PortOrder
  import opened PortScanSteps

  /** The device of `u` is disconnected, and `u` has a timeout callback. */
  predicate Raising(p: Port, u: UserId) {
    !p.devices.connected.Has(DpcOf(p.clients, u)) && p.clients.hasTimeoutUser.Has(u)
  }

  /** At moment `j` the thread tests a request that is disconnected and has a timeout callback. */
  predicate TestsRaising(ss: seq<Sys>, es: seq<Event>, j: nat) {
    && j < |es| && |ss| == |es| + 1 && es[j] == Thread(Test)
    && ss[j].pc.Testing? && InList(ss[j].port.requests.queues, ss[j].pc.i, ss[j].pc.k)
    && Raising(ss[j].port, ss[j].port.requests.queues.List(ss[j].pc.i)[ss[j].pc.k])
  }

  ghost predicate Raised(ss: seq<Sys>, es: seq<Event>, from: nat, m: nat) {
    exists j: nat :: from < j < m && TestsRaising(ss, es, j)
  }

  lemma RaisedLater(ss: seq<Sys>, es: seq<Event>, from: nat, m: nat)
    requires from < m
    ensures Raised(ss, es, from, m + 1) <==> Raised(ss, es, from, m) || TestsRaising(ss, es, m)
  {
    if Raised(ss, es, from, m) {
      var j: nat :| from < j < m && TestsRaising(ss, es, j);
      assert from < j < m + 1 && TestsRaising(ss, es, j);
    }
    if TestsRaising(ss, es, m) {
      assert from < m < m + 1 && TestsRaising(ss, es, m);
    }
  }

  /** Only a test of such a request sets the flag, and nothing clears it. */
  lemma FlagMove(s: Sys, e: Event)
    requires Can(s, e) && InScan(s.pc) && InScan(Next(s, e).pc) && e != Thread(StartScan)
    ensures
      Next(s, e).pc.callTimeout <==>
        s.pc.callTimeout || (e == Thread(Test) && Raising(s.port, s.port.requests.queues.List(s.pc.i)[s.pc.k]))
  {
    if !e.Thread? {
      OthersTellTheScan(s, e);
    }
  }

  /** In a scan the flag is set exactly if the scan has tested such a request since it began. */
  lemma {:induction false} FlagExplained(ss: seq<Sys>, es: seq<Event>, from: nat, m: nat)
    requires Run(ss, es) && ScanSince(ss, es, from, m)
    ensures ss[m].pc.callTimeout <==> Raised(ss, es, from, m)
    decreases m
  {
    RunStep(ss, es, m - 1);
    if from < m - 1 {
      FlagExplained(ss, es, from, m - 1);
      ScanIsNotBegun(ss[m - 1], es[m - 1]);
      FlagMove(ss[m - 1], es[m - 1]);
      RaisedLater(ss, es, from, m - 1);
    }
  }

  lemma ScanIsNotBegun(s: Sys, e: Event)
    requires Can(s, e) && InScan(s.pc)
    ensures e != Thread(StartScan)
  {
  }

  /**
   At a dispatch callTimeoutUser is set exactly if, since the scan began, the thread has tested
   some request, perhaps this one, that was disconnected and had a timeout callback then.
   */
  lemma DispatchFlagIff(ss: seq<Sys>, es: seq<Event>, m: nat, s: Slot) returns (from: nat)
    requires Run(ss, es) && Dispatches(ss, es, m, s)
    ensures ScanSince(ss, es, from, m)
    ensures ss[m + 1].pc.callTimeout <==> Raised(ss, es, from, m) || TestsRaising(ss, es, m)
  {
    from := DispatchTakesFirst(ss, es, m, s);
    FlagExplained(ss, es, from, m);
    RunStep(ss, es, m);
  }

  /**
   So the callback chosen is the one meant for the request dispatched (the timeout callback if
   it is disconnected and has one) exactly if that is so, or no request that this scan has
   passed over raised the flag.
   */
  lemma FlagIsRightIff(ss: seq<Sys>, es: seq<Event>, m: nat, s: Slot) returns (from: nat)
    requires Run(ss, es) && Dispatches(ss, es, m, s)
    ensures ScanSince(ss, es, from, m)
    ensures (ss[m + 1].pc.callTimeout <==> TestsRaising(ss, es, m)) <==>
      TestsRaising(ss, es, m) || !Raised(ss, es, from, m)
  {
    from := DispatchFlagIff(ss, es, m, s);
  }

  // ----- a run in which it is wrong -----

  lemma {:induction false} AfterIsReachable(s: Sys, es: seq<ThreadEvent>, t: Sys)
    requires Reachable(s) && After(s, es) == Some(t)
    ensures Reachable(t)
    decreases |es|
  {
    if es != [] {
      ReachableNext(s, Thread(es[0]));
      AfterIsReachable(ThreadNext(s, es[0]), es[1..], t);
    }
  }

  /** The state of a thread that has been signalled and has gone as far as the first request. */
  function AtScan(s: Sys): Sys
    requires s.pending.signaling > 0
  {
    Sys(s.port.(requests := s.port.requests.(changed := false)), Scanning(HIGH, 0, false), false,
        s.pending.(signaling := s.pending.signaling - 1), s.pool)
  }

  /** A signal, and the thread comes to the scan of an enabled and connected port without Connect requests. */
  lemma SignalToScan(s: Sys)
    requires Reachable(s) && s.pc == Waiting && s.pending.signaling > 0
    requires s.port.devices.enabled.Has(PORT) && s.port.devices.connected.Has(PORT)
    requires s.port.requests.queues.connect == []
    ensures Reachable(AtScan(s))
  {
    ReachableNext(s, Control(Signal));
    var t := Next(s, Control(Signal));
    assert t == s.(notify := true, pending := s.pending.(signaling := s.pending.signaling - 1));
    WakeToScan(t);
  }

  lemma WakeToScan(s: Sys)
    requires Reachable(s) && s.pc == Waiting && s.notify
    requires s.port.devices.enabled.Has(PORT) && s.port.devices.connected.Has(PORT)
    requires s.port.requests.queues.connect == []
    ensures Reachable(Sys(s.port.(requests := s.port.requests.(changed := false)), Scanning(HIGH, 0, false), false,
      s.pending, s.pool))
  {
    var a := s.(pc := Woken, notify := false);
    ReachableNext(s, Thread(Wake));
    ReachableNext(a, Thread(TakeLock));
    ReachableNext(a.(pc := ConnectLoop), Thread(NextConnect));
    ReachableNext(a.(pc := CheckConnected), Thread(ReadConnected));
    ReachableNext(a.(pc := ScanStart), Thread(StartScan));
  }

  /**
   Two users of device 1 of a port that is connected while the device is not: user 1 has no
   timeout callback and blocks the device, user 2 has one.
   */
  predicate TwoUsers(s: Sys) {
    var v, c := s.port.devices, s.port.clients;
    && v.enabled.Has(PORT) && v.connected.Has(PORT) && v.enabled.Has(1) && !v.connected.Has(1) && !v.autoConnect.Has(1)
    && c.attached.Has(1) && c.attached.Has(2) && DpcOf(c, 1) == 1 && DpcOf(c, 2) == 1
    && c.hasProcess.Has(1) && c.hasProcess.Has(2) && !c.hasTimeoutUser.Has(1) && c.hasTimeoutUser.Has(2)
    && Live(s, 1) && Live(s, 2)
    && s.port.blocking.deviceCount.Has(1) && !s.port.blocking.portCount.Has(1) && s.port.blocking.holder == None
  }

  /** The first request of user 1 is queued, and the thread still asleep. */
  predicate FirstQueued(s: Sys) {
    && TwoUsers(s) && s.pc == Waiting && s.pending.signaling > 0
    && s.port.requests.queues == Queues([1], [], [], []) && !s.port.requests.isQueued.Has(2)
    && !s.port.blocking.dpcHolder.Has(1)
  }

  lemma UsersAreCreated() returns (s: Sys)
    ensures Reachable(s)
    ensures s == Start.(pool := Start.pool.(users := Flag({1, 2})),
                        port := Start.port.(clients := Clients(none, Table(map[]), Flag({1, 2}), Flag({2}), none)))
  {
    ReachableInit(Start);
    ReachableNext(Start, Life(Create(1, true, false)));
    var a := Start.(pool := Start.pool.(users := Flag({1})),
                    port := Start.port.(clients := Clients(none, Table(map[]), Flag({1}), none, none)));
    FirstCreated();
    ReachableNext(a, Life(Create(2, true, true)));
    s := Next(a, Life(Create(2, true, true)));
  }

  lemma FirstCreated()
    ensures Can(Start, Life(Create(1, true, false)))
    ensures Next(Start, Life(Create(1, true, false))) ==
      Start.(pool := Start.pool.(users := Flag({1})),
             port := Start.port.(clients := Clients(none, Table(map[]), Flag({1}), none, none)))
  {
  }

  lemma UsersJoin() returns (s: Sys)
    ensures Reachable(s) && s.pc == Waiting && s.pool == Start.pool.(users := Flag({1, 2}))
    ensures s.port.requests == Start.port.requests && s.port.blocking == Start.port.blocking &&
      s.pending == Start.pending
    ensures s.port.devices == Devices(true, false, Flag({PORT, 1}), Flag({PORT, 1}), none, none, none)
    ensures s.port.clients == Clients(Flag({1, 2}), Table(map[1 := 1, 2 := 1]), Flag({1, 2}), Flag({2}), none)
  {
    var a := UsersAreCreated();
    var b := Next(a, Life(AttachUser(1, 0)));
    ReachableNext(a, Life(AttachUser(1, 0)));
    s := Next(b, Life(AttachUser(2, 0)));
    ReachableNext(b, Life(AttachUser(2, 0)));
  }

  lemma FirstIsBlocking() returns (s: Sys)
    ensures Reachable(s) && TwoUsers(s) && s.pc == Waiting
    ensures s.port.requests == Start.port.requests && s.port.blocking.dpcHolder.entries == map[]
  {
    var a := UsersJoin();
    var b := Next(a, Control(SetConnected(PORT, true)));
    ReachableNext(a, Control(SetConnected(PORT, true)));
    s := Next(b, Control(BlockUser(1, false)));
    ReachableNext(b, Control(BlockUser(1, false)));
  }

  lemma FirstIsQueued() returns (s: Sys)
    ensures Reachable(s) && FirstQueued(s)
  {
    var a := FirstIsBlocking();
    s := Next(a, Request(Queue(1, LOW, 0.0, false)));
    ReachableNext(a, Request(Queue(1, LOW, 0.0, false)));
  }

  /** User 1 has been dispatched and its callback runs. */
  predicate FirstRuns(s: Sys) {
    && TwoUsers(s) && s.pc == Running(1, 1, false) && s.port.requests.queues == Queues([], [], [], [])
    && !s.port.requests.isQueued.Has(1) && !s.port.requests.isQueued.Has(2)
  }

  lemma FirstIsRunning() returns (s: Sys)
    ensures Reachable(s) && FirstRuns(s)
  {
    var a := FirstIsQueued();
    SignalToScan(a);
    var b := AtScan(a);
    FindFirst(b);
    StepsRefineScanFrom(b, HIGH, 0, false);
    assert Standing(b, HIGH, 0, false) == b;
    var c := Scanned(b, Found(Slot(LOW, 0), false));
    AfterIsReachable(b, ScanEvents(b.port, HIGH, 0, false), c);
    s := Next(c, Thread(StartCallback));
    ReachableNext(c, Thread(StartCallback));
  }

  lemma FindFirst(s: Sys)
    requires TwoUsers(s) && s.port.requests.queues == Queues([1], [], [], []) && !s.port.blocking.dpcHolder.Has(1)
    ensures ScanFrom(s.port, HIGH, 0, false) == Found(Slot(LOW, 0), false)
  {
    assert s.port.requests.queues.List(LOW) == [1];
    assert ScanFrom(s.port, LOW, 0, false) == TestSlot(s.port, LOW, 0, false) == Found(Slot(LOW, 0), false);
    assert ScanFrom(s.port, MEDIUM, 0, false) == ScanFrom(s.port, LOW, 0, false);
  }

  /** Both users have queued requests, user 2 the one of higher priority, and user 1 holds the device. */
  predicate BothWait(s: Sys) {
    && TwoUsers(s) && s.pc == Waiting && s.pending.signaling > 0
    && s.port.requests.queues == Queues([1], [], [2], []) && HoldsDpc(s.port.blocking, 1, 1)
  }

  lemma BothAreQueued() returns (s: Sys)
    ensures Reachable(s) && BothWait(s)
  {
    var a := FirstIsRunning();
    var b := QueueSecond(a);
    var c := QueueAgain(b);
    s := Next(c, Thread(EndUserCallback));
    ReachableNext(c, Thread(EndUserCallback));
  }

  lemma QueueSecond(a: Sys) returns (b: Sys)
    requires Reachable(a) && FirstRuns(a)
    ensures Reachable(b) && TwoUsers(b) && b.pc == Running(1, 1, false) &&
      b.port.requests.queues == Queues([], [], [2], [])
    ensures !b.port.requests.isQueued.Has(1)
  {
    b := Next(a, Request(Queue(2, HIGH, 0.0, false)));
    ReachableNext(a, Request(Queue(2, HIGH, 0.0, false)));
  }

  lemma QueueAgain(b: Sys) returns (c: Sys)
    requires Reachable(b) && TwoUsers(b) && b.pc == Running(1, 1, false) &&
      b.port.requests.queues == Queues([], [], [2], [])
    requires !b.port.requests.isQueued.Has(1)
    ensures Reachable(c) && TwoUsers(c) && c.pc == Running(1, 1, false) &&
      c.port.requests.queues == Queues([1], [], [2], [])
    ensures c.pending.signaling > 0 && c.port.requests.changed
  {
    c := Next(b, Request(Queue(1, LOW, 0.0, false)));
    ReachableNext(b, Request(Queue(1, LOW, 0.0, false)));
  }

  lemma FindSecond(s: Sys)
    requires TwoUsers(s) && s.port.requests.queues == Queues([1], [], [2], []) && HoldsDpc(s.port.blocking, 1, 1)
    ensures ScanFrom(s.port, HIGH, 0, false) == Found(Slot(LOW, 0), true)
  {
    var q := s.port.requests.queues;
    assert q.List(LOW) == [1] && q.List(HIGH) == [2];
    assert ScanFrom(s.port, LOW, 0, true) == TestSlot(s.port, LOW, 0, true) == Found(Slot(LOW, 0), true);
    assert ScanFrom(s.port, MEDIUM, 0, true) == ScanFrom(s.port, LOW, 0, true);
    assert ScanFrom(s.port, HIGH, 1, true) == ScanFrom(s.port, MEDIUM, 0, true);
    assert ScanFrom(s.port, HIGH, 0, false) == TestSlot(s.port, HIGH, 0, false) == ScanFrom(s.port, HIGH, 1, true);
  }

  /**
   A run in which the flag is wrong: user 1, the holder of the device, is dispatched with
   callTimeoutUser although it has no timeout callback at all. The request of user 2, which
   raised the flag, has been skipped because user 1 holds the device.
   */
  lemma StaleTimeoutFlag() returns (s: Sys)
    ensures Reachable(s) && s.pc.Dispatched? && s.pc.user == 1 && s.pc.callTimeout
    ensures !s.port.clients.hasTimeoutUser.Has(1) && s.port.requests.isQueued.Has(2)
  {
    var a := BothAreQueued();
    SignalToScan(a);
    var b := AtScan(a);
    FindSecond(b);
    StepsRefineScanFrom(b, HIGH, 0, false);
    assert Standing(b, HIGH, 0, false) == b;
    s := Scanned(b, Found(Slot(LOW, 0), true));
    AfterIsReachable(b, ScanEvents(b.port, HIGH, 0, false), s);
    assert s.port.requests.queues.List(HIGH) == [2];
    SecondStillQueued(s);
  }

  lemma SecondStillQueued(s: Sys)
    requires Reachable(s) && s.port.requests.queues.List(HIGH) == [2]
    ensures s.port.requests.isQueued.Has(2)
  {
    var ss, es :| Run(ss, es) && ss[|es|] == s;
    RepAlways(ss, es, |es|);
    assert At(s.port.requests.queues, Slot(HIGH, 0)) == 2;
    ListedIsFlagged(s.port.requests, Slot(HIGH, 0));
  }
}
