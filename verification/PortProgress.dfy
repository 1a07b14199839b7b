/**
 The port thread is never stuck and never goes round in circles: left alone it goes to sleep,
 and when all that was begun has been finished, everything that can be dispatched has been.
 */
module PortProgress {
  import opened PortQueues
  import opened PortRegions
  import opened PortScan
  import opened PortSystem
  import opened PortRep
  import opened PortWake

  // ----- never stuck -----

  /** A step that the thread can take; it waits only for its event. */
  function Move(pc: Pc): ThreadEvent {
    match pc
    case Waiting => Wake
    case Woken => TakeLock
    case ConnectLoop => NextConnect
    case ConnectDispatched(_, _) => StartConnectCallback
    case ConnectRunning(_) => EndConnectCallback
    case CheckConnected => ReadConnected
    case AutoPort => SkipConnect
    case AutoPortDropped => RetakeAfterConnect
    case ScanStart => StartScan
    case Scanning(_, _, _) => Look(false)
    case Testing(_, _, _) => Test
    case Dropped(_, _, _, _) => RetakeInScan
    case Dispatched(_, _, _, _) => StartCallback
    case Running(_, _, _) => EndUserCallback
  }

  /** The thread can always go on, except when it sleeps and its event is empty. */
  lemma ThreadGoesOnIff(s: Sys)
    requires Rep(s)
    ensures (exists e :: CanThread(s, e)) <==> s.pc != Waiting || s.notify
  {
    if s.pc != Waiting || s.notify {
      assert CanThread(s, Move(s.pc));
    }
  }

  /**
   When the thread may drop the lock: only to connect what is disconnected and is connected
   automatically, the port before a device.
   */
  lemma AttemptIff(s: Sys)
    ensures Can(s, Thread(DropForConnect)) <==>
      s.pc == AutoPort && PORT !in s.port.devices.connected.on && PORT in s.port.devices.autoConnect.on
    ensures Can(s, Thread(Look(true))) <==>
      && s.pc.Scanning? && InList(s.port.requests.queues, s.pc.i, s.pc.k)
      && var d := DpcOf(s.port.clients, s.port.requests.queues.List(s.pc.i)[s.pc.k]);
         var v := s.port.devices;
         d in v.enabled.on && d !in v.connected.on && (if PORT in v.connected.on then d else PORT) in v.autoConnect.on
  {
  }

  // ----- never in circles -----

  /** How many requests are queued. */
  function Load(q: Queues): nat {
    |q.low| + |q.medium| + |q.high| + |q.connect|
  }

  function Stage(pc: Pc): nat {
    match pc
    case Woken => 10
    case ConnectDispatched(_, _) => 9
    case ConnectRunning(_) => 8
    case ConnectLoop => 7
    case CheckConnected => 6
    case AutoPort => 5
    case AutoPortDropped => 4
    case Dispatched(_, _, _, _) => 3
    case Running(_, _, _) => 2
    case ScanStart => 1
    case _ => 0
  }

  /** The requests from list `i` down, and the ends of those lists. */
  function Ends(q: Queues, i: nat): nat
    requires i <= HIGH
  {
    |q.List(i)| + 1 + if i == 0 then 0 else Ends(q, i - 1)
  }

  /** How much of the scan lies ahead. */
  function Distance(q: Queues, pc: Pc): nat {
    match pc
    case Scanning(i, k, _) => if InListOrAtEnd(q, i, k) then 3 * (Ends(q, i) - k) else 0
    case Dropped(i, k, _, _) => if InListOrAtEnd(q, i, k) then 3 * (Ends(q, i) - k) - 1 else 1
    case Testing(i, k, _) => if InListOrAtEnd(q, i, k) then 3 * (Ends(q, i) - k) - 2 else 0
    case _ => 0
  }

  lemma ShorterList(q: Queues, here: Slot)
    requires ValidSlot(q, here)
    ensures Load(Delete(q, here)) == Load(q) - 1
  {
  }

  /** The state after a step of the thread is lower in the lexicographic order of load, stage and distance. */
  predicate Lower(t: Sys, s: Sys) {
    var q, r := s.port.requests.queues, t.port.requests.queues;
    || Load(r) < Load(q)
    || (Load(r) == Load(q) && Stage(t.pc) < Stage(s.pc))
    || (Load(r) == Load(q) && Stage(t.pc) == Stage(s.pc) && Distance(r, t.pc) < Distance(q, s.pc))
  }

  lemma LookLower(s: Sys, drop: bool)
    requires CanThread(s, Look(drop))
    ensures Lower(ThreadNext(s, Look(drop)), s)
  {
  }

  /** Every step but the wake-up brings the thread nearer to its sleep, whatever it finds. */
  lemma StepsDescend(s: Sys, e: ThreadEvent)
    requires Rep(s) && CanThread(s, e) && e != Wake
    ensures Lower(ThreadNext(s, e), s)
  {
    match e
    case NextConnect =>
      if s.port.requests.queues.List(CONNECT) != [] {
        ShorterList(s.port.requests.queues, Slot(CONNECT, 0));
      }
    case Look(drop) => LookLower(s, drop);
    case Test => ShorterList(s.port.requests.queues, Slot(s.pc.i, s.pc.k));
    case _ =>
  }

  // ----- service -----

  /** Nothing new: a step of the port thread, or the end of what another thread has begun. */
  predicate Finishing(e: Event) {
    match e
    case Thread(_) => true
    case Control(c) => c.AnnounceEnds? || c.Signal?
    case Request(r) => r.TimerStopped? || r.TimeoutEnds?
    case Life(_) => false
  }

  /** From `s`, such events alone lead to `t`. */
  ghost predicate Finishes(s: Sys, es: seq<Event>, t: Sys)
    decreases |es|
  {
    if es == [] then s == t else Finishing(es[0]) && Can(s, es[0]) && Finishes(Next(s, es[0]), es[1..], t)
  }

  lemma {:induction false} FinishesOn(s: Sys, es: seq<Event>, t: Sys, fs: seq<Event>, r: Sys)
    requires Finishes(s, es, t) && Finishes(t, fs, r)
    ensures Finishes(s, es + fs, r)
    decreases |es|
  {
    if es == [] {
      assert es + fs == fs;
    } else {
      FinishesOn(Next(s, es[0]), es[1..], t, fs, r);
      assert (es + fs)[1..] == es[1..] + fs;
    }
  }

  lemma {:induction false} FinishesKeeps(s: Sys, es: seq<Event>, t: Sys)
    requires Rep(s) && Wakeful(s) && Finishes(s, es, t)
    ensures Rep(t) && Wakeful(t)
    decreases |es|
  {
    if es != [] {
      RepStep(s, es[0]);
      WakefulStep(s, es[0]);
      FinishesKeeps(Next(s, es[0]), es[1..], t);
    }
  }

  lemma ThreadOwesNothing(s: Sys, e: ThreadEvent)
    requires CanThread(s, e) && e != Wake
    ensures ThreadNext(s, e).pending == s.pending && ThreadNext(s, e).notify == s.notify
  {
  }

  /** Left alone the thread comes to its sleep. */
  lemma {:induction false} PassEnds(s: Sys) returns (es: seq<Event>, t: Sys)
    requires Rep(s)
    ensures Finishes(s, es, t) && t.pc == Waiting && t.pending == s.pending && t.notify == s.notify
    decreases Load(s.port.requests.queues), Stage(s.pc), Distance(s.port.requests.queues, s.pc)
  {
    if s.pc == Waiting {
      es, t := [], s;
    } else {
      var e := Move(s.pc);
      StepsDescend(s, e);
      ThreadOwesNothing(s, e);
      RepStep(s, Thread(e));
      es, t := PassEnds(ThreadNext(s, e));
      assert ([Thread(e)] + es)[1..] == es;
      es := [Thread(e)] + es;
    }
  }

  /**
   A sleeping port thread to which something is owed can always be woken: what the other
   threads have begun can be finished without it, and when they have, its event is full.
   */
  lemma {:induction false} SleeperCanBeWoken(s: Sys) returns (es: seq<Event>, t: Sys)
    requires s.pc == Waiting && Owes(s)
    ensures Finishes(s, es, t) && forall e | e in es :: !e.Thread?
    ensures t.pc == Waiting && Can(t, Thread(Wake)) && NothingPending(t.pending)
    decreases Debt(s.pending)
  {
    if NothingPending(s.pending) {
      es, t := [], s;
    } else {
      var e := PayOne(s);
      es, t := SleeperCanBeWoken(Next(s, e));
      assert ([e] + es)[1..] == es;
      es := [e] + es;
    }
  }

  /**
   From every state of every run: once the other threads have finished what they began, and the
   port thread has gone on until it sleeps, nothing is owed and, of an enabled port, no Connect
   request is left and, if it is connected, nothing that can be dispatched.
   */
  lemma ServedInTheEnd(s: Sys) returns (es: seq<Event>, t: Sys)
    requires Reachable(s)
    ensures Finishes(s, es, t) && t.pc == Waiting && !Owes(t)
    ensures PORT in t.port.devices.enabled.on ==> t.port.requests.queues.connect == []
    ensures PORT in t.port.devices.enabled.on && PORT in t.port.devices.connected.on ==>
      forall i: Priority, k: nat | k < |t.port.requests.queues.List(i)| ::
        !Dispatchable(t.port, t.port.requests.queues.List(i)[k])
  {
    var ss, fs :| Run(ss, fs) && ss[|fs|] == s;
    RepAlways(ss, fs, |fs|);
    WakefulAlways(ss, fs, |fs|);
    es, t := PassEnds(s);
    FinishesKeeps(s, es, t);
    if Owes(t) {
      var more, r := RestAgain(t);
      FinishesOn(s, es, t, more, r);
      es, t := es + more, r;
    }
    if t.port.devices.enabled.Has(PORT) && t.port.devices.connected.Has(PORT) {
      SettledList(t.port);
    }
  }

  lemma RestAgain(s: Sys) returns (es: seq<Event>, t: Sys)
    requires Rep(s) && Wakeful(s) && s.pc == Waiting && Owes(s)
    ensures Finishes(s, es, t) && t.pc == Waiting && !Owes(t) && Settled(t.port)
  {
    var ds, d := SleeperCanBeWoken(s);
    FinishesKeeps(s, ds, d);
    var w := Next(d, Thread(Wake));
    RepStep(d, Thread(Wake));
    WakefulStep(d, Thread(Wake));
    assert Finishes(w, [], w) && [Thread(Wake)][1..] == [];
    assert Finishes(d, [Thread(Wake)], w);
    var ps;
    ps, t := PassEnds(w);
    FinishesKeeps(w, ps, t);
    FinishesOn(d, [Thread(Wake)], w, ps, t);
    FinishesOn(s, ds, d, [Thread(Wake)] + ps, t);
    es := ds + ([Thread(Wake)] + ps);
  }

  lemma SettledList(p: Port)
    requires Settled(p) && p.devices.enabled.Has(PORT) && p.devices.connected.Has(PORT)
    ensures forall i: Priority, k: nat | k < |p.requests.queues.List(i)| ::
      !Dispatchable(p, p.requests.queues.List(i)[k])
  {
    assert p.requests.queues.List(CONNECT) == [];
    forall i: Priority, k: nat | k < |p.requests.queues.List(i)|
      ensures !Dispatchable(p, p.requests.queues.List(i)[k])
    {
      assert Ahead(p.requests.queues, Slot(i, k), HIGH, 0);
    }
  }
}
