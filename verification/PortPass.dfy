/**
 When the port thread may go over the lists: only after it took the lock of an enabled port, and
 over the Low, Medium and High lists only after it found the Connect list empty and the port
 connected. Connect requests come first, in the order in which they wait.
 */
module PortPass {
  import opened PortQueues
  import opened PortRegions
  import opened PortSystem
  import opened PortRep
  import opened PortOrder

  /** In the middle of a pass over the lists. */
  predicate Awake(pc: Pc) {
    !pc.Waiting? && !pc.Woken?
  }

  /** Serving the Low, Medium and High lists. */
  predicate Serving(pc: Pc) {
    pc.ScanStart? || InScan(pc) || pc.Dispatched? || pc.Running?
  }

  /** A thread that takes the lock of a disabled port goes back to sleep and changes nothing; else its pass begins. */
  lemma DisabledPortSleeps(s: Sys)
    requires Can(s, Thread(TakeLock))
    ensures Next(s, Thread(TakeLock)) == s.(pc := if s.port.devices.enabled.Has(PORT) then ConnectLoop else Waiting)
    ensures Awake(Next(s, Thread(TakeLock)).pc) <==> PORT in s.port.devices.enabled.on
  {
  }

  lemma AwakeStep(s: Sys, e: Event)
    requires Can(s, e) && Awake(Next(s, e).pc)
    ensures Awake(s.pc) || (e == Thread(TakeLock) && PORT in s.port.devices.enabled.on)
  {
    if !e.Thread? {
      OthersTellTheScan(s, e);
    }
  }

  /** The pass that is under way at moment `m` began at moment `began`, with the lock of an enabled port. */
  ghost predicate PassSince(ss: seq<Sys>, es: seq<Event>, began: nat, m: nat) {
    && began < m < |ss| && m <= |es| && es[began] == Thread(TakeLock) && PORT in ss[began].port.devices.enabled.on
    && forall k | began < k <= m :: Awake(ss[k].pc)
  }

  /**
   No pass without an enabled port: whatever the thread does, it took the lock while the port was
   enabled, and has not slept since.
   */
  lemma {:induction false} PassBegan(ss: seq<Sys>, es: seq<Event>, m: nat) returns (began: nat)
    requires Run(ss, es) && m < |ss| && !ss[m].pc.Waiting? && !ss[m].pc.Woken?
    ensures PassSince(ss, es, began, m)
  {
    RunStep(ss, es, m - 1);
    AwakeStep(ss[m - 1], es[m - 1]);
    if Awake(ss[m - 1].pc) {
      began := PassBegan(ss, es, m - 1);
    } else {
      began := m - 1;
    }
  }

  /**
   With the Connect list empty the thread scans exactly if it finds the port connected, at once or
   after an attempt to connect it; else it goes to sleep.
   */
  lemma ScansIffConnected(s: Sys, e: ThreadEvent)
    requires Can(s, Thread(e)) && (e == ReadConnected || e == SkipConnect || e == RetakeAfterConnect)
    ensures
      Next(s, Thread(e)) == s.(pc :=
        if PORT in s.port.devices.connected.on then ScanStart else if e == ReadConnected then AutoPort else Waiting)
  {
  }

  lemma ServingStep(s: Sys, e: Event)
    requires Can(s, e) && Serving(Next(s, e).pc)
    ensures Serving(s.pc) || (PastConnect(s.pc) && PORT in s.port.devices.connected.on)
  {
    if !e.Thread? {
      OthersTellTheScan(s, e);
    } else {
      ServingThread(s, e.t);
    }
  }

  lemma ServingThread(s: Sys, e: ThreadEvent)
    requires CanThread(s, e) && Serving(ThreadNext(s, e).pc)
    ensures Serving(s.pc) || (PastConnect(s.pc) && PORT in s.port.devices.connected.on)
  {
    if e != StartScan && InScan(ThreadNext(s, e).pc) {
      ScanMove(s, e);
    }
  }

  lemma {:induction false} ServingSince(ss: seq<Sys>, es: seq<Event>, m: nat) returns (j: nat)
    requires Run(ss, es) && m < |ss| && Serving(ss[m].pc)
    ensures j < m && PastConnect(ss[j].pc) && !Serving(ss[j].pc) && PORT in ss[j].port.devices.connected.on
    ensures forall k | j < k <= m :: Serving(ss[k].pc)
  {
    RunStep(ss, es, m - 1);
    ServingStep(ss[m - 1], es[m - 1]);
    if Serving(ss[m - 1].pc) {
      j := ServingSince(ss, es, m - 1);
    } else {
      j := m - 1;
    }
  }

  /**
   No request but Connect requests on a disconnected port: whenever the thread scans the other
   lists, has dispatched from them or runs such a callback, it has in the same pass first found
   the Connect list empty (at moment `drained`) and then the port connected (at `j`).
   */
  lemma ServesConnectedPort(ss: seq<Sys>, es: seq<Event>, m: nat) returns (began: nat, drained: nat, j: nat)
    requires Run(ss, es) && m < |ss|
    requires ss[m].pc.ScanStart? || InScan(ss[m].pc) || ss[m].pc.Dispatched? || ss[m].pc.Running?
    ensures PassSince(ss, es, began, m) && began < drained <= j < m
    ensures ss[drained].port.requests.queues.connect == [] && ss[drained].pc == CheckConnected
    ensures PORT in ss[j].port.devices.connected.on
    ensures forall k | drained <= k <= m :: PastConnect(ss[k].pc)
    ensures forall k | j < k <= m :: Serving(ss[k].pc)
  {
    j := ServingSince(ss, es, m);
    drained := ConnectListDrained(ss, es, j);
    began := PassBegan(ss, es, drained);
    forall k | drained <= k <= m
      ensures PastConnect(ss[k].pc) && Awake(ss[k].pc)
    {
      if j < k {
        assert Serving(ss[k].pc);
      }
    }
  }

  // ----- Connect requests -----

  /** While the thread is past the Connect list that is empty, or the scan is told to start again. */
  predicate ConnectsSeen(s: Sys) {
    PastConnect(s.pc) && s.pc != AutoPortDropped ==>
      || s.port.requests.queues.connect == []
      || (s.port.requests.changed && (s.pc.Dropped? || s.pc.Dispatched? || s.pc.Running?))
  }

  lemma ConnectsSeenStep(s: Sys, e: Event)
    requires Can(s, e) && ConnectsSeen(s) && Fresh(s) && s.pc != AutoPortDropped
    ensures ConnectsSeen(Next(s, e))
  {
    if !e.Thread? {
      OthersTellTheScan(s, e);
    } else {
      ConnectsSeenThread(s, e.t);
    }
  }

  lemma ConnectsSeenThread(s: Sys, e: ThreadEvent)
    requires CanThread(s, e) && ConnectsSeen(s) && Fresh(s) && s.pc != AutoPortDropped
    ensures ConnectsSeen(ThreadNext(s, e))
  {
    if e == Test {
      WithList(s.port.requests.queues, s.pc.i, Without(s.port.requests.queues.List(s.pc.i), s.pc.k), CONNECT);
    }
  }

  /** At moment `j`, in the pass of moment `m`, the thread dropped the lock to connect the port. */
  ghost predicate DroppedInPass(ss: seq<Sys>, es: seq<Event>, j: nat, m: nat) {
    && j < m < |ss| && m <= |es| && es[j] == Thread(DropForConnect)
    && forall k | j <= k <= m :: Awake(ss[k].pc)
  }

  lemma {:induction false} ConnectsSeenAlways(ss: seq<Sys>, es: seq<Event>, m: nat)
    requires Run(ss, es) && m < |ss|
    ensures ConnectsSeen(ss[m]) || exists j: nat :: DroppedInPass(ss, es, j, m)
  {
    if m > 0 {
      ConnectsSeenAlways(ss, es, m - 1);
      RunStep(ss, es, m - 1);
      FreshAlways(ss, es, m - 1);
      var s, e := ss[m - 1], es[m - 1];
      if PastConnect(ss[m].pc) && ss[m].pc != AutoPortDropped {
        PastConnectStep(s, e);
        if s.pc == AutoPortDropped {
          var j := DroppedSince(ss, es, m - 1);
          assert DroppedInPass(ss, es, j, m);
        } else if ConnectsSeen(s) {
          ConnectsSeenStep(s, e);
        } else {
          var j: nat :| DroppedInPass(ss, es, j, m - 1);
          assert DroppedInPass(ss, es, j, m);
        }
      }
    }
  }

  lemma DroppedStep(s: Sys, e: Event)
    requires Can(s, e) && Next(s, e).pc == AutoPortDropped
    ensures s.pc == AutoPortDropped || (s.pc == AutoPort && e == Thread(DropForConnect))
  {
    if !e.Thread? {
      OthersTellTheScan(s, e);
    }
  }

  lemma {:induction false} DroppedSince(ss: seq<Sys>, es: seq<Event>, m: nat) returns (j: nat)
    requires Run(ss, es) && m < |ss| && ss[m].pc == AutoPortDropped
    ensures DroppedInPass(ss, es, j, m)
  {
    RunStep(ss, es, m - 1);
    DroppedStep(ss[m - 1], es[m - 1]);
    if ss[m - 1].pc == AutoPortDropped {
      j := DroppedSince(ss, es, m - 1);
    } else {
      j := m - 1;
    }
  }

  /**
   Connect requests come first: nothing is dispatched from the other lists while one waits,
   unless it came while the lock was dropped, in this pass, to connect the port automatically.
   */
  lemma ConnectFirst(ss: seq<Sys>, es: seq<Event>, m: nat, s: Slot)
    requires Run(ss, es) && Dispatches(ss, es, m, s)
    ensures ss[m].port.requests.queues.connect == [] || exists j: nat :: DroppedInPass(ss, es, j, m)
  {
    ConnectsSeenAlways(ss, es, m);
    FreshAlways(ss, es, m);
  }

  /**
   The thread takes the first Connect request, whatever the state of its device or who holds it, or
   goes on if there is none.
   */
  lemma ConnectTakesFirst(s: Sys)
    requires Can(s, Thread(NextConnect))
    ensures
      var t, r := Next(s, Thread(NextConnect)), s.port.requests;
      if r.queues.connect == [] then t == s.(pc := CheckConnected)
      else
        var u := r.queues.connect[0];
        && t.pc == ConnectDispatched(u, u in r.timed.on)
        && t.port.requests.queues == r.queues.(connect := r.queues.connect[1..])
        && t.port.requests.isQueued.on == r.isQueued.on - {u}
        && t.port.requests.changed == r.changed && t.port.requests.timed == r.timed && t.port.requests.armed == r.armed
        && t.port.callbacks.active.on == s.port.callbacks.active.on + {u}
        && t.port.callbacks.canceled.on == s.port.callbacks.canceled.on - {u}
        && t.port.callbacks.done == s.port.callbacks.done
        && t.port.blocking == s.port.blocking && t.port.devices == s.port.devices && t.port.clients == s.port.clients
        && t.notify == s.notify && t.pending == s.pending && t.pool == s.pool
  {
    if s.port.requests.queues.connect != [] {
      assert Without(s.port.requests.queues.connect, 0) == s.port.requests.queues.connect[1..];
    }
  }

  lemma BehindIsNotFirst(s: Sys, a: UserId, b: UserId)
    requires Rep(s) && InOrder(s.port.requests.queues, CONNECT, a, b)
    ensures s.port.requests.queues.connect != [] && s.port.requests.queues.connect[0] != b
  {
    var q := s.port.requests.queues;
    var x: nat, y: nat :| x < y < |q.List(CONNECT)| && q.List(CONNECT)[x] == a && q.List(CONNECT)[y] == b;
    FlaggedIffInOneSlot(s, b);
    var first, second := Slot(CONNECT, 0), Slot(CONNECT, y);
    assert ValidSlot(q, first) && ValidSlot(q, second) && At(q, second) == b && first != second;
  }

  /** A Connect request is never overtaken by a later one: while `a` waits in front of `b`, `b` is not dispatched. */
  lemma ConnectNotOvertaken(ss: seq<Sys>, es: seq<Event>, from: nat, m: nat, a: UserId, b: UserId)
    requires Run(ss, es) && from <= m < |es| && es[m] == Thread(NextConnect)
    requires InOrder(ss[from].port.requests.queues, CONNECT, a, b)
    requires forall j | from <= j <= m :: BothQueued(ss[j], a, b)
    ensures ss[m + 1].pc.ConnectDispatched? && ss[m + 1].pc.user != b
  {
    RunStep(ss, es, m);
    OrderKept(ss, es, from, m, CONNECT, a, b);
    RepAlways(ss, es, m);
    BehindIsNotFirst(ss[m], a, b);
    ConnectTakesFirst(ss[m]);
  }

  // ----- waking up -----

  function Wakes(es: seq<Event>): nat {
    if es == [] then 0 else Wakes(es[..|es| - 1]) + if es[|es| - 1] == Thread(Wake) then 1 else 0
  }

  function Signals(es: seq<Event>): nat {
    if es == [] then 0 else Signals(es[..|es| - 1]) + if es[|es| - 1] == Control(Signal) then 1 else 0
  }

  lemma NotifyStep(s: Sys, e: Event)
    requires Can(s, e)
    ensures e != Control(Signal) && e != Thread(Wake) ==> Next(s, e).notify == s.notify
    ensures e == Thread(Wake) ==> s.notify && !Next(s, e).notify && s.pc == Waiting
  {
  }

  /** A wake-up takes the signal with it: the thread never wakes more often than it was signalled. */
  lemma {:induction false} WakesAreSignalled(ss: seq<Sys>, es: seq<Event>, m: nat)
    requires Run(ss, es) && m <= |es|
    ensures Wakes(es[..m]) + (if ss[m].notify then 1 else 0) <= Signals(es[..m])
  {
    if m > 0 {
      WakesAreSignalled(ss, es, m - 1);
      RunStep(ss, es, m - 1);
      NotifyStep(ss[m - 1], es[m - 1]);
      assert es[..m][..m - 1] == es[..m - 1];
    }
  }
}
