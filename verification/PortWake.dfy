/**
 No wake-up of the port thread is lost: when it sleeps with an empty event, and nobody owes it
 a signal, there is nothing for it to do.
 */
module PortWake {
  import opened PortQueues
  import opened PortRegions
  import opened PortScan
  import opened PortSystem
  import opened PortRep

  /** Nobody is between a change of state and the signal that has to follow it. */
  predicate NothingPending(w: Pending) {
    && w.announcing == 0 && w.signaling == 0
    && w.inTimeout.counts == multiset{} && w.stopping.counts == multiset{} && w.leaving.counts == multiset{}
  }

  predicate Owes(s: Sys) {
    s.notify || !NothingPending(s.pending)
  }

  /** No request that the scan has passed, on its way to position `k` of list `i`, can be dispatched. */
  ghost predicate NoneBefore(p: Port, i: nat, k: nat) {
    forall t: Slot | ValidSlot(p.requests.queues, t) && Before(t, i, k) :: !Dispatchable(p, At(p.requests.queues, t))
  }

  predicate NoConnects(p: Port) {
    p.requests.queues.connect == []
  }

  /** Nothing to do for a thread that has taken the lock. */
  ghost predicate Settled(p: Port) {
    p.devices.enabled.Has(PORT) ==> NoConnects(p) && (p.devices.connected.Has(PORT) ==> NoneAhead(p, HIGH, 0))
  }

  /** What the thread knows where it is, as long as it is owed nothing. */
  ghost predicate Knows(p: Port, pc: Pc) {
    match pc
    case Waiting => Settled(p)
    case CheckConnected => NoConnects(p)
    case AutoPort => NoConnects(p) && !p.devices.connected.Has(PORT)
    case AutoPortDropped => NoConnects(p)
    case ScanStart => NoConnects(p)
    case Scanning(i, k, _) => NoConnects(p) && !p.requests.changed && NoneBefore(p, i, k)
    case Testing(i, k, _) =>
      NoConnects(p) && !p.requests.changed && NoneBefore(p, i, k)
    case Dropped(i, k, _, _) =>
      NoConnects(p) && !p.requests.changed && NoneBefore(p, i, k)
    case Dispatched(_, _, _, _) => NoConnects(p) && !p.requests.changed
    case Running(_, _, _) => NoConnects(p) && !p.requests.changed
    case _ => true
  }

  ghost predicate Wakeful(s: Sys) {
    Owes(s) || Knows(s.port, s.pc)
  }

  // ----- everybody else -----

  /** Two states between which the port thread can see no difference. */
  ghost predicate Alike(p: Port, q: Port) {
    && q.requests.queues == p.requests.queues && q.requests.changed == p.requests.changed
    && q.devices.enabled.Has(PORT) == p.devices.enabled.Has(PORT)
    && q.devices.connected.Has(PORT) == p.devices.connected.Has(PORT)
    && forall t: Slot | ValidSlot(p.requests.queues, t) ::
         Dispatchable(q, At(p.requests.queues, t)) == Dispatchable(p, At(p.requests.queues, t))
  }

  lemma AlikeKnows(p: Port, q: Port, pc: Pc)
    requires Alike(p, q) && Knows(p, pc)
    ensures Knows(q, pc)
  {
  }

  lemma RequestQuiet(s: Sys, e: RequestEvent)
    requires CanRequest(s, e) && !Owes(RequestNext(s, e))
    ensures !Owes(s)
    ensures var r := RequestNext(s, e).port.requests;
            r.queues == s.port.requests.queues && r.changed == s.port.requests.changed
  {
  }

  lemma WakefulRequest(s: Sys, e: RequestEvent)
    requires Wakeful(s) && CanRequest(s, e)
    ensures Wakeful(RequestNext(s, e))
  {
    if !Owes(RequestNext(s, e)) {
      RequestQuiet(s, e);
      RequestFrame(s, e);
      AlikeKnows(s.port, RequestNext(s, e).port, s.pc);
    }
  }

  lemma ControlQuiet(s: Sys, e: ControlEvent)
    requires CanControl(s, e) && !Owes(ControlNext(s, e))
    ensures !Owes(s)
    ensures var p := ControlNext(s, e).port;
            && p.requests.changed == s.port.requests.changed && p.devices == s.port.devices
            && p.blocking.holder == s.port.blocking.holder && p.blocking.dpcHolder == s.port.blocking.dpcHolder
  {
  }

  lemma WakefulControl(s: Sys, e: ControlEvent)
    requires Wakeful(s) && CanControl(s, e)
    ensures Wakeful(ControlNext(s, e))
  {
    if !Owes(ControlNext(s, e)) {
      ControlQuiet(s, e);
      ControlFrame(s, e);
      AlikeKnows(s.port, ControlNext(s, e).port, s.pc);
    }
  }

  /** Connecting, disconnecting and creating concern users that are not queued, and devices nobody used. */
  lemma LifeAlike(s: Sys, e: LifeEvent)
    requires Rep(s) && CanLife(s, e)
    ensures Alike(s.port, LifeNext(s, e).port)
  {
    var q := s.port.requests.queues;
    if e.Create? {
      CreatedIsFree(s, e.u);
    }
    forall t: Slot | ValidSlot(q, t)
      ensures Dispatchable(LifeNext(s, e).port, At(q, t)) == Dispatchable(s.port, At(q, t))
    {
      ListedIsFlagged(s.port.requests, t);
      assert At(q, t) in s.port.clients.attached.on;
    }
  }

  lemma LifeFrame(s: Sys, e: LifeEvent)
    requires CanLife(s, e)
    ensures var t := LifeNext(s, e); t.pc == s.pc && t.pending == s.pending && t.notify == s.notify
  {
  }

  // ----- the thread -----

  lemma WakefulLook(p: Port, i: nat, k: nat, flag: bool, drop: bool)
    requires InListOrAtEnd(p.requests.queues, i, k)
    requires NoConnects(p) && !p.requests.changed && NoneBefore(p, i, k)
    ensures Knows(p, LookStep(p, i, k, flag, drop))
  {
    var q := p.requests.queues;
    if k == |q.List(i)| {
      if i == LOW {
        assert forall t :: Ahead(q, t, HIGH, 0) ==> Before(t, i, k);
      } else {
        assert forall t :: ValidSlot(q, t) && Before(t, i - 1, 0) ==> Before(t, i, k);
      }
    } else {
      assert forall t :: ValidSlot(q, t) && Before(t, i, k + 1) ==> Before(t, i, k) || t == Slot(i, k);
    }
  }

  lemma WakefulTest(s: Sys, i: nat, k: nat, callTimeout: bool)
    requires s.pc == Testing(i, k, callTimeout) && InList(s.port.requests.queues, i, k) && Knows(s.port, s.pc)
    ensures var t := TestStep(s, i, k, callTimeout); Knows(t.port, t.pc)
  {
    var q := s.port.requests.queues;
    assert forall t :: ValidSlot(q, t) && Before(t, i, k + 1) ==> Before(t, i, k) || t == Slot(i, k);
  }

  lemma WakefulThread(s: Sys, e: ThreadEvent)
    requires Wakeful(s) && CanThread(s, e)
    ensures Wakeful(ThreadNext(s, e))
  {
    if !Owes(s) {
      match e
      case Look(drop) => WakefulLook(s.port, s.pc.i, s.pc.k, s.pc.callTimeout, drop);
      case Test => WakefulTest(s, s.pc.i, s.pc.k, s.pc.callTimeout);
      case _ =>
    }
  }

  lemma WakefulStep(s: Sys, e: Event)
    requires Rep(s) && Wakeful(s) && Can(s, e)
    ensures Wakeful(Next(s, e))
  {
    match e
    case Request(r) => WakefulRequest(s, r);
    case Control(c) => WakefulControl(s, c);
    case Life(l) =>
      LifeFrame(s, l);
      LifeAlike(s, l);
      if Knows(s.port, s.pc) {
        AlikeKnows(s.port, LifeNext(s, l).port, s.pc);
      }
    case Thread(t) => WakefulThread(s, t);
  }

  lemma {:induction false} WakefulAlways(ss: seq<Sys>, es: seq<Event>, m: nat)
    requires Run(ss, es) && m < |ss|
    ensures Wakeful(ss[m])
  {
    if m > 0 {
      WakefulAlways(ss, es, m - 1);
      RepAlways(ss, es, m - 1);
      RunStep(ss, es, m - 1);
      WakefulStep(ss[m - 1], es[m - 1]);
    }
  }

  /**
   In every run, when the thread is blocked on its empty event and nobody owes it a signal,
   the Connect list of an enabled port is empty, and if the port is also connected then no
   request at all is dispatchable.
   */
  lemma NoLostWakeup(ss: seq<Sys>, es: seq<Event>, m: nat)
    requires Run(ss, es) && m < |ss|
    requires ss[m].pc == Waiting && !ss[m].notify && NothingPending(ss[m].pending)
    requires ss[m].port.devices.enabled.Has(PORT)
    ensures ss[m].port.requests.queues.connect == []
    ensures forall i: Priority, k: nat | k < |ss[m].port.requests.queues.List(i)| ::
              ss[m].port.devices.connected.Has(PORT) ==>
                !Dispatchable(ss[m].port, ss[m].port.requests.queues.List(i)[k])
  {
    WakefulAlways(ss, es, m);
    var p := ss[m].port;
    assert p.requests.queues.List(CONNECT) == [];
    forall i: Priority, k: nat | k < |p.requests.queues.List(i)| && p.devices.connected.Has(PORT)
      ensures !Dispatchable(p, p.requests.queues.List(i)[k])
    {
      assert Ahead(p.requests.queues, Slot(i, k), HIGH, 0);
    }
  }

  // ----- what is owed can be paid -----

  /** How many events it takes at most until nothing is pending: a signal one, everything else one more. */
  function Debt(w: Pending): nat {
    w.signaling + 2 * (w.announcing + |w.inTimeout.counts| + |w.stopping.counts| + |w.leaving.counts|)
  }

  lemma Nobody(counts: multiset<UserId>)
    requires forall u: UserId :: counts[u] == 0
    ensures counts == multiset{}
  {
    assert forall u: UserId :: counts[u] == multiset{}[u];
  }

  lemma SomeOne(counts: multiset<UserId>) returns (u: UserId)
    requires counts != multiset{}
    ensures u in counts && |counts - multiset{u}| == |counts| - 1
  {
    if forall v: UserId :: counts[v] == 0 {
      Nobody(counts);
    }
    u :| counts[u] != 0;
  }

  lemma PayOne(s: Sys) returns (e: Event)
    requires Unlocked(s) && !NothingPending(s.pending)
    ensures !e.Thread? && Can(s, e)
    ensures
      var t := Next(s, e);
      && t.pc == s.pc && Debt(t.pending) < Debt(s.pending)
      && (t.notify || !NothingPending(t.pending))
  {
    var w := s.pending;
    if w.signaling > 0 {
      e := Control(Signal);
    } else if w.announcing > 0 {
      e := Control(AnnounceEnds);
    } else {
      e := PayUser(s);
    }
  }

  lemma PayUser(s: Sys) returns (e: Event)
    requires Unlocked(s) && !NothingPending(s.pending) && s.pending.signaling == s.pending.announcing == 0
    ensures !e.Thread? && Can(s, e)
    ensures var t := Next(s, e); t.pc == s.pc && Debt(t.pending) < Debt(s.pending) && t.pending.signaling > 0
  {
    var w := s.pending;
    if w.inTimeout.counts != multiset{} {
      var u := SomeOne(w.inTimeout.counts);
      e := Request(TimeoutEnds(u));
    } else if w.stopping.counts != multiset{} {
      var u := SomeOne(w.stopping.counts);
      e := Request(TimerStopped(u, true));
    } else {
      var u := SomeOne(w.leaving.counts);
      e := Request(TimerStopped(u, false));
    }
  }
}
