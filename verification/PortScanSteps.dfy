/**
 The scan as one computation (PortScan) and as the small steps of the thread: they agree, from
 any place of the scan, up to a dispatch, to its end, or to a call of autoConnectDevice, and
 again from there.
 */
module PortScanSteps {
  import opened Common
  import opened PortQueues
  import opened PortRegions
  import opened PortScan
  import opened PortSystem
  import opened PortRep
  import opened PortOrder

  /** The events of a scan from (i, k) to its end, or to the request for which autoConnectDevice is called. */
  function ScanEvents(p: Port, i: nat, k: nat, callTimeout: bool): seq<ThreadEvent>
    requires InListOrAtEnd(p.requests.queues, i, k)
    decreases i, |p.requests.queues.List(i)| - k
  {
    if k == |p.requests.queues.List(i)| then
      if i == LOW then [Look(false)] else [Look(false)] + ScanEvents(p, i - 1, 0, callTimeout)
    else
      var u := p.requests.queues.List(i)[k];
      var d := DpcOf(p.clients, u);
      if !p.devices.enabled.Has(d) then [Look(false)] + ScanEvents(p, i, k + 1, callTimeout)
      else if Tries(p, d) then []
      else if NotLockedOut(p.blocking, u, d) then [Look(false), Test]
      else [Look(false), Test] + ScanEvents(p, i, k + 1, FlagAfter(p, u, callTimeout))
  }

  /** The state after these events, if all of them can happen. */
  function After(s: Sys, es: seq<ThreadEvent>): Option<Sys>
    decreases |es|
  {
    if es == [] then Some(s)
    else if CanThread(s, es[0]) then After(ThreadNext(s, es[0]), es[1..])
    else None
  }

  /** The thread comes to position `k` of list `i`. */
  function Standing(s: Sys, i: nat, k: nat, callTimeout: bool): Sys {
    s.(pc := Scanning(i, k, callTimeout))
  }

  /** The state in which a scan ends that finds `r`; an attempt leaves the thread in front of the request. */
  function Scanned(s: Sys, r: ScanResult): Sys
    requires r.Found? ==> ValidSlot(s.port.requests.queues, r.slot)
  {
    match r
    case Found(t, flag) =>
      var u := At(s.port.requests.queues, t);
      s.(port := Dispatch(s.port, t), pc := Dispatched(u, DpcOf(s.port.clients, u), flag, s.port.requests.timed.Has(u)))
    case Attempt(t, flag) => Standing(s, t.list, t.pos, flag)
    case Exhausted => s.(pc := Waiting)
  }

  lemma LookFirst(s: Sys, es: seq<ThreadEvent>)
    requires s.pc.Scanning? && InListOrAtEnd(s.port.requests.queues, s.pc.i, s.pc.k)
    ensures After(s, [Look(false)] + es) ==
      After(s.(pc := LookStep(s.port, s.pc.i, s.pc.k, s.pc.callTimeout, false)), es)
  {
    assert ([Look(false)] + es)[1..] == es;
    assert CanThread(s, Look(false));
  }

  lemma TestFirst(s: Sys, es: seq<ThreadEvent>)
    requires s.pc.Testing? && InList(s.port.requests.queues, s.pc.i, s.pc.k)
    ensures After(s, [Test] + es) == After(TestStep(s, s.pc.i, s.pc.k, s.pc.callTimeout), es)
  {
    assert ([Test] + es)[1..] == es;
    assert CanThread(s, Test);
  }

  /** These events lead from `s` to the end of a scan that finds `r`. */
  predicate Refines(s: Sys, es: seq<ThreadEvent>, r: ScanResult) {
    (r.Found? ==> ValidSlot(s.port.requests.queues, r.slot)) && After(s, es) == Some(Scanned(s, r))
  }

  /** The events from the second half of the loop's body on. */
  function TestEvents(p: Port, i: nat, k: nat, callTimeout: bool): seq<ThreadEvent>
    requires InList(p.requests.queues, i, k)
  {
    var u := p.requests.queues.List(i)[k];
    if NotLockedOut(p.blocking, u, DpcOf(p.clients, u)) then [Test]
    else [Test] + ScanEvents(p, i, k + 1, FlagAfter(p, u, callTimeout))
  }

  /** Step by step the thread does what ScanFrom computes in one go. */
  lemma {:induction false} StepsRefineScanFrom(s: Sys, i: nat, k: nat, callTimeout: bool)
    requires InListOrAtEnd(s.port.requests.queues, i, k) && !s.port.requests.changed
    ensures
      Refines(Standing(s, i, k, callTimeout), ScanEvents(s.port, i, k, callTimeout),
        ScanFrom(s.port, i, k, callTimeout))
    decreases i, |s.port.requests.queues.List(i)| - k, 2
  {
    if k < |s.port.requests.queues.List(i)| {
      StepsRefineFromSlot(s, i, k, callTimeout);
    } else {
      StepsRefineEnd(s, i, callTimeout);
      if i > LOW {
        StepsRefineScanFrom(s, i - 1, 0, callTimeout);
      }
    }
  }

  lemma {:induction false} StepsRefineFromSlot(s: Sys, i: nat, k: nat, callTimeout: bool)
    requires InList(s.port.requests.queues, i, k) && !s.port.requests.changed
    ensures
      Refines(Standing(s, i, k, callTimeout), ScanEvents(s.port, i, k, callTimeout),
        ScanFrom(s.port, i, k, callTimeout))
    decreases i, |s.port.requests.queues.List(i)| - k, 1
  {
    var p, t := s.port, Standing(s, i, k, callTimeout);
    var d := DpcOf(p.clients, p.requests.queues.List(i)[k]);
    if !p.devices.enabled.Has(d) {
      LookFirst(t, ScanEvents(p, i, k + 1, callTimeout));
      StepsRefineScanFrom(s, i, k + 1, callTimeout);
    } else if !Tries(p, d) {
      var v := s.(pc := Testing(i, k, callTimeout));
      LookIsTest(s, i, k, callTimeout);
      StepsRefineTestSlot(v, i, k, callTimeout);
      assert ScanFrom(p, i, k, callTimeout) == TestSlot(p, i, k, callTimeout);
      SameEnd(t, v, TestSlot(p, i, k, callTimeout));
    }
  }

  /** From the place before the request to the test of it. */
  lemma LookIsTest(s: Sys, i: nat, k: nat, callTimeout: bool)
    requires InList(s.port.requests.queues, i, k) && !s.port.requests.changed
    requires
      var d := DpcOf(s.port.clients, s.port.requests.queues.List(i)[k]);
      s.port.devices.enabled.Has(d) && !Tries(s.port, d)
    ensures
      After(Standing(s, i, k, callTimeout), ScanEvents(s.port, i, k, callTimeout)) ==
      After(s.(pc := Testing(i, k, callTimeout)), TestEvents(s.port, i, k, callTimeout))
  {
    var rest := TestEvents(s.port, i, k, callTimeout);
    LookFirst(Standing(s, i, k, callTimeout), rest);
    assert ScanEvents(s.port, i, k, callTimeout) == [Look(false)] + rest;
  }

  lemma SameEnd(s: Sys, t: Sys, r: ScanResult)
    requires t == s.(pc := t.pc) && (r.Found? ==> ValidSlot(s.port.requests.queues, r.slot))
    ensures Scanned(s, r) == Scanned(t, r)
  {
  }

  /** After autoConnectDevice, or where it is not called, the steps do what TestSlot computes. */
  lemma {:induction false} StepsRefineTestSlot(s: Sys, i: nat, k: nat, callTimeout: bool)
    requires InList(s.port.requests.queues, i, k) && !s.port.requests.changed && s.pc == Testing(i, k, callTimeout)
    ensures Refines(s, TestEvents(s.port, i, k, callTimeout), TestSlot(s.port, i, k, callTimeout))
    decreases i, |s.port.requests.queues.List(i)| - k, 0
  {
    var p, u := s.port, s.port.requests.queues.List(i)[k];
    var flag := FlagAfter(p, u, callTimeout);
    if NotLockedOut(p.blocking, u, DpcOf(p.clients, u)) {
      TestFirst(s, []);
      assert [Test] + [] == [Test];
    } else {
      TestFirst(s, ScanEvents(p, i, k + 1, flag));
      StepsRefineScanFrom(s, i, k + 1, flag);
      SameEnd(Standing(s, i, k + 1, flag), s, ScanFrom(p, i, k + 1, flag));
    }
  }

  /** The step that leaves the end of a list. */
  lemma StepsRefineEnd(s: Sys, i: nat, callTimeout: bool)
    requires i <= HIGH && !s.port.requests.changed
    ensures
      var k := |s.port.requests.queues.List(i)|;
      After(Standing(s, i, k, callTimeout), ScanEvents(s.port, i, k, callTimeout)) ==
      if i == LOW then Some(Scanned(s, Exhausted))
      else After(Standing(s, i - 1, 0, callTimeout), ScanEvents(s.port, i - 1, 0, callTimeout))
  {
    var k := |s.port.requests.queues.List(i)|;
    LookFirst(Standing(s, i, k, callTimeout), if i == LOW then [] else ScanEvents(s.port, i - 1, 0, callTimeout));
    assert [Look(false)] + [] == [Look(false)];
  }

  /**
   In every run, wherever the thread stands in a scan with the lock held, its steps do what
   ScanFrom computes, or TestSlot in the second half of the loop's body.
   */
  lemma ScanIsRefined(ss: seq<Sys>, es: seq<Event>, m: nat)
    requires Run(ss, es) && m < |ss|
    ensures
      var s, p, pc := ss[m], ss[m].port, ss[m].pc;
      && (pc.Scanning? ==>
            && InListOrAtEnd(p.requests.queues, pc.i, pc.k)
            && Refines(s, ScanEvents(p, pc.i, pc.k, pc.callTimeout), ScanFrom(p, pc.i, pc.k, pc.callTimeout)))
      && (pc.Testing? ==>
            && InList(p.requests.queues, pc.i, pc.k)
            && Refines(s, TestEvents(p, pc.i, pc.k, pc.callTimeout), TestSlot(p, pc.i, pc.k, pc.callTimeout)))
  {
    RepAlways(ss, es, m);
    FreshAlways(ss, es, m);
    var s, pc := ss[m], ss[m].pc;
    if pc.Scanning? {
      StepsRefineScanFrom(s, pc.i, pc.k, pc.callTimeout);
      assert Standing(s, pc.i, pc.k, pc.callTimeout) == s;
    } else if pc.Testing? {
      StepsRefineTestSlot(s, pc.i, pc.k, pc.callTimeout);
    }
  }

  /**
   At an attempt autoConnectDevice may do nothing, or drop the lock and take it again. Either
   way the thread comes to the second half of the loop's body for this very request, with the
   flag as it was; except that it gives up if queueStateChange was set meanwhile.
   */
  lemma AttemptGoesOn(s: Sys, i: nat, k: nat, callTimeout: bool)
    requires InList(s.port.requests.queues, i, k) && !s.port.requests.changed
    requires ScanFrom(s.port, i, k, callTimeout) == Attempt(Slot(i, k), callTimeout)
    ensures
      var t, testing := Standing(s, i, k, callTimeout), Testing(i, k, callTimeout);
      && CanThread(t, Look(false)) && ThreadNext(t, Look(false)) == t.(pc := testing)
      && CanThread(t, Look(true))
      && var v := ThreadNext(t, Look(true));
         && v.pc.Dropped? && Unlocked(v) && v.port == s.port
         && forall w: Sys | w.pc == v.pc ::
              CanThread(w, RetakeInScan) &&
              ThreadNext(w, RetakeInScan) == w.(pc := if w.port.requests.changed then Waiting else testing)
  {
    var d := DpcOf(s.port.clients, s.port.requests.queues.List(i)[k]);
    ScanFindsFirst(s.port, i, k, callTimeout);
    assert s.port.devices.enabled.Has(d) && Tries(s.port, d);
  }
}
