/**
 The scan of portThread over the High, Medium and Low lists (asynManager.c:869-900) as a
 function of the port's state, and what it finds.
 */
module PortScan {
  import opened PortQueues
  import opened PortRegions

  /** Slot `s` lies before position `k` of list `i` in the order of the scan. */
  predicate Before(s: Slot, i: nat, k: nat) {
    s.list <= HIGH && (s.list > i || (s.list == i && s.pos < k))
  }

  /** autoConnectDevice finds something to connect: the port, or the device when the port is up. */
  predicate MayAutoConnect(p: Port, d: DpcId) {
    if !p.devices.connected.Has(PORT) then p.devices.autoConnect.Has(PORT)
    else !p.devices.connected.Has(d) && p.devices.autoConnect.Has(d)
  }

  /** The lines that set callTimeoutUser. The flag is only ever set here. */
  predicate FlagAfter(p: Port, u: UserId, callTimeout: bool) {
    callTimeout || (!p.devices.connected.Has(DpcOf(p.clients, u)) && p.clients.hasTimeoutUser.Has(u))
  }

  /**
   Found: this request is taken off its list and called back. Attempt: this request's device is
   not connected and autoConnectDevice, which drops the lock, has to be called before it is
   looked at again. Exhausted: nothing can be dispatched.
   */
  datatype ScanResult = Found(slot: Slot, callTimeout: bool) | Attempt(slot: Slot, callTimeout: bool) | Exhausted

  function ScanFrom(p: Port, i: nat, k: nat, callTimeout: bool): ScanResult
    requires i <= HIGH && k <= |p.requests.queues.List(i)|
    decreases i, |p.requests.queues.List(i)| - k
  {
    if k == |p.requests.queues.List(i)| then
      if i == LOW then Exhausted else ScanFrom(p, i - 1, 0, callTimeout)
    else
      var d := DpcOf(p.clients, p.requests.queues.List(i)[k]);
      if !p.devices.enabled.Has(d) then ScanFrom(p, i, k + 1, callTimeout)
      else if Tries(p, d) then Attempt(Slot(i, k), callTimeout)
      else TestSlot(p, i, k, callTimeout)
  }

  /** The rest of the loop body, from the second look at `connected`. */
  function TestSlot(p: Port, i: nat, k: nat, callTimeout: bool): ScanResult
    requires i <= HIGH && k < |p.requests.queues.List(i)|
    decreases i, |p.requests.queues.List(i)| - k, 0
  {
    var u := p.requests.queues.List(i)[k];
    var flag := FlagAfter(p, u, callTimeout);
    if NotLockedOut(p.blocking, u, DpcOf(p.clients, u)) then Found(Slot(i, k), flag) else ScanFrom(p, i, k + 1, flag)
  }

  /** autoConnectDevice is called for this dpCommon. */
  predicate Tries(p: Port, d: DpcId) {
    !p.devices.connected.Has(d) && MayAutoConnect(p, d)
  }

  /** The scan does not pass over this request: it dispatches it, or has to call autoConnectDevice first. */
  predicate Stops(p: Port, u: UserId) {
    var d := DpcOf(p.clients, u);
    p.devices.enabled.Has(d) && (Tries(p, d) || NotLockedOut(p.blocking, u, d))
  }

  /** A request that raises callTimeoutUser when the scan passes it. */
  predicate RaisesFlag(p: Port, s: Slot) {
    ValidSlot(p.requests.queues, s) &&
    var u := At(p.requests.queues, s);
    var d := DpcOf(p.clients, u);
    p.devices.enabled.Has(d) && !p.devices.connected.Has(d) && p.clients.hasTimeoutUser.Has(u)
  }

  /** The scan has yet to look at slot `s` when it stands at position `k` of list `i`. */
  predicate Ahead(q: Queues, s: Slot, i: nat, k: nat) {
    ValidSlot(q, s) && s.list <= HIGH && !Before(s, i, k)
  }

  /** The scan from (i, k) passes over `t` before it comes to `end`. */
  predicate Passes(q: Queues, t: Slot, i: nat, k: nat, end: Slot) {
    Ahead(q, t, i, k) && Before(t, end.list, end.pos)
  }

  ghost predicate NoneAhead(p: Port, i: nat, k: nat) {
    forall t | Ahead(p.requests.queues, t, i, k) :: !Dispatchable(p, At(p.requests.queues, t))
  }

  ghost predicate NoneStops(p: Port, i: nat, k: nat) {
    forall t | Ahead(p.requests.queues, t, i, k) :: !Stops(p, At(p.requests.queues, t))
  }

  /** `end` is the first request, from (i, k), at which the scan stops. */
  ghost predicate FirstStop(p: Port, i: nat, k: nat, end: Slot) {
    && Ahead(p.requests.queues, end, i, k) && Stops(p, At(p.requests.queues, end))
    && forall t | Passes(p.requests.queues, t, i, k, end) :: !Stops(p, At(p.requests.queues, t))
  }

  /** The flag has been raised by the time the scan has passed all before `end`. */
  ghost predicate FlagBefore(p: Port, i: nat, k: nat, callTimeout: bool, end: Slot) {
    callTimeout || exists t :: RaisesFlag(p, t) && Passes(p.requests.queues, t, i, k, end)
  }

  /**
   The scan stops at the first request in the order priority, then list position, that is
   enabled and either has a device to be connected automatically or is not locked out. In the
   first case autoConnectDevice is called; in the second the request is dispatched, and its
   callback is the timeout callback exactly when the flag was already up or some request passed
   on the way, or this one, is enabled, disconnected and has a timeout callback.
   */
  ghost predicate ScanSpec(p: Port, i: nat, k: nat, callTimeout: bool, r: ScanResult) {
    match r
    case Exhausted => NoneStops(p, i, k)
    case Attempt(s, flag) =>
      && FirstStop(p, i, k, s) && Tries(p, DpcOf(p.clients, At(p.requests.queues, s)))
      && (flag <==> FlagBefore(p, i, k, callTimeout, s))
    case Found(s, flag) =>
      && FirstStop(p, i, k, s) && Dispatchable(p, At(p.requests.queues, s))
      && !Tries(p, DpcOf(p.clients, At(p.requests.queues, s)))
      && (flag <==> FlagBefore(p, i, k, callTimeout, s) || RaisesFlag(p, s))
  }

  lemma SpecOfNextList(p: Port, i: nat, callTimeout: bool, r: ScanResult)
    requires LOW < i <= HIGH && ScanSpec(p, i - 1, 0, callTimeout, r)
    ensures ScanSpec(p, i, |p.requests.queues.List(i)|, callTimeout, r)
  {
    var q := p.requests.queues;
    assert forall t :: Ahead(q, t, i, |q.List(i)|) <==> Ahead(q, t, i - 1, 0);
    if !r.Exhausted? {
      assert forall t :: Passes(q, t, i, |q.List(i)|, r.slot) <==> Passes(q, t, i - 1, 0, r.slot);
    }
  }

  lemma SpecOfNextSlot(p: Port, i: nat, k: nat, callTimeout: bool, flag: bool, r: ScanResult)
    requires i <= HIGH && k < |p.requests.queues.List(i)| && ScanSpec(p, i, k + 1, flag, r)
    requires !Stops(p, p.requests.queues.List(i)[k])
    requires flag <==> callTimeout || RaisesFlag(p, Slot(i, k))
    ensures ScanSpec(p, i, k, callTimeout, r)
  {
    var here, q := Slot(i, k), p.requests.queues;
    assert forall t :: Ahead(q, t, i, k) <==> t == here || Ahead(q, t, i, k + 1);
    if !r.Exhausted? {
      assert forall t :: Passes(q, t, i, k, r.slot) <==> t == here || Passes(q, t, i, k + 1, r.slot);
    }
  }

  lemma SpecOfStop(p: Port, i: nat, k: nat, callTimeout: bool)
    requires i <= HIGH && k < |p.requests.queues.List(i)| && Stops(p, p.requests.queues.List(i)[k])
    ensures ScanSpec(p, i, k, callTimeout, ScanFrom(p, i, k, callTimeout))
  {
    var here := Slot(i, k);
    assert Ahead(p.requests.queues, here, i, k);
    assert forall t :: !Passes(p.requests.queues, t, i, k, here);
    if !Tries(p, DpcOf(p.clients, At(p.requests.queues, here))) {
      var flag := FlagAfter(p, At(p.requests.queues, here), callTimeout);
      assert ScanFrom(p, i, k, callTimeout) == TestSlot(p, i, k, callTimeout) == Found(here, flag);
    }
  }

  lemma {:induction false} ScanFindsFirst(p: Port, i: nat, k: nat, callTimeout: bool)
    requires i <= HIGH && k <= |p.requests.queues.List(i)|
    ensures ScanSpec(p, i, k, callTimeout, ScanFrom(p, i, k, callTimeout))
    decreases i, |p.requests.queues.List(i)| - k
  {
    var q := p.requests.queues;
    if k == |q.List(i)| {
      if i > LOW {
        ScanFindsFirst(p, i - 1, 0, callTimeout);
        SpecOfNextList(p, i, callTimeout, ScanFrom(p, i - 1, 0, callTimeout));
      }
    } else {
      var u := q.List(i)[k];
      if Stops(p, u) {
        SpecOfStop(p, i, k, callTimeout);
      } else {
        var enabled := p.devices.enabled.Has(DpcOf(p.clients, u));
        var flag := if enabled then FlagAfter(p, u, callTimeout) else callTimeout;
        assert ScanFrom(p, i, k, callTimeout) == ScanFrom(p, i, k + 1, flag);
        ScanFindsFirst(p, i, k + 1, flag);
        SpecOfNextSlot(p, i, k, callTimeout, flag, ScanFrom(p, i, k + 1, flag));
      }
    }
  }
}
