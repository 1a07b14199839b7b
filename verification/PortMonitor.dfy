/**
 The lock regions of asynManager.c as they are written: the fields of port, dpCommon and
 userPvt updated in place, and the loops that search the queue lists. Each method is one region
 and does what its function in PortRegions, or the scan of PortScan, says.
 */
module PortMonitor {
  import opened Common
  import opened PortQueues
  import opened PortRegions
  import opened PortScan

  class Monitor {
    const queueList: array<seq<UserId>>
    var queueStateChange: bool
    var isQueued: Flag
    var timed: Flag
    var armed: Flag
    var devices: Devices
    var clients: Clients
    var callbacks: Callbacks
    var blocking: Blocking

    ghost predicate Valid()
      reads this
    {
      queueList.Length == 4
    }

    function Lists(): Queues
      requires Valid()
      reads this, queueList
    {
      Queues(queueList[LOW], queueList[MEDIUM], queueList[HIGH], queueList[CONNECT])
    }

    /** The state of the port as PortRegions sees it. */
    function State(): Port
      requires Valid()
      reads this, queueList
    {
      Port(devices, clients, callbacks, blocking, Requests(Lists(), isQueued, queueStateChange, timed, armed))
    }

    /** registerPort, with dpCommonInit for the port itself */
    constructor (multiDevice: bool, destructible: bool, autoConnects: bool)
      ensures Valid() && fresh(queueList)
      ensures State() == Port(
          Devices(multiDevice, destructible, Flag({PORT}), Flag({PORT}), Flag({}), Flag({}),
            Flag(if autoConnects then {PORT} else {})),
          Clients(Flag({}), Table(map[]), Flag({}), Flag({}), Flag({})),
          Callbacks(Flag({}), Flag({}), Flag({})),
          Blocking(Counter(multiset{}), Counter(multiset{}), None, Table(map[])),
          Requests(Queues([], [], [], []), Flag({}), false, Flag({}), Flag({})))
    {
      var none, zero := Flag({}), Counter(multiset{});
      queueList := new seq<UserId>[4](_ => []);
      queueStateChange, isQueued, timed, armed := false, none, none, none;
      devices := Devices(multiDevice, destructible, Flag({PORT}), Flag({PORT}), none, none,
        if autoConnects then Flag({PORT}) else none);
      clients := Clients(none, Table(map[]), none, none, none);
      callbacks := Callbacks(none, none, none);
      blocking := Blocking(zero, zero, None, Table(map[]));
    }

    function FindDpCommon(u: UserId): (d: DpcId)
      requires Valid()
      reads this, queueList
      ensures d == DpcOf(State().clients, u)
    {
      if clients.device.Has(u) then clients.device.Get(u) else PORT
    }

    /** ellInsert at the front, or ellAdd at the end, of list `i`. */
    method EllAdd(i: Priority, u: UserId, front: bool)
      requires Valid()
      modifies queueList
      ensures Valid() && Lists() == if front then Prepend(old(Lists()), i, u) else Append(old(Lists()), i, u)
    {
      queueList[i] := if front then [u] + queueList[i] else queueList[i] + [u];
    }

    /** addToFront: the user holds the port or its device. */
    method IsHolder(u: UserId) returns (addToFront: bool)
      requires Valid()
      ensures addToFront == AddsToFront(State(), u)
    {
      addToFront := false;
      if blocking.portCount.Has(u) || blocking.deviceCount.Has(u) {
        if blocking.holder == Some(u) {
          addToFront := true;
        }
        var d := FindDpCommon(u);
        if blocking.dpcHolder.Has(d) && blocking.dpcHolder.Get(d) == u {
          addToFront := true;
        }
      }
    }

    method QueueRequest(u: UserId, priority: Priority, timeout: real, evenIfNotConnected: bool)
      returns (status: QueueResult)
      requires Valid()
      modifies this, queueList
      ensures Valid()
      ensures status == QueueStatus(old(State()), u, priority, timeout, evenIfNotConnected)
      ensures State() == PortRegions.QueueRequest(old(State()), u, priority, timeout, evenIfNotConnected)
    {
      if !clients.attached.Has(u) {
        return NotAttached;
      }
      if !clients.hasProcess.Has(u) {
        return NoProcessCallback;
      }
      var checkPortConnect := !(priority == CONNECT && (FindDpCommon(u) == PORT || evenIfNotConnected));
      if !devices.enabled.Has(PORT) {
        return PortDisabled;
      }
      if checkPortConnect && !devices.connected.Has(PORT) {
        return PortDisconnected;
      }
      if isQueued.Has(u) {
        return AlreadyQueued;
      }
      if timeout > 0.0 && !clients.hasTimeoutUser.Has(u) {
        return NoTimeoutCallback;
      }
      var addToFront := IsHolder(u);
      EllAdd(priority, u, addToFront);
      queueStateChange := true;
      isQueued := isQueued.Add(u);
      if timeout <= 0.0 {
        timed := timed.Del(u);
      } else {
        timed := timed.Add(u);
        armed := armed.Add(u);
      }
      status := Accepted;
    }

    /** Takes position `k` off list `i`. */
    method EllDelete(i: Priority, k: nat)
      requires Valid() && k < |queueList[i]|
      modifies queueList
      ensures Valid() && Lists() == Delete(old(Lists()), Slot(i, k))
    {
      queueList[i] := Without(queueList[i], k);
    }

    /** The search for a user, from the Connect list down; the lists stay as they are. */
    method Search(u: UserId) returns (found: Option<Slot>)
      requires Valid()
      ensures found == Locate(Lists(), u, CONNECT)
    {
      var i: int := CONNECT;
      while i >= LOW
        invariant -1 <= i <= CONNECT
        invariant i == -1 ==> Locate(Lists(), u, CONNECT) == None
        invariant i >= 0 ==> Locate(Lists(), u, CONNECT) == Locate(Lists(), u, i)
      {
        var l := queueList[i];
        assert l == Lists().List(i);
        var k := 0;
        while k < |l| && l[k] != u
          invariant 0 <= k <= |l| && u !in l[..k]
        {
          k := k + 1;
        }
        FirstIndex(l, u, k);
        if k < |l| {
          return Some(Slot(i, k));
        }
        i := i - 1;
      }
      found := None;
    }

    /** Finds the request of `u` and takes it off its list. */
    method Withdraw(u: UserId) returns (found: bool)
      requires Valid()
      modifies this, queueList
      ensures Valid() && found == Locate(old(Lists()), u, CONNECT).Some?
      ensures State() == if found
        then old(State()).(requests := Remove(old(State()).requests, Locate(old(Lists()), u, CONNECT).value))
        else old(State())
    {
      var place := Search(u);
      found := place.Some?;
      if found {
        EllDelete(place.value.list, place.value.pos);
        isQueued := isQueued.Del(u);
        queueStateChange := true;
      }
    }

    method CancelRequest(u: UserId) returns (outcome: CancelResult, stopsTimer: bool)
      requires Valid()
      modifies this, queueList
      ensures Valid()
      ensures outcome == CancelOutcome(old(State()), u)
      ensures State() == PortRegions.CancelRequest(old(State()), u)
      ensures stopsTimer <==> outcome == Removed && old(timed).Has(u)
    {
      if !clients.attached.Has(u) {
        return CancelNotAttached, false;
      }
      if !isQueued.Has(u) {
        if callbacks.active.Has(u) && !callbacks.canceled.Has(u) {
          callbacks := callbacks.(active := callbacks.active.Del(u), canceled := callbacks.canceled.Add(u));
          return WaitForCallback, false;
        }
        return NotQueued, false;
      }
      var found := Withdraw(u);
      if !found {
        return CancelLogicError, false;
      }
      stopsTimer := timed.Has(u);
      outcome := Removed;
    }

    /** The first region of queueTimeoutCallback. */
    method TimerExpires(u: UserId) returns (outcome: ExpireResult)
      requires Valid()
      modifies this, queueList
      ensures Valid()
      ensures outcome == ExpireOutcome(old(State()), u)
      ensures State() == Expire(old(State()), u)
    {
      armed := armed.Del(u);
      if !isQueued.Has(u) {
        return NotPending;
      }
      var found := Withdraw(u);
      if !found {
        return ExpireLogicError;
      }
      if clients.hasTimeoutUser.Has(u) {
        callbacks := callbacks.(active := callbacks.active.Add(u), canceled := callbacks.canceled.Del(u));
        outcome := RunTimeoutUser;
      } else {
        outcome := NoTimeoutUser;
      }
    }

    /** portThread takes position `k` of list `i` off and is about to call it back. */
    method TakeOff(i: Priority, k: nat) returns (u: UserId, stopsTimer: bool)
      requires Valid() && k < |queueList[i]|
      modifies this, queueList
      ensures Valid()
      ensures u == old(queueList[i][k]) && (stopsTimer <==> timed.Has(u))
      ensures State() == Dispatch(old(State()), Slot(i, k))
    {
      u := queueList[i][k];
      EllDelete(i, k);
      isQueued := isQueued.Del(u);
      callbacks := callbacks.(active := callbacks.active.Add(u), canceled := callbacks.canceled.Del(u));
      stopsTimer := timed.Has(u);
    }

    /**
     The first half of the loop's body: pass over the request, or call autoConnectDevice, which
     would drop the lock.
     */
    method Regard(u: UserId) returns (skip: bool, attempt: bool)
      requires Valid()
      ensures var p := State();
        var d := DpcOf(p.clients, u);
        && skip == !p.devices.enabled.Has(d)
        && attempt == (!p.devices.connected.Has(d) && MayAutoConnect(p, d))
    {
      var d := FindDpCommon(u);
      skip := !devices.enabled.Has(d);
      attempt := !devices.connected.Has(d) &&
        (if !devices.connected.Has(PORT) then devices.autoConnect.Has(PORT) else devices.autoConnect.Has(d));
    }

    /** The second half of the loop's body: raise the flag, and dispatch the request unless it is locked out. */
    method Consider(i: Priority, k: nat, flag: bool) returns (callTimeoutUser: bool, taken: bool)
      requires Valid() && k < |queueList[i]|
      modifies this, queueList
      ensures Valid()
      ensures var p, u := old(State()), old(queueList[i][k]);
        && callTimeoutUser == FlagAfter(p, u, flag) && taken == NotLockedOut(p.blocking, u, DpcOf(p.clients, u))
        && State() == if taken then Dispatch(p, Slot(i, k)) else p
    {
      var u := queueList[i][k];
      var d := FindDpCommon(u);
      callTimeoutUser, taken := flag, false;
      if !devices.connected.Has(d) && clients.hasTimeoutUser.Has(u) {
        callTimeoutUser := true;
      }
      if (blocking.holder == None || blocking.holder == Some(u)) &&
        (!blocking.dpcHolder.Has(d) || blocking.dpcHolder.Get(d) == u) {
        var _, _ := TakeOff(i, k);
        taken := true;
      }
    }

    /**
     The for loops of portThread, from position `k` of list `i`, or, once autoConnectDevice has
     returned, from the middle of the loop's body. They end where a request is dispatched, where
     autoConnectDevice has to be called, or at the end of the Low list.
     */
    method Scan(i: nat, k: nat, flag: bool, resumed: bool) returns (r: ScanResult)
      requires Valid() && i <= HIGH && k <= |queueList[i]| && (resumed ==> k < |queueList[i]|)
      modifies this, queueList
      ensures Valid()
      ensures r == if resumed then TestSlot(old(State()), i, k, flag) else ScanFrom(old(State()), i, k, flag)
      ensures r.Found? ==> ValidSlot(old(Lists()), r.slot)
      ensures State() == if r.Found? then Dispatch(old(State()), r.slot) else old(State())
    {
      var list, pos, callTimeoutUser, again := i, k, flag, resumed;
      ghost var p := State();
      ghost var goal := if resumed then TestSlot(p, i, k, flag) else ScanFrom(p, i, k, flag);
      while true
        invariant Valid() && State() == p
        invariant 0 <= list <= HIGH && 0 <= pos <= |p.requests.queues.List(list)|
        invariant again ==> pos < |p.requests.queues.List(list)|
        invariant goal == if again then TestSlot(p, list, pos, callTimeoutUser)
          else ScanFrom(p, list, pos, callTimeoutUser)
        decreases list, |p.requests.queues.List(list)| - pos
      {
        assert queueList[list] == p.requests.queues.List(list);
        if pos == |queueList[list]| {
          if list == LOW {
            return Exhausted;
          }
          list, pos := list - 1, 0;
        } else {
          var skip, attempt := Regard(queueList[list][pos]);
          if !again && skip {
            pos := pos + 1;
          } else if !again && attempt {
            return Attempt(Slot(list, pos), callTimeoutUser);
          } else {
            var taken: bool;
            callTimeoutUser, taken := Consider(list, pos, callTimeoutUser);
            if taken {
              return Found(Slot(list, pos), callTimeoutUser);
            }
            again, pos := false, pos + 1;
          }
        }
      }
    }

    /** One turn of the loop over the Connect list. */
    method NextConnect() returns (u: Option<UserId>, stopsTimer: bool)
      requires Valid()
      modifies this, queueList
      ensures Valid()
      ensures if old(queueList[CONNECT]) == [] then u == None && State() == old(State())
              else u == Some(old(queueList[CONNECT][0])) && State() == Dispatch(old(State()), Slot(CONNECT, 0))
    {
      if queueList[CONNECT] == [] {
        return None, false;
      }
      var v, stops := TakeOff(CONNECT, 0);
      return Some(v), stops;
    }

    /** The region after a callback; only the loop over the other lists makes its user a holder. */
    method AfterCallback(u: UserId, d: DpcId, takesHolders: bool)
      requires Valid()
      modifies this
      ensures Valid()
      ensures State() == old(State()).(
          callbacks := EndCallback(old(State()).callbacks, u),
          blocking := if takesHolders then TakeHolders(old(State()).blocking, u, d) else old(State()).blocking)
    {
      if takesHolders {
        if blocking.portCount.Has(u) {
          blocking := blocking.(holder := Some(u));
        }
        if blocking.deviceCount.Has(u) {
          blocking := blocking.(dpcHolder := blocking.dpcHolder.Put(d, u));
        }
      }
      if callbacks.canceled.Has(u) {
        callbacks := callbacks.(done := callbacks.done.Add(u));
      }
      callbacks := callbacks.(active := callbacks.active.Del(u), canceled := callbacks.canceled.Del(u));
    }

    method BlockProcessCallback(u: UserId, allDevices: bool) returns (status: BlockResult)
      requires Valid()
      modifies this
      ensures Valid()
      ensures status == BlockStatus(old(State()), u) && State() == Block(old(State()), u, allDevices)
    {
      if !clients.attached.Has(u) {
        return BlockNotAttached;
      }
      if isQueued.Has(u) {
        return BlockQueued;
      }
      if allDevices {
        blocking := blocking.(portCount := blocking.portCount.Up(u));
      } else {
        blocking := blocking.(deviceCount := blocking.deviceCount.Up(u));
      }
      status := BlockOk;
    }

    method UnblockProcessCallback(u: UserId, allDevices: bool) returns (status: BlockResult, wasOwner: bool)
      requires Valid()
      modifies this
      ensures Valid()
      ensures status == UnblockStatus(old(State()), u, allDevices) && State() == Unblock(old(State()), u, allDevices)
      ensures wasOwner == Releases(old(State()), u, allDevices)
    {
      wasOwner := false;
      if !clients.attached.Has(u) {
        return BlockNotAttached, false;
      }
      if (allDevices && !blocking.portCount.Has(u)) || (!allDevices && !blocking.deviceCount.Has(u)) {
        return NotBlocked, false;
      }
      if isQueued.Has(u) {
        return BlockQueued, false;
      }
      status := BlockOk;
      if allDevices {
        blocking := blocking.(portCount := blocking.portCount.Down(u));
        if !blocking.portCount.Has(u) && blocking.holder == Some(u) {
          blocking := blocking.(holder := None);
          wasOwner := true;
        }
      } else {
        blocking := blocking.(deviceCount := blocking.deviceCount.Down(u));
        if !blocking.deviceCount.Has(u) {
          var d := FindDpCommon(u);
          if blocking.dpcHolder.Has(d) && blocking.dpcHolder.Get(d) == u {
            blocking := blocking.(dpcHolder := blocking.dpcHolder.Drop(d));
            wasOwner := true;
          }
        }
      }
    }

    method ConnectDevice(u: UserId, addr: int) returns (ok: bool)
      requires Valid()
      modifies this
      ensures Valid()
      ensures ok == !old(clients).attached.Has(u) && State() == Attach(old(State()), u, addr)
    {
      if clients.attached.Has(u) {
        return false;
      }
      var d := if devices.multiDevice && addr >= 0 then addr + 1 else PORT;
      if !devices.known.Has(d) {
        devices := devices.(known := devices.known.Add(d), enabled := devices.enabled.Add(d),
                            autoConnect := devices.autoConnect.Put(d, devices.autoConnect.Has(PORT)));
      }
      clients := clients.(attached := clients.attached.Add(u), device := clients.device.Put(u, d));
      ok := true;
    }

    method Disconnect(u: UserId) returns (ok: bool)
      requires Valid()
      modifies this
      ensures Valid()
      ensures ok == DetachOk(old(State()), u) && State() == Detach(old(State()), u)
    {
      if !clients.attached.Has(u) || isQueued.Has(u) || blocking.portCount.Has(u) || blocking.deviceCount.Has(u) ||
        clients.onExceptionList.Has(u) {
        return false;
      }
      clients := clients.(attached := clients.attached.Del(u), device := clients.device.Drop(u));
      ok := true;
    }

    method Enable(d: DpcId, yes: bool) returns (ok: bool)
      requires Valid()
      modifies this
      ensures Valid()
      ensures ok == EnableOk(old(State()).devices, d)
      ensures State() == old(State()).(devices := PortRegions.Enable(old(State()).devices, d, yes))
    {
      if devices.defunct.Has(d) {
        return false;
      }
      devices := devices.(enabled := if yes then devices.enabled.Add(d) else devices.enabled.Del(d));
      ok := true;
    }

    method ShutdownPort(d: DpcId) returns (ok: bool)
      requires Valid()
      modifies this
      ensures Valid()
      ensures ok == ShutdownOk(old(State()).devices, d)
      ensures State() == old(State()).(devices := Shutdown(old(State()).devices, d))
    {
      if devices.defunct.Has(d) || !devices.destructible {
        return false;
      }
      devices := devices.(enabled := devices.enabled.Del(d), defunct := devices.defunct.Add(d));
      ok := true;
    }
  }

  /** IndexOf is the first position at which the user stands. */
  lemma {:induction false} FirstIndex(l: seq<UserId>, u: UserId, k: nat)
    requires k <= |l| && u !in l[..k] && (k < |l| ==> l[k] == u)
    ensures IndexOf(l, u) == k
  {
    if l != [] && l[0] != u {
      assert l[1..][..k - 1] == l[1..k];
      FirstIndex(l[1..], u, k - 1);
    }
  }
}
