/**
 The port and its driver as the code has them, calling each other back; each method does what
 its function in Shutdown says.
 */
module ShutdownObjects {
  import opened Shutdown

  /** The port's dpCommon and the driver object; `handlers` is exceptionUserList. */
  class PortDriver {
    const destructible: bool
    var enabled: bool
    var defunct: bool
    var shutdownNeeded: bool
    var handlers: seq<Handler>
    var raised: nat
    var deleted: nat
    var touchedDead: bool

    function Contents(): State
      reads this
    {
      State(destructible, enabled, defunct, shutdownNeeded, Handlers(handlers), raised, deleted, touchedDead)
    }

    constructor (destructible: bool)
      ensures Init(Contents()) && Contents().destructible == destructible
    {
      this.destructible := destructible;
      enabled, defunct, shutdownNeeded := true, false, destructible;
      handlers := if destructible then [Driver] else [];
      raised, deleted, touchedDead := 0, 0, false;
    }

    method Enable(yes: bool) returns (status: Status)
      modifies this
      ensures status == EnableStatus(old(Contents())) && Contents() == Next(old(Contents()), Enables(yes))
    {
      if defunct {
        return Disabled;
      }
      enabled := yes;
      status := Success;
    }

    method ShutdownPort() returns (status: Status)
      modifies this
      ensures status == ShutdownStatus(old(Contents()))
      ensures Contents() == Shutdown.ShutdownPort(old(Contents()))
      decreases Left(Contents()), if defunct then 0 else 4, 0
    {
      if defunct {
        return Success;
      }
      if !destructible {
        return Error;
      }
      enabled := false;
      defunct := true;
      raised := raised + 1;
      Announce();
      status := Success;
    }

    method Announce()
      requires defunct
      modifies this
      ensures Contents() == Shutdown.Announce(old(Contents()), 0)
      decreases Left(Contents()), 3, 0
    {
      ghost var was := Contents();
      var k := 0;
      while k < |handlers|
        invariant defunct && Left(Contents()) <= Left(was) && handlers == was.handlers.list
        invariant Shutdown.Announce(Contents(), k) == Shutdown.Announce(was, 0)
        decreases |was.handlers.list| - k
      {
        match handlers[k] {
          case Driver => ExceptionHandler();
          case Client(shutsDown) => if shutsDown { var _ := ShutdownPort(); }
        }
        k := k + 1;
      }
    }

    method NeedsShutdown() returns (needed: bool)
      modifies this
      ensures needed == shutdownNeeded && Contents() == Touch(old(Contents()))
    {
      touchedDead := touchedDead || deleted > 0;
      needed := shutdownNeeded;
    }

    method ExceptionHandler()
      requires defunct
      modifies this
      ensures Contents() == Shutdown.ExceptionHandler(old(Contents()))
      decreases Left(Contents()), 1, 1
    {
      var needed := NeedsShutdown();
      if needed {
        ShutdownPortDriver();
        Destroy();
      }
    }

    method ShutdownPortDriver()
      modifies this
      ensures Contents() == Shutdown.ShutdownPortDriver(old(Contents()))
      decreases Left(Contents()), 1, 0
    {
      if shutdownNeeded {
        shutdownNeeded := false;
        var _ := ShutdownPort();
      }
    }

    method Destroy()
      modifies this
      ensures Contents() == Shutdown.Destroy(old(Contents()))
      decreases Left(Contents()), 1, if shutdownNeeded then 1 else 0
    {
      if shutdownNeeded {
        ShutdownPortDriver();
      }
      deleted := deleted + 1;
    }
  }
}
