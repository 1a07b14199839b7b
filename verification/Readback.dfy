/**
 Read-back of output records (devAsynInt32.c:580-645, 768-790, 1089-1131, and alike in
 devAsynFloat64.c, devAsynInt64.c, devAsynUInt32Digital.c, devAsynOctet.c): the driver pushes
 values into the ring; a callback, requested at once or deferred to the end of an asynchronous
 write, makes the record process and take one.
 */
module Readback {
  import opened Ring

  /** A ring element, and whether its status is asynSuccess. */
  datatype Element = Element(value: int, ok: bool)

  /**
   The record is idle; or processing, with the scan lock held and devPvtLock released around
   queueRequest; or its write is on the port's queue.
   */
  datatype Phase = Idle | Writing | InFlight

  /**
   `pending` counts outputCallback requests that have not run, `deferred` is
   numDeferredOutputCallbacks, `result` the element taken last, and
   `strayWrites` counts device writes that a read-back has caused.
   */
  datatype Record = Record(
    canBlock: bool,
    capacity: nat,
    phase: Phase,
    pact: bool,
    asyncProcessingActive: bool,
    newOutputCallbackValue: bool,
    ring: seq<Element>,
    pending: nat,
    deferred: nat,
    result: Element,
    val: int,
    strayWrites: nat)

  /** interruptCallbackOutput */
  function Interrupt(r: Record, x: Element): Record {
    var pushed := r.(ring := Pushed(r.ring, x, r.capacity));
    if |r.ring| >= r.capacity then pushed
    else if r.asyncProcessingActive then pushed.(deferred := r.deferred + 1)
    else pushed.(pending := r.pending + 1)
  }

  /** getCallbackValue */
  function TakeElement(r: Record): Record {
    if r.ring == [] then r else r.(ring := r.ring[1..], result := r.ring[0])
  }

  /** The common end of processLo and its fellows: one deferred callback is requested. */
  function EndProcess(r: Record): Record {
    r.(pending := if r.deferred > 0 then r.pending + 1 else r.pending,
       deferred := if r.deferred > 0 then r.deferred - 1 else 0,
       newOutputCallbackValue := false, asyncProcessingActive := false, pact := false, phase := Idle)
  }

  /** The branch that writes to the device, up to queueRequest. */
  function StartWrite(r: Record): Record {
    r.(phase := Writing, pact := r.canBlock, asyncProcessingActive := r.canBlock)
  }

  /** Device support is called with pact 0. */
  function Process(r: Record): Record {
    if r.newOutputCallbackValue && r.ring != [] then
      var t := TakeElement(r);
      EndProcess(if t.result.ok then t.(val := t.result.value) else t)
    else StartWrite(r).(strayWrites := if r.newOutputCallbackValue then r.strayWrites + 1 else r.strayWrites)
  }

  /** After dbProcess: if the record did not process, the element is taken off all the same. */
  function CleanUp(r: Record): Record {
    if r.newOutputCallbackValue then TakeElement(r).(newOutputCallbackValue := false) else r
  }

  /** outputCallbackCallback; `skips` says that dbProcess does not process the record, for a reason other than pact. */
  function Callback(r: Record, skips: bool): Record
    requires r.pending > 0
  {
    var t := r.(pending := r.pending - 1, newOutputCallbackValue := true);
    CleanUp(if t.pact || skips then t else Process(t))
  }

  datatype Event =
    | Interrupts(x: Element)
    | CallbackRuns(skips: bool)
    | ProcessStarts
    | QueueSucceeds
    | WriteReturns
    | WriteCompletes

  /** A record in phase Writing has the scan lock, so the callback has to wait; InFlight it does not. */
  predicate Can(r: Record, e: Event) {
    match e
    case Interrupts(_) => true
    case CallbackRuns(_) => r.phase != Writing && r.pending > 0
    case ProcessStarts => r.phase == Idle
    case QueueSucceeds => r.phase == Writing && r.canBlock
    case WriteReturns => r.phase == Writing
    case WriteCompletes => r.phase == InFlight
  }

  function Next(r: Record, e: Event): Record
    requires Can(r, e)
  {
    match e
    case Interrupts(x) => Interrupt(r, x)
    case CallbackRuns(skips) => Callback(r, skips)
    case ProcessStarts => Process(r)
    case QueueSucceeds => r.(phase := InFlight)
    case WriteReturns => EndProcess(r)
    case WriteCompletes => EndProcess(r)
  }

  ghost predicate Init(r: Record) {
    && r.phase == Idle && !r.pact && !r.asyncProcessingActive && !r.newOutputCallbackValue
    && r.ring == [] && r.pending == 0 && r.deferred == 0 && r.strayWrites == 0
  }

  predicate Moment(es: seq<Event>, m: nat) {
    m < |es|
  }

  ghost predicate Run(rs: seq<Record>, es: seq<Event>) {
    && |rs| == |es| + 1 && Init(rs[0])
    && forall m: nat {:trigger Moment(es, m)} | Moment(es, m) :: Can(rs[m], es[m]) && rs[m + 1] == Next(rs[m], es[m])
  }

  // ----- the accounts -----

  /** Every element has its callback, requested or deferred. */
  predicate Balanced(r: Record) {
    && r.pending + r.deferred == |r.ring| <= r.capacity
    && r.pact == r.asyncProcessingActive == (r.phase != Idle && r.canBlock)
    && !r.newOutputCallbackValue && r.strayWrites == 0
    && (r.phase == InFlight ==> r.canBlock)
  }

  lemma BalancedStep(r: Record, e: Event)
    requires Balanced(r) && Can(r, e)
    ensures Balanced(Next(r, e))
  {
  }

  lemma RunStep(rs: seq<Record>, es: seq<Event>, m: nat)
    requires Run(rs, es) && m < |es|
    ensures Can(rs[m], es[m]) && rs[m + 1] == Next(rs[m], es[m])
  {
    assert Moment(es, m);
  }

  lemma {:induction false} BalancedAlways(rs: seq<Record>, es: seq<Event>, m: nat)
    requires Run(rs, es) && m < |rs|
    ensures Balanced(rs[m])
  {
    if m > 0 {
      BalancedAlways(rs, es, m - 1);
      RunStep(rs, es, m - 1);
      BalancedStep(rs[m - 1], es[m - 1]);
    }
  }

  /**
   In every run the callbacks requested and those deferred are together the elements in the
   ring; so a callback always finds one, takes the oldest, and never writes to the device.
   */
  lemma CallbackFindsElement(rs: seq<Record>, es: seq<Event>, m: nat)
    requires Run(rs, es) && m < |rs|
    ensures rs[m].pending + rs[m].deferred == |rs[m].ring| && rs[m].strayWrites == 0
    ensures m < |es| && es[m].CallbackRuns? ==>
      rs[m].ring != [] && rs[m + 1].result == rs[m].ring[0] && rs[m + 1].ring == rs[m].ring[1..] &&
        rs[m + 1].phase == rs[m].phase
  {
    BalancedAlways(rs, es, m);
    if m < |es| {
      RunStep(rs, es, m);
    }
  }

  // ----- nothing stranded -----

  /** A deferred read-back still has something to wait for: the end of the write, or a pending callback. */
  predicate NotStranded(r: Record) {
    r.deferred > 0 ==> r.asyncProcessingActive || r.pending > 0
  }

  predicate OnlyPactSkips(e: Event) {
    e.CallbackRuns? ==> !e.skips
  }

  lemma NotStrandedStep(r: Record, e: Event)
    requires Balanced(r) && NotStranded(r) && Can(r, e) && OnlyPactSkips(e)
    ensures NotStranded(Next(r, e))
  {
  }

  lemma {:induction false} NeverStranded(rs: seq<Record>, es: seq<Event>, m: nat)
    requires Run(rs, es) && m < |rs| && forall k | 0 <= k < |es| :: OnlyPactSkips(es[k])
    ensures NotStranded(rs[m])
  {
    if m > 0 {
      NeverStranded(rs, es, m - 1);
      BalancedAlways(rs, es, m - 1);
      RunStep(rs, es, m - 1);
      NotStrandedStep(rs[m - 1], es[m - 1]);
    }
  }

  /**
   A skip for another reason, a disabled record say, strands one exactly when it was the last
   pending and others are deferred.
   */
  lemma SkipStrandsIff(r: Record)
    requires Balanced(r) && r.phase == Idle && r.pending > 0
    ensures NotStranded(Callback(r, true)) <==> r.pending > 1 || r.deferred == 0
  {
  }

  // ----- the latest value arrives -----

  /** No callback that an element waits for is missing, and the record is not busy. */
  predicate Quiet(r: Record) {
    Balanced(r) && NotStranded(r) && r.phase == Idle
  }

  lemma CallbackTakes(r: Record)
    requires Quiet(r) && r.ring != []
    ensures r.pending > 0
    ensures
      var t := Callback(r, false);
      && Quiet(t) && t.ring == r.ring[1..] && t.result == r.ring[0]
      && t.val == if r.ring[0].ok then r.ring[0].value else r.val
  {
    BalancedStep(r, CallbackRuns(false));
    NotStrandedStep(r, CallbackRuns(false));
  }

  /** `n` callbacks, one after the other. */
  function Callbacks(r: Record, n: nat): Record
    requires Quiet(r) && n <= |r.ring|
    decreases n
  {
    if n == 0 then r
    else
      CallbackTakes(r);
      Callbacks(Callback(r, false), n - 1)
  }

  /** The value of the last good element, or else the one from before: an element with an error leaves VAL alone. */
  function LastGood(xs: seq<Element>, val: int): int {
    if xs == [] then val else if xs[|xs| - 1].ok then xs[|xs| - 1].value else LastGood(xs[..|xs| - 1], val)
  }

  lemma {:induction false} LastGoodFrom(x: Element, xs: seq<Element>, val: int)
    ensures LastGood([x] + xs, val) == LastGood(xs, if x.ok then x.value else val)
    decreases |xs|
  {
    if xs == [] {
      assert ([x] + xs)[..0] == [];
    } else {
      assert ([x] + xs)[..|xs|] == [x] + xs[..|xs| - 1];
      LastGoodFrom(x, xs[..|xs| - 1], val);
    }
  }

  /** One after the other they give the record the elements in order: after `n` of them, the n-th. */
  lemma {:induction false} ElementsArriveInOrder(r: Record, n: nat)
    requires Quiet(r) && n <= |r.ring|
    ensures
      var t := Callbacks(r, n);
      && Quiet(t) && t.ring == r.ring[n..] && (n > 0 ==> t.result == r.ring[n - 1])
      && t.val == LastGood(r.ring[..n], r.val)
    decreases n
  {
    if n > 0 {
      CallbackTakes(r);
      var u := Callback(r, false);
      ElementsArriveInOrder(u, n - 1);
      assert u.ring[n - 1..] == r.ring[n..];
      assert n > 1 ==> u.ring[n - 2] == r.ring[n - 1];
      LastGoodFrom(r.ring[0], u.ring[..n - 1], r.val);
      assert [r.ring[0]] + u.ring[..n - 1] == r.ring[..n];
    }
  }

  /**
   Once the driver is quiet and the record idle, as many callbacks follow as the ring has
   elements; they empty it, the last element the record gets is the last one pushed, and its
   value is that of the last good one.
   */
  lemma LatestArrives(r: Record)
    requires Quiet(r)
    ensures
      var t := Callbacks(r, |r.ring|);
      && t.ring == [] && t.pending == 0 && t.deferred == 0 && t.phase == Idle
      && (r.ring != [] ==> t.result == r.ring[|r.ring| - 1]) && t.val == LastGood(r.ring, r.val)
  {
    ElementsArriveInOrder(r, |r.ring|);
    assert r.ring[..|r.ring|] == r.ring;
  }

  // ----- while a write is under way -----

  /**
   A value that arrives during an asynchronous write has its callback deferred, and nothing
   requests one before the write ends. So of the elements pushed meanwhile none is taken then,
   beyond the callbacks that were already requested.
   */
  lemma DeferredDuringWrite(r: Record, e: Event)
    requires Balanced(r) && Can(r, e) && r.asyncProcessingActive && Next(r, e).asyncProcessingActive
    ensures
      var t := Next(r, e);
      && t.pending == r.pending - (if e.CallbackRuns? then 1 else 0)
      && t.deferred == r.deferred + (if e.Interrupts? && |r.ring| < r.capacity then 1 else 0)
      && t.val == r.val
  {
  }

  /** Otherwise it is requested at once; and the end of processing requests exactly one that was deferred. */
  lemma RequestedOutsideWrite(r: Record, e: Event)
    requires Balanced(r) && Can(r, e)
    ensures
      var t := Next(r, e);
      && (e.Interrupts? && !r.asyncProcessingActive ==>
            t.deferred == r.deferred && t.pending == r.pending + (if |r.ring| < r.capacity then 1 else 0))
      && (e.WriteReturns? || e.WriteCompletes? ==>
            && !t.asyncProcessingActive && !t.pact && t.phase == Idle && t.val == r.val && t.ring == r.ring
            && (if r.deferred > 0 then t.deferred == r.deferred - 1 && t.pending == r.pending + 1
                else t.deferred == 0 && t.pending == r.pending))
  {
  }

  /** Processing for any other reason writes to the device, and leaves the ring and the callbacks alone. */
  lemma ProcessingWrites(r: Record)
    requires Balanced(r) && Can(r, ProcessStarts)
    ensures Next(r, ProcessStarts) == r.(phase := Writing, pact := r.canBlock, asyncProcessingActive := r.canBlock)
  {
  }

  /**
   A callback that finds the record busy or is skipped takes its element all the same, and the
   record keeps its value.
   */
  lemma SkippedCallbackTakes(r: Record, skips: bool)
    requires Balanced(r) && Can(r, CallbackRuns(skips)) && (skips || r.pact)
    ensures r.ring != []
    ensures Next(r, CallbackRuns(skips)) == r.(pending := r.pending - 1, ring := r.ring[1..], result := r.ring[0])
  {
  }

  // ----- the exception -----

  /**
   processAo of devAsynInt32.c returns early when the break table conversion fails, as if the
   record had not processed.
   */
  function CallbackOfAo(r: Record, fails: bool): Record
    requires r.pending > 0
  {
    var t := r.(pending := r.pending - 1, newOutputCallbackValue := true);
    if !t.pact && t.ring != [] && TakeElement(t).result.ok && fails then CleanUp(TakeElement(t))
    else CleanUp(if t.pact then t else Process(t))
  }

  /**
   There the accounts stay balanced exactly when the conversion is not tried, succeeds, or the
   element was the only one.
   */
  lemma AoBalancedIff(r: Record, fails: bool)
    requires Balanced(r) && r.phase == Idle && r.pending > 0
    ensures Balanced(CallbackOfAo(r, fails)) <==> !fails || !r.ring[0].ok || |r.ring| == 1
  {
  }

  /** With two elements the next callback then finds none, and writes to the device. */
  lemma AoWritesToDevice(r: Record)
    requires Balanced(r) && r.phase == Idle && r.pending == 2 && r.deferred == 0 && r.ring[0].ok
    ensures var t := CallbackOfAo(r, true); t.pending == 1 && Callback(t, false).strayWrites == 1
  {
  }

  // ----- the code -----

  class DevPvt {
    const canBlock: bool
    const ring: RingBuffer<Element>
    var phase: Phase
    var pact: bool
    var asyncProcessingActive: bool
    var newOutputCallbackValue: bool
    var pending: nat
    var numDeferredOutputCallbacks: nat
    var result: Element
    var val: int
    var strayWrites: nat

    ghost predicate Valid()
      reads this, ring
    {
      ring.Valid()
    }

    function State(): Record
      requires Valid()
      reads this, ring, ring.slots
    {
      Record(canBlock, ring.slots.Length - 1, phase, pact, asyncProcessingActive, newOutputCallbackValue,
        ring.Contents(),
             pending, numDeferredOutputCallbacks, result, val, strayWrites)
    }

    constructor (canBlock: bool, ringSize: nat)
      ensures Valid() && fresh(ring) && fresh(ring.slots)
      ensures Init(State()) && State().canBlock == canBlock && State().capacity == ringSize
    {
      this.canBlock := canBlock;
      ring := new RingBuffer<Element>.Scalar(ringSize);
      phase, pact, asyncProcessingActive, newOutputCallbackValue := Idle, false, false, false;
      pending, numDeferredOutputCallbacks, val, strayWrites := 0, 0, 0, 0;
      result := Element(0, true);
    }

    method InterruptCallbackOutput(x: Element)
      requires Valid()
      modifies this, ring, ring.slots
      ensures Valid() && State() == Interrupt(old(State()), x)
    {
      var added := ring.Push(x);
      if added {
        if asyncProcessingActive {
          numDeferredOutputCallbacks := numDeferredOutputCallbacks + 1;
        } else {
          pending := pending + 1;
        }
      }
    }

    method GetCallbackValue() returns (ret: bool)
      requires Valid()
      modifies this, ring
      ensures Valid() && State() == TakeElement(old(State()))
      ensures ret <==> old(ring.Contents()) != []
    {
      var x := ring.Pop();
      ret := x.Some?;
      if ret {
        result := x.value;
      }
    }

    method EndOfProcess()
      requires Valid()
      modifies this
      ensures Valid() && State() == EndProcess(old(State()))
    {
      if numDeferredOutputCallbacks > 0 {
        pending := pending + 1;
        numDeferredOutputCallbacks := numDeferredOutputCallbacks - 1;
      }
      newOutputCallbackValue := false;
      asyncProcessingActive := false;
      pact, phase := false, Idle;
    }

    /** processLo with pact 0, up to queueRequest */
    method ProcessLo()
      requires Valid()
      modifies this, ring
      ensures Valid() && State() == Process(old(State()))
    {
      var got := false;
      if newOutputCallbackValue {
        got := GetCallbackValue();
      }
      if got {
        if result.ok {
          val := result.value;
        }
        EndOfProcess();
      } else {
        strayWrites := if newOutputCallbackValue then strayWrites + 1 else strayWrites;
        pact, asyncProcessingActive, phase := canBlock, canBlock, Writing;
      }
    }

    method OutputCallbackCallback(skips: bool)
      requires Valid() && pending > 0
      modifies this, ring
      ensures Valid() && State() == Callback(old(State()), skips)
    {
      pending := pending - 1;
      newOutputCallbackValue := true;
      ghost var t := State();
      if !pact && !skips {
        ProcessLo();
      }
      assert State() == if t.pact || skips then t else Process(t);
      if newOutputCallbackValue {
        var _ := GetCallbackValue();
        newOutputCallbackValue := false;
      }
    }
  }
}
