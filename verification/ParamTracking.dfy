/**
 The parameter library over whole runs: the flags are an exact dirty set, and no subscriber is
 left with a value that is not the current one.

 A run has one list, whose callbacks are done for its own address, with the interrupt sources of
 all interfaces registered; subscribers do not set parameters inside their callbacks.
 */
module ParamTracking {
  import opened Common
  import opened ParamLibrary

  datatype State = State(list: List, subscribers: Subscribers, addr: int, interruptAccept: bool)

  datatype Event =
    | CreateParam(kind: Kind, callbackMask: Word)
    | SetTo(index: int, x: Setter)
    | CallCallbacks
    | AcceptInterrupts(yes: bool)
    | Subscribe(kind: Kind, reason: nat, addr: int, mask: Word)
    | Unsubscribe(k: nat)

  /** The constructor of paramVal does not set the callback mask: it can be anything. */
  function NewParam(kind: Kind, callbackMask: Word): Param {
    Param(kind, Number(0), ZERO, false, false, Health(0, 0, 0), callbackMask)
  }

  predicate Can(s: State, e: Event) {
    match e
    case Subscribe(_, reason, _, mask) => reason < |s.list.params.vals| && mask.Fits()
    case Unsubscribe(k) => k < |s.subscribers.all|
    case _ => true
  }

  /** A change that a subscriber of this kind of parameter has to be told about. */
  predicate Noticed(p: Param, q: Param) {
    if p.kind == UInt32Digital then p.health != q.health else q.valueChanged
  }

  function Notice(us: seq<Subscriber>, p: Param, q: Param, index: int): (r: seq<Subscriber>)
    ensures |r| == |us|
    ensures forall k | 0 <= k < |us| :: r[k] == us[k].(seen := us[k].seen || (us[k].reason == index && Noticed(p, q)))
  {
    if us == [] then []
    else [us[0].(seen := us[0].seen || (us[0].reason == index && Noticed(p, q)))] + Notice(us[1..], p, q, index)
  }

  function SetStep(s: State, index: int, x: Setter): State {
    if SetterStatus(s.list, index, x) != Success then s
    else
      var p := s.list.params.vals[index];
      s.(list := SetParam(s.list, index, x),
        subscribers := Subscribers(Notice(s.subscribers.all, p, Apply(p, x), index)))
  }

  function CallStep(s: State): State {
    if !s.interruptAccept then s
    else
      var r := Called(s.list, s.subscribers, s.addr);
      s.(list := r.0, subscribers := r.1)
  }

  /** A new subscriber can read the masked value of a digital parameter; 0 stands for an undefined one. */
  function NewSubscriber(p: Param, kind: Kind, reason: nat, addr: int, mask: Word): Subscriber {
    if p.valueDefined then Subscriber(kind, reason, addr, mask, p.uival.And(mask), None, false)
    else Subscriber(kind, reason, addr, mask, ZERO, None, false)
  }

  function Next(s: State, e: Event): State
    requires Can(s, e)
  {
    var us := s.subscribers.all;
    match e
    case CreateParam(kind, callbackMask) =>
      s.(list := s.list.(params := Params(s.list.params.vals + [NewParam(kind, callbackMask)])))
    case SetTo(index, x) => SetStep(s, index, x)
    case CallCallbacks => CallStep(s)
    case AcceptInterrupts(yes) => s.(interruptAccept := yes)
    case Subscribe(kind, reason, addr, mask) =>
      s.(subscribers := Subscribers(us + [NewSubscriber(s.list.params.vals[reason], kind, reason, addr, mask)]))
    case Unsubscribe(k) => s.(subscribers := Subscribers(us[..k] + us[k + 1..]))
  }

  ghost predicate Init(s: State) {
    s.list == List(Params([]), Flags([])) && s.subscribers == Subscribers([])
  }

  predicate Moment(es: seq<Event>, m: nat) {
    m < |es|
  }

  ghost predicate Run(ss: seq<State>, es: seq<Event>) {
    && |ss| == |es| + 1 && Init(ss[0])
    && forall m: nat {:trigger Moment(es, m)} | Moment(es, m) :: Can(ss[m], es[m]) && ss[m + 1] == Next(ss[m], es[m])
  }

  // ----- bits -----

  /** The bits in which a view differs from the masked value are in the callback mask. */
  predicate Covered(view: Word, value: Word, mask: Word, callbackMask: Word) {
    view.Xor(value.And(mask)).ones <= callbackMask.ones
  }

  /** A view has only bits of its mask; they are right but for those in the callback mask. */
  predicate BitsOk(view: Word, mask: Word, defined: bool, value: Word, callbackMask: Word) {
    && view.ones <= mask.ones && mask.Fits()
    && (if defined then Covered(view, value, mask, callbackMask) else view.IsZero())
  }

  predicate HasAll(w: Word) {
    ALL.ones <= w.ones
  }

  lemma BitsAfterSet(
    view: Word, mask: Word, defined: bool, was: Word, now: Word, callbackMask: Word, interruptMask: Word)
    requires BitsOk(view, mask, defined, was, callbackMask) && (!defined ==> was == ZERO)
    ensures BitsOk(view, mask, true, now, callbackMask.Or(was.Xor(now)).Or(interruptMask))
  {
  }

  lemma BitsOfAll(view: Word, mask: Word, defined: bool, value: Word, callbackMask: Word, all: Word)
    requires BitsOk(view, mask, defined, value, callbackMask) && HasAll(all)
    ensures BitsOk(view, mask, defined, value, all)
  {
  }

  lemma BitsDelivered(value: Word, mask: Word)
    requires mask.Fits()
    ensures BitsOk(mask.And(value), mask, true, value, ZERO)
  {
  }

  lemma BitsSkipped(view: Word, mask: Word, value: Word, callbackMask: Word)
    requires BitsOk(view, mask, true, value, callbackMask) && mask.And(callbackMask).IsZero()
    ensures BitsOk(view, mask, true, value, ZERO) && (mask.IsZero() || !HasAll(callbackMask))
  {
    if HasAll(callbackMask) {
      assert mask.ones <= ALL.ones <= callbackMask.ones;
      assert mask.ones * callbackMask.ones == mask.ones;
    }
  }

  lemma NoBitsLeft(view: Word, mask: Word, value: Word)
    requires BitsOk(view, mask, true, value, ZERO)
    ensures view == value.And(mask)
  {
    assert forall i :: i !in view.Xor(value.And(mask)).ones;
    assert view.ones == value.And(mask).ones;
  }

  // ----- the invariant -----

  predicate Distinct(f: seq<nat>) {
    forall i, j | 0 <= i < j < |f| :: f[i] != f[j]
  }

  predicate FlagsOk(l: List) {
    AllIndices(l.flags.indices, |l.params.vals|) && Distinct(l.flags.indices)
  }

  predicate ParamOk(p: Param, flagged: bool) {
    && !p.valueChanged
    && (p.kind == UInt32Digital && p.valueDefined && !flagged ==> p.callbackMask == ZERO)
  }

  /** A subscriber with a mask knows status and alarms unless all bits are to be called back. */
  predicate HealthOk(u: Subscriber, health: Health, callbackMask: Word) {
    u.seen && !u.mask.IsZero() && !HasAll(callbackMask) ==> u.last.Some? && u.last.value.health == health
  }

  /** The digital value delivered last or, as long as nothing has been, the one it could read when it joined. */
  function View(u: Subscriber): Word {
    if u.last.Some? && u.last.value.value.Bits? then u.last.value.value.w else u.base
  }

  predicate DigitalOk(u: Subscriber, p: Param) {
    && (u.last.Some? ==> u.last.value.value.Bits?)
    && BitsOk(View(u), u.mask, p.valueDefined, p.uival, p.callbackMask)
    && HealthOk(u, p.health, p.callbackMask)
  }

  predicate SubscriberOk(u: Subscriber, p: Param, flagged: bool) {
    if p.kind == UInt32Digital then DigitalOk(u, p)
    else Delivers(p) && !flagged && u.seen ==> u.last == Some(Current(p, u.mask))
  }

  /** `u` is a subscriber of the parameter with this index, at the list's own address. */
  predicate SubscribesTo(u: Subscriber, l: List, addr: int) {
    IsIndex(l, u.reason) && u.addr == addr && u.kind == l.params.vals[u.reason].kind
  }

  predicate ParamsOk(l: List) {
    forall i: nat | i < |l.params.vals| :: ParamOk(l.params.vals[i], i in l.flags.indices)
  }

  predicate EachOk(l: List, u: Subscriber, addr: int) {
    IsIndex(l, u.reason) &&
    (SubscribesTo(u, l, addr) ==> SubscriberOk(u, l.params.vals[u.reason], u.reason in l.flags.indices))
  }

  predicate SubscribersOk(l: List, us: Subscribers, addr: int) {
    forall k: nat | k < |us.all| :: EachOk(l, us.all[k], addr)
  }

  predicate Tracked(l: List, us: Subscribers, addr: int) {
    FlagsOk(l) && ParamsOk(l) && SubscribersOk(l, us, addr)
  }

  predicate Ok(s: State) {
    Tracked(s.list, s.subscribers, s.addr)
  }

  // ----- setting -----

  lemma PutBitsCovers(u: Subscriber, p: Param, was: Word, now: Word, interruptMask: Word)
    requires p.kind == UInt32Digital && DigitalOk(u, p) && (if p.valueDefined then was == p.uival else was == ZERO)
    ensures DigitalOk(u, PutBits(p, was, now, interruptMask))
  {
    BitsAfterSet(View(u), u.mask, p.valueDefined, was, now, p.callbackMask, interruptMask);
  }

  lemma PutUInt32Covers(u: Subscriber, p: Param, value: Word, valueMask: Word, interruptMask: Word)
    requires p.kind == UInt32Digital && DigitalOk(u, p)
    ensures DigitalOk(u, PutUInt32(p, value, valueMask, interruptMask))
  {
    if p.valueDefined {
      PutBitsCovers(u, p, p.uival, Merge(p.uival, value, valueMask), interruptMask);
    } else {
      PutBitsCovers(u, p, ZERO, Merge(ZERO, value, valueMask), interruptMask);
    }
  }

  lemma PutHealthCovers(u: Subscriber, p: Param, h: Health, seen: bool)
    requires p.kind == UInt32Digital && DigitalOk(u, p) && seen == (u.seen || p.health != h)
    ensures DigitalOk(u.(seen := seen), PutHealth(p, h).(valueChanged := false))
  {
    BitsOfAll(View(u), u.mask, p.valueDefined, p.uival, p.callbackMask, ALL);
  }

  lemma SetNumber(u: Subscriber, p: Param, flagged: bool, v: Value)
    requires p.kind != UInt32Digital && ParamOk(p, flagged) && SubscriberOk(u, p, flagged)
    ensures
      var q := PutValue(p, v);
      SubscriberOk(u.(seen := u.seen || q.valueChanged), q.(valueChanged := false), flagged || q.valueChanged)
  {
  }

  lemma SetHealth(u: Subscriber, p: Param, flagged: bool, h: Health)
    requires ParamOk(p, flagged) && SubscriberOk(u, p, flagged)
    ensures
      var q := PutHealth(p, h);
      SubscriberOk(u.(seen := u.seen || Noticed(p, q)), q.(valueChanged := false), flagged || q.valueChanged)
  {
    if p.kind == UInt32Digital {
      PutHealthCovers(u, p, h, u.seen || p.health != h);
    }
  }

  /** The parameter and one of its subscribers, before and after a setter, with the flag set if it changed. */
  lemma SetOne(u: Subscriber, p: Param, flagged: bool, x: Setter)
    requires RightType(p, x) && ParamOk(p, flagged) && SubscriberOk(u, p, flagged)
    ensures
      var q := Apply(p, x);
      SubscriberOk(u.(seen := u.seen || Noticed(p, q)), q.(valueChanged := false), flagged || q.valueChanged)
  {
    match x
    case SetUInt32(value, valueMask, interruptMask) => PutUInt32Covers(u, p, value, valueMask, interruptMask);
    case SetInteger(n) => SetNumber(u, p, flagged, Number(n));
    case SetInteger64(n) => SetNumber(u, p, flagged, Number(n));
    case SetDouble(r) => SetNumber(u, p, flagged, Real(r));
    case SetString(t) => SetNumber(u, p, flagged, Text(t));
    case SetStatus(i) => SetHealth(u, p, flagged, p.health.(status := i));
    case SetAlarmStatus(i) => SetHealth(u, p, flagged, p.health.(alarmStatus := i));
    case SetAlarmSeverity(i) => SetHealth(u, p, flagged, p.health.(alarmSeverity := i));
  }

  lemma SetKeepsParam(p: Param, flagged: bool, x: Setter)
    requires RightType(p, x) && ParamOk(p, flagged)
    ensures var q := Apply(p, x); ParamOk(q.(valueChanged := false), flagged || q.valueChanged)
  {
  }

  lemma SetEach(l: List, u: Subscriber, index: int, x: Setter, addr: int)
    requires ParamsOk(l) && EachOk(l, u, addr) && SetterStatus(l, index, x) == Success
    ensures
      var p := l.params.vals[index];
      EachOk(SetParam(l, index, x), u.(seen := u.seen || (u.reason == index && Noticed(p, Apply(p, x)))), addr)
  {
    var p := l.params.vals[index];
    if u.reason == index {
      if SubscribesTo(u, l, addr) {
        SetOne(u, p, index in l.flags.indices, x);
      }
    } else {
      assert u.(seen := u.seen || false) == u;
      assert SetParam(l, index, x).params.vals[u.reason] == l.params.vals[u.reason];
      assert u.reason in SetParam(l, index, x).flags.indices <==> u.reason in l.flags.indices;
    }
  }

  lemma SetParams(l: List, index: int, x: Setter)
    requires ParamsOk(l) && FlagsOk(l) && SetterStatus(l, index, x) == Success
    ensures ParamsOk(SetParam(l, index, x)) && FlagsOk(SetParam(l, index, x))
  {
    SetKeepsParam(l.params.vals[index], index in l.flags.indices, x);
  }

  lemma SetStepOk(s: State, index: int, x: Setter)
    requires Ok(s)
    ensures Ok(SetStep(s, index, x))
  {
    if SetterStatus(s.list, index, x) == Success {
      var t := SetStep(s, index, x);
      SetParams(s.list, index, x);
      forall k: nat | k < |t.subscribers.all|
        ensures EachOk(t.list, t.subscribers.all[k], s.addr)
      {
        SetEach(s.list, s.subscribers.all[k], index, x, s.addr);
      }
    }
  }

  // ----- calling back -----

  lemma CalledIsOk(u: Subscriber, p: Param)
    requires p.valueDefined && p.kind == UInt32Digital && u.mask.Fits()
    ensures DigitalOk(Receives(u, p), p.(callbackMask := ZERO))
  {
    BitsDelivered(p.uival, u.mask);
  }

  lemma SkippedIsOk(u: Subscriber, p: Param)
    requires p.valueDefined && DigitalOk(u, p) && u.mask.And(p.callbackMask).IsZero()
    ensures DigitalOk(u, p.(callbackMask := ZERO))
  {
    BitsSkipped(View(u), u.mask, p.uival, p.callbackMask);
  }

  lemma ReceiveDigital(u: Subscriber, p: Param, index: nat, addr: int)
    requires DigitalOk(u, p) && p.valueDefined && p.kind == UInt32Digital && u.kind == p.kind && u.reason == index &&
      u.addr == addr
    ensures DigitalOk(Receive(u, p, index, addr), p.(callbackMask := ZERO))
  {
    if Concerns(u, p, index, addr) {
      CalledIsOk(u, p);
    } else {
      SkippedIsOk(u, p);
    }
  }

  lemma ReceiveCovers(u: Subscriber, p: Param, index: nat, addr: int)
    requires SubscriberOk(u, p, true) && u.kind == p.kind && u.reason == index && u.addr == addr && Delivers(p)
    ensures
      var q := if p.kind == UInt32Digital then p.(callbackMask := ZERO) else p;
      SubscriberOk(Receive(u, p, index, addr), q, false)
  {
    if p.kind == UInt32Digital {
      ReceiveDigital(u, p, index, addr);
    }
  }

  lemma CallEach(ps: Params, f: seq<nat>, u: Subscriber, addr: int)
    requires f != [] && FlagsOk(List(ps, Flags(f))) && EachOk(List(ps, Flags(f)), u, addr)
    ensures
      var p := ps.vals[f[0]];
      var r := if Delivers(p) then Receive(u, p, f[0], addr) else u;
      EachOk(List(CallOne(ps, Subscribers([]), f[0], addr).0, Flags(f[1..])), r, addr)
  {
    var p := ps.vals[f[0]];
    assert f[0] !in f[1..];
    if u.reason == f[0] {
      if SubscribesTo(u, List(ps, Flags(f)), addr) && Delivers(p) {
        ReceiveCovers(u, p, f[0], addr);
      }
    } else {
      assert u.reason in f <==> u.reason in f[1..];
    }
  }

  lemma CallParams(ps: Params, f: seq<nat>, addr: int)
    requires f != [] && FlagsOk(List(ps, Flags(f))) && ParamsOk(List(ps, Flags(f)))
    ensures
      var l := List(CallOne(ps, Subscribers([]), f[0], addr).0, Flags(f[1..]));
      FlagsOk(l) && ParamsOk(l)
  {
    assert forall i: nat :: i != f[0] ==> (i in f <==> i in f[1..]);
    forall i: nat | i < |ps.vals|
      ensures ParamOk(CallOne(ps, Subscribers([]), f[0], addr).0.vals[i], i in f[1..])
    {
      assert ParamOk(ps.vals[i], i in f);
    }
  }

  lemma CallOneOk(ps: Params, us: Subscribers, f: seq<nat>, addr: int)
    requires f != [] && Tracked(List(ps, Flags(f)), us, addr)
    ensures var r := CallOne(ps, us, f[0], addr); Tracked(List(r.0, Flags(f[1..])), r.1, addr)
  {
    var r := CallOne(ps, us, f[0], addr);
    CallParams(ps, f, addr);
    forall k: nat | k < |r.1.all|
      ensures EachOk(List(r.0, Flags(f[1..])), r.1.all[k], addr)
    {
      CallEach(ps, f, us.all[k], addr);
    }
  }

  lemma {:induction false} CallFlaggedOk(ps: Params, us: Subscribers, f: seq<nat>, addr: int)
    requires Tracked(List(ps, Flags(f)), us, addr)
    ensures
      var r := CallFlagged(ps, us, f, addr);
      r.ok && Tracked(List(r.params, Flags([])), r.subscribers, addr)
    decreases |f|
  {
    if f != [] {
      CallOneOk(ps, us, f, addr);
      var r := CallOne(ps, us, f[0], addr);
      CallFlaggedOk(r.0, r.1, f[1..], addr);
    }
  }

  // ----- runs -----

  lemma SubscribeOk(s: State, e: Event)
    requires Ok(s) && Can(s, e) && e.Subscribe?
    ensures Ok(Next(s, e))
  {
    var p := s.list.params.vals[e.reason];
    BitsRead(p.uival, e.mask, p.callbackMask);
  }

  lemma BitsRead(value: Word, mask: Word, callbackMask: Word)
    requires mask.Fits()
    ensures BitsOk(value.And(mask), mask, true, value, callbackMask) && BitsOk(ZERO, mask, false, value, callbackMask)
  {
  }

  lemma OkStep(s: State, e: Event)
    requires Ok(s) && Can(s, e)
    ensures Ok(Next(s, e))
  {
    match e
    case SetTo(index, x) => SetStepOk(s, index, x);
    case CallCallbacks => CallFlaggedOk(s.list.params, s.subscribers, s.list.flags.indices, s.addr);
    case Subscribe(_, _, _, _) => SubscribeOk(s, e);
    case _ =>
  }

  lemma RunStep(ss: seq<State>, es: seq<Event>, m: nat)
    requires Run(ss, es) && m < |es|
    ensures Can(ss[m], es[m]) && ss[m + 1] == Next(ss[m], es[m])
  {
    assert Moment(es, m);
  }

  lemma {:induction false} OkAlways(ss: seq<State>, es: seq<Event>, m: nat)
    requires Run(ss, es) && m < |ss|
    ensures Ok(ss[m])
  {
    if m > 0 {
      OkAlways(ss, es, m - 1);
      RunStep(ss, es, m - 1);
      OkStep(ss[m - 1], es[m - 1]);
    }
  }

  /** The flags have no duplicates and name parameters; no valueChanged is left set. */
  lemma FlagsAreASet(ss: seq<State>, es: seq<Event>, m: nat)
    requires Run(ss, es) && m < |ss|
    ensures FlagsOk(ss[m].list) &&
      forall i: nat | i < |ss[m].list.params.vals| :: !ss[m].list.params.vals[i].valueChanged
  {
    OkAlways(ss, es, m);
  }

  /**
   A defined parameter that is not flagged is known to all who subscribe to it: whoever was
   there at its last change has last received its current value, status and alarms.
   */
  lemma NobodyIsStale(ss: seq<State>, es: seq<Event>, m: nat, k: nat)
    requires Run(ss, es) && m < |ss| && k < |ss[m].subscribers.all|
    requires SubscribesTo(ss[m].subscribers.all[k], ss[m].list, ss[m].addr)
    ensures
      var u := ss[m].subscribers.all[k];
      var p := ss[m].list.params.vals[u.reason];
      Delivers(p) && p.kind != UInt32Digital && u.seen && u.reason !in ss[m].list.flags.indices ==>
        u.last == Some(Current(p, u.mask))
  {
    OkAlways(ss, es, m);
  }

  /**
   The same for a digital parameter and the bits of a subscriber's mask. While its callback is
   due, the bits in which its last value differs from the current one are in the callback mask.
   */
  lemma DifferencesAreDue(ss: seq<State>, es: seq<Event>, m: nat, k: nat)
    requires Run(ss, es) && m < |ss| && k < |ss[m].subscribers.all|
    requires SubscribesTo(ss[m].subscribers.all[k], ss[m].list, ss[m].addr)
    ensures
      var u := ss[m].subscribers.all[k];
      var p := ss[m].list.params.vals[u.reason];
      u.kind == UInt32Digital && p.valueDefined ==>
        && View(u).Xor(p.uival.And(u.mask)).ones <= p.callbackMask.ones
        && (u.last.Some? ==> u.last.value.value == Bits(View(u)))
  {
    OkAlways(ss, es, m);
  }

  /** What a digital subscriber knows when nothing is due: whether it has been called yet or not. */
  predicate KnowsBits(u: Subscriber, p: Param) {
    match u.last
    case Some(last) => last.value == Bits(u.mask.And(p.uival))
    case None => u.base == p.uival.And(u.mask)
  }

  /**
   When the parameter is not flagged, the value delivered last is the current one, although
   subscribers without a changed bit are not called. One that was never called could read the
   current bits when it joined; for one that joined before the parameter was defined they are
   still all 0. And a subscriber with a mask knows the last change of status and alarms.
   */
  lemma NoDigitalValueIsStale(ss: seq<State>, es: seq<Event>, m: nat, k: nat)
    requires Run(ss, es) && m < |ss| && k < |ss[m].subscribers.all|
    requires SubscribesTo(ss[m].subscribers.all[k], ss[m].list, ss[m].addr)
    ensures
      var u := ss[m].subscribers.all[k];
      var p := ss[m].list.params.vals[u.reason];
      u.kind == UInt32Digital && p.valueDefined && u.reason !in ss[m].list.flags.indices ==>
        && KnowsBits(u, p)
        && (u.seen && !u.mask.IsZero() ==> u.last.Some? && u.last.value.health == p.health)
  {
    OkAlways(ss, es, m);
    var u := ss[m].subscribers.all[k];
    var p := ss[m].list.params.vals[u.reason];
    if u.kind == UInt32Digital && p.valueDefined && u.reason !in ss[m].list.flags.indices {
      NoBitsLeft(View(u), u.mask, p.uival);
      assert p.uival.And(u.mask) == u.mask.And(p.uival);
    }
  }

  /** A subscriber of a parameter knows all it has to be told. */
  predicate UpToDate(u: Subscriber, p: Param) {
    if p.kind == UInt32Digital then
      KnowsBits(u, p) && (u.seen && !u.mask.IsZero() ==> u.last.Some? && u.last.value.health == p.health)
    else u.seen ==> u.last == Some(Current(p, u.mask))
  }

  /**
   After a callCallbacks that interruptAccept lets through, every subscriber of every defined
   parameter is up to date, and no flag is left.
   */
  lemma CallbacksBringUpToDate(ss: seq<State>, es: seq<Event>, m: nat, k: nat)
    requires Run(ss, es) && m < |es| && es[m] == CallCallbacks && ss[m].interruptAccept
    requires k < |ss[m + 1].subscribers.all| &&
      SubscribesTo(ss[m + 1].subscribers.all[k], ss[m + 1].list, ss[m + 1].addr)
    ensures ss[m + 1].list.flags.indices == []
    ensures
      var u := ss[m + 1].subscribers.all[k];
      var p := ss[m + 1].list.params.vals[u.reason];
      Delivers(p) ==> UpToDate(u, p)
  {
    RunStep(ss, es, m);
    OkAlways(ss, es, m);
    CallFlaggedOk(ss[m].list.params, ss[m].subscribers, ss[m].list.flags.indices, ss[m].addr);
    NobodyIsStale(ss, es, m + 1, k);
    NoDigitalValueIsStale(ss, es, m + 1, k);
  }

  /** Nothing is lost before: a flag, once set, stays until a callCallbacks with interruptAccept. */
  lemma FlagsPersist(s: State, e: Event, i: nat)
    requires Ok(s) && Can(s, e) && i in s.list.flags.indices && !(e == CallCallbacks && s.interruptAccept)
    ensures i in Next(s, e).list.flags.indices
  {
  }

  // ----- what a setter does -----

  /** What a setter asks for is what the parameter then holds; of a digital one, the bits outside the mask stay. */
  predicate Holds(p: Param, q: Param, x: Setter) {
    match x
    case SetInteger(n) => q.valueDefined && q.data == Number(n)
    case SetInteger64(n) => q.valueDefined && q.data == Number(n)
    case SetDouble(r) => q.valueDefined && q.data == Real(r)
    case SetString(t) => q.valueDefined && q.data == Text(t)
    case SetUInt32(value, valueMask, _) =>
      && q.valueDefined && q.uival.And(valueMask) == value.And(valueMask)
      && q.uival.AndNot(valueMask) == if p.valueDefined then p.uival.AndNot(valueMask) else ZERO
    case SetStatus(i) => q.health == p.health.(status := i)
    case SetAlarmStatus(i) => q.health == p.health.(alarmStatus := i)
    case SetAlarmSeverity(i) => q.health == p.health.(alarmSeverity := i)
  }

  /** A subscriber could see the difference, or the setter insists. */
  predicate Differs(p: Param, q: Param, x: Setter) {
    || p.valueDefined != q.valueDefined || p.data != q.data || p.uival != q.uival || p.health != q.health
    || (x.SetUInt32? && !x.interruptMask.IsZero())
  }

  lemma MergedBits(was: Word, value: Word, mask: Word)
    ensures Merge(was, value, mask).And(mask) == value.And(mask)
    ensures Merge(was, value, mask).AndNot(mask) == was.AndNot(mask)
  {
    assert Merge(was, value, mask).And(mask).ones == value.And(mask).ones;
    assert Merge(was, value, mask).AndNot(mask).ones == was.AndNot(mask).ones;
  }

  lemma ApplyHolds(p: Param, x: Setter)
    requires RightType(p, x) && !p.valueChanged
    ensures Holds(p, Apply(p, x), x) && (Apply(p, x).valueChanged <==> Differs(p, Apply(p, x), x))
  {
    if x.SetUInt32? {
      MergedBits(p.uival, x.value, x.valueMask);
      MergedBits(ZERO, x.value, x.valueMask);
      assert ZERO.AndNot(x.valueMask) == ZERO;
    }
  }

  /**
   A setter with a good index and type stores what it is given, changes no other parameter, and
   flags the parameter exactly when it was flagged before or something has changed.
   */
  lemma SetTakesEffect(s: State, index: int, x: Setter)
    requires Ok(s) && SetterStatus(s.list, index, x) == Success
    ensures
      var p, l := s.list.params.vals[index], SetParam(s.list, index, x);
      && |l.params.vals| == |s.list.params.vals| && Holds(p, l.params.vals[index], x)
      && (index in l.flags.indices <==> index in s.list.flags.indices || Differs(p, l.params.vals[index], x))
      && forall i: nat | i < |l.params.vals| && i != index ::
           l.params.vals[i] == s.list.params.vals[i] && (i in l.flags.indices <==> i in s.list.flags.indices)
  {
    ApplyHolds(s.list.params.vals[index], x);
  }
}
