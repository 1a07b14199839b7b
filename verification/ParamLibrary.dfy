/**
 The parameter library (paramVal.cpp, class paramList in asynPortDriver.cpp): a cache that
 tracks which parameters have changed and calls back the subscribers of those, as functions.
 ParamObjects holds the classes that do this in place.
 */
module ParamLibrary {
  import opened Common

  /** The types whose values are delivered by callbacks, and all the others. */
  datatype Kind = Int32 | Int64 | UInt32Digital | Float64 | Octet | OtherKind

  datatype Value = Number(n: int) | Bits(w: Word) | Real(r: real) | Text(s: string)

  /** status, alarm status, alarm severity */
  datatype Health = Health(status: int, alarmStatus: int, alarmSeverity: int)

  /** class paramVal. `uival` is the value of a digital parameter, `data` that of the others. */
  datatype Param = Param(
    kind: Kind,
    data: Value,
    uival: Word,
    valueDefined: bool,
    valueChanged: bool,
    health: Health,
    callbackMask: Word)

  datatype Setter =
    | SetInteger(n: int)
    | SetInteger64(n: int)
    | SetUInt32(value: Word, valueMask: Word, interruptMask: Word)
    | SetDouble(r: real)
    | SetString(s: string)
    | SetStatus(i: int)
    | SetAlarmStatus(i: int)
    | SetAlarmSeverity(i: int)

  /** The type that a setter demands, if any. */
  predicate RightType(p: Param, x: Setter) {
    match x
    case SetInteger(_) => p.kind == Int32
    case SetInteger64(_) => p.kind == Int64
    case SetUInt32(_, _, _) => p.kind == UInt32Digital
    case SetDouble(_) => p.kind == Float64
    case SetString(_) => p.kind == Octet
    case _ => true
  }

  function PutValue(p: Param, v: Value): Param {
    if !p.valueDefined || p.data != v then p.(valueDefined := true, data := v, valueChanged := true) else p
  }

  /** Clear the bits of the mask, insert those of the value. */
  function Merge(was: Word, value: Word, mask: Word): Word {
    was.AndNot(mask).Or(value.And(mask))
  }

  /** The bits go from `was` to `now`, and those that change into the callback mask. */
  function PutBits(p: Param, was: Word, now: Word, interruptMask: Word): Param {
    p.(uival := now,
       valueDefined := true,
       valueChanged := p.valueChanged || !p.valueDefined || was != now || !interruptMask.IsZero(),
       callbackMask := p.callbackMask.Or(was.Xor(now)).Or(interruptMask))
  }

  /** An undefined parameter starts from 0. */
  function PutUInt32(p: Param, value: Word, valueMask: Word, interruptMask: Word): Param {
    if p.valueDefined then PutBits(p, p.uival, Merge(p.uival, value, valueMask), interruptMask)
    else PutBits(p, ZERO, Merge(ZERO, value, valueMask), interruptMask)
  }

  /** A change of status or alarm concerns all bits. */
  function PutHealth(p: Param, h: Health): Param {
    if p.health == h then p
    else if p.kind == UInt32Digital then p.(health := h, valueChanged := true, callbackMask := ALL)
    else p.(health := h, valueChanged := true)
  }

  function Apply(p: Param, x: Setter): Param {
    match x
    case SetInteger(n) => PutValue(p, Number(n))
    case SetInteger64(n) => PutValue(p, Number(n))
    case SetUInt32(value, valueMask, interruptMask) => PutUInt32(p, value, valueMask, interruptMask)
    case SetDouble(r) => PutValue(p, Real(r))
    case SetString(s) => PutValue(p, Text(s))
    case SetStatus(i) => PutHealth(p, p.health.(status := i))
    case SetAlarmStatus(i) => PutHealth(p, p.health.(alarmStatus := i))
    case SetAlarmSeverity(i) => PutHealth(p, p.health.(alarmSeverity := i))
  }

  // ----- the list -----

  datatype Params = Params(vals: seq<Param>)
  datatype Flags = Flags(indices: seq<nat>)

  /** class paramList */
  datatype List = List(params: Params, flags: Flags)

  function SetFlag(f: Flags, index: nat): Flags {
    if index in f.indices then f else Flags(f.indices + [index])
  }

  function Replace(ps: Params, index: nat, p: Param): Params
    requires index < |ps.vals|
  {
    Params(ps.vals[index := p])
  }

  /** registerParameterChange, for a parameter that has just become `p` */
  function Register(l: List, index: nat, p: Param): List
    requires index < |l.params.vals|
  {
    List(Replace(l.params, index, p.(valueChanged := false)),
         if p.valueChanged then SetFlag(l.flags, index) else l.flags)
  }

  datatype Status = Success | WrongType | BadIndex

  predicate IsIndex(l: List, index: int) {
    0 <= index < |l.params.vals|
  }

  function SetterStatus(l: List, index: int, x: Setter): Status {
    if !IsIndex(l, index) then BadIndex
    else if !RightType(l.params.vals[index], x) then WrongType
    else Success
  }

  function SetParam(l: List, index: int, x: Setter): List {
    if SetterStatus(l, index, x) != Success then l
    else Register(l, index, Apply(l.params.vals[index], x))
  }

  // ----- the subscribers -----

  datatype Delivery = Delivery(value: Value, health: Health)

  /**
   A client on the interrupt list of one interface: the parameter and address it is registered
   for, its mask, and what it has received last. The rest is history: `base` is the digital
   value it could read when it joined, and `seen` says that since then the parameter has
   changed; for a digital one, its status or alarm has.
   */
  datatype Subscriber = Subscriber(
    kind: Kind,
    reason: int,
    addr: int,
    mask: Word,
    base: Word,
    last: Option<Delivery>,
    seen: bool)

  datatype Subscribers = Subscribers(all: seq<Subscriber>)

  /** What the callback of a parameter delivers. */
  function Current(p: Param, mask: Word): Delivery {
    Delivery(if p.kind == UInt32Digital then Bits(mask.And(p.uival)) else p.data, p.health)
  }

  function Receives(u: Subscriber, p: Param): Subscriber {
    u.(last := Some(Current(p, u.mask)))
  }

  /** The test in the loops of int32Callback and its fellows. */
  predicate Concerns(u: Subscriber, p: Param, index: int, addr: int) {
    && u.kind == p.kind && u.reason == index && u.addr == addr
    && (p.kind == UInt32Digital ==> !u.mask.And(p.callbackMask).IsZero())
  }

  function Receive(u: Subscriber, p: Param, index: int, addr: int): Subscriber {
    if Concerns(u, p, index, addr) then Receives(u, p) else u
  }

  function ReceiveAll(us: seq<Subscriber>, p: Param, index: int, addr: int): (r: seq<Subscriber>)
    ensures |r| == |us| && forall k | 0 <= k < |us| :: r[k] == Receive(us[k], p, index, addr)
  {
    if us == [] then [] else [Receive(us[0], p, index, addr)] + ReceiveAll(us[1..], p, index, addr)
  }

  predicate Delivers(p: Param) {
    p.valueDefined && p.kind != OtherKind
  }

  /** The loop body of callCallbacks. */
  function CallOne(ps: Params, us: Subscribers, index: nat, addr: int): (Params, Subscribers)
    requires index < |ps.vals|
  {
    var p := ps.vals[index];
    if !Delivers(p) then (ps, us)
    else
      (if p.kind == UInt32Digital then Replace(ps, index, p.(callbackMask := ZERO)) else ps,
       Subscribers(ReceiveAll(us.all, p, index, addr)))
  }

  predicate AllIndices(f: seq<nat>, n: nat) {
    forall i | 0 <= i < |f| :: f[i] < n
  }

  /** What the loop of callCallbacks leaves, and whether it has come to its end. */
  datatype Calling = Calling(params: Params, subscribers: Subscribers, ok: bool)

  /** A flag that is no index ends the loop with an exception; what was done before stays done. */
  function CallFlagged(ps: Params, us: Subscribers, f: seq<nat>, addr: int): (r: Calling)
    ensures |r.params.vals| == |ps.vals|
    decreases |f|
  {
    if f == [] then Calling(ps, us, true)
    else if f[0] >= |ps.vals| then Calling(ps, us, false)
    else
      var r := CallOne(ps, us, f[0], addr);
      CallFlagged(r.0, r.1, f[1..], addr)
  }

  /** Only a loop that came to its end clears the flags. */
  function Called(l: List, us: Subscribers, addr: int): (List, Subscribers) {
    var r := CallFlagged(l.params, us, l.flags.indices, addr);
    (List(r.params, if r.ok then Flags([]) else l.flags), r.subscribers)
  }
}
