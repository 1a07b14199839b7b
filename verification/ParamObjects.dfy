/**
 class paramVal and class paramList, updated in place as the library does it. Every method is
 proved to do what its function in ParamLibrary says.
 */
module ParamObjects {
  import opened Common
  import opened ParamLibrary

  class ParamVal {
    const kind: Kind
    var data: Value
    var uival: Word
    var valueDefined: bool
    var valueChanged: bool
    var status: int
    var alarmStatus: int
    var alarmSeverity: int
    var uInt32CallbackMask: Word

    function Contents(): Param
      reads this
    {
      Param(kind, data, uival, valueDefined, valueChanged, Health(status, alarmStatus, alarmSeverity),
        uInt32CallbackMask)
    }

    /** The constructor leaves the callback mask as the memory happens to be. */
    constructor (kind: Kind, garbage: Word)
      ensures Contents() == Param(kind, Number(0), ZERO, false, false, Health(0, 0, 0), garbage)
    {
      this.kind := kind;
      data, uival := Number(0), ZERO;
      valueDefined, valueChanged := false, false;
      status, alarmStatus, alarmSeverity := 0, 0, 0;
      uInt32CallbackMask := garbage;
    }

    /** setInteger, setInteger64, setDouble and setString */
    method SetValue(v: Value)
      modifies this
      ensures Contents() == PutValue(old(Contents()), v)
    {
      if !valueDefined || data != v {
        valueDefined := true;
        data := v;
        valueChanged := true;
      }
    }

    method SetBits(value: Word, valueMask: Word, interruptMask: Word)
      modifies this
      ensures Contents() == PutUInt32(old(Contents()), value, valueMask, interruptMask)
    {
      if !valueDefined {
        // Start from a known value.
        uival := ZERO;
        ChangeBits(Merge(ZERO, value, valueMask), interruptMask);
      } else {
        ChangeBits(Merge(uival, value, valueMask), interruptMask);
      }
    }

    /** The second half of setUInt32, with the new value computed. */
    method ChangeBits(newValue: Word, interruptMask: Word)
      modifies this
      ensures Contents() == PutBits(old(Contents()), old(uival), newValue, interruptMask)
    {
      if !valueDefined {
        valueDefined := true;
        valueChanged := true;
      }
      if uival != newValue {
        uInt32CallbackMask := uInt32CallbackMask.Or(uival.Xor(newValue));
        uival := newValue;
        valueChanged := true;
      }
      if !interruptMask.IsZero() {
        uInt32CallbackMask := uInt32CallbackMask.Or(interruptMask);
        valueChanged := true;
      }
    }

    method SetStatusTo(s: int)
      modifies this
      ensures Contents() == PutHealth(old(Contents()), old(Contents()).health.(status := s))
    {
      if status != s {
        valueChanged := true;
        status := s;
        if kind == UInt32Digital {
          uInt32CallbackMask := ALL;
        }
      }
    }

    method SetAlarmStatusTo(s: int)
      modifies this
      ensures Contents() == PutHealth(old(Contents()), old(Contents()).health.(alarmStatus := s))
    {
      if alarmStatus != s {
        valueChanged := true;
        alarmStatus := s;
        if kind == UInt32Digital {
          uInt32CallbackMask := ALL;
        }
      }
    }

    method SetAlarmSeverityTo(s: int)
      modifies this
      ensures Contents() == PutHealth(old(Contents()), old(Contents()).health.(alarmSeverity := s))
    {
      if alarmSeverity != s {
        valueChanged := true;
        alarmSeverity := s;
        if kind == UInt32Digital {
          uInt32CallbackMask := ALL;
        }
      }
    }

    method Set(x: Setter) returns (ok: bool)
      modifies this
      ensures ok == RightType(old(Contents()), x)
      ensures Contents() == if ok then Apply(old(Contents()), x) else old(Contents())
    {
      ok := true;
      match x
      case SetInteger(n) => if kind != Int32 { return false; } SetValue(Number(n));
      case SetInteger64(n) => if kind != Int64 { return false; } SetValue(Number(n));
      case SetUInt32(value, valueMask, interruptMask) =>
        if kind != UInt32Digital { return false; }
        SetBits(value, valueMask, interruptMask);
      case SetDouble(r) => if kind != Float64 { return false; } SetValue(Real(r));
      case SetString(s) => if kind != Octet { return false; } SetValue(Text(s));
      case SetStatus(i) => SetStatusTo(i);
      case SetAlarmStatus(i) => SetAlarmStatusTo(i);
      case SetAlarmSeverity(i) => SetAlarmSeverityTo(i);
    }
  }

  function ContentsOf(vs: seq<ParamVal>): (r: seq<Param>)
    reads vs
    ensures |r| == |vs| && forall i | 0 <= i < |vs| :: r[i] == vs[i].Contents()
  {
    if vs == [] then [] else [vs[0].Contents()] + ContentsOf(vs[1..])
  }

  lemma OneChanged(was: seq<Param>, now: seq<Param>, index: nat)
    requires index < |was| == |now| && forall i | 0 <= i < |was| && i != index :: was[i] == now[i]
    ensures now == was[index := now[index]]
  {
  }

  lemma Overwritten(ps: seq<Param>, index: nat, p: Param, q: Param)
    requires index < |ps|
    ensures ps[index := p][index := q] == ps[index := q]
  {
  }

  class ParamList {
    var vals: seq<ParamVal>
    var flags: seq<nat>

    ghost predicate Valid()
      reads this
    {
      forall i, j | 0 <= i < j < |vals| :: vals[i] != vals[j]
    }

    function Contents(): List
      reads this, vals
    {
      List(Params(ContentsOf(vals)), Flags(flags))
    }

    constructor ()
      ensures Valid() && Contents() == List(Params([]), Flags([]))
    {
      vals, flags := [], [];
    }

    method CreateParam(kind: Kind, garbage: Word) returns (index: nat)
      requires Valid()
      modifies this
      ensures Valid() && index == |old(vals)| && |vals| == index + 1 && vals[..index] == old(vals) && fresh(vals[index])
      ensures Contents().flags == old(Contents()).flags
      ensures Contents().params.vals == old(Contents()).params.vals +
        [Param(kind, Number(0), ZERO, false, false, Health(0, 0, 0), garbage)]
    {
      var param := new ParamVal(kind, garbage);
      index := |vals|;
      vals := vals + [param];
    }

    method SetFlag(index: nat)
      requires Valid() && index < |vals|
      modifies this
      ensures Valid() && vals == old(vals) && Flags(flags) == ParamLibrary.SetFlag(Flags(old(flags)), index)
    {
      for i := 0 to |flags|
        invariant index !in flags[..i]
      {
        if flags[i] == index {
          return;
        }
      }
      assert flags[..|flags|] == flags;
      flags := flags + [index];
    }

    method RegisterParameterChange(index: nat)
      requires Valid() && index < |vals|
      modifies this, vals[index]
      ensures Valid() && vals == old(vals)
      ensures Contents() == Register(old(Contents()), index, old(vals[index].Contents()))
    {
      ghost var was := ContentsOf(vals);
      if vals[index].valueChanged {
        SetFlag(index);
        vals[index].valueChanged := false;
      }
      OneChanged(was, ContentsOf(vals), index);
    }

    /** getParameter(index)->set... */
    method Assign(index: nat, x: Setter) returns (ok: bool)
      requires Valid() && index < |vals|
      modifies vals[index]
      ensures ok == RightType(old(vals[index].Contents()), x)
      ensures ContentsOf(vals) ==
        if ok then old(ContentsOf(vals))[index := Apply(old(vals[index].Contents()), x)] else old(ContentsOf(vals))
    {
      ghost var was := ContentsOf(vals);
      ok := vals[index].Set(x);
      OneChanged(was, ContentsOf(vals), index);
    }

    /** A setter, with the registerParameterChange that follows it. */
    method SetParam(index: int, x: Setter) returns (status: Status)
      requires Valid()
      modifies this, vals
      ensures Valid() && vals == old(vals)
      ensures status == SetterStatus(old(Contents()), index, x)
      ensures Contents() == ParamLibrary.SetParam(old(Contents()), index, x)
    {
      if index < 0 || index >= |vals| {
        return BadIndex;
      }
      var ok := Assign(index, x);
      if !ok {
        return WrongType;
      }
      ghost var p := vals[index].Contents();
      RegisterParameterChange(index);
      Overwritten(old(ContentsOf(vals)), index, p, p.(valueChanged := false));
      status := Success;
    }

    /** int32Callback and its fellows: the walk over the client list. */
    method Callback(index: nat, addr: int, clients: array<Subscriber>)
      requires Valid() && index < |vals|
      modifies clients
      ensures clients[..] == ReceiveAll(old(clients[..]), vals[index].Contents(), index, addr)
    {
      var p := vals[index];
      for k := 0 to clients.Length
        invariant forall j | 0 <= j < k :: clients[j] == Receive(old(clients[j]), p.Contents(), index, addr)
        invariant forall j | k <= j < clients.Length :: clients[j] == old(clients[j])
      {
        var u := clients[k];
        if Concerns(u, p.Contents(), index, addr) {
          clients[k] := Receives(u, p.Contents());
        }
      }
    }

    method CallCallbacks(addr: int, interruptAccept: bool, clients: array<Subscriber>) returns (status: Status)
      requires Valid()
      modifies this, vals, clients
      ensures Valid() && vals == old(vals)
      ensures
        if interruptAccept then
          (Contents(), Subscribers(clients[..])) == Called(old(Contents()), Subscribers(old(clients[..])), addr)
        else Contents() == old(Contents()) && clients[..] == old(clients[..])
      ensures interruptAccept ==>
        (status == Success <==> CallFlagged(old(Contents()).params, Subscribers(old(clients[..])), old(flags), addr).ok)
    {
      if !interruptAccept {
        return Success;
      }
      var ok := CallFlags(addr, clients);
      if !ok {
        return BadIndex;
      }
      flags := [];
      status := Success;
    }

    /** The loop over the flags; it ends early at a flag that is no index. */
    method CallFlags(addr: int, clients: array<Subscriber>) returns (ok: bool)
      requires Valid()
      modifies vals, clients
      ensures Calling(Contents().params, Subscribers(clients[..]), ok) ==
        CallFlagged(old(Contents()).params, Subscribers(old(clients[..])), flags, addr)
    {
      ghost var goal := CallFlagged(Params(ContentsOf(vals)), Subscribers(clients[..]), flags, addr);
      for i := 0 to |flags|
        invariant CallFlagged(Params(ContentsOf(vals)), Subscribers(clients[..]), flags[i..], addr) == goal
      {
        if flags[i] >= |vals| {
          return false;
        }
        CallOne(flags[i], addr, clients);
        assert flags[i..][1..] == flags[i + 1..];
      }
      ok := true;
    }

    /** The body of that loop. */
    method CallOne(index: nat, addr: int, clients: array<Subscriber>)
      requires Valid() && index < |vals|
      modifies vals, clients
      ensures (Params(ContentsOf(vals)), Subscribers(clients[..])) ==
        ParamLibrary.CallOne(Params(old(ContentsOf(vals))), Subscribers(old(clients[..])), index, addr)
    {
      var param := vals[index];
      if param.valueDefined && param.kind != OtherKind {
        ghost var was := ContentsOf(vals);
        Callback(index, addr, clients);
        if param.kind == UInt32Digital {
          param.uInt32CallbackMask := ZERO;
        }
        OneChanged(was, ContentsOf(vals), index);
      }
    }
  }
}
