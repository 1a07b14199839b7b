/**
 What the setters of the parameter library store and refuse, kind by kind, and whom callCallbacks
 calls: exactly the subscribers of a flagged parameter at the list's own address.
 */
module ParamEffects {
  import opened Common
  import opened ParamLibrary
  import opened ParamTracking

  // ----- setters -----

  /** A defined parameter holds a value of its own kind, and the kinds without a setter are never defined. */
  predicate HoldsItsKind(p: Param) {
    p.valueDefined ==>
      match p.kind
      case Int32 => p.data.Number?
      case Int64 => p.data.Number?
      case Float64 => p.data.Real?
      case Octet => p.data.Text?
      case UInt32Digital => p.data == Number(0)
      case OtherKind => false
  }

  /** What is left in `data` before the first setter. */
  predicate Untouched(p: Param) {
    !p.valueDefined ==> p.data == Number(0)
  }

  ghost predicate AllHoldTheirKinds(l: List) {
    forall i: nat | i < |l.params.vals| :: HoldsItsKind(l.params.vals[i]) && Untouched(l.params.vals[i])
  }

  /** A new parameter comes last, has the kind it was created with, and is neither defined nor flagged. */
  lemma CreatedIsUndefined(s: State, kind: Kind, callbackMask: Word)
    requires Ok(s)
    ensures
      var ps, t := s.list.params.vals, Next(s, CreateParam(kind, callbackMask));
      && t == s.(list := t.list) && t.list.flags == s.list.flags && |ps| !in t.list.flags.indices
      && |t.list.params.vals| == |ps| + 1 && t.list.params.vals[..|ps|] == ps
      && var p := t.list.params.vals[|ps|];
         p.kind == kind && !p.valueDefined && !p.valueChanged && p.health == Health(0, 0, 0)
  {
  }

  lemma SetKeepsKind(l: List, index: int, x: Setter)
    requires AllHoldTheirKinds(l)
    ensures AllHoldTheirKinds(SetParam(l, index, x))
  {
    if SetterStatus(l, index, x) == Success {
      var p := l.params.vals[index];
      assert HoldsItsKind(p) && Untouched(p);
      assert HoldsItsKind(Apply(p, x)) && Untouched(Apply(p, x));
    }
  }

  lemma CallKeepsKinds(s: State)
    requires Ok(s) && AllHoldTheirKinds(s.list)
    ensures AllHoldTheirKinds(CallStep(s).list)
  {
    if s.interruptAccept {
      var l := CallStep(s).list;
      forall i: nat | i < |l.params.vals|
        ensures HoldsItsKind(l.params.vals[i]) && Untouched(l.params.vals[i])
      {
        CallsParams(s.list.params, s.subscribers, s.list.flags.indices, s.addr, i);
        assert HoldsItsKind(s.list.params.vals[i]) && Untouched(s.list.params.vals[i]);
      }
    }
  }

  /** In every run, a defined Int32 or Int64 parameter holds an integer, a Float64 a real, an Octet a string. */
  lemma {:induction false} ValuesFitKinds(ss: seq<State>, es: seq<Event>, m: nat)
    requires Run(ss, es) && m < |ss|
    ensures AllHoldTheirKinds(ss[m].list)
  {
    if m > 0 {
      ValuesFitKinds(ss, es, m - 1);
      OkAlways(ss, es, m - 1);
      RunStep(ss, es, m - 1);
      match es[m - 1]
      case SetTo(index, x) => SetKeepsKind(ss[m - 1].list, index, x);
      case CallCallbacks => CallKeepsKinds(ss[m - 1]);
      case _ =>
    }
  }

  /** Each value setter works for its own kind, and the value is then what was given. */
  lemma SettersStore(l: List, i: nat, n: int, r: real, t: string)
    requires i < |l.params.vals|
    ensures l.params.vals[i].kind == Int32 ==>
      SetterStatus(l, i, SetInteger(n)) == Success &&
      var q := SetParam(l, i, SetInteger(n)).params.vals[i]; q.valueDefined && q.data == Number(n)
    ensures l.params.vals[i].kind == Int64 ==>
      SetterStatus(l, i, SetInteger64(n)) == Success &&
      var q := SetParam(l, i, SetInteger64(n)).params.vals[i]; q.valueDefined && q.data == Number(n)
    ensures l.params.vals[i].kind == Float64 ==>
      SetterStatus(l, i, SetDouble(r)) == Success &&
      var q := SetParam(l, i, SetDouble(r)).params.vals[i]; q.valueDefined && q.data == Real(r)
    ensures l.params.vals[i].kind == Octet ==>
      SetterStatus(l, i, SetString(t)) == Success &&
      var q := SetParam(l, i, SetString(t)).params.vals[i]; q.valueDefined && q.data == Text(t)
  {
  }

  /**
   Setting a digital parameter: under the mask the bits are those given, elsewhere those it had, or
   0 if it was not defined; and the bits that have to be called back are those that were, those
   that differ now, and those that the caller forces.
   */
  lemma DigitalSetterStores(l: List, i: nat, value: Word, valueMask: Word, interruptMask: Word, bit: int)
    requires i < |l.params.vals| && l.params.vals[i].kind == UInt32Digital
    ensures SetterStatus(l, i, SetUInt32(value, valueMask, interruptMask)) == Success
    ensures
      var p, q := l.params.vals[i], SetParam(l, i, SetUInt32(value, valueMask, interruptMask)).params.vals[i];
      var was := p.valueDefined && bit in p.uival.ones;
      && q.valueDefined
      && (bit in q.uival.ones <==> if bit in valueMask.ones then bit in value.ones else was)
      && (bit in q.callbackMask.ones <==>
          bit in p.callbackMask.ones || was != (bit in q.uival.ones) || bit in interruptMask.ones)
  {
  }

  /**
   The status and the alarms can be set for every kind, each without the others; for a digital
   parameter every change concerns all bits.
   */
  lemma HealthSettersStore(l: List, i: nat, n: int)
    requires i < |l.params.vals|
    ensures SetterStatus(l, i, SetStatus(n)) == Success && SetterStatus(l, i, SetAlarmStatus(n)) == Success &&
      SetterStatus(l, i, SetAlarmSeverity(n)) == Success
    ensures
      var h := l.params.vals[i].health;
      && SetParam(l, i, SetStatus(n)).params.vals[i].health == Health(n, h.alarmStatus, h.alarmSeverity)
      && SetParam(l, i, SetAlarmStatus(n)).params.vals[i].health == Health(h.status, n, h.alarmSeverity)
      && SetParam(l, i, SetAlarmSeverity(n)).params.vals[i].health == Health(h.status, h.alarmStatus, n)
    ensures
      var p := l.params.vals[i];
      forall x | x == SetStatus(n) || x == SetAlarmStatus(n) || x == SetAlarmSeverity(n) ::
        var q := SetParam(l, i, x).params.vals[i];
        q == p.(health := q.health, valueChanged := false,
                callbackMask := if p.kind == UInt32Digital && q.health != p.health then ALL else p.callbackMask)
  {
  }

  /** When a setter is refused: a bad index, or a value setter for another kind; then nothing has changed. */
  lemma RefusedIff(l: List, index: int, x: Setter)
    ensures SetterStatus(l, index, x) == BadIndex <==> index < 0 || index >= |l.params.vals|
    ensures SetterStatus(l, index, x) == WrongType <==>
      0 <= index < |l.params.vals| &&
      var kind := l.params.vals[index].kind;
      || (x.SetInteger? && kind != Int32) || (x.SetInteger64? && kind != Int64)
      || (x.SetUInt32? && kind != UInt32Digital)
      || (x.SetDouble? && kind != Float64) || (x.SetString? && kind != Octet)
    ensures SetterStatus(l, index, x) != Success ==> SetParam(l, index, x) == l
  {
  }

  // ----- callbacks -----

  /** callCallbacks for address `addr` has to call this subscriber when the parameter it is registered for is `p`. */
  predicate Concerned(u: Subscriber, p: Param, addr: int) {
    && u.addr == addr && u.kind == p.kind && p.kind != OtherKind && p.valueDefined
    && (p.kind == UInt32Digital ==> u.mask.ones * p.callbackMask.ones != {})
  }

  function Told(u: Subscriber, p: Param): Subscriber {
    u.(last := Some(Delivery(
      if p.kind == UInt32Digital then Bits(Word(u.mask.ones * p.uival.ones)) else p.data, p.health)))
  }

  lemma OneIsCalled(u: Subscriber, p: Param, index: nat, addr: int)
    ensures (if Delivers(p) then Receive(u, p, index, addr) else u) ==
      if u.reason == index && Concerned(u, p, addr) then Told(u, p) else u
  {
  }

  /** One turn of the loop over the flags, for one subscriber. */
  lemma OneTurn(ps: Params, us: Subscribers, index: nat, addr: int, k: nat)
    requires index < |ps.vals| && k < |us.all|
    ensures
      var r, u := CallOne(ps, us, index, addr).1.all, us.all[k];
      && |r| == |us.all|
      && r[k] == if u.reason == index && Concerned(u, ps.vals[index], addr) then Told(u, ps.vals[index]) else u
  {
    OneIsCalled(us.all[k], ps.vals[index], index, addr);
  }

  /** The loop calls a subscriber exactly if its parameter is flagged and it has to be called. */
  lemma {:induction false} CallsExactly(ps: Params, us: Subscribers, f: seq<nat>, addr: int, k: nat)
    requires FlagsOk(List(ps, Flags(f))) && k < |us.all| && 0 <= us.all[k].reason < |ps.vals|
    ensures
      var r, u := CallFlagged(ps, us, f, addr), us.all[k];
      var p := ps.vals[u.reason];
      && r.ok && |r.subscribers.all| == |us.all|
      && r.subscribers.all[k] == if u.reason in f && Concerned(u, p, addr) then Told(u, p) else u
    decreases |f|
  {
    if f != [] {
      OneTurn(ps, us, f[0], addr, k);
      var r, rest := CallOne(ps, us, f[0], addr), f[1..];
      assert f == [f[0]] + rest && f[0] !in rest;
      CallsExactly(r.0, r.1, rest, addr, k);
    }
  }

  /** Of the parameters the loop changes only the callback mask of defined, flagged, digital ones: it is cleared. */
  lemma {:induction false} CallsParams(ps: Params, us: Subscribers, f: seq<nat>, addr: int, i: nat)
    requires FlagsOk(List(ps, Flags(f))) && i < |ps.vals|
    ensures
      var r, p := CallFlagged(ps, us, f, addr), ps.vals[i];
      && |r.params.vals| == |ps.vals|
      && r.params.vals[i] ==
        if i in f && p.valueDefined && p.kind == UInt32Digital then p.(callbackMask := Word({})) else p
    decreases |f|
  {
    if f != [] {
      var r, rest := CallOne(ps, us, f[0], addr), f[1..];
      assert f == [f[0]] + rest && f[0] !in rest;
      CallsParams(r.0, r.1, rest, addr, i);
    }
  }

  /** A flag that is no index ends the loop: all before it have been served, none after it, and the flags stay. */
  lemma {:induction false} BadFlagEnds(ps: Params, us: Subscribers, f: seq<nat>, bad: nat, g: seq<nat>, addr: int)
    requires AllIndices(f, |ps.vals|) && bad >= |ps.vals|
    ensures CallFlagged(ps, us, f + [bad] + g, addr) == CallFlagged(ps, us, f, addr).(ok := false)
    ensures
      var l := List(ps, Flags(f + [bad] + g));
      ParamLibrary.Called(l, us, addr).0.flags == l.flags
    decreases |f|
  {
    if f == [] {
      assert f + [bad] + g == [bad] + g;
    } else {
      var r := CallOne(ps, us, f[0], addr);
      assert (f + [bad] + g)[1..] == f[1..] + [bad] + g;
      BadFlagEnds(r.0, r.1, f[1..], bad, g, addr);
    }
  }

  /** A subscriber joins at the end with what it has asked for, and has received nothing. */
  lemma JoinsAsAsked(s: State, kind: Kind, reason: nat, addr: int, mask: Word)
    requires Can(s, Subscribe(kind, reason, addr, mask))
    ensures
      var us, r := s.subscribers.all, Next(s, Subscribe(kind, reason, addr, mask)).subscribers.all;
      && |r| == |us| + 1 && r[..|us|] == us
      && var u := r[|us|];
         u == Subscriber(kind, reason, addr, mask, u.base, None, false)
  {
  }

  /** Where subscriber `k` is found after the event. */
  function Place(e: Event, k: nat): nat {
    if e.Unsubscribe? && e.k < k then k - 1 else k
  }

  /**
   What a subscriber has received last changes only in a callCallbacks that interruptAccept lets
   through, and exactly if the parameter it is registered for is flagged and defined, of the kind of
   its interface, its address is that of the list and, for a digital one, some bit of its mask is to
   be called back. It then has the current value, under its mask, with status and alarms. Nobody
   else is called, and no other event calls anybody.
   */
  lemma ReceivesIff(s: State, e: Event, k: nat)
    requires Ok(s) && Can(s, e) && k < |s.subscribers.all| && e != Unsubscribe(k)
    ensures
      var t, u := Next(s, e), s.subscribers.all[k];
      var p := s.list.params.vals[u.reason];
      && Place(e, k) < |t.subscribers.all|
      && t.subscribers.all[Place(e, k)].(seen := u.seen) ==
        if e == CallCallbacks && s.interruptAccept && u.reason in s.list.flags.indices && Concerned(u, p, s.addr)
        then Told(u, p) else u
  {
    assert EachOk(s.list, s.subscribers.all[k], s.addr);
    if e == CallCallbacks {
      CallsExactly(s.list.params, s.subscribers, s.list.flags.indices, s.addr, k);
    }
  }

  /** So over any run. */
  lemma ReceivesInRuns(ss: seq<State>, es: seq<Event>, m: nat, k: nat)
    requires Run(ss, es) && m < |es| && k < |ss[m].subscribers.all| && es[m] != Unsubscribe(k)
    ensures
      var u, v := ss[m].subscribers.all[k], Place(es[m], k);
      && 0 <= u.reason < |ss[m].list.params.vals| && v < |ss[m + 1].subscribers.all|
      && var p := ss[m].list.params.vals[u.reason];
         ss[m + 1].subscribers.all[v].last ==
           if es[m] == CallCallbacks && ss[m].interruptAccept && u.reason in ss[m].list.flags.indices &&
             Concerned(u, p, ss[m].addr)
           then Told(u, p).last else u.last
  {
    OkAlways(ss, es, m);
    RunStep(ss, es, m);
    assert EachOk(ss[m].list, ss[m].subscribers.all[k], ss[m].addr);
    ReceivesIff(ss[m], es[m], k);
  }
}
