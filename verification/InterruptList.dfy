/**
 The list of interrupt users of a port (asynManager.c:2552-2671): addInterruptUser and
 removeInterruptUser wait while the driver is inside a bracket of interruptStart and
 interruptEnd, and interruptEnd wakes them. The list of exception callbacks works alike.

 A node has one addition or removal in flight. Brackets may overlap in the model: what holds
 all the same, what holds only if they do not, and exactly what an overlap breaks are separate.
*/
module InterruptList {
  import opened Common

  type Node = int

  datatype NodeList = NodeList(nodes: seq<Node>)

  /** struct interruptBase, and of each interruptNodePvt the two flags and whether callbackDone is full. */
  datatype Base = Base(
    callbackActive: bool,
    listModified: bool,
    defunct: bool,
    callbackList: NodeList,
    addRemoveList: NodeList,
    isOnList: Flag,
    isOnAddRemoveList: Flag,
    callbackDone: Flag)

  datatype Outcome = Done | Waits | ShutDown | WrongState | AlreadyWaiting

  function Without(l: seq<Node>, n: Node): seq<Node> {
    if l == [] then [] else if l[0] == n then l[1..] else [l[0]] + Without(l[1..], n)
  }

  /** The lines that both functions share: wait on the addRemoveList. */
  function Wait(b: Base, n: Node): Base {
    b.(addRemoveList := NodeList(b.addRemoveList.nodes + [n]), isOnAddRemoveList := b.isOnAddRemoveList.Add(n),
      listModified := true)
  }

  function Insert(b: Base, n: Node): Base {
    b.(callbackList := NodeList(b.callbackList.nodes + [n]), isOnList := b.isOnList.Add(n))
  }

  function Erase(b: Base, n: Node): Base {
    b.(callbackList := NodeList(Without(b.callbackList.nodes, n)), isOnList := b.isOnList.Del(n))
  }

  /** One pass over the loop `while (callbackActive)` and what follows it. */
  function LoopOutcome(b: Base, n: Node): Outcome {
    if !b.callbackActive then Done else if b.isOnAddRemoveList.Has(n) then AlreadyWaiting else Waits
  }

  function Loop(b: Base, n: Node, adds: bool): Base {
    match LoopOutcome(b, n)
    case Done => if adds then Insert(b, n) else Erase(b, n)
    case Waits => Wait(b, n)
    case _ => b
  }

  /** The first region of addInterruptUser and removeInterruptUser. */
  function CallOutcome(b: Base, n: Node, adds: bool): Outcome {
    if b.defunct then ShutDown else if b.isOnList.Has(n) == adds then WrongState else LoopOutcome(b, n)
  }

  function Call(b: Base, n: Node, adds: bool): Base {
    if b.defunct || b.isOnList.Has(n) == adds then b else Loop(b, n, adds)
  }

  function Start(b: Base): Base {
    b.(callbackActive := true, listModified := false)
  }

  /** Takes every node off the addRemoveList and signals its event. */
  function Drain(b: Base): Base
    decreases |b.addRemoveList.nodes|
  {
    if b.addRemoveList.nodes == [] then b
    else
      var n := b.addRemoveList.nodes[0];
      Drain(b.(addRemoveList := NodeList(b.addRemoveList.nodes[1..]), isOnAddRemoveList := b.isOnAddRemoveList.Del(n),
               callbackDone := b.callbackDone.Add(n)))
  }

  function End(b: Base): Base {
    if b.listModified then Drain(b.(callbackActive := false)) else b.(callbackActive := false)
  }

  // ----- the protocol -----

  /**
   The threads: which nodes are being added, being removed, and which of those wait for
   callbackDone; and how many brackets the driver has open.
   */
  datatype State = State(base: Base, adding: Flag, removing: Flag, waiting: Flag, open: nat)

  datatype Event =
    | Calls(n: Node, adds: bool)
    | Wakes(n: Node)
    | Retries(n: Node)
    | Starts
    | Ends
    | ShutsDown

  predicate Busy(s: State, n: Node) {
    s.adding.Has(n) || s.removing.Has(n)
  }

  predicate Can(s: State, e: Event) {
    match e
    case Calls(n, _) => !Busy(s, n)
    case Wakes(n) => s.waiting.Has(n) && s.base.callbackDone.Has(n)
    case Retries(n) => Busy(s, n) && !s.waiting.Has(n)
    case Ends => s.open > 0
    case _ => true
  }

  /** The call of `n` goes on as `outcome` says. */
  function After(s: State, b: Base, n: Node, adds: bool, outcome: Outcome): State {
    if outcome == Waits
    then s.(base := b, adding := s.adding.Put(n, adds), removing := s.removing.Put(n, !adds),
      waiting := s.waiting.Add(n))
    else s.(base := b, adding := s.adding.Del(n), removing := s.removing.Del(n))
  }

  function Next(s: State, e: Event): State
    requires Can(s, e)
  {
    match e
    case Calls(n, adds) => After(s, Call(s.base, n, adds), n, adds, CallOutcome(s.base, n, adds))
    case Wakes(n) => s.(base := s.base.(callbackDone := s.base.callbackDone.Del(n)), waiting := s.waiting.Del(n))
    case Retries(n) => After(s, Loop(s.base, n, s.adding.Has(n)), n, s.adding.Has(n), LoopOutcome(s.base, n))
    case Starts => s.(base := Start(s.base), open := s.open + 1)
    case Ends => s.(base := End(s.base), open := s.open - 1)
    case ShutsDown => s.(base := s.base.(defunct := true))
  }

  ghost predicate Init(s: State) {
    var none := Flag({});
    s == State(Base(false, false, false, NodeList([]), NodeList([]), none, none, none), none, none, none, 0)
  }

  predicate Moment(es: seq<Event>, m: nat) {
    m < |es|
  }

  ghost predicate Run(ss: seq<State>, es: seq<Event>) {
    && |ss| == |es| + 1 && Init(ss[0])
    && forall m: nat {:trigger Moment(es, m)} | Moment(es, m) :: Can(ss[m], es[m]) && ss[m + 1] == Next(ss[m], es[m])
  }

  // ----- the invariant -----

  /** A list and the flag that says who is on it: no node is there twice. */
  ghost predicate Agree(l: NodeList, f: Flag) {
    multiset(l.nodes) == multiset(f.on)
  }

  ghost predicate ListsOk(b: Base) {
    Agree(b.callbackList, b.isOnList) && Agree(b.addRemoveList, b.isOnAddRemoveList)
  }

  /** Who waits is on the addRemoveList or has been signalled; who adds is not on the list, who removes is. */
  ghost predicate ThreadsOk(s: State) {
    && (forall n :: n in s.waiting.on <==> n in s.base.isOnAddRemoveList.on || n in s.base.callbackDone.on)
    && s.base.isOnAddRemoveList.on !! s.base.callbackDone.on
    && s.waiting.on <= s.adding.on + s.removing.on
    && s.adding.on !! s.base.isOnList.on && s.removing.on <= s.base.isOnList.on
  }

  ghost predicate Ok(s: State) {
    ListsOk(s.base) && ThreadsOk(s)
  }

  lemma AgreeAdd(l: NodeList, f: Flag, n: Node)
    requires Agree(l, f) && !f.Has(n)
    ensures Agree(NodeList(l.nodes + [n]), f.Add(n))
  {
    assert multiset(l.nodes + [n]) == multiset(l.nodes) + multiset{n};
    assert multiset(f.on + {n}) == multiset(f.on) + multiset{n};
  }

  lemma {:induction false} WithoutRemovesOne(l: seq<Node>, n: Node)
    requires n in l
    ensures multiset(l) == multiset(Without(l, n)) + multiset{n}
  {
    assert l == [l[0]] + l[1..];
    if l[0] != n {
      WithoutRemovesOne(l[1..], n);
    }
  }

  lemma AgreeDel(l: NodeList, f: Flag, r: NodeList, n: Node)
    requires Agree(l, f) && n in l.nodes && multiset(l.nodes) == multiset(r.nodes) + multiset{n}
    ensures f.Has(n) && Agree(r, f.Del(n))
  {
    assert n in multiset(f.on);
    assert f.on == f.on - {n} + {n};
    assert multiset(f.on) == multiset(f.on - {n}) + multiset{n};
    assert (multiset(r.nodes) + multiset{n}) - multiset{n} == multiset(r.nodes);
  }

  /** What interruptEnd does to those who wait: all of them are signalled, none is left. */
  lemma {:induction false} DrainSignalsAll(b: Base)
    requires Agree(b.addRemoveList, b.isOnAddRemoveList)
    ensures
      var r := Drain(b);
      && r == b.(addRemoveList := NodeList([]), isOnAddRemoveList := r.isOnAddRemoveList,
        callbackDone := r.callbackDone)
      && r.isOnAddRemoveList.on == {} && r.callbackDone.on == b.callbackDone.on + b.isOnAddRemoveList.on
    decreases |b.addRemoveList.nodes|
  {
    var l := b.addRemoveList.nodes;
    if l != [] {
      var n := l[0];
      assert l == [n] + l[1..];
      assert multiset(l) == multiset(l[1..]) + multiset{n};
      AgreeDel(b.addRemoveList, b.isOnAddRemoveList, NodeList(l[1..]), n);
      DrainSignalsAll(b.(addRemoveList := NodeList(l[1..]), isOnAddRemoveList := b.isOnAddRemoveList.Del(n),
                         callbackDone := b.callbackDone.Add(n)));
    } else {
      assert b.isOnAddRemoveList.on == {} by {
        assert forall n | n in b.isOnAddRemoveList.on :: n in multiset(b.isOnAddRemoveList.on);
      }
    }
  }

  /** interruptEnd drains the list if it knows of a modification, and otherwise leaves it. */
  lemma EndEffect(b: Base)
    requires ListsOk(b)
    ensures
      var r := End(b);
      && ListsOk(r) && r.callbackList == b.callbackList && r.isOnList == b.isOnList && !r.callbackActive
      && r.listModified == b.listModified && r.defunct == b.defunct
      && if b.listModified then
           && r.addRemoveList.nodes == [] && r.isOnAddRemoveList.on == {}
           && r.callbackDone.on == b.callbackDone.on + b.isOnAddRemoveList.on
         else r == b.(callbackActive := false)
  {
    if b.listModified {
      DrainSignalsAll(b.(callbackActive := false));
    }
  }

  lemma LoopOk(s: State, n: Node, adds: bool)
    requires Ok(s) && !s.waiting.Has(n) && s.base.isOnList.Has(n) != adds
    ensures LoopOutcome(s.base, n) != AlreadyWaiting
    ensures Ok(After(s, Loop(s.base, n, adds), n, adds, LoopOutcome(s.base, n)))
  {
    var b := s.base;
    if b.callbackActive {
      AgreeAdd(b.addRemoveList, b.isOnAddRemoveList, n);
    } else if adds {
      AgreeAdd(b.callbackList, b.isOnList, n);
    } else {
      assert n in multiset(b.isOnList.on);
      WithoutRemovesOne(b.callbackList.nodes, n);
      AgreeDel(b.callbackList, b.isOnList, NodeList(Without(b.callbackList.nodes, n)), n);
    }
  }

  lemma OkStep(s: State, e: Event)
    requires Ok(s) && Can(s, e)
    ensures Ok(Next(s, e))
  {
    match e
    case Calls(n, adds) =>
      if CallOutcome(s.base, n, adds) != ShutDown && CallOutcome(s.base, n, adds) != WrongState {
        LoopOk(s, n, adds);
      }
    case Retries(n) => LoopOk(s, n, s.adding.Has(n));
    case Ends => EndEffect(s.base);
    case _ =>
  }

  lemma RunStep(ss: seq<State>, es: seq<Event>, m: nat)
    requires Run(ss, es) && m < |es|
    ensures Can(ss[m], es[m]) && ss[m + 1] == Next(ss[m], es[m])
  {
    assert Moment(es, m);
  }

  lemma {:induction false} OkAlways(ss: seq<State>, es: seq<Event>, m: nat)
    requires Run(ss, es) && m < |ss|
    ensures Ok(ss[m])
  {
    if m > 0 {
      OkAlways(ss, es, m - 1);
      RunStep(ss, es, m - 1);
      OkStep(ss[m - 1], es[m - 1]);
    }
  }

  // ----- with or without overlap -----

  /** A node is never twice on a list, the flags say who is on them, and nobody is told that it waits already. */
  lemma FlagsTellTheLists(ss: seq<State>, es: seq<Event>, m: nat, n: Node)
    requires Run(ss, es) && m < |ss|
    ensures multiset(ss[m].base.callbackList.nodes)[n] == if ss[m].base.isOnList.Has(n) then 1 else 0
    ensures multiset(ss[m].base.addRemoveList.nodes)[n] == if ss[m].base.isOnAddRemoveList.Has(n) then 1 else 0
    ensures !ss[m].waiting.Has(n) ==> LoopOutcome(ss[m].base, n) != AlreadyWaiting
  {
    OkAlways(ss, es, m);
  }

  lemma {:induction false} WithoutIsOthers(l: seq<Node>, n: Node)
    requires multiset(l)[n] <= 1
    ensures Without(l, n) == Others(l, n)
  {
    if l != [] {
      assert l == [l[0]] + l[1..];
      assert multiset(l) == multiset{l[0]} + multiset(l[1..]);
      if l[0] == n {
        assert n !in multiset(l[1..]);
        OthersOnly(l[1..], n);
      } else {
        WithoutIsOthers(l[1..], n);
      }
    }
  }

  /**
   The call of `n` has no bracket to wait for: its node is added at the end, or taken from where it
   is; nobody else moves.
   */
  predicate Completed(s: State, t: State, n: Node, adds: bool) {
    && t.adding.on == s.adding.on - {n} && t.removing.on == s.removing.on - {n} && t.waiting == s.waiting
    && t.open == s.open
    && t.base == s.base.(callbackList := t.base.callbackList, isOnList := t.base.isOnList)
    && t.base.callbackList.nodes ==
      (if adds then s.base.callbackList.nodes + [n] else Others(s.base.callbackList.nodes, n))
    && t.base.isOnList.on == (if adds then s.base.isOnList.on + {n} else s.base.isOnList.on - {n})
  }

  /** It has: its node is put at the end of the addRemoveList, and it waits. */
  predicate Deferred(s: State, t: State, n: Node, adds: bool) {
    && t.adding.on == (if adds then s.adding.on + {n} else s.adding.on - {n})
    && t.removing.on == (if adds then s.removing.on - {n} else s.removing.on + {n})
    && t.waiting.on == s.waiting.on + {n} && t.open == s.open
    && t.base == s.base.(addRemoveList := NodeList(s.base.addRemoveList.nodes + [n]),
      isOnAddRemoveList := Flag(s.base.isOnAddRemoveList.on + {n}), listModified := true)
  }

  lemma LoopDoes(s: State, n: Node, adds: bool)
    requires Ok(s) && !s.waiting.Has(n) && s.base.isOnList.Has(n) != adds
    ensures
      var t := After(s, Loop(s.base, n, adds), n, adds, LoopOutcome(s.base, n));
      if s.base.callbackActive then Deferred(s, t, n, adds) else Completed(s, t, n, adds)
  {
    if !s.base.callbackActive && !adds {
      WithoutIsOthers(s.base.callbackList.nodes, n);
    }
  }

  /**
   addInterruptUser and removeInterruptUser: refused, with nothing changed, exactly if the port was
   shut down or the node is on the list already, or not on it; done at once if no callback is
   active; and otherwise put off.
   */
  lemma CallIff(s: State, n: Node, adds: bool)
    requires Ok(s) && Can(s, Calls(n, adds))
    ensures
      var t, outcome := Next(s, Calls(n, adds)), CallOutcome(s.base, n, adds);
      && (outcome == ShutDown <==> s.base.defunct)
      && (outcome == WrongState <==> !s.base.defunct && (n in s.base.isOnList.on) == adds)
      && if s.base.defunct || (n in s.base.isOnList.on) == adds then t == s
         else if s.base.callbackActive then outcome == Waits && Deferred(s, t, n, adds)
         else outcome == Done && Completed(s, t, n, adds)
  {
    if s.base.defunct || (n in s.base.isOnList.on) == adds {
      assert s.adding.Del(n) == s.adding && s.removing.Del(n) == s.removing;
    } else {
      LoopDoes(s, n, adds);
    }
  }

  /** A call that was woken tries again, whether the port was shut down meanwhile or not. */
  lemma RetryIff(s: State, n: Node)
    requires Ok(s) && Can(s, Retries(n))
    ensures
      var t, adds := Next(s, Retries(n)), n in s.adding.on;
      if s.base.callbackActive then Deferred(s, t, n, adds) else Completed(s, t, n, adds)
  {
    LoopDoes(s, n, s.adding.Has(n));
  }

  /** The call of `n` is over, with success, and was to add it, or else to remove it. */
  predicate Succeeds(s: State, e: Event, n: Node, adds: bool) {
    || (e == Calls(n, adds) && CallOutcome(s.base, n, adds) == Done)
    || (e == Retries(n) && s.adding.Has(n) == adds && LoopOutcome(s.base, n) == Done)
  }

  /** A call that succeeds has added or removed its node, and no other; nothing else changes the list. */
  lemma OnlySuccessChanges(s: State, e: Event, n: Node)
    requires Ok(s) && Can(s, e)
    ensures
      var now, was := Next(s, e).base.isOnList.Has(n), s.base.isOnList.Has(n);
      if Succeeds(s, e, n, true) then !was && now
      else if Succeeds(s, e, n, false) then was && !now
      else now == was
  {
    if e == Ends {
      EndEffect(s.base);
    }
  }

  /** Some call has its success in this event. */
  predicate SomeSuccess(s: State, e: Event) {
    match e
    case Calls(n, adds) => Succeeds(s, e, n, adds)
    case Retries(n) => Succeeds(s, e, n, s.adding.Has(n))
    case _ => false
  }

  /** The list changes exactly in those events, and there are none while callbackActive is set. */
  lemma ListChangesIff(s: State, e: Event)
    requires Ok(s) && Can(s, e)
    ensures Next(s, e).base.callbackList != s.base.callbackList <==> SomeSuccess(s, e)
    ensures SomeSuccess(s, e) ==> !s.base.callbackActive
  {
    if e == Ends {
      EndEffect(s.base);
    } else if SomeSuccess(s, e) {
      OnlySuccessChanges(s, e, e.n);
      OkStep(s, e);
      var was, now := s.base.isOnList, Next(s, e).base.isOnList;
      assert multiset(was.on)[e.n] != multiset(now.on)[e.n];
    }
  }

  /** The latest of the starts and ends so far is a start. */
  predicate LastStarted(es: seq<Event>, m: nat)
    requires m <= |es|
  {
    m > 0 && (es[m - 1] == Starts || (es[m - 1] != Ends && LastStarted(es, m - 1)))
  }

  lemma {:induction false} ActiveIffLastStarted(ss: seq<State>, es: seq<Event>, m: nat)
    requires Run(ss, es) && m <= |es|
    ensures ss[m].base.callbackActive <==> LastStarted(es, m)
  {
    if m > 0 {
      ActiveIffLastStarted(ss, es, m - 1);
      OkAlways(ss, es, m - 1);
      RunStep(ss, es, m - 1);
      if es[m - 1] == Ends {
        EndEffect(ss[m - 1].base);
      }
    }
  }

  /** No event that can come next changes the list. */
  ghost predicate Protected(s: State) {
    forall e | Can(s, e) :: Next(s, e).base.callbackList == s.base.callbackList
  }

  lemma {:induction false} SomeOther(xs: set<int>) returns (n: int)
    ensures forall x | x in xs :: x < n
  {
    if x :| x in xs {
      var k := SomeOther(xs - {x});
      n := if x < k then k else x + 1;
      assert forall y | y in xs :: y == x || y in xs - {x};
    } else {
      n := 0;
    }
  }

  /**
   Whatever overlaps: the list is protected, at any moment before the shutdown of the port,
   exactly when the latest start or end of a bracket was a start. So every bracket is protected
   from its own start to the first end of any bracket, and from then until the next start it is
   not, if it is still open.
   */
  lemma ProtectedIff(ss: seq<State>, es: seq<Event>, m: nat)
    requires Run(ss, es) && m <= |es| && !ss[m].base.defunct
    ensures Protected(ss[m]) <==> LastStarted(es, m)
  {
    var s := ss[m];
    OkAlways(ss, es, m);
    ActiveIffLastStarted(ss, es, m);
    if s.base.callbackActive {
      forall e | Can(s, e)
        ensures Next(s, e).base.callbackList == s.base.callbackList
      {
        ListChangesIff(s, e);
      }
    } else {
      var n := SomeOther(s.adding.on + s.removing.on + s.base.isOnList.on);
      assert n !in s.adding.on + s.removing.on + s.base.isOnList.on;
      ListChangesIff(s, Calls(n, true));
      assert Can(s, Calls(n, true)) && SomeSuccess(s, Calls(n, true));
    }
  }

  /**
   What the driver walks stays the same, from one moment to another, exactly if no call has its
   success between them.
   */
  lemma {:induction false} StaysIffNoSuccess(ss: seq<State>, es: seq<Event>, from: nat, m: nat)
    requires Run(ss, es) && from <= m < |ss|
    ensures
      (forall k | from <= k < m :: ss[k + 1].base.callbackList == ss[k].base.callbackList) <==>
      (forall k | from <= k < m :: !SomeSuccess(ss[k], es[k]))
    decreases m
  {
    if from < m {
      StaysIffNoSuccess(ss, es, from, m - 1);
      OkAlways(ss, es, m - 1);
      RunStep(ss, es, m - 1);
      ListChangesIff(ss[m - 1], es[m - 1]);
    }
  }

  // ----- brackets that do not overlap -----

  ghost predicate DisjointRun(ss: seq<State>, es: seq<Event>) {
    Run(ss, es) && forall k | 0 <= k < |es| :: es[k] == Starts ==> ss[k].open == 0
  }

  /** Then callbackActive says that the one bracket there can be is open. */
  lemma {:induction false} ActiveIffOpen(ss: seq<State>, es: seq<Event>, m: nat)
    requires DisjointRun(ss, es) && m < |ss|
    ensures ss[m].open == if ss[m].base.callbackActive then 1 else 0
  {
    if m > 0 {
      ActiveIffOpen(ss, es, m - 1);
      OkAlways(ss, es, m - 1);
      RunStep(ss, es, m - 1);
      if es[m - 1] == Ends {
        EndEffect(ss[m - 1].base);
      }
    }
  }

  /** From interruptStart to interruptEnd the list that the driver walks does not change. */
  lemma {:induction false} ListIsStable(ss: seq<State>, es: seq<Event>, from: nat, m: nat)
    requires DisjointRun(ss, es) && from <= m < |ss|
    requires forall k | from <= k < m :: ss[k].open > 0
    ensures ss[m].base.callbackList == ss[from].base.callbackList
    decreases m
  {
    if from < m {
      ListIsStable(ss, es, from, m - 1);
      ActiveIffOpen(ss, es, m - 1);
      OkAlways(ss, es, m - 1);
      RunStep(ss, es, m - 1);
      ListChangesIff(ss[m - 1], es[m - 1]);
    }
  }

  // ----- the waiters -----

  /** Whoever is on the addRemoveList will be found there by the interruptEnd to come. */
  predicate WillBeFound(b: Base) {
    b.addRemoveList.nodes != [] ==> b.callbackActive && b.listModified
  }

  /** The one event that spoils it: a start, of an overlapping bracket, while somebody waits. */
  predicate Forgets(s: State, e: Event) {
    e == Starts && s.base.addRemoveList.nodes != []
  }

  lemma FoundUnlessForgotten(s: State, e: Event)
    requires Ok(s) && WillBeFound(s.base) && Can(s, e)
    ensures WillBeFound(Next(s, e).base) <==> !Forgets(s, e)
  {
    if e == Ends {
      EndEffect(s.base);
    }
  }

  /** Over any run, everyone who waits will be found at every moment exactly if no start came while somebody waited. */
  lemma {:induction false} FoundIffNobodyForgotten(ss: seq<State>, es: seq<Event>, m: nat)
    requires Run(ss, es) && m < |ss|
    ensures (forall k | 0 <= k <= m :: WillBeFound(ss[k].base)) <==> (forall k | 0 <= k < m :: !Forgets(ss[k], es[k]))
  {
    if m > 0 {
      FoundIffNobodyForgotten(ss, es, m - 1);
      OkAlways(ss, es, m - 1);
      RunStep(ss, es, m - 1);
      if WillBeFound(ss[m - 1].base) {
        FoundUnlessForgotten(ss[m - 1], es[m - 1]);
      }
    }
  }

  lemma WaitersAreListed(s: State, n: Node)
    requires Ok(s) && s.waiting.Has(n) && !s.base.callbackDone.Has(n)
    ensures s.base.addRemoveList.nodes != []
  {
    assert n in multiset(s.base.isOnAddRemoveList.on);
  }

  lemma {:induction false} DisjointForgetsNobody(ss: seq<State>, es: seq<Event>, m: nat)
    requires DisjointRun(ss, es) && m < |ss|
    ensures WillBeFound(ss[m].base)
  {
    if m > 0 {
      DisjointForgetsNobody(ss, es, m - 1);
      ActiveIffOpen(ss, es, m - 1);
      OkAlways(ss, es, m - 1);
      RunStep(ss, es, m - 1);
      FoundUnlessForgotten(ss[m - 1], es[m - 1]);
    }
  }

  /** So with brackets that do not overlap, everyone who waits while none is open has its signal. */
  lemma NobodyForgotten(ss: seq<State>, es: seq<Event>, m: nat, n: Node)
    requires DisjointRun(ss, es) && m < |ss| && ss[m].waiting.Has(n) && ss[m].open == 0
    ensures Can(ss[m], Wakes(n))
  {
    DisjointForgetsNobody(ss, es, m);
    ActiveIffOpen(ss, es, m);
    OkAlways(ss, es, m);
    if !ss[m].base.callbackDone.Has(n) {
      WaitersAreListed(ss[m], n);
    }
  }

  /** Once forgotten, a waiter gets no signal from the interruptEnd that follows, although nothing else keeps it. */
  lemma ForgottenIsNotSignalled(s: State, n: Node)
    requires Ok(s) && s.waiting.Has(n) && !s.base.callbackDone.Has(n) && s.open > 0
    ensures Forgets(s, Starts)
    ensures
      var t := Next(Next(Next(s, Starts), Ends), Ends);
      t.open == s.open - 1 && !t.base.callbackActive && t.waiting.Has(n) && !Can(t, Wakes(n)) && !Can(t, Retries(n))
  {
    WaitersAreListed(s, n);
  }

  // ----- the code -----

  class InterruptBase {
    var callbackActive: bool
    var listModified: bool
    var defunct: bool
    var callbackList: seq<Node>
    var addRemoveList: seq<Node>
    var isOnList: Flag
    var isOnAddRemoveList: Flag
    var callbackDone: Flag

    function Contents(): Base
      reads this
    {
      Base(callbackActive, listModified, defunct, NodeList(callbackList), NodeList(addRemoveList), isOnList,
        isOnAddRemoveList, callbackDone)
    }

    constructor ()
      ensures Contents() == Base(false, false, false, NodeList([]), NodeList([]), Flag({}), Flag({}), Flag({}))
    {
      callbackActive, listModified, defunct := false, false, false;
      callbackList, addRemoveList := [], [];
      isOnList, isOnAddRemoveList, callbackDone := Flag({}), Flag({}), Flag({});
    }

    /** The first region of addInterruptUser (`adds`) or removeInterruptUser. */
    method CallUser(n: Node, adds: bool) returns (outcome: Outcome)
      modifies this
      ensures outcome == CallOutcome(old(Contents()), n, adds)
      ensures Contents() == Call(old(Contents()), n, adds)
    {
      if defunct {
        return ShutDown;
      }
      if isOnList.Has(n) == adds {
        return WrongState;
      }
      outcome := LoopUser(n, adds);
    }

    /** One pass over the loop, when it is entered and after each wake-up. */
    method LoopUser(n: Node, adds: bool) returns (outcome: Outcome)
      modifies this
      ensures outcome == LoopOutcome(old(Contents()), n)
      ensures Contents() == Loop(old(Contents()), n, adds)
    {
      if callbackActive {
        if isOnAddRemoveList.Has(n) {
          return AlreadyWaiting;
        }
        addRemoveList := addRemoveList + [n];
        isOnAddRemoveList := isOnAddRemoveList.Add(n);
        listModified := true;
        return Waits;
      }
      if adds {
        callbackList, isOnList := callbackList + [n], isOnList.Add(n);
      } else {
        callbackList := Without(callbackList, n);
        isOnList := isOnList.Del(n);
      }
      outcome := Done;
    }

    method InterruptStart()
      modifies this
      ensures Contents() == Start(old(Contents()))
    {
      callbackActive := true;
      listModified := false;
    }

    method InterruptEnd()
      modifies this
      ensures Contents() == End(old(Contents()))
    {
      callbackActive := false;
      if !listModified {
        return;
      }
      ghost var goal := Drain(Contents());
      while addRemoveList != []
        invariant Drain(Contents()) == goal
        decreases |addRemoveList|
      {
        var n := addRemoveList[0];
        addRemoveList := addRemoveList[1..];
        isOnAddRemoveList := isOnAddRemoveList.Del(n);
        callbackDone := callbackDone.Add(n);
      }
    }
  }
}
