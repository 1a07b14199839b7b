/**
 The ring buffers of device support. With `slots` slots they hold slots - 1 elements: the
 scalar records have ringSize + 1 slots (devAsynInt32.c:354-366), the array records ringSize
 (devAsynXXXArray.cpp:376-459). A push into a full ring drops the oldest element.
 */
module Ring {
  import opened Common

  // ----- the bounded queue that the ring is to be -----

  /** Push, at capacity `c`, dropping the oldest. */
  function Pushed<T>(q: seq<T>, x: T, c: nat): seq<T> {
    if |q| < c then q + [x] else (q + [x])[1..]
  }

  datatype Op<T> = Push(x: T) | Pop

  /**
   What a sequence of operations leaves: the queue, all that was pushed, all that was popped, the
   process requests made.
   */
  datatype Trace<T> = Trace(queue: seq<T>, pushed: seq<T>, popped: seq<T>, requests: nat)

  /** What one more operation does to the trace. */
  function Extended<T>(t: Trace<T>, op: Op<T>, c: nat): Trace<T> {
    match op
    case Push(x) =>
      Trace(Pushed(t.queue, x, c), t.pushed + [x], t.popped, if |t.queue| < c then t.requests + 1 else t.requests)
    case Pop =>
      if t.queue == [] then t else t.(queue := t.queue[1..], popped := t.popped + [t.queue[0]])
  }

  function Perform<T>(ops: seq<Op<T>>, c: nat): Trace<T> {
    if ops == [] then Trace([], [], [], 0) else Extended(Perform(ops[..|ops| - 1], c), ops[|ops| - 1], c)
  }

  /** The queue holds the newest elements pushed, in order, at most `c` of them. */
  lemma {:induction false} QueueIsNewest<T>(ops: seq<Op<T>>, c: nat)
    ensures
      var t := Perform(ops, c);
      |t.queue| <= c && |t.queue| <= |t.pushed| && t.queue == t.pushed[|t.pushed| - |t.queue|..]
  {
    if ops != [] {
      QueueIsNewest(ops[..|ops| - 1], c);
    }
  }

  /** No element is given up while there is room: the queue holds all pushes not popped, or as many as it can. */
  lemma {:induction false} DropsOnlyWhenFull<T>(ops: seq<Op<T>>, x: T, c: nat)
    ensures
      var q, r := Perform(ops, c).queue, Perform(ops + [Push(x)], c).queue;
      if |q| < c then r == q + [x] else |q| == c && r == (q + [x])[1..]
  {
    QueueIsNewest(ops, c);
    assert (ops + [Push(x)])[..|ops|] == ops;
  }

  /** The latest push is still there, until it is popped, exactly when the capacity is not 0. */
  lemma LatestIsRetainedIff<T>(ops: seq<Op<T>>, x: T, c: nat)
    ensures var q := Perform(ops + [Push(x)], c).queue; (q != [] && q[|q| - 1] == x) <==> c >= 1
  {
    QueueIsNewest(ops + [Push(x)], c);
    assert (ops + [Push(x)])[..|ops|] == ops;
  }

  predicate Subsequence<T(==)>(a: seq<T>, b: seq<T>)
    decreases |b|
  {
    if a == [] then true
    else if b == [] then false
    else if a[|a| - 1] == b[|b| - 1] then Subsequence(a[..|a| - 1], b[..|b| - 1])
    else Subsequence(a, b[..|b| - 1])
  }

  function Cut<T>(a: seq<T>, k: nat): seq<T>
    requires k < |a|
  {
    a[..k] + a[k + 1..]
  }

  lemma CutLast<T>(a: seq<T>, k: nat)
    requires k < |a| - 1
    ensures Cut(a, k) == Cut(a[..|a| - 1], k) + [a[|a| - 1]]
    ensures Cut(a, |a| - 1) == a[..|a| - 1]
  {
  }

  lemma {:induction false} SubsequenceShrinks<T>(a: seq<T>, b: seq<T>, k: nat)
    requires k < |a| && Subsequence(a, b)
    ensures Subsequence(Cut(a, k), b)
    decreases |b|
  {
    var a', b', x := a[..|a| - 1], b[..|b| - 1], b[|b| - 1];
    assert b == b' + [x];
    if a[|a| - 1] != x {
      SubsequenceShrinks(a, b', k);
      SubsequenceGrows(Cut(a, k), b', x);
    } else if k < |a| - 1 {
      CutLast(a, k);
      SubsequenceShrinks(a', b', k);
      SubsequenceGrows(Cut(a', k), b', x);
    } else {
      assert Cut(a, k) == a';
      SubsequenceGrows(a', b', x);
    }
  }

  lemma {:induction false} SubsequenceGrows<T>(a: seq<T>, b: seq<T>, x: T)
    requires Subsequence(a, b)
    ensures Subsequence(a, b + [x]) && Subsequence(a + [x], b + [x])
    decreases |b|
  {
    assert (b + [x])[..|b|] == b && (a + [x])[..|a|] == a;
    if a != [] && a[|a| - 1] == x {
      var a' := a[..|a| - 1];
      DropLast(a, b);
    }
  }

  lemma {:induction false} DropLast<T>(a: seq<T>, b: seq<T>)
    requires a != [] && Subsequence(a, b)
    ensures Subsequence(a[..|a| - 1], b)
    decreases |b|
  {
    var a', b' := a[..|a| - 1], b[..|b| - 1];
    if a[|a| - 1] == b[|b| - 1] {
      if a' != [] && a'[|a'| - 1] == b[|b| - 1] {
        DropLast(a', b');
      }
    } else {
      DropLast(a, b');
      if a' != [] && a'[|a'| - 1] == b[|b| - 1] {
        DropLast(a', b');
      }
    }
  }

  lemma PushInOrder<T>(popped: seq<T>, queue: seq<T>, pushed: seq<T>, x: T, c: nat)
    requires Subsequence(popped + queue, pushed)
    ensures Subsequence(popped + Pushed(queue, x, c), pushed + [x])
  {
    var a := popped + queue;
    SubsequenceGrows(a, pushed, x);
    if |queue| < c {
      assert popped + (queue + [x]) == a + [x];
    } else {
      assert a + [x] == popped + (queue + [x]);
      SubsequenceShrinks(a + [x], pushed + [x], |popped|);
      WithoutFirst(popped, queue + [x]);
    }
  }

  lemma WithoutFirst<T>(p: seq<T>, q: seq<T>)
    requires q != []
    ensures p + q[1..] == Cut(p + q, |p|)
  {
    assert (p + q)[..|p|] == p;
    assert (p + q)[|p| + 1..] == q[1..];
  }

  lemma ExtendedIsInOrder<T>(t: Trace<T>, op: Op<T>, c: nat)
    requires Subsequence(t.popped + t.queue, t.pushed)
    ensures var r := Extended(t, op, c); Subsequence(r.popped + r.queue, r.pushed)
  {
    if op.Push? {
      PushInOrder(t.popped, t.queue, t.pushed, op.x, c);
    } else if t.queue != [] {
      assert t.popped + [t.queue[0]] + t.queue[1..] == t.popped + t.queue;
    }
  }

  /** First in, first out: what was popped, followed by what is left, is in the order of the pushes. */
  lemma {:induction false} PopsAreInOrder<T>(ops: seq<Op<T>>, c: nat)
    ensures var t := Perform(ops, c); Subsequence(t.popped + t.queue, t.pushed)
  {
    if ops != [] {
      PopsAreInOrder(ops[..|ops| - 1], c);
      ExtendedIsInOrder(Perform(ops[..|ops| - 1], c), ops[|ops| - 1], c);
    }
  }

  /**
   Process requests made, less elements popped, are the elements in the ring; so a pop for
   each request always finds one, and none is left without a request.
   */
  lemma {:induction false} RequestsMatchOccupancy<T>(ops: seq<Op<T>>, c: nat)
    ensures var t := Perform(ops, c); t.requests == |t.popped| + |t.queue|
  {
    if ops != [] {
      RequestsMatchOccupancy(ops[..|ops| - 1], c);
    }
  }

  // ----- the ring -----

  /** The slots from `tail` up to `head`, around the end of the buffer if need be. */
  function Between<T>(slots: seq<T>, tail: nat, head: nat): seq<T>
    requires tail < |slots| && head < |slots|
  {
    if tail <= head then slots[tail..head] else slots[tail..] + slots[..head]
  }

  function Following(k: nat, slots: nat): nat {
    if k == slots - 1 then 0 else k + 1
  }

  lemma WrittenSlot<T>(s: seq<T>, tail: nat, head: nat, x: T)
    requires tail < |s| && head < |s|
    ensures
      var was, next := Between(s, tail, head), Following(head, |s|);
      && |was| < |s|
      && (if next == tail then |was| == |s| - 1 && Between(s[head := x], Following(tail, |s|), next) == (was + [x])[1..]
          else |was| < |s| - 1 && Between(s[head := x], tail, next) == was + [x])
  {
    var was, next, r := Between(s, tail, head), Following(head, |s|), s[head := x];
    if tail <= head {
      if head < |s| - 1 {
        assert r[tail..head + 1] == s[tail..head] + [x];
      } else {
        assert r[tail..] == s[tail..head] + [x];
        assert r[tail..] + r[..0] == r[tail..];
        assert tail == 0 ==> Between(r, Following(tail, |s|), next) == r[1..];
      }
    } else {
      assert r[..head + 1] == s[..head] + [x];
      assert r[tail..] == s[tail..];
      assert (s[tail..] + (s[..head] + [x]))[1..] == s[tail + 1..] + (s[..head] + [x]);
    }
  }

  /** `value` stands for a ringBufferElement: value, time stamp, status and alarms. */
  class RingBuffer<T(0)> {
    const slots: array<T>
    var ringHead: nat
    var ringTail: nat
    var overflows: nat

    ghost predicate Valid()
      reads this
    {
      slots.Length > 0 && ringHead < slots.Length && ringTail < slots.Length
    }

    function Contents(): seq<T>
      requires Valid()
      reads this, slots
    {
      Between(slots[..], ringTail, ringHead)
    }

    /** createRingBuffer of the scalar records, with one slot more than asyn:FIFO says. */
    constructor Scalar(ringSize: nat)
      ensures Valid() && fresh(slots) && slots.Length == ringSize + 1 && Contents() == [] && overflows == 0
    {
      slots := new T[ringSize + 1];
      ringHead, ringTail, overflows := 0, 0, 0;
    }

    /** That of the array records, which have a ring only if ringSize is positive. */
    constructor Array(ringSize: nat)
      requires ringSize > 0
      ensures Valid() && fresh(slots) && slots.Length == ringSize && Contents() == [] && overflows == 0
    {
      slots := new T[ringSize];
      ringHead, ringTail, overflows := 0, 0, 0;
    }

    /** The middle of interruptCallback: `requests` says whether the record is asked to process. */
    method Push(x: T) returns (requests: bool)
      requires Valid()
      modifies this, slots
      ensures Valid()
      ensures Contents() == Pushed(old(Contents()), x, slots.Length - 1)
      ensures requests <==> |old(Contents())| < slots.Length - 1
      ensures overflows == old(overflows) + if requests then 0 else 1
    {
      WrittenSlot(slots[..], ringTail, ringHead, x);
      slots[ringHead] := x;
      ringHead := Following(ringHead, slots.Length);
      if ringHead == ringTail {
        ringTail := Following(ringTail, slots.Length);
        overflows := overflows + 1;
        requests := false;
      } else {
        requests := true;
      }
    }

    /** getCallbackValue, getRingBufferValue */
    method Pop() returns (result: Option<T>)
      requires Valid()
      modifies this
      ensures Valid()
      ensures if old(Contents()) == [] then result == None && Contents() == []
              else result == Some(old(Contents())[0]) && Contents() == old(Contents())[1..]
      ensures overflows == if result.Some? then 0 else old(overflows)
    {
      if ringTail != ringHead {
        overflows := 0;
        result := Some(slots[ringTail]);
        ringTail := Following(ringTail, slots.Length);
      } else {
        result := None;
      }
    }
  }

  /** So the scalar ring holds asyn:FIFO elements, and the array ring one less: with one slot, none at all. */
  lemma CapacityOfRings<T>(ops: seq<Op<T>>, x: T, ringSize: nat)
    requires ringSize > 0
    ensures var q := Perform(ops + [Push(x)], ringSize + 1 - 1).queue; q != [] && q[|q| - 1] == x
    ensures (Perform(ops + [Push(x)], ringSize - 1).queue == []) <==> ringSize == 1
  {
    LatestIsRetainedIff(ops, x, ringSize);
    LatestIsRetainedIff(ops, x, ringSize - 1);
    QueueIsNewest(ops + [Push(x)], ringSize - 1);
  }
}
