/**
 Averaging of analog inputs (devAsynInt32.c:648-709, 893-912): samples are summed; a mean goes
 to the ring when SVAL samples have come and the record is I/O Intr scanned, or is computed
 when the record processes. Sums and quotients are exact here.
 */
module Averaging {
  import opened Ring

  /** The cast from double to epicsInt32. */
  function Truncate(r: real): int {
    if r >= 0.0 then r.Floor else -(-r).Floor
  }

  /** The mean of `n` samples with this sum, as both places compute it. */
  function Mean(sum: int, n: nat): int
    requires n > 0
  {
    Truncate(sum as real / n as real + if sum > 0 then 0.5 else -0.5)
  }

  function Sum(w: seq<int>): int {
    if w == [] then 0 else Sum(w[..|w| - 1]) + w[|w| - 1]
  }

  function Abs(x: int): nat {
    if x < 0 then -x else x
  }

  /** `e` is the integer nearest to sum / n; of two equally near ones, that further from 0. */
  predicate IsRounded(e: int, sum: int, n: nat) {
    2 * Abs(n * e - sum) <= n && (2 * Abs(n * e - sum) == n ==> Abs(n * e) > Abs(sum))
  }

  lemma Positive(d: real, y: real)
    requires d > 0.0 && y > 0.0
    ensures d * y > 0.0
  {
  }

  lemma Scaled(a: real, b: real, y: real, ay: real, by_: real)
    requires y > 0.0 && ay == a * y && by_ == b * y
    ensures a <= b ==> ay <= by_
    ensures a < b ==> ay < by_
  {
    assert (b - a) * y == by_ - ay;
    if a < b {
      Positive(b - a, y);
    }
  }

  lemma Distributed(q: real, h: real, y: real, s: real)
    requires s == q * y
    ensures (q + h) * y == s + h * y
  {
  }

  /** `s` and `p` are the products q * y and m * y. */
  lemma FloorBounds(q: real, y: real, m: real, s: real, p: real)
    requires y > 0.0 && m <= q + 0.5 < m + 1.0 && s == q * y && p == m * y
    ensures p <= s + 0.5 * y
    ensures s + 0.5 * y < p + y
  {
    Distributed(q, 0.5, y, s);
    Distributed(m, 1.0, y, p);
    Scaled(m, q + 0.5, y, p, s + 0.5 * y);
    Scaled(q + 0.5, m + 1.0, y, s + 0.5 * y, p + y);
  }

  lemma ScaledInt(m: int, n: nat)
    ensures m as real * n as real == (n * m) as real
  {
  }

  lemma Doubled(p: int, sum: int, n: nat)
    requires p as real <= sum as real + 0.5 * n as real < p as real + n as real
    ensures 2 * p <= 2 * sum + n < 2 * p + 2 * n
  {
    assert (2 * p) as real <= (2 * sum + n) as real < (2 * p + 2 * n) as real;
  }

  /** Rounding by adding a half and taking the floor, without fractions. */
  lemma ScaleFloor(q: real, sum: int, n: nat)
    requires n > 0 && q * n as real == sum as real
    ensures
      var m := (q + 0.5).Floor;
      2 * (n * m) <= 2 * sum + n < 2 * (n * m) + 2 * n
  {
    var m := (q + 0.5).Floor;
    ScaledInt(m, n);
    FloorBounds(q, n as real, m as real, sum as real, (n * m) as real);
    Doubled(n * m, sum, n);
  }

  lemma Quotient(s: real, y: real, q: real)
    requires y > 0.0 && q == s / y
    ensures q * y == s && (s >= 0.0 ==> q >= 0.0) && (-s) / y == -q
  {
  }

  lemma {:induction false} Multiples(n: nat, a: int, b: int)
    requires a < b
    ensures n * a + n <= n * b
    decreases b - a
  {
    if a + 1 < b {
      Multiples(n, a, b - 1);
    }
    assert n * b == n * (b - 1) + n;
  }

  lemma PositiveMean(q: real, sum: int, n: nat)
    requires n > 0 && sum > 0 && q >= 0.0 && q * n as real == sum as real
    ensures IsRounded(Truncate(q + 0.5), sum, n)
  {
    ScaleFloor(q, sum, n);
  }

  lemma NegativeMean(q: real, sum: int, n: nat)
    requires n > 0 && sum <= 0 && q >= 0.0 && q * n as real == (-sum) as real
    ensures IsRounded(Truncate(-q - 0.5), sum, n)
  {
    var m := (q + 0.5).Floor;
    ScaleFloor(q, -sum, n);
    assert n * -m == -(n * m);
    assert m >= 0;
    if m > 0 {
      Multiples(n, 0, m);
    }
  }

  /** What is emitted is the mean rounded to nearest, ties away from zero. */
  lemma MeanIsRounded(sum: int, n: nat)
    requires n > 0
    ensures IsRounded(Mean(sum, n), sum, n)
  {
    var q, r := sum as real / n as real, (-sum) as real / n as real;
    Quotient(sum as real, n as real, q);
    Quotient((-sum) as real, n as real, r);
    assert (-sum) as real == -(sum as real);
    if sum > 0 {
      PositiveMean(q, sum, n);
    } else {
      NegativeMean(r, sum, n);
    }
  }

  /** Only one integer is the rounded mean, so this says what the two casts compute. */
  lemma RoundedIsUnique(a: int, b: int, sum: int, n: nat)
    requires n > 0 && IsRounded(a, sum, n) && IsRounded(b, sum, n)
    ensures a == b
  {
    NotLess(a, b, sum, n);
    NotLess(b, a, sum, n);
  }

  lemma NotLess(a: int, b: int, sum: int, n: nat)
    requires n > 0 && IsRounded(a, sum, n) && IsRounded(b, sum, n)
    ensures a >= b
  {
    if a < b {
      if a < 0 {
        Multiples(n, a, 0);
      } else {
        ProductOfNats(n, a);
      }
      Multiples(n, a, b);
    }
  }

  lemma ProductOfNats(n: nat, a: nat)
    ensures n * a >= 0
  {
  }

  predicate Within(w: seq<int>, lo: int, hi: int) {
    forall i | 0 <= i < |w| :: lo <= w[i] <= hi
  }

  lemma {:induction false} SumBounds(w: seq<int>, lo: int, hi: int)
    requires Within(w, lo, hi)
    ensures |w| * lo <= Sum(w) <= |w| * hi
  {
    if w != [] {
      SumBounds(w[..|w| - 1], lo, hi);
      assert |w| * lo == (|w| - 1) * lo + lo && |w| * hi == (|w| - 1) * hi + hi;
    }
  }

  /** The emitted value lies between the least and the greatest sample, so the cast cannot overflow. */
  lemma MeanIsBetween(w: seq<int>, lo: int, hi: int)
    requires w != [] && Within(w, lo, hi)
    ensures lo <= Mean(Sum(w), |w|) <= hi
  {
    var n, sum := |w|, Sum(w);
    var e := Mean(sum, n);
    SumBounds(w, lo, hi);
    MeanIsRounded(sum, n);
    if e < lo {
      Multiples(n, e, lo);
    }
    if e > hi {
      Multiples(n, hi, e);
    }
  }

  // ----- the stream -----

  /** sum, numAverage and the ring */
  datatype Average = Average(sum: int, numAverage: nat, ring: seq<int>, capacity: nat)

  /** `numToAverage` is SVAL rounded to an integer, which can change from sample to sample; less than 1 counts as 1. */
  datatype Event = Sample(value: int, isIOIntrScan: bool, numToAverage: int) | Processes

  predicate Emits(a: Average, e: Event) {
    match e
    case Sample(_, isIOIntrScan, numToAverage) =>
      isIOIntrScan && a.numAverage + 1 >= if numToAverage < 1 then 1 else numToAverage
    case Processes => a.ring == [] && a.numAverage > 0
  }

  /** interruptCallbackAverage */
  function TakeSample(a: Average, value: int, isIOIntrScan: bool, numToAverage: int): Average {
    var sum, n := a.sum + value, a.numAverage + 1;
    if Emits(a, Sample(value, isIOIntrScan, numToAverage))
    then Average(0, 0, Pushed(a.ring, Mean(sum, n), a.capacity), a.capacity)
    else a.(sum := sum, numAverage := n)
  }

  datatype Reading = Undefined | Rval(value: int)

  /** processAiAverage, with the value the record gets. */
  function ProcessValue(a: Average): Reading {
    if a.ring != [] then Rval(a.ring[0])
    else if a.numAverage == 0 then Undefined
    else Rval(Mean(a.sum, a.numAverage))
  }

  function Process(a: Average): Average {
    if a.ring != [] then a.(ring := a.ring[1..])
    else if a.numAverage == 0 then a
    else a.(sum := 0, numAverage := 0)
  }

  function Next(a: Average, e: Event): Average {
    match e
    case Sample(value, isIOIntrScan, numToAverage) => TakeSample(a, value, isIOIntrScan, numToAverage)
    case Processes => Process(a)
  }

  /**
   The state after some events; all samples; the windows emitted so far with their values, and
   the open one; the values that the record has read, and how many pushes found a full ring.
   */
  datatype History = History(
    a: Average,
    samples: seq<int>,
    windows: seq<seq<int>>,
    values: seq<int>,
    open: seq<int>,
    read: seq<int>,
    dropped: nat)

  function Extended(h: History, e: Event): History {
    var taken := if e.Sample? then [e.value] else [];
    var open := h.open + taken;
    var reading := if e.Processes? then ProcessValue(h.a) else Undefined;
    var read := if reading.Rval? then h.read + [reading.value] else h.read;
    var dropped := h.dropped + if e.Sample? && Emits(h.a, e) && |h.a.ring| >= h.a.capacity then 1 else 0;
    if Emits(h.a, e)
    then History(Next(h.a, e), h.samples + taken, h.windows + [open], h.values + [EmittedBy(h.a, e)], [], read, dropped)
    else History(Next(h.a, e), h.samples + taken, h.windows, h.values, open, read, dropped)
  }

  function Histories(es: seq<Event>, capacity: nat): History {
    if es == [] then History(Average(0, 0, [], capacity), [], [], [], [], [], 0)
    else Extended(Histories(es[..|es| - 1], capacity), es[|es| - 1])
  }

  /** The value that goes to the ring, or to the record. */
  function EmittedBy(a: Average, e: Event): int
    requires Emits(a, e)
  {
    match e
    case Sample(value, _, _) => Mean(a.sum + value, a.numAverage + 1)
    case Processes => Mean(a.sum, a.numAverage)
  }

  function Flatten(ws: seq<seq<int>>): seq<int> {
    if ws == [] then [] else Flatten(ws[..|ws| - 1]) + ws[|ws| - 1]
  }

  lemma SumOfMore(w: seq<int>, x: int)
    ensures Sum(w + [x]) == Sum(w) + x
  {
    assert (w + [x])[..|w|] == w;
  }

  /** Every emitted value is the mean of its window. */
  ghost predicate MeansOf(values: seq<int>, windows: seq<seq<int>>) {
    && |values| == |windows|
    && forall i | 0 <= i < |windows| :: windows[i] != [] && values[i] == Mean(Sum(windows[i]), |windows[i]|)
  }

  ghost predicate Partitioned(h: History) {
    && h.a.sum == Sum(h.open) && h.a.numAverage == |h.open|
    && h.samples == Flatten(h.windows) + h.open
    && MeansOf(h.values, h.windows)
  }

  lemma {:induction false} OneMoreMean(values: seq<int>, windows: seq<seq<int>>, w: seq<int>, v: int)
    requires MeansOf(values, windows) && w != [] && v == Mean(Sum(w), |w|)
    ensures MeansOf(values + [v], windows + [w])
  {
  }

  lemma {:induction false} OneMoreWindow(windows: seq<seq<int>>, w: seq<int>)
    ensures Flatten(windows + [w]) == Flatten(windows) + w
  {
    assert (windows + [w])[..|windows|] == windows;
  }

  lemma {:induction false} ExtendedIsPartitioned(h: History, e: Event)
    requires Partitioned(h)
    ensures Partitioned(Extended(h, e))
  {
    var taken := if e.Sample? then [e.value] else [];
    var open := h.open + taken;
    if e.Sample? {
      SumOfMore(h.open, e.value);
    } else {
      assert open == h.open;
    }
    assert h.samples + taken == Flatten(h.windows) + open;
    if Emits(h.a, e) {
      OneMoreMean(h.values, h.windows, open, EmittedBy(h.a, e));
      OneMoreWindow(h.windows, open);
    }
  }

  /**
   Over any run the sum and the count describe exactly the samples since the last emission;
   the windows, in order, and the open one together are the samples, each in one window; and
   each value emitted is the mean of its window.
   */
  lemma {:induction false} WindowsPartition(es: seq<Event>, capacity: nat)
    ensures Partitioned(Histories(es, capacity))
  {
    if es != [] {
      WindowsPartition(es[..|es| - 1], capacity);
      ExtendedIsPartitioned(Histories(es[..|es| - 1], capacity), es[|es| - 1]);
    }
  }

  /** Every emitted value is within the range of the samples of its own window. */
  lemma ValuesAreInRange(es: seq<Event>, capacity: nat, i: nat, lo: int, hi: int)
    requires i < |Histories(es, capacity).windows| && Within(Histories(es, capacity).windows[i], lo, hi)
    ensures i < |Histories(es, capacity).values| && lo <= Histories(es, capacity).values[i] <= hi
  {
    WindowsPartition(es, capacity);
    MeanIsBetween(Histories(es, capacity).windows[i], lo, hi);
  }

  /** While the record is I/O Intr scanned and SVAL does not change, every window has SVAL samples, or one. */
  lemma {:induction false} WindowsHaveTheirSize(es: seq<Event>, capacity: nat, numToAverage: int)
    requires forall i | 0 <= i < |es| :: es[i].Sample? && es[i].isIOIntrScan && es[i].numToAverage == numToAverage
    ensures
      var h, n := Histories(es, capacity), if numToAverage < 1 then 1 else numToAverage;
      && |h.open| < n && h.a.numAverage == |h.open|
      && forall i | 0 <= i < |h.windows| :: |h.windows[i]| == n
  {
    if es != [] {
      WindowsHaveTheirSize(es[..|es| - 1], capacity, numToAverage);
    }
  }

  // ----- what the record reads -----

  /**
   A record that processes reads the oldest value in the ring, if there is one, and leaves the
   others there; else the mean of the samples since the last emission; and if there is no such
   sample either, and only then, its value is undefined.
   */
  lemma RecordReads(es: seq<Event>, capacity: nat)
    ensures
      var h := Histories(es, capacity);
      var reading, t := ProcessValue(h.a), Next(h.a, Processes);
      if h.a.ring != [] then
        reading == Rval(h.a.ring[0]) && t.ring == h.a.ring[1..] && t.sum == h.a.sum && t.numAverage == h.a.numAverage
      else if h.open != [] then
        && reading.Rval? && IsRounded(reading.value, Sum(h.open), |h.open|)
        && t.ring == [] && t.sum == 0 && t.numAverage == 0
      else reading == Undefined && t == h.a
  {
    WindowsPartition(es, capacity);
    var h := Histories(es, capacity);
    if h.a.ring == [] && h.open != [] {
      MeanIsRounded(h.a.sum, h.a.numAverage);
    }
  }

  /**
   A sample ends the open window when the record is I/O Intr scanned and it is the SVAL-th, or
   SVAL is less than 2; the rounded mean of the window then goes to the ring. Otherwise the
   sample only joins the window.
   */
  lemma SampleIsTaken(es: seq<Event>, capacity: nat, value: int, isIOIntrScan: bool, sval: int)
    ensures
      var h := Histories(es, capacity);
      var t, window := Next(h.a, Sample(value, isIOIntrScan, sval)), h.open + [value];
      if isIOIntrScan && (sval < 2 || |window| >= sval) then
        exists mean ::
          IsRounded(mean, Sum(window), |window|) && t == Average(0, 0, Pushed(h.a.ring, mean, capacity), capacity)
      else t == Average(Sum(window), |window|, h.a.ring, capacity)
  {
    WindowsPartition(es, capacity);
    CapacityIsFixed(es, capacity);
    var h := Histories(es, capacity);
    SumOfMore(h.open, value);
    MeanIsRounded(h.a.sum + value, h.a.numAverage + 1);
  }

  lemma {:induction false} CapacityIsFixed(es: seq<Event>, capacity: nat)
    ensures Histories(es, capacity).a.capacity == capacity
  {
    if es != [] {
      CapacityIsFixed(es[..|es| - 1], capacity);
    }
  }

  /**
   What has been read, and what the ring still holds, are the emitted values, but for those that a
   full ring dropped.
   */
  ghost predicate ReadInOrder(read: seq<int>, ring: seq<int>, values: seq<int>, dropped: nat) {
    Subsequence(read + ring, values) && (dropped == 0 ==> read + ring == values)
  }

  lemma PushedReadsInOrder(read: seq<int>, ring: seq<int>, values: seq<int>, dropped: nat, x: int, capacity: nat)
    requires ReadInOrder(read, ring, values, dropped)
    ensures ReadInOrder(read, Pushed(ring, x, capacity), values + [x], dropped + if |ring| >= capacity then 1 else 0)
  {
    PushInOrder(read, ring, values, x, capacity);
    assert read + (ring + [x]) == (read + ring) + [x];
  }

  lemma PoppedReadsInOrder(read: seq<int>, ring: seq<int>, values: seq<int>, dropped: nat)
    requires ReadInOrder(read, ring, values, dropped) && ring != []
    ensures ReadInOrder(read + [ring[0]], ring[1..], values, dropped)
  {
    assert (read + [ring[0]]) + ring[1..] == read + ring;
  }

  lemma DirectReadsInOrder(read: seq<int>, values: seq<int>, dropped: nat, x: int)
    requires ReadInOrder(read, [], values, dropped)
    ensures ReadInOrder(read + [x], [], values + [x], dropped)
  {
    assert read + [] == read && (read + [x]) + [] == read + [x];
    SubsequenceGrows(read, values, x);
  }

  lemma SampleReadsNothing(h: History, e: Event)
    requires e.Sample?
    ensures
      var t := Extended(h, e);
      && t.read == h.read
      && if Emits(h.a, e) then
           && t.a.ring == Pushed(h.a.ring, EmittedBy(h.a, e), h.a.capacity)
           && t.values == h.values + [EmittedBy(h.a, e)]
           && t.dropped == h.dropped + if |h.a.ring| >= h.a.capacity then 1 else 0
         else t.a.ring == h.a.ring && t.values == h.values && t.dropped == h.dropped
  {
  }

  lemma ProcessingReads(h: History)
    ensures
      var t := Extended(h, Processes);
      && t.dropped == h.dropped
      && if h.a.ring != [] then
           t.read == h.read + [h.a.ring[0]] && t.a.ring == h.a.ring[1..] && t.values == h.values
         else if h.a.numAverage > 0 then
           && t.read == h.read + [EmittedBy(h.a, Processes)] && t.a.ring == []
           && t.values == h.values + [EmittedBy(h.a, Processes)]
         else t.read == h.read && t.a.ring == [] && t.values == h.values
  {
  }

  lemma {:induction false} ExtendedReadsInOrder(h: History, e: Event)
    requires ReadInOrder(h.read, h.a.ring, h.values, h.dropped)
    ensures var t := Extended(h, e); ReadInOrder(t.read, t.a.ring, t.values, t.dropped)
  {
    match e
    case Sample(_, _, _) =>
      SampleReadsNothing(h, e);
      if Emits(h.a, e) {
        PushedReadsInOrder(h.read, h.a.ring, h.values, h.dropped, EmittedBy(h.a, e), h.a.capacity);
      }
    case Processes =>
      ProcessingReads(h);
      if h.a.ring != [] {
        PoppedReadsInOrder(h.read, h.a.ring, h.values, h.dropped);
      } else if h.a.numAverage > 0 {
        DirectReadsInOrder(h.read, h.values, h.dropped, EmittedBy(h.a, e));
      }
  }

  /**
   Over any run, the values the record has read, followed by those still in the ring, are in the
   order of the emissions; and they are all of them when no push has found a full ring.
   */
  lemma {:induction false} ReadingsFollowEmissions(es: seq<Event>, capacity: nat)
    ensures
      var h := Histories(es, capacity);
      Subsequence(h.read + h.a.ring, h.values) && (h.dropped == 0 ==> h.read + h.a.ring == h.values)
  {
    if es != [] {
      ReadingsFollowEmissions(es[..|es| - 1], capacity);
      ExtendedReadsInOrder(Histories(es[..|es| - 1], capacity), es[|es| - 1]);
    }
  }

  lemma {:induction false} InSubsequence(a: seq<int>, b: seq<int>, x: int) returns (i: nat)
    requires Subsequence(a, b) && x in a
    ensures i < |b| && b[i] == x
    decreases |b|
  {
    var a', b' := a[..|a| - 1], b[..|b| - 1];
    assert a == a' + [a[|a| - 1]];
    if a[|a| - 1] != b[|b| - 1] {
      i := InSubsequence(a, b', x);
    } else if x == a[|a| - 1] {
      i := |b| - 1;
    } else {
      i := InSubsequence(a', b', x);
    }
  }

  /** So every value ever read is the rounded mean of one emitted window of samples. */
  lemma ReadingsAreMeans(es: seq<Event>, capacity: nat, k: nat) returns (i: nat)
    requires k < |Histories(es, capacity).read|
    ensures
      var h := Histories(es, capacity);
      i < |h.windows| && h.windows[i] != [] && IsRounded(h.read[k], Sum(h.windows[i]), |h.windows[i]|)
  {
    var h := Histories(es, capacity);
    WindowsPartition(es, capacity);
    ReadingsFollowEmissions(es, capacity);
    assert h.read[k] == (h.read + h.a.ring)[k];
    i := InSubsequence(h.read + h.a.ring, h.values, h.read[k]);
    MeanIsRounded(Sum(h.windows[i]), |h.windows[i]|);
  }

  // ----- the code -----

  class DevPvt {
    const ring: RingBuffer<int>
    var numAverage: nat
    var sum: int

    ghost predicate Valid()
      reads this, ring
    {
      ring.Valid()
    }

    function State(): Average
      requires Valid()
      reads this, ring, ring.slots
    {
      Average(sum, numAverage, ring.Contents(), ring.slots.Length - 1)
    }

    constructor (ringSize: nat)
      ensures Valid() && fresh(ring) && fresh(ring.slots) && State() == Average(0, 0, [], ringSize)
    {
      ring := new RingBuffer<int>.Scalar(ringSize);
      numAverage, sum := 0, 0;
    }

    method InterruptCallbackAverage(value: int, isIOIntrScan: bool, sval: int)
      requires Valid()
      modifies this, ring, ring.slots
      ensures Valid() && State() == TakeSample(old(State()), value, isIOIntrScan, sval)
    {
      numAverage := numAverage + 1;
      sum := sum + value;
      if isIOIntrScan {
        var numToAverage := if sval < 1 then 1 else sval;
        if numAverage >= numToAverage {
          var dval := sum as real / numAverage as real;
          dval := dval + if sum > 0 then 0.5 else -0.5;
          numAverage, sum := 0, 0;
          var _ := ring.Push(Truncate(dval));
        }
      }
    }

    method ProcessAiAverage() returns (reading: Reading)
      requires Valid()
      modifies this, ring
      ensures Valid() && State() == Process(old(State())) && reading == ProcessValue(old(State()))
    {
      var x := ring.Pop();
      if x.Some? {
        return Rval(x.value);
      }
      if numAverage == 0 {
        return Undefined;
      }
      var rval := sum as real / numAverage as real;
      rval := rval + if sum > 0 then 0.5 else -0.5;
      numAverage, sum := 0, 0;
      return Rval(Truncate(rval));
    }
  }
}
