/**
 The four request lists of a port (asynManager.c, struct port, queueList) and the asynUsers
 on them. A list is a sequence whose first element is ellFirst. A user is named by a number;
 its userPvt record lives in a table.
 */
module PortQueues {
  import opened Common

  type UserId = int

  const LOW: nat := 0
  const MEDIUM: nat := 1
  const HIGH: nat := 2
  const CONNECT: nat := 3

  type Priority = i: nat | i < 4
  datatype Queues = Queues(low: seq<UserId>, medium: seq<UserId>, high: seq<UserId>, connect: seq<UserId>) {
    /** queueList[i] */
    function List(i: Priority): seq<UserId> {
      if i == LOW then low else if i == MEDIUM then medium else if i == HIGH then high else connect
    }

    function With(i: Priority, l: seq<UserId>): Queues {
      if i == LOW then this.(low := l)
      else if i == MEDIUM then this.(medium := l)
      else if i == HIGH then this.(high := l)
      else this.(connect := l)
    }
  }

  /** A place on the lists: position `pos` of list `list`. */
  datatype Slot = Slot(list: nat, pos: nat)

  predicate ValidSlot(q: Queues, s: Slot) {
    s.list < 4 && s.pos < |q.List(s.list)|
  }

  function At(q: Queues, s: Slot): UserId
    requires ValidSlot(q, s)
  {
    q.List(s.list)[s.pos]
  }

  /** Every occurrence of every user on the four lists together. */
  function Queued(q: Queues): multiset<UserId> {
    multiset(q.low) + multiset(q.medium) + multiset(q.high) + multiset(q.connect)
  }

  /** ellAdd */
  function Append(q: Queues, i: Priority, u: UserId): Queues {
    q.With(i, q.List(i) + [u])
  }

  /** ellInsert after position 0, that is, at the front */
  function Prepend(q: Queues, i: Priority, u: UserId): Queues {
    q.With(i, [u] + q.List(i))
  }

  lemma AddedIsQueued(q: Queues, i: Priority, u: UserId)
    ensures Queued(Append(q, i, u)) == Queued(q) + multiset{u}
    ensures Queued(Prepend(q, i, u)) == Queued(q) + multiset{u}
  {
    var l := q.List(i);
    assert multiset(l + [u]) == multiset(l) + multiset{u};
    assert multiset([u] + l) == multiset(l) + multiset{u};
    LongerList(q, i, l, l + [u], u);
    LongerList(q, i, l, [u] + l, u);
  }

  lemma LongerList(q: Queues, i: Priority, short: seq<UserId>, long: seq<UserId>, u: UserId)
    requires multiset(long) == multiset(short) + multiset{u}
    ensures Queued(q.With(i, long)) == Queued(q.With(i, short)) + multiset{u}
    ensures q.With(i, q.List(i)) == q
  {
  }

  /** A list without the element at position `k`. */
  function Without(l: seq<UserId>, k: nat): (r: seq<UserId>)
    requires k < |l|
    ensures multiset(l) == multiset(r) + multiset{l[k]}
    ensures |r| == |l| - 1 && forall j | 0 <= j < |r| :: r[j] == l[if j < k then j else j + 1]
  {
    assert l == l[..k] + [l[k]] + l[k + 1..];
    l[..k] + l[k + 1..]
  }

  /** ellDelete */
  function Delete(q: Queues, s: Slot): Queues
    requires ValidSlot(q, s)
  {
    q.With(s.list, Without(q.List(s.list), s.pos))
  }

  lemma DeletedIsNotQueued(q: Queues, s: Slot)
    requires ValidSlot(q, s)
    ensures Queued(q) == Queued(Delete(q, s)) + multiset{At(q, s)}
  {
    LongerList(q, s.list, Without(q.List(s.list), s.pos), q.List(s.list), At(q, s));
  }

  /** The position of the first occurrence of `u`, or the length of the list. */
  function IndexOf(l: seq<UserId>, u: UserId): (k: nat)
    ensures k <= |l| && u !in l[..k] && (k < |l| ==> l[k] == u)
  {
    if l == [] then 0
    else if l[0] == u then 0
    else
      var k := 1 + IndexOf(l[1..], u);
      assert l[..k] == [l[0]] + l[1..][..k - 1];
      k
  }

  /** The search of cancelRequest and queueTimeoutCallback: list `from` first, then the ones below it. */
  function Locate(q: Queues, u: UserId, from: Priority): (r: Option<Slot>)
    ensures r.Some? ==> ValidSlot(q, r.value) && r.value.list <= from && At(q, r.value) == u
    ensures r.None? ==> forall i: Priority | i <= from :: u !in q.List(i)
  {
    var k := IndexOf(q.List(from), u);
    if k < |q.List(from)| then Some(Slot(from, k))
    else
      assert q.List(from)[..k] == q.List(from);
      if from == 0 then None else Locate(q, u, from - 1)
  }

  /** A user is found exactly when it is on the lists. */
  lemma LocateFindsQueued(q: Queues, u: UserId)
    ensures u in Queued(q) <==> Locate(q, u, CONNECT).Some?
  {
    assert q.List(LOW) == q.low && q.List(MEDIUM) == q.medium && q.List(HIGH) == q.high && q.List(CONNECT) == q.connect;
    assert u in Queued(q) <==> u in q.low || u in q.medium || u in q.high || u in q.connect;
  }

  lemma ListedIsQueued(q: Queues, i: Priority, u: UserId)
    requires u in q.List(i)
    ensures u in Queued(q)
  {
    assert i == LOW || i == MEDIUM || i == HIGH || i == CONNECT;
  }

  /** Where slot `t` is once slot `s` has been taken away. */
  function Shifted(s: Slot, t: Slot): Slot {
    if t.list == s.list && t.pos > s.pos then Slot(t.list, t.pos - 1) else t
  }

  lemma WithList(q: Queues, i: Priority, l: seq<UserId>, j: Priority)
    ensures q.With(i, l).List(j) == if i == j then l else q.List(j)
  {
  }

  lemma DeleteShifts(q: Queues, s: Slot, t: Slot)
    requires ValidSlot(q, s) && ValidSlot(q, t) && s != t
    ensures ValidSlot(Delete(q, s), Shifted(s, t)) && At(Delete(q, s), Shifted(s, t)) == At(q, t)
  {
    WithList(q, s.list, Without(q.List(s.list), s.pos), t.list);
  }

  /** Taking one slot away leaves the users of all other slots on the lists. */
  lemma DeleteKeepsOthers(q: Queues, s: Slot, t: Slot)
    requires ValidSlot(q, s) && ValidSlot(q, t) && s != t
    ensures At(q, t) in Queued(Delete(q, s))
  {
    DeleteShifts(q, s, t);
    ListedIsQueued(Delete(q, s), Shifted(s, t).list, At(q, t));
  }

  /** A user that occurs once among all the lists occupies one slot only. */
  lemma UniqueSlot(q: Queues, s: Slot, t: Slot)
    requires ValidSlot(q, s) && ValidSlot(q, t) && At(q, s) == At(q, t)
    requires Queued(q)[At(q, s)] <= 1
    ensures s == t
  {
    if s != t {
      DeletedIsNotQueued(q, s);
      DeleteKeepsOthers(q, s, t);
    }
  }
}
