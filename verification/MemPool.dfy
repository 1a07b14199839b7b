/**
 The size-class pool memMalloc / memFree (asynManager.c:86-97, 1258-1308) over any sequence of
 calls, each of which is atomic under pasynBase->lock. Addresses are integers; what malloc
 returns overlaps nothing that is in use.
 */
module MemPool {
  const nMemList: nat := 9

  /** memListSize */
  const Sizes: seq<nat> := [16, 32, 64, 128, 256, 512, 1024, 2048, 4096]

  /** Bytes before a pooled block that hold its memNode. */
  const NODESIZE: nat := 32

  /** The first size class that is large enough, or nMemList. */
  function ClassFrom(size: nat, i: nat): (ind: nat)
    requires i <= nMemList
    ensures i <= ind <= nMemList
    ensures ind < nMemList ==> size <= Sizes[ind]
    ensures forall j | i <= j < ind :: size > Sizes[j]
    decreases nMemList - i
  {
    if i == nMemList || size <= Sizes[i] then i else ClassFrom(size, i + 1)
  }

  function ClassOf(size: nat): nat {
    ClassFrom(size, 0)
  }

  /**
   memMalloc uses malloc when no class is found, memFree uses free when the size exceeds the last
   class: the same sizes.
   */
  lemma MallocPathIsFreePath(size: nat)
    ensures ClassOf(size) == nMemList <==> size > Sizes[nMemList - 1]
  {
    assert forall j, k | 0 <= j <= k < nMemList :: Sizes[j] <= Sizes[k];
  }

  /** A block of the pool, of some class, or one straight from malloc. */
  datatype Block = Pooled(class_: nat) | Raw(size: nat)

  /** The blocks there are, by address, and the sizes with which those in use were asked for. */
  datatype Blocks = Blocks(all: map<int, Block>, live: map<int, nat>)

  /** memList */
  datatype Lists = Lists(free: seq<seq<int>>)

  datatype Pool = Pool(blocks: Blocks, lists: Lists)

  /** What malloc was asked for: the node, if there is one, and the memory. */
  function Start(p: int, b: Block): int {
    if b.Pooled? then p - NODESIZE else p
  }

  function Stop(p: int, b: Block): int {
    match b
    case Pooled(c) => p + if c < nMemList then Sizes[c] else 0
    case Raw(size) => p + size
  }

  predicate Apart(p: int, b: Block, q: int, c: Block) {
    Stop(p, b) <= Start(q, c) || Stop(q, c) <= Start(p, b)
  }

  function NewBlock(size: nat): Block {
    if ClassOf(size) < nMemList then Pooled(ClassOf(size)) else Raw(size)
  }

  /** The address of the memory when malloc returns `base`. */
  function Memory(base: int, b: Block): int {
    if b.Pooled? then base + NODESIZE else base
  }

  /** memMalloc takes the first free node of the class. */
  predicate Reuses(l: Pool, size: nat) {
    ClassOf(size) < |l.lists.free| && l.lists.free[ClassOf(size)] != []
  }

  /** What malloc promises. */
  ghost predicate MallocMayReturn(l: Pool, base: int, size: nat) {
    var p, b := Memory(base, NewBlock(size)), NewBlock(size);
    forall q | q in l.blocks.all :: Apart(p, b, q, l.blocks.all[q]) && q != p
  }

  function Result(l: Pool, size: nat, base: int): int {
    if Reuses(l, size) then l.lists.free[ClassOf(size)][0] else Memory(base, NewBlock(size))
  }

  function Alloc(l: Pool, size: nat, base: int): Pool {
    var p := Result(l, size, base);
    if Reuses(l, size)
    then Pool(l.blocks.(live := l.blocks.live[p := size]),
              Lists(l.lists.free[ClassOf(size) := l.lists.free[ClassOf(size)][1..]]))
    else Pool(Blocks(l.blocks.all[p := NewBlock(size)], l.blocks.live[p := size]), l.lists)
  }

  /** memFree, for a block in use and the size it was asked for. */
  function Free(l: Pool, p: int, size: nat): Pool {
    if size > Sizes[nMemList - 1] || ClassOf(size) >= |l.lists.free|
    then Pool(Blocks(l.blocks.all - {p}, l.blocks.live - {p}), l.lists)
    else Pool(l.blocks.(live := l.blocks.live - {p}),
              Lists(l.lists.free[ClassOf(size) := l.lists.free[ClassOf(size)] + [p]]))
  }

  datatype Event = Allocates(size: nat, base: int) | Frees(p: int, size: nat)

  /** Frees name a block in use with its own size, which is not 0. */
  ghost predicate Can(l: Pool, e: Event) {
    match e
    case Allocates(size, base) => Reuses(l, size) || MallocMayReturn(l, base, size)
    case Frees(p, size) => size > 0 && p in l.blocks.live && l.blocks.live[p] == size
  }

  function Next(l: Pool, e: Event): Pool {
    match e
    case Allocates(size, base) => Alloc(l, size, base)
    case Frees(p, size) => Free(l, p, size)
  }

  ghost predicate Init(l: Pool) {
    l == Pool(Blocks(map[], map[]), Lists(seq(nMemList, _ => [])))
  }

  predicate Moment(es: seq<Event>, m: nat) {
    m < |es|
  }

  ghost predicate Run(ls: seq<Pool>, es: seq<Event>) {
    && |ls| == |es| + 1 && Init(ls[0])
    && forall m: nat {:trigger Moment(es, m)} | Moment(es, m) :: Can(ls[m], es[m]) && ls[m + 1] == Next(ls[m], es[m])
  }

  // ----- the invariant -----

  ghost predicate BlocksApart(b: Blocks) {
    forall p, q | p in b.all && q in b.all && p != q :: Apart(p, b.all[p], q, b.all[q])
  }

  /** A block in use is of the kind its size asks for. */
  ghost predicate LiveOk(b: Blocks) {
    forall p | p in b.live :: p in b.all && b.all[p] == NewBlock(b.live[p])
  }

  /** Position `k` of list `i` holds a block of that class that is not in use. */
  predicate FreeNodeOk(l: Pool, i: nat, k: nat)
    requires i < |l.lists.free| && k < |l.lists.free[i]|
  {
    var p := l.lists.free[i][k];
    p in l.blocks.all && l.blocks.all[p] == Pooled(i) && p !in l.blocks.live
  }

  ghost predicate ListsOk(l: Pool) {
    && |l.lists.free| == nMemList
    && (forall i: nat, k: nat | i < nMemList && k < |l.lists.free[i]| :: FreeNodeOk(l, i, k))
    && (forall i: nat, j: nat, k: nat | i < nMemList && j < k < |l.lists.free[i]| ::
          l.lists.free[i][j] != l.lists.free[i][k])
  }

  /** No block is forgotten: what is not in use is on the list of its class. */
  ghost predicate NothingLost(l: Pool) {
    |l.lists.free| == nMemList &&
    forall p | p in l.blocks.all && p !in l.blocks.live ::
      l.blocks.all[p].Pooled? && l.blocks.all[p].class_ < nMemList && p in l.lists.free[l.blocks.all[p].class_]
  }

  ghost predicate Ok(l: Pool) {
    BlocksApart(l.blocks) && LiveOk(l.blocks) && ListsOk(l) && NothingLost(l)
  }

  lemma AllocReusesOk(l: Pool, size: nat, base: int)
    requires Ok(l) && Reuses(l, size)
    ensures Ok(Alloc(l, size, base))
  {
    var c := ClassOf(size);
    var r, p, was := Alloc(l, size, base), Result(l, size, base), l.lists.free[c];
    assert FreeNodeOk(l, c, 0);
    forall i: nat, k: nat | i < nMemList && k < |r.lists.free[i]|
      ensures FreeNodeOk(r, i, k)
    {
      if i == c {
        assert FreeNodeOk(l, c, k + 1) && was[0] != was[k + 1];
      } else {
        assert FreeNodeOk(l, i, k);
      }
    }
    forall i: nat, j: nat, k: nat | i < nMemList && j < k < |r.lists.free[i]|
      ensures r.lists.free[i][j] != r.lists.free[i][k]
    {
      if i == c {
        assert was[j + 1] != was[k + 1];
      }
    }
  }

  lemma AllocNewOk(l: Pool, size: nat, base: int)
    requires Ok(l) && !Reuses(l, size) && MallocMayReturn(l, base, size)
    ensures Ok(Alloc(l, size, base))
  {
    var r := Alloc(l, size, base);
    forall i: nat, k: nat | i < nMemList && k < |r.lists.free[i]|
      ensures FreeNodeOk(r, i, k)
    {
      assert FreeNodeOk(l, i, k);
    }
  }

  lemma FreeRawOk(l: Pool, p: int, size: nat)
    requires Ok(l) && Can(l, Frees(p, size)) && size > Sizes[nMemList - 1]
    ensures Ok(Free(l, p, size))
  {
    var r := Free(l, p, size);
    MallocPathIsFreePath(size);
    forall i: nat, k: nat | i < nMemList && k < |r.lists.free[i]|
      ensures FreeNodeOk(r, i, k)
    {
      assert FreeNodeOk(l, i, k);
    }
  }

  lemma FreeNodeIsOk(l: Pool, p: int, size: nat)
    requires Ok(l) && Can(l, Frees(p, size)) && size <= Sizes[nMemList - 1]
    ensures Ok(Free(l, p, size))
  {
    var r, c := Free(l, p, size), ClassOf(size);
    MallocPathIsFreePath(size);
    forall i: nat, k: nat | i < nMemList && k < |r.lists.free[i]|
      ensures FreeNodeOk(r, i, k)
    {
      if k < |l.lists.free[i]| {
        assert FreeNodeOk(l, i, k);
      }
    }
    forall i: nat, j: nat, k: nat | i < nMemList && j < k < |r.lists.free[i]|
      ensures r.lists.free[i][j] != r.lists.free[i][k]
    {
      assert FreeNodeOk(l, i, j);
    }
  }

  lemma OkStep(l: Pool, e: Event)
    requires Ok(l) && Can(l, e)
    ensures Ok(Next(l, e))
  {
    match e
    case Allocates(size, base) =>
      if Reuses(l, size) {
        AllocReusesOk(l, size, base);
      } else {
        AllocNewOk(l, size, base);
      }
    case Frees(p, size) =>
      if size > Sizes[nMemList - 1] {
        FreeRawOk(l, p, size);
      } else {
        FreeNodeIsOk(l, p, size);
      }
  }

  lemma RunStep(ls: seq<Pool>, es: seq<Event>, m: nat)
    requires Run(ls, es) && m < |es|
    ensures Can(ls[m], es[m]) && ls[m + 1] == Next(ls[m], es[m])
  {
    assert Moment(es, m);
  }

  lemma {:induction false} OkAlways(ls: seq<Pool>, es: seq<Event>, m: nat)
    requires Run(ls, es) && m < |ls|
    ensures Ok(ls[m])
  {
    if m > 0 {
      OkAlways(ls, es, m - 1);
      RunStep(ls, es, m - 1);
      OkStep(ls[m - 1], es[m - 1]);
    }
  }

  // ----- what it means -----

  /** In every run, the bytes of two blocks in use never overlap, nor do they touch a node. */
  lemma LiveBlocksAreApart(ls: seq<Pool>, es: seq<Event>, m: nat, p: int, q: int)
    requires Run(ls, es) && m < |ls| && p in ls[m].blocks.live && q in ls[m].blocks.all && p != q
    ensures
      var size, b := ls[m].blocks.live[p], ls[m].blocks.all[q];
      p + size <= Start(q, b) || Stop(q, b) <= p
  {
    OkAlways(ls, es, m);
    MallocPathIsFreePath(ls[m].blocks.live[p]);
  }

  /** What memMalloc returns was not in use, has room for the request and is in use from then on. */
  lemma AllocGivesRoom(ls: seq<Pool>, es: seq<Event>, m: nat, size: nat, base: int)
    requires Run(ls, es) && m < |es| && es[m] == Allocates(size, base)
    ensures
      var p := Result(ls[m], size, base);
      && p !in ls[m].blocks.live && p in ls[m + 1].blocks.live
      && p in ls[m + 1].blocks.all && p + size <= Stop(p, ls[m + 1].blocks.all[p])
  {
    OkAlways(ls, es, m);
    OkAlways(ls, es, m + 1);
    RunStep(ls, es, m);
    if Reuses(ls[m], size) {
      assert FreeNodeOk(ls[m], ClassOf(size), 0);
    }
  }

  /** The block with its node is exactly what malloc was asked for, and the memory in it has room for the request. */
  lemma BlockIsWhatMallocGave(size: nat, base: int)
    ensures
      var b := NewBlock(size);
      var p := Memory(base, b);
      && Start(p, b) == base && p + size <= Stop(p, b)
      && (Stop(p, b) == if size <= 4096 then base + 32 + Sizes[ClassOf(size)] else base + size)
      && p == if size <= 4096 then base + 32 else base
  {
    MallocPathIsFreePath(size);
  }

  /** Some block of class `c` is not in use. */
  ghost predicate SomeFree(l: Pool, c: nat) {
    exists q :: q in l.blocks.all && q !in l.blocks.live && l.blocks.all[q] == Pooled(c)
  }

  lemma ReusesIff(l: Pool, size: nat)
    requires Ok(l)
    ensures Reuses(l, size) <==> SomeFree(l, ClassOf(size))
  {
    var c := ClassOf(size);
    if Reuses(l, size) {
      assert FreeNodeOk(l, c, 0);
    }
    if SomeFree(l, c) {
      var q :| q in l.blocks.all && q !in l.blocks.live && l.blocks.all[q] == Pooled(c);
      assert q in l.lists.free[c];
    }
  }

  /**
   memMalloc calls malloc only when every block of the class is in use; otherwise it hands out one
   of those that are not. The blocks in use stay in use, with their sizes.
   */
  lemma MallocOnlyIfNoneIsFree(ls: seq<Pool>, es: seq<Event>, m: nat, size: nat, base: int)
    requires Run(ls, es) && m < |es| && es[m] == Allocates(size, base)
    ensures
      var p, l, t := Result(ls[m], size, base), ls[m], ls[m + 1];
      && t.blocks.live == l.blocks.live[p := size] && p !in l.blocks.live
      && if SomeFree(l, ClassOf(size)) then
           t.blocks.all == l.blocks.all && p in l.blocks.all && l.blocks.all[p] == Pooled(ClassOf(size))
         else t.blocks.all == l.blocks.all[p := NewBlock(size)] && p !in l.blocks.all
  {
    OkAlways(ls, es, m);
    RunStep(ls, es, m);
    ReusesIff(ls[m], size);
    if Reuses(ls[m], size) {
      assert FreeNodeOk(ls[m], ClassOf(size), 0);
    }
  }

  /** memFree gives back this block and no other; it stays a block of its class, unless it came straight from malloc. */
  lemma FreeGivesBack(ls: seq<Pool>, es: seq<Event>, m: nat, p: int, size: nat)
    requires Run(ls, es) && m < |es| && es[m] == Frees(p, size)
    ensures ls[m + 1].blocks.live == ls[m].blocks.live - {p}
    ensures ls[m + 1].blocks.all == if size <= 4096 then ls[m].blocks.all else ls[m].blocks.all - {p}
    ensures size <= 4096 ==> SomeFree(ls[m + 1], ClassOf(size))
  {
    OkAlways(ls, es, m);
    RunStep(ls, es, m);
    MallocPathIsFreePath(size);
    if size <= 4096 {
      var b := ls[m + 1].blocks;
      assert p in b.all && p !in b.live && b.all[p] == Pooled(ClassOf(size));
    }
  }

  /** memFree finds the node it looks for: a block freed by way of the lists has one, and only such a block. */
  lemma FreeFindsItsNode(ls: seq<Pool>, es: seq<Event>, m: nat, p: int, size: nat)
    requires Run(ls, es) && m < |es| && es[m] == Frees(p, size)
    ensures p in ls[m].blocks.all && (size <= Sizes[nMemList - 1] <==> ls[m].blocks.all[p].Pooled?)
    ensures ls[m].blocks.all[p].Pooled? ==> ls[m].blocks.all[p].class_ == ClassOf(size) < nMemList
  {
    OkAlways(ls, es, m);
    RunStep(ls, es, m);
    MallocPathIsFreePath(size);
  }

  // ----- the code -----

  class MemLists {
    const memList: array<seq<int>>
    ghost var blocks: Blocks

    ghost predicate Valid()
      reads this
    {
      memList.Length == nMemList
    }

    ghost function State(): Pool
      requires Valid()
      reads this, memList
    {
      Pool(blocks, Lists(memList[..]))
    }

    constructor ()
      ensures Valid() && fresh(memList) && Init(State())
    {
      memList := new seq<int>[nMemList](_ => []);
      blocks := Blocks(map[], map[]);
      new;
      assert memList[..] == seq(nMemList, _ => []);
    }

    /** The loop that both functions begin with. */
    method FindClass(size: nat) returns (ind: nat)
      ensures ind == ClassOf(size)
    {
      ind := 0;
      while ind < nMemList && size > Sizes[ind]
        invariant ind <= nMemList && ClassFrom(size, ind) == ClassOf(size)
      {
        ind := ind + 1;
      }
    }

    /** memMalloc; `base` is what malloc returns if it is called. */
    method MemMalloc(size: nat, base: int) returns (p: int)
      requires Valid()
      modifies this, memList
      ensures Valid() && p == Result(old(State()), size, base) && State() == Alloc(old(State()), size, base)
    {
      ghost var was := State();
      var ind := FindClass(size);
      if ind >= nMemList {
        p := base;
        blocks := Blocks(blocks.all[p := Raw(size)], blocks.live[p := size]);
        return;
      }
      if memList[ind] != [] {
        p := memList[ind][0];
        memList[ind] := memList[ind][1..];
        assert memList[..] == was.lists.free[ind := was.lists.free[ind][1..]];
        blocks := blocks.(live := blocks.live[p := size]);
      } else {
        p := base + NODESIZE;
        blocks := Blocks(blocks.all[p := Pooled(ind)], blocks.live[p := size]);
      }
    }

    method MemFree(p: int, size: nat)
      requires Valid() && size > 0
      modifies this, memList
      ensures Valid() && State() == Free(old(State()), p, size)
    {
      ghost var was := State();
      MallocPathIsFreePath(size);
      if size > Sizes[nMemList - 1] {
        blocks := Blocks(blocks.all - {p}, blocks.live - {p});
        return;
      }
      var ind := FindClass(size);
      memList[ind] := memList[ind] + [p];
      assert memList[..] == was.lists.free[ind := was.lists.free[ind] + [p]];
      blocks := blocks.(live := blocks.live - {p});
    }
  }
}
