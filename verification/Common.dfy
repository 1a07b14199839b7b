/** Small datatypes shared by the other modules. */
module Common {

  datatype Option<T> = None | Some(value: T)

  /** One BOOL field of many records, which are named by numbers: those in which it is set. */
  datatype Flag = Flag(on: set<int>) {
    predicate Has(k: int) {
      k in on
    }

    function Add(k: int): Flag {
      Flag(on + {k})
    }

    function Del(k: int): Flag {
      Flag(on - {k})
    }

    function Put(k: int, yes: bool): Flag {
      if yes then Add(k) else Del(k)
    }
  }

  /** One counter field of many records. */
  datatype Counter = Counter(counts: multiset<int>) {
    predicate Has(k: int) {
      k in counts
    }

    function Count(k: int): nat {
      counts[k]
    }

    function Up(k: int): Counter {
      Counter(counts + multiset{k})
    }

    function Down(k: int): Counter {
      Counter(counts - multiset{k})
    }

    function Clear(k: int): Counter {
      Counter(counts[k := 0])
    }
  }

  /** One pointer or value field of many records. */
  datatype Table<V> = Table(entries: map<int, V>) {
    predicate Has(k: int) {
      k in entries
    }

    function Get(k: int): V
      requires Has(k)
    {
      entries[k]
    }

    function Put(k: int, v: V): Table<V> {
      Table(entries[k := v])
    }

    function Drop(k: int): Table<V> {
      Table(entries - {k})
    }
  }

  /** A list without the entries of one element, the others in their order. */
  function Others(l: seq<int>, u: int): seq<int> {
    if l == [] then [] else if l[0] == u then Others(l[1..], u) else [l[0]] + Others(l[1..], u)
  }

  lemma {:induction false} OthersOnly(l: seq<int>, u: int)
    requires u !in l
    ensures Others(l, u) == l
  {
    if l != [] {
      OthersOnly(l[1..], u);
    }
  }

  /** A 32-bit word as the set of its bits that are 1, numbered from 0. */
  datatype Word = Word(ones: set<int>) {
    function And(w: Word): Word {
      Word(ones * w.ones)
    }

    function Or(w: Word): Word {
      Word(ones + w.ones)
    }

    function Xor(w: Word): Word {
      Word((ones - w.ones) + (w.ones - ones))
    }

    /** this & ~w */
    function AndNot(w: Word): Word {
      Word(ones - w.ones)
    }

    predicate IsZero() {
      ones == {}
    }

    predicate Fits() {
      forall i | i in ones :: 0 <= i < 32
    }
  }

  const ZERO: Word := Word({})

  /** 0xFFFFFFFF */
  const ALL: Word := Word(set i: int | 0 <= i < 32)
}
