/** A ring of ten slots, of which one stays free: single producer, single consumer. */
module RingQueue {

  const FIFOSIZE: nat := 10

  function Succ(i: nat): nat {
    if i + 1 >= FIFOSIZE then 0 else i + 1
  }

  /** queue_t; head is the slot before the oldest entry, tail the slot of the newest. */
  datatype Ring<T> = Ring(data: seq<T>, head: nat, tail: nat)

  ghost predicate Valid<T>(r: Ring<T>) {
    |r.data| == FIFOSIZE && r.head < FIFOSIZE && r.tail < FIFOSIZE
  }

  function Count<T>(r: Ring<T>): nat
    requires r.head < FIFOSIZE && r.tail < FIFOSIZE
  {
    if r.tail >= r.head then r.tail - r.head else r.tail + FIFOSIZE - r.head
  }

  /** The slot of the i-th entry, oldest first. */
  function Slot(head: nat, i: nat): nat {
    if head + 1 + i >= FIFOSIZE then head + 1 + i - FIFOSIZE else head + 1 + i
  }

  /** The entries, oldest first. */
  ghost function Contents<T>(r: Ring<T>): (s: seq<T>)
    requires Valid(r)
    ensures |s| == Count(r)
  {
    seq(Count(r), i requires 0 <= i < Count(r) => r.data[Slot(r.head, i)])
  }

  function Inserted<T>(r: Ring<T>, x: T): (Ring<T>, bool)
    requires |r.data| == FIFOSIZE
  {
    var newtail := Succ(r.tail);
    if newtail == r.head then (r, false) else (Ring(r.data[newtail := x], r.head, newtail), true)
  }

  /** The two halves of a removal: reading the entry, and moving the head. */
  function Oldest<T>(r: Ring<T>): T
    requires |r.data| == FIFOSIZE
  {
    r.data[Succ(r.head)]
  }

  function Advanced<T>(r: Ring<T>): Ring<T> {
    r.(head := Succ(r.head))
  }

  /** An insertion fails exactly when nine entries are in; otherwise the entry comes last. */
  lemma InsertAppends<T>(r: Ring<T>, x: T)
    requires Valid(r)
    ensures Valid(Inserted(r, x).0)
    ensures Inserted(r, x).1 <==> Count(r) < 9
    ensures Inserted(r, x).1 ==> Contents(Inserted(r, x).0) == Contents(r) + [x]
    ensures !Inserted(r, x).1 ==> Inserted(r, x).0 == r
  {}

  /** A removal takes the oldest entry. */
  lemma RemoveTakesOldest<T>(r: Ring<T>)
    requires Valid(r)
    ensures r.head == r.tail <==> Contents(r) == []
    ensures r.head != r.tail ==> Valid(Advanced(r)) && Contents(r) == [Oldest(r)] + Contents(Advanced(r))
  {}

  /** An insertion that falls between the two halves of a removal, or before them, does not disturb them. */
  lemma InsertBesideRemoval<T>(r: Ring<T>, x: T)
    requires Valid(r) && r.head != r.tail
    ensures
      var q := Inserted(r, x).0;
      q.head == r.head && q.head != q.tail && Oldest(q) == Oldest(r)
  {}

  /** queue_t as an object. */
  class Queue<T> {
    const data: array<T>
    var head: nat
    var tail: nat

    ghost predicate Good()
      reads this
    {
      data.Length == FIFOSIZE && head < FIFOSIZE && tail < FIFOSIZE
    }

    ghost function Value(): (r: Ring<T>)
      reads this, data
      requires Good()
      ensures Valid(r)
    {
      Ring(data[..], head, tail)
    }

    /** queue_init on fresh storage, which holds nothing yet. */
    constructor (nothing: T)
      ensures Good() && fresh(data) && head == 0 && tail == 0 && Contents(Value()) == []
    {
      data := new T[FIFOSIZE](_ => nothing);
      head, tail := 0, 0;
    }

    /** queue_init */
    method Init()
      requires Good()
      modifies this`head, this`tail
      ensures Good() && Value() == old(Value()).(head := 0, tail := 0) && Contents(Value()) == []
    {
      head, tail := 0, 0;
    }

    method Insert(x: T) returns (ok: bool)
      requires Good()
      modifies this`tail, data
      ensures Good() && (Value(), ok) == Inserted(old(Value()), x)
      ensures ok <==> |old(Contents(Value()))| < 9
      ensures Contents(Value()) == old(Contents(Value())) + if ok then [x] else []
    {
      InsertAppends(Value(), x);
      var newtail := tail + 1;
      if newtail >= FIFOSIZE {
        newtail := 0;
      }
      if newtail == head {
        return false;
      }
      data[newtail] := x;
      tail := newtail;
      ok := true;
    }

    method Remove() returns (ok: bool, x: seq<T>)
      requires Good()
      modifies this`head
      ensures Good() && data[..] == old(data[..])
      ensures ok <==> old(Contents(Value())) != []
      ensures |x| == (if ok then 1 else 0) && old(Contents(Value())) == x + Contents(Value())
      ensures if ok then Value() == Advanced(old(Value())) && x == [Oldest(old(Value()))] else Value() == old(Value())
    {
      RemoveTakesOldest(Value());
      if head == tail {
        return false, [];
      }
      var newhead := head + 1;
      if newhead >= FIFOSIZE {
        newhead := 0;
      }
      x := [data[newhead]];
      head := newhead;
      ok := true;
    }
  }
}
