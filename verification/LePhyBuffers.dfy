/**
 Who has a buffer: seen as one sequence, the buffer the main loop works on, the
 queue, and the current buffer, every buffer in use is in it exactly once.
 */
module LePhyBuffers {
  import opened Bits
  import opened RingQueue
  import opened LePhy

  function MainHeld(m: Main): seq<nat> {
    match m
    case Taken(k) => [k]
    case Plain(k) => [k]
    case Handled(k) => [k]
    case _ => []
  }

  function CurrentHeld(current: Option<nat>): seq<nat> {
    if current.Some? then [current.value] else []
  }

  ghost function Held(b: Buffers): seq<nat>
    requires Valid(b.ring)
  {
    MainHeld(b.main) + Contents(b.ring) + CurrentHeld(b.current)
  }

  ghost predicate Distinct(s: seq<nat>) {
    forall i, j :: 0 <= i < j < |s| ==> s[i] != s[j]
  }

  /** Every buffer is in exactly one place: available, or once in Held. The main loop's place agrees with the queue. */
  ghost predicate Conserved(b: Buffers) {
    && |b.pool| == POOL && Valid(b.ring)
    && Distinct(Held(b))
    && (forall k :: k in Held(b) ==> k < POOL)
    && (forall k :: 0 <= k < POOL ==> (b.pool[k].available <==> k !in Held(b)))
    && (b.main.Advance? || b.main.Loaded? ==> b.ring.head != b.ring.tail && b.main.newhead == Succ(b.ring.head))
    && (b.main.Loaded? ==> b.main.buf == Oldest(b.ring))
  }

  /** Distinct numbers below n are at most n. */
  lemma {:induction false} DistinctBelow(s: seq<nat>, n: nat)
    requires Distinct(s) && forall k :: k in s ==> k < n
    ensures |s| <= n
    decreases n
  {
    if s == [] {
      return;
    }
    assert s[0] in s;
    if n - 1 in s {
      var i :| 0 <= i < |s| && s[i] == n - 1;
      var t := s[..i] + s[i + 1..];
      forall k | k in t ensures k < n - 1 {
        var j :| 0 <= j < |t| && t[j] == k;
        if j < i {
          assert s[j] == k && s[j] != s[i];
        } else {
          assert s[j + 1] == k && s[i] != s[j + 1];
        }
        assert k in s;
      }
      DistinctBelow(t, n - 1);
    } else {
      DistinctBelow(s, n - 1);
    }
  }

  /** Never more than four buffers are in use, so the ring of ten always has room. */
  lemma RoomInQueue(b: Buffers)
    requires Conserved(b)
    ensures |Held(b)| <= 4 && |Contents(b.ring)| <= 4
    ensures b.current.Some? ==> Inserted(b.ring, b.current.value).1
  {
    DistinctBelow(Held(b), POOL);
    if b.current.Some? {
      InsertAppends(b.ring, b.current.value);
    }
  }

  /** Writing into a buffer moves none. */
  lemma WriteKeeps(b: Buffers, k: nat, c: RxBuf)
    requires Conserved(b) && k < POOL && c.available == b.pool[k].available
    ensures Conserved(b.(pool := b.pool[k := c]))
  {
    var n := b.(pool := b.pool[k := c]);
    assert Held(n) == Held(b);
  }

  /** The current buffer once it is queued and given up. */
  function HandedOver(b: Buffers): Buffers
    requires b.current.Some? && |b.ring.data| == FIFOSIZE
  {
    EnqueueCurrent(b).(current := None)
  }

  /** Queueing moves the current buffer to the end of the queue: Held is the same. */
  lemma EnqueueKeeps(b: Buffers)
    requires Conserved(b) && b.current.Some?
    ensures Conserved(HandedOver(b)) && Held(HandedOver(b)) == Held(b)
    ensures Contents(HandedOver(b).ring) == Contents(b.ring) + [b.current.value]
    ensures HandedOver(b).pool == b.pool && HandedOver(b).main == b.main
  {
    RoomInQueue(b);
    InsertAppends(b.ring, b.current.value);
    var n := HandedOver(b);
    assert n.ring == Inserted(b.ring, b.current.value).0;
    assert Contents(n.ring) == Contents(b.ring) + [b.current.value];
    assert Held(n) == Held(b);
    if b.ring.head != b.ring.tail {
      InsertBesideRemoval(b.ring, b.current.value);
    }
  }

  /** Taking a buffer from the pool adds it at the end of Held; there is none exactly when all four are in use. */
  lemma GetKeeps(b: Buffers)
    requires Conserved(b) && b.current.None?
    ensures Conserved(GetCurrent(b))
    ensures GetCurrent(b).current.None? ==> GetCurrent(b) == b && |Held(b)| == POOL
    ensures GetCurrent(b).current.Some? ==>
      var k := GetCurrent(b).current.value;
      && k < POOL && k !in Held(b) && Held(GetCurrent(b)) == Held(b) + [k]
      && GetCurrent(b) == b.(current := Some(k), pool := b.pool[k := Cleared(b.pool[k]).(available := false)])
  {
    var r := FirstAvailable(b.pool, 0);
    if r.Some? {
      var k := r.value;
      var n := GetCurrent(b);
      assert Held(n) == Held(b) + [k];
    } else {
      assert GetCurrent(b) == b;
      forall k | 0 <= k < POOL ensures k in Held(b) {
        assert !b.pool[k].available;
      }
      AllHeld(Held(b), POOL);
      DistinctBelow(Held(b), POOL);
    }
  }

  /** A sequence that has all numbers below n has at least n entries. */
  lemma {:induction false} AllHeld(s: seq<nat>, n: nat)
    requires forall k :: 0 <= k < n ==> k in s
    ensures |s| >= n
    decreases n
  {
    if n > 0 {
      assert n - 1 in s;
      var i :| 0 <= i < |s| && s[i] == n - 1;
      var t := s[..i] + s[i + 1..];
      forall k | 0 <= k < n - 1 ensures k in t {
        assert k in s;
        var j :| 0 <= j < |s| && s[j] == k;
        if j < i {
          assert t[j] == k;
        } else {
          assert t[j - 1] == k;
        }
      }
      AllHeld(t, n - 1);
    }
  }

  /** The steps of the main loop that touch the queue or the pool. */
  lemma AdvanceKeeps(b: Buffers)
    requires Conserved(b) && b.main.Idle? && b.ring.head != b.ring.tail
    ensures Conserved(b.(main := Advance(Succ(b.ring.head))))
  {
    assert Held(b.(main := Advance(Succ(b.ring.head)))) == Held(b);
  }

  lemma LoadKeeps(b: Buffers)
    requires Conserved(b) && b.main.Advance?
    ensures Conserved(b.(main := Loaded(b.main.newhead, b.ring.data[b.main.newhead])))
  {
    assert Held(b.(main := Loaded(b.main.newhead, b.ring.data[b.main.newhead]))) == Held(b);
  }

  /** Moving the head gives the oldest entry to the main loop: Held is the same. */
  lemma CommitKeeps(b: Buffers)
    requires Conserved(b) && b.main.Loaded?
    ensures
      var n := b.(ring := b.ring.(head := b.main.newhead), main := Taken(b.main.buf));
      && Conserved(n) && Held(n) == Held(b)
      && Contents(b.ring) == [b.main.buf] + Contents(n.ring)
  {
    RemoveTakesOldest(b.ring);
    var n := b.(ring := b.ring.(head := b.main.newhead), main := Taken(b.main.buf));
    assert n.ring == Advanced(b.ring);
    assert Held(n) == Held(b);
  }

  /** From taking a packet to having handled it the main loop has the same buffer. */
  lemma WorkKeeps(b: Buffers, m: Main)
    requires Conserved(b) && (b.main.Taken? || b.main.Plain?) && (m.Plain? || m.Handled?) && m.buf == b.main.buf
    ensures Conserved(b.(main := m))
  {
    assert Held(b.(main := m)) == Held(b);
  }

  /** Releasing drops the first of Held. */
  lemma ReleaseKeeps(b: Buffers)
    requires Conserved(b) && b.main.Handled? && b.main.buf < POOL
    ensures
      var k := b.main.buf;
      var n := b.(pool := b.pool[k := b.pool[k].(available := true)], main := Idle);
      Conserved(n) && Held(b) == [k] + Held(n)
  {
    var k := b.main.buf;
    var n := b.(pool := b.pool[k := b.pool[k].(available := true)], main := Idle);
    assert Held(b) == [k] + Held(n);
    TailDistinct(k, Held(n));
    hide Held;
    forall x | x in Held(n) ensures x < POOL {
      assert x in Held(b);
    }
    forall x | 0 <= x < POOL
      ensures n.pool[x].available <==> x !in Held(n)
    {
      assert x in Held(b) <==> x == k || x in Held(n);
    }
  }

  lemma TailDistinct(k: nat, t: seq<nat>)
    requires Distinct([k] + t)
    ensures Distinct(t) && k !in t
  {
    var s := [k] + t;
    forall i | 0 <= i < |t| ensures t[i] != k {
      assert s[0] != s[i + 1];
    }
    forall i, j | 0 <= i < j < |t| ensures t[i] != t[j] {
      assert s[i + 1] != s[j + 1];
    }
  }
}
