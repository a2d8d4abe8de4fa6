/**
 What is in the buffers: a packet being received, complete packets waiting in
 the order of their reception, and the dewhitened packet the main loop works on.
 */
module LePhyFraming {
  import opened Bits
  import opened Channels
  import opened Whitening
  import opened RingQueue
  import opened LePhy
  import opened LePhyBuffers

  /** A packet being received: there is room for the next byte, and once the header is in, the length is known. */
  predicate Partial(c: RxBuf, rfChannel: u16) {
    && c.pos < BUFFER
    && (c.pos >= 1 ==> c.channel == rfChannel)
    && (c.pos >= 2 ==> c.pos < c.size == SizeFromHeader(c))
  }

  /** A received packet: as many bytes as its header says. Its size is between 5 and 260. */
  predicate Complete(c: RxBuf) {
    c.pos == c.size == SizeFromHeader(c)
  }

  /** A dewhitened packet: the length byte in the buffer agrees with the size found during reception. */
  predicate Readable(c: RxBuf) {
    c.size == c.data[1] as nat + 5
  }

  datatype Packet = Packet(bytes: seq<u8>, channel: u16, timestamp: u32, accessAddress: u32)

  function PacketIn(c: RxBuf): Packet
    requires c.size <= BUFFER
  {
    Packet(c.data[..c.size], c.channel, c.timestamp, c.accessAddress)
  }

  function Awaited(m: Main): seq<nat> {
    if m.Taken? then [m.buf] else []
  }

  /** The buffers with complete packets that are still to be dewhitened, oldest first. */
  ghost function Pending(b: Buffers): seq<nat>
    requires Valid(b.ring)
  {
    Awaited(b.main) + Contents(b.ring)
  }

  ghost predicate AllComplete(pool: seq<RxBuf>, ids: seq<nat>) {
    forall k :: k in ids ==> k < |pool| && Complete(pool[k])
  }

  ghost function PacketAt(pool: seq<RxBuf>, ids: seq<nat>, i: nat): Packet
    requires AllComplete(pool, ids) && i < |ids|
  {
    assert ids[i] in ids;
    PacketIn(pool[ids[i]])
  }

  ghost function Packets(pool: seq<RxBuf>, ids: seq<nat>): (ps: seq<Packet>)
    requires AllComplete(pool, ids)
    ensures |ps| == |ids|
  {
    seq(|ids|, i requires 0 <= i < |ids| => PacketAt(pool, ids, i))
  }

  lemma PacketsSame(p: seq<RxBuf>, q: seq<RxBuf>, ids: seq<nat>)
    requires AllComplete(p, ids) && |p| == |q| && forall k :: k in ids ==> k < |p| && q[k] == p[k]
    ensures AllComplete(q, ids) && Packets(q, ids) == Packets(p, ids)
  {
    hide Complete;
    forall i | 0 <= i < |ids| ensures PacketAt(q, ids, i) == PacketAt(p, ids, i) {
      assert ids[i] in ids;
    }
  }

  lemma PacketsCons(p: seq<RxBuf>, k: nat, ids: seq<nat>)
    requires AllComplete(p, [k] + ids)
    ensures AllComplete(p, ids) && k < |p| && Complete(p[k])
    ensures Packets(p, [k] + ids) == [PacketIn(p[k])] + Packets(p, ids)
  {
    hide LengthOf;
    var all := [k] + ids;
    assert all[0] in all;
    assert Complete(p[k]) && p[k].size <= BUFFER;
    hide Complete, PacketIn;
    assert forall i :: 0 <= i < |ids| ==> all[i + 1] == ids[i];
    forall x | x in ids ensures x in all {}
    forall i | 0 <= i < |all| ensures Packets(p, all)[i] == ([PacketIn(p[k])] + Packets(p, ids))[i] {
      if i > 0 {
        assert all[i] == ids[i - 1];
      }
    }
  }

  lemma PacketsSnoc(p: seq<RxBuf>, ids: seq<nat>, k: nat)
    requires AllComplete(p, ids) && k < |p| && Complete(p[k])
    ensures AllComplete(p, ids + [k])
    ensures Packets(p, ids + [k]) == Packets(p, ids) + [PacketIn(p[k])]
  {
    assert p[k].size <= BUFFER;
    hide Complete;
    var all := ids + [k];
    forall i | 0 <= i < |all| ensures Packets(p, all)[i] == (Packets(p, ids) + [PacketIn(p[k])])[i] {}
  }

  ghost predicate Waiting(b: Buffers)
    requires Conserved(b)
  {
    && AllComplete(b.pool, Pending(b))
    && (b.main.Plain? || b.main.Handled? ==> b.main.buf < POOL && Readable(b.pool[b.main.buf]))
  }

  ghost predicate Receiving(b: Buffers, rfChannel: u16)
    requires Conserved(b)
  {
    b.current.Some? ==> b.current.value < POOL && Partial(b.pool[b.current.value], rfChannel)
  }

  ghost predicate Sound(b: Buffers, rfChannel: u16) {
    Conserved(b) && Waiting(b) && Receiving(b, rfChannel)
  }

  /** The packets still to be dewhitened, in the order of their reception. */
  ghost function PendingPackets(b: Buffers): (ps: seq<Packet>)
    requires Conserved(b) && Waiting(b)
    ensures |ps| == |Pending(b)|
  {
    Packets(b.pool, Pending(b))
  }

  /** The current buffer is apart from those that wait. */
  lemma CurrentApart(b: Buffers)
    requires Conserved(b) && b.current.Some?
    ensures b.current.value < POOL && b.current.value !in Pending(b)
    ensures b.main.Taken? || b.main.Plain? || b.main.Handled? ==> b.current.value != b.main.buf
    ensures !b.pool[b.current.value].available
  {
    var h, k := Held(b), b.current.value;
    assert h[|h| - 1] == k;
    assert k in h;
    var front := MainHeld(b.main) + Contents(b.ring);
    assert forall i :: 0 <= i < |front| ==> h[i] == front[i];
    forall x | x in Pending(b) ensures x in front {}
    if b.main.Taken? || b.main.Plain? || b.main.Handled? {
      assert front[0] == b.main.buf;
    }
  }

  /** A buffer in the queue or with the main loop is in use and within the pool. */
  lemma PendingInUse(b: Buffers, k: nat)
    requires Conserved(b)
    requires k in Pending(b) || ((b.main.Plain? || b.main.Handled?) && k == b.main.buf)
    ensures k < POOL && !b.pool[k].available
  {
    assert k in Held(b);
  }

  /** Changing a buffer that does not wait leaves what waits as it is. */
  lemma ChangeApart(b: Buffers, n: Buffers, k: nat)
    requires Conserved(b) && Waiting(b) && Conserved(n)
    requires k < POOL && k !in Pending(b) && (b.main.Plain? || b.main.Handled? ==> k != b.main.buf)
    requires n.main == b.main && n.ring == b.ring
    requires forall x :: 0 <= x < POOL && x != k ==> n.pool[x] == b.pool[x]
    ensures Waiting(n) && PendingPackets(n) == PendingPackets(b)
  {
    PoolSize(b);
    PoolSize(n);
    assert Pending(n) == Pending(b);
    PacketsSame(b.pool, n.pool, Pending(b));
  }

  // ----- reception

  lemma ByteStored(c: RxBuf, now: u32, value: u8, rfChannel: u16, accessAddress: u32)
    requires Partial(c, rfChannel)
    ensures
      var d := WithByte(c, now, value, rfChannel, accessAddress);
      && d.available == c.available
      && (if PacketDone(d) then Complete(d) else Partial(d, rfChannel))
  {
    var d := WithByte(c, now, value, rfChannel, accessAddress);
    if c.pos >= 2 {
      assert d.data[1] == c.data[1];
    }
    hide DewhitenByte;
  }

  lemma StoreSound(b: Buffers, rfChannel: u16, now: u32, value: u8, accessAddress: u32)
    requires Sound(b, rfChannel) && b.current.Some?
    ensures CanReceive(b)
    ensures
      var k := b.current.value;
      var c := WithByte(b.pool[k], now, value, rfChannel, accessAddress);
      var n := b.(pool := b.pool[k := c]);
      && Conserved(n) && Waiting(n) && PendingPackets(n) == PendingPackets(b)
      && (if PacketDone(c) then Complete(c) else Sound(n, rfChannel))
  {
    CurrentApart(b);
    var k := b.current.value;
    ByteStored(b.pool[k], now, value, rfChannel, accessAddress);
    var c := WithByte(b.pool[k], now, value, rfChannel, accessAddress);
    hide Complete, Partial, WithByte, PacketDone, Conserved, Waiting, PendingPackets, Held, Pending;
    WriteKeeps(b, k, c);
    var n := b.(pool := b.pool[k := c]);
    assert |b.pool| == POOL by { PoolSize(b); }
    ChangeApart(b, n, k);
  }

  lemma PoolSize(b: Buffers)
    requires Conserved(b)
    ensures |b.pool| == POOL && Valid(b.ring)
  {}

  /** Queueing appends the packet. */
  lemma EnqueueSound(b: Buffers)
    requires Conserved(b) && Waiting(b) && b.current.Some? && b.current.value < POOL
    requires Complete(b.pool[b.current.value])
    ensures
      var n := HandedOver(b);
      && Conserved(n) && Waiting(n)
      && PendingPackets(n) == PendingPackets(b) + [PacketIn(b.pool[b.current.value])]
  {
    EnqueueKeeps(b);
    var n := HandedOver(b);
    assert Pending(n) == Pending(b) + [b.current.value];
    PacketsSnoc(b.pool, Pending(b), b.current.value);
  }

  lemma NotHeldApart(b: Buffers, k: nat)
    requires Conserved(b) && k !in Held(b)
    ensures k !in Pending(b) && (b.main.Plain? || b.main.Handled? ==> k != b.main.buf)
  {
    hide Contents;
    forall x | x in Pending(b) ensures x in Held(b) {}
    assert b.main.Plain? || b.main.Handled? ==> b.main.buf in Held(b);
  }

  lemma GetSound(b: Buffers, rfChannel: u16)
    requires Conserved(b) && Waiting(b) && b.current.None?
    ensures Sound(GetCurrent(b), rfChannel) && PendingPackets(GetCurrent(b)) == PendingPackets(b)
  {
    GetKeeps(b);
    var n := GetCurrent(b);
    if n.current.Some? {
      var k := n.current.value;
      NotHeldApart(b, k);
      hide GetCurrent, Held, Pending;
      ChangeApart(b, n, k);
    }
  }

  /** Clearing the current buffer, for whatever channel comes next. */
  lemma ClearSound(b: Buffers, rfChannel: u16)
    requires Conserved(b) && Waiting(b) && b.current.Some?
    ensures b.current.value < |b.pool|
    ensures Sound(ClearCurrent(b), rfChannel) && PendingPackets(ClearCurrent(b)) == PendingPackets(b)
  {
    CurrentApart(b);
    var k := b.current.value;
    WriteKeeps(b, k, Cleared(b.pool[k]));
    ChangeApart(b, ClearCurrent(b), k);
  }

  // ----- the main loop

  lemma SameWaiting(b: Buffers, n: Buffers, rfChannel: u16)
    requires Sound(b, rfChannel) && Conserved(n)
    requires n.pool == b.pool && n.current == b.current && Pending(n) == Pending(b)
    requires n.main.Plain? || n.main.Handled? ==>
      (b.main.Plain? || b.main.Handled?) && n.main.buf == b.main.buf
    ensures Sound(n, rfChannel) && PendingPackets(n) == PendingPackets(b)
  {
    hide Complete, Readable, Partial;
  }

  lemma DewhiteningAgrees(c: RxBuf)
    requires Complete(c)
    ensures Readable(DewhitenedBuf(c)) && DewhitenedBuf(c).available == c.available
    ensures DewhitenedBuf(c).data[..c.size] == Dewhitened(PacketIn(c).bytes, ChannelIndex(c.channel))
  {
    LengthAgrees(c.data[..c.size], ChannelIndex(c.channel));
  }

  /** Dewhitening takes the oldest packet off those that wait. */
  lemma DewhitenSound(b: Buffers, rfChannel: u16)
    requires Sound(b, rfChannel) && b.main.Taken?
    ensures b.main.buf < POOL && Complete(b.pool[b.main.buf])
    ensures
      var k := b.main.buf;
      var n := b.(pool := b.pool[k := DewhitenedBuf(b.pool[k])], main := Plain(k));
      && Sound(n, rfChannel)
      && PendingPackets(b) == [PacketIn(b.pool[k])] + PendingPackets(n)
  {
    var k := b.main.buf;
    assert Pending(b)[0] == k;
    assert k in Pending(b);
    PendingInUse(b, k);
    var c := DewhitenedBuf(b.pool[k]);
    DewhiteningAgrees(b.pool[k]);
    WriteKeeps(b, k, c);
    WorkKeeps(b.(pool := b.pool[k := c]), Plain(k));
    var n := b.(pool := b.pool[k := c], main := Plain(k));
    assert n == b.(pool := b.pool[k := c]).(main := Plain(k));
    if b.current.Some? {
      CurrentApart(b);
    }
    TakenApart(b);
    assert Pending(b) == [k] + Pending(n);
    hide Conserved, Waiting, PendingPackets, Pending, DewhitenedBuf, Complete, Readable;
    TakeOldest(b, n, k);
  }

  lemma TakeOldest(b: Buffers, n: Buffers, k: nat)
    requires Conserved(b) && Waiting(b) && Conserved(n)
    requires Pending(b) == [k] + Pending(n) && k < POOL && k !in Pending(n)
    requires Complete(b.pool[k])
    requires forall x :: 0 <= x < POOL && x != k ==> n.pool[x] == b.pool[x]
    requires n.main.Plain? && n.main.buf == k && Readable(n.pool[k])
    ensures Waiting(n) && PendingPackets(b) == [PacketIn(b.pool[k])] + PendingPackets(n)
  {
    PoolSize(b);
    PoolSize(n);
    PacketsCons(b.pool, k, Pending(n));
    PacketsSame(b.pool, n.pool, Pending(n));
  }

  /** The buffer the main loop has is not in the queue. */
  lemma TakenApart(b: Buffers)
    requires Conserved(b) && (b.main.Taken? || b.main.Plain? || b.main.Handled?)
    ensures b.main.buf !in Contents(b.ring)
  {
    var rest := Contents(b.ring) + CurrentHeld(b.current);
    assert Held(b) == [b.main.buf] + rest;
    TailDistinct(b.main.buf, rest);
    forall x | x in Contents(b.ring) ensures x in rest {}
  }

  lemma ReleaseSound(b: Buffers, rfChannel: u16)
    requires Sound(b, rfChannel) && b.main.Handled?
    ensures b.main.buf < POOL
    ensures
      var k := b.main.buf;
      var n := b.(pool := b.pool[k := b.pool[k].(available := true)], main := Idle);
      Sound(n, rfChannel) && PendingPackets(n) == PendingPackets(b)
  {
    var k := b.main.buf;
    PendingInUse(b, k);
    ReleaseKeeps(b);
    TakenApart(b);
    if b.current.Some? {
      CurrentApart(b);
    }
    var n := b.(pool := b.pool[k := b.pool[k].(available := true)], main := Idle);
    assert Pending(n) == Pending(b) == Contents(b.ring);
    PacketsSame(b.pool, n.pool, Pending(b));
  }
}
