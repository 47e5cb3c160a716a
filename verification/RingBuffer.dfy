/** `RingBuffer`: a circular byte buffer that keeps one slot free, as a class over a fixed array.

    Positions are offsets from `begin`. The code masks addresses; `begin` is aligned to the buffer size,
    so masking an address is taking its offset modulo the size. */
module RingBuffers {

  type Byte = x: int | 0 <= x < 256

  const BUF_SIZE: nat := 8192

  /** An offset at most one lap ahead, brought back into the buffer. */
  function Wrap(p: nat): nat {
    if p < BUF_SIZE then p else p - BUF_SIZE
  }

  function Used(front: nat, rear: nat): int {
    if front <= rear then rear - front else rear + BUF_SIZE - front
  }

  /** The `n` bytes of a circular memory from `start` on. */
  ghost function Cyclic(mem: seq<Byte>, start: nat, n: nat): (s: seq<Byte>)
    requires |mem| == BUF_SIZE && start < BUF_SIZE && n <= BUF_SIZE
    ensures |s| == n && forall i :: 0 <= i < n ==> s[i] == mem[Wrap(start + i)]
  {
    seq(n, i requires 0 <= i < n => mem[Wrap(start + i)])
  }

  lemma CyclicSplit(mem: seq<Byte>, start: nat, a: nat, b: nat)
    requires |mem| == BUF_SIZE && start < BUF_SIZE && a + b <= BUF_SIZE
    ensures Wrap(start + a) < BUF_SIZE
    ensures Cyclic(mem, start, a + b) == Cyclic(mem, start, a) + Cyclic(mem, Wrap(start + a), b)
  {}

  lemma CyclicDrop(mem: seq<Byte>, start: nat, n: nat, a: nat)
    requires |mem| == BUF_SIZE && start < BUF_SIZE && a <= n <= BUF_SIZE
    ensures Wrap(start + a) < BUF_SIZE && Cyclic(mem, start, n)[a..] == Cyclic(mem, Wrap(start + a), n - a)
  {}

  /** Slot `j` is one of the `n` slots from `start` on. */
  predicate Covers(start: nat, n: nat, j: nat) {
    start <= j < start + n || j + BUF_SIZE < start + n
  }

  /** Bytes outside a region do not change it. */
  lemma CyclicFrame(mem: seq<Byte>, mem': seq<Byte>, start: nat, n: nat)
    requires |mem| == |mem'| == BUF_SIZE && start < BUF_SIZE && n <= BUF_SIZE
    requires forall j :: 0 <= j < BUF_SIZE && Covers(start, n, j) ==> mem'[j] == mem[j]
    ensures Cyclic(mem', start, n) == Cyclic(mem, start, n)
  {
    var was, now := Cyclic(mem, start, n), Cyclic(mem', start, n);
    forall i | 0 <= i < n ensures now[i] == was[i] {
      assert Covers(start, n, Wrap(start + i));
    }
  }

  /** Moving one end of the unread region, and the position one ahead of it. */
  lemma Moved(front: nat, rear: nat, size: nat)
    requires front < BUF_SIZE && rear < BUF_SIZE
    ensures size <= Used(front, rear) ==> Used(Wrap(front + size), rear) == Used(front, rear) - size
    ensures Used(front, rear) + size < BUF_SIZE ==> Used(front, Wrap(rear + size)) == Used(front, rear) + size
    ensures size < BUF_SIZE ==> Wrap(Wrap(front + size) + 1) == Wrap(Wrap(front + 1) + size)
    ensures Wrap(Wrap(front + 1) + Used(front, rear)) == Wrap(rear + 1)
  {}

  class RingBuffer {
    const buf: array<Byte>
    var front: nat
    var rear: nat
    var readPos: nat
    var writePos: nat

    ghost predicate Valid()
      reads this
    {
      && buf.Length == BUF_SIZE && front < BUF_SIZE && rear < BUF_SIZE
      && readPos == Wrap(front + 1) && writePos == Wrap(rear + 1)
    }

    /** The unread bytes, oldest first. */
    ghost function Contents(): (s: seq<Byte>)
      requires Valid()
      reads this, buf
      ensures |s| == Used(front, rear)
    {
      Cyclic(buf[..], readPos, Used(front, rear))
    }

    constructor ()
      ensures Valid() && fresh(buf) && Contents() == []
    {
      buf := new Byte[BUF_SIZE];
      front, rear, readPos, writePos := 0, 0, 1, 1;
    }

    method Clear()
      requires Valid()
      modifies this
      ensures Valid() && Contents() == []
    {
      front, rear := 0, 0;
      writePos, readPos := front + 1, rear + 1;
    }

    function DirectEnqueueSize(): (n: int)
      reads this
      requires Valid()
      ensures 0 <= n && writePos + n <= BUF_SIZE
    {
      if front < writePos then BUF_SIZE - writePos else front - writePos
    }

    function RemainEnqueueSize(): (n: int)
      reads this
      requires Valid()
      ensures 0 <= n <= front
      ensures n > 0 ==> writePos + DirectEnqueueSize() == BUF_SIZE
    {
      if writePos <= front then 0 else front
    }

    function DirectDequeueSize(): (n: int)
      reads this
      requires Valid()
      ensures 0 <= n && readPos + n <= BUF_SIZE
    {
      if writePos < readPos then BUF_SIZE - readPos else writePos - readPos
    }

    function RemainDequeueSize(): (n: int)
      reads this
      requires Valid()
      ensures 0 <= n <= writePos
      ensures n > 0 ==> readPos + DirectDequeueSize() == BUF_SIZE
    {
      if readPos <= writePos then 0 else writePos
    }

    /** The two segments a receive may fill are all slots but the unread ones and the one kept free. */
    function GetFreeSize(): (n: int)
      reads this
      requires Valid()
      ensures n == BUF_SIZE - 1 - Used(front, rear)
    {
      DirectEnqueueSize() + RemainEnqueueSize()
    }

    function GetUseSize(): (n: int)
      reads this, buf
      requires Valid()
      ensures n == |Contents()|
    {
      DirectDequeueSize() + RemainDequeueSize()
    }

    /** Slot by slot: the segments passed to a receive hold no unread byte, and miss no slot but the one
        at `front` that tells full from empty. */
    lemma ReceiveSegments(j: nat)
      requires Valid() && j < BUF_SIZE
      ensures (writePos <= j < writePos + DirectEnqueueSize() || j < RemainEnqueueSize())
                <==> !Covers(readPos, Used(front, rear), j) && j != front
    {}

    method MoveFront(size: nat)
      requires Valid() && size <= GetUseSize()
      modifies this
      ensures Valid() && rear == old(rear)
      ensures Contents() == old(Contents())[size..]
    {
      CyclicDrop(buf[..], readPos, Used(front, rear), size);
      Moved(front, rear, size);
      front, readPos := MaskedMove(front, size);
    }

    method MoveRear(size: nat)
      requires Valid() && size <= GetFreeSize()
      modifies this
      ensures Valid() && front == old(front) && readPos == old(readPos)
      ensures Contents() == old(Contents()) + Cyclic(buf[..], old(writePos), size)
    {
      CyclicSplit(buf[..], readPos, Used(front, rear), size);
      Moved(front, rear, size);
      rear, writePos := MaskedMove(rear, size);
    }

    /** The masked arithmetic of the two moves: the new end, and the position one ahead of it. */
    static method MaskedMove(end: nat, size: nat) returns (moved: nat, ahead: nat)
      requires end < BUF_SIZE && size < BUF_SIZE
      ensures moved == Wrap(end + size) && ahead == Wrap(moved + 1)
    {
      moved := (end + size) % BUF_SIZE;
      ahead := (moved + 1) % BUF_SIZE;
    }

    /** `memmove` into the buffer from `at` on, inside the array and outside the unread bytes. */
    method CopyIn(at: nat, src: seq<Byte>)
      requires Valid() && at + |src| <= BUF_SIZE
      requires forall j :: at <= j < at + |src| ==> !Covers(readPos, Used(front, rear), j)
      modifies buf
      ensures buf[..] == old(buf[..at]) + src + old(buf[at + |src|..])
      ensures Contents() == old(Contents())
    {
      var i := 0;
      while i < |src|
        invariant 0 <= i <= |src|
        invariant buf[..] == old(buf[..at]) + src[..i] + old(buf[at + i..])
      {
        buf[at + i] := src[i];
        i := i + 1;
      }
      CyclicFrame(old(buf[..]), buf[..], readPos, Used(front, rear));
    }

    method MustEnqueue(src: seq<Byte>)
      requires Valid() && |src| <= DirectEnqueueSize()
      modifies this, buf
      ensures Valid() && front == old(front) && Contents() == old(Contents()) + src
      ensures old(DirectEnqueueSize()) == |src| && old(RemainEnqueueSize()) > 0 ==>
                writePos == 0 && DirectEnqueueSize() == old(RemainEnqueueSize())
    {
      CopyIn(writePos, src);
      assert Cyclic(buf[..], writePos, |src|) == src;
      MoveRear(|src|);
    }

    /** Appends as much of `src` as fits. */
    method Enqueue(src: seq<Byte>) returns (n: nat)
      requires Valid()
      modifies this, buf
      ensures Valid() && n == if |src| <= old(GetFreeSize()) then |src| else old(GetFreeSize())
      ensures Contents() == old(Contents()) + src[..n]
    {
      n := |src|;
      var freeSize := GetFreeSize();
      if freeSize < n {
        n := freeSize;
      }
      var direct := DirectEnqueueSize();
      if n <= direct {
        MustEnqueue(src[..n]);
      } else {
        MustEnqueue(src[..direct]);
        MustEnqueue(src[direct..n]);
        assert src[..direct] + src[direct..n] == src[..n];
      }
    }

    /** What `WSARecv` does with the two segments that `RecvAsync` passes: the bytes fill the direct
        segment first and then the remaining one. The positions do not move until the completion. */
    method Receive(data: seq<Byte>)
      requires Valid() && |data| <= GetFreeSize()
      modifies buf
      ensures Valid() && Contents() == old(Contents())
      ensures Cyclic(buf[..], writePos, |data|) == data
    {
      var direct := DirectEnqueueSize();
      if |data| <= direct {
        CopyIn(writePos, data);
      } else {
        CopyIn(writePos, data[..direct]);
        CopyIn(0, data[direct..]);
        assert Wrap(writePos + direct) == 0;
        CyclicSplit(buf[..], writePos, direct, |data| - direct);
      }
    }

    /** `memmove` out of the buffer. */
    method CopyOut(dst: array<Byte>, to: nat, at: nat, size: nat)
      requires Valid() && at + size <= BUF_SIZE && to + size <= dst.Length && dst != buf
      modifies dst
      ensures forall k :: 0 <= k < dst.Length ==>
        dst[k] == if to <= k < to + size then buf[at + (k - to)] else old(dst[k])
    {
      var i := 0;
      while i < size
        invariant 0 <= i <= size
        invariant forall k :: 0 <= k < dst.Length ==>
          dst[k] == if to <= k < to + i then buf[at + (k - to)] else old(dst[k])
      {
        dst[to + i] := buf[at + i];
        i := i + 1;
      }
    }

    /** Copies up to `size` unread bytes without consuming them. */
    method Peek(dst: array<Byte>, size: nat) returns (n: nat)
      requires Valid() && size <= dst.Length && dst != buf
      modifies dst
      ensures n == if size <= |Contents()| then size else |Contents()|
      ensures dst[..n] == Contents()[..n] && dst[n..] == old(dst[n..])
    {
      n := size;
      var useSize := GetUseSize();
      if useSize < n {
        n := useSize;
      }
      var direct := DirectDequeueSize();
      if n <= direct {
        CopyOut(dst, 0, readPos, n);
      } else {
        CopyOut(dst, 0, readPos, direct);
        CopyOut(dst, direct, 0, n - direct);
      }
    }

    method MustDequeue(dst: array<Byte>, to: nat, size: nat)
      requires Valid() && size <= DirectDequeueSize() && to + size <= dst.Length && dst != buf
      modifies this, dst
      ensures Valid() && rear == old(rear) && size <= |old(Contents())| && Contents() == old(Contents())[size..]
      ensures forall k :: 0 <= k < dst.Length ==>
        dst[k] == if to <= k < to + size then old(Contents())[k - to] else old(dst[k])
      ensures old(DirectDequeueSize()) == size && old(RemainDequeueSize()) > 0 ==>
                readPos == 0 && DirectDequeueSize() == old(RemainDequeueSize())
    {
      CopyOut(dst, to, readPos, size);
      MoveFront(size);
    }

    /** Moves the `n` oldest unread bytes out, from the direct segment and then the remaining one. */
    method DequeueSegments(dst: array<Byte>, n: nat)
      requires Valid() && n <= GetUseSize() && n <= dst.Length && dst != buf
      modifies this, dst
      ensures Valid() && n <= |old(Contents())| && Contents() == old(Contents())[n..]
      ensures forall k :: 0 <= k < dst.Length ==> dst[k] == if k < n then old(Contents())[k] else old(dst[k])
    {
      var direct := DirectDequeueSize();
      if n <= direct {
        MustDequeue(dst, 0, n);
      } else {
        MustDequeue(dst, 0, direct);
        MustDequeue(dst, direct, n - direct);
      }
    }

    /** Moves up to `size` unread bytes out, oldest first. */
    method Dequeue(dst: array<Byte>, size: nat) returns (n: nat)
      requires Valid() && size <= dst.Length && dst != buf
      modifies this, dst
      ensures Valid() && n == if size <= |old(Contents())| then size else |old(Contents())|
      ensures dst[..n] == old(Contents())[..n] && dst[n..] == old(dst[n..])
      ensures Contents() == old(Contents())[n..]
    {
      n := size;
      var useSize := GetUseSize();
      if useSize < n {
        n := useSize;
      }
      DequeueSegments(dst, n);
    }
  }
}
