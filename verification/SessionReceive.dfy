/** `IOCPManager::HandleRecvComplete` over a session's ring buffer, and `RecvAsync` as far as the buffer is
    concerned. */
module SessionReceive {
  import opened RingBuffers
  import opened Framing
  import opened Sequences

  class Session {
    const recvBuf: RingBuffer
    var delivered: seq<Packet>

    ghost predicate Valid()
      reads this, recvBuf
    {
      recvBuf.Valid()
    }

    constructor ()
      ensures Valid() && fresh(recvBuf) && fresh(recvBuf.buf) && recvBuf.Contents() == [] && delivered == []
    {
      recvBuf := new RingBuffer();
      delivered := [];
    }

    /** One iteration of the loop behind its guard: peek at the length, check it, take the packet out. */
    method TakePacket() returns (stop: bool, outcome: Outcome, packet: Packet)
      requires Valid()
      modifies recvBuf
      ensures Valid()
      ensures match TakeFrame(old(recvBuf.Contents()))
              case Stop(o) => stop && outcome == o && recvBuf.Contents() == old(recvBuf.Contents())
              case Took(p, rest) => !stop && packet == p && recvBuf.Contents() == rest
    {
      packet := Packet(0, []);
      outcome := NeedMore;
      stop := true;
      var recvByte := recvBuf.GetUseSize();
      if recvByte < HEADER_SIZE {
        return;
      }
      var lenBytes := new Byte[4];
      var n := recvBuf.Peek(lenBytes, 4);
      assert lenBytes[..][..4] == recvBuf.Contents()[..4];
      var packetLen := ReadU32(lenBytes[..]);
      if !IsValidPacketSize(packetLen) {
        outcome := BadLength;
        return;
      }
      if recvByte < packetLen {
        return;
      }
      var bytes := new Byte[packetLen];
      n := recvBuf.Dequeue(bytes, packetLen);
      assert bytes[..] == bytes[..n];
      stop, packet := false, Parse(bytes[..]);
    }

    /** The loop: at most `maxLoopCount` packets, then the guard ends it. */
    method TakePackets(maxLoopCount: nat) returns (outcome: Outcome)
      requires Valid()
      modifies this, recvBuf
      ensures Valid()
      ensures var d := Drain(TakeFrame, old(recvBuf.Contents()), maxLoopCount);
        delivered == old(delivered) + d.packets && recvBuf.Contents() == d.rest && outcome == d.outcome
    {
      var loopCount := 0;
      ghost var done: seq<Packet> := [];
      ghost var result := Drain(TakeFrame, recvBuf.Contents(), maxLoopCount);
      while true
        invariant Valid() && 0 <= loopCount <= maxLoopCount
        invariant delivered == old(delivered) + done
        invariant Resumed(done, recvBuf.Contents(), maxLoopCount - loopCount) == result
        decreases maxLoopCount - loopCount
      {
        ghost var b, budget := recvBuf.Contents(), maxLoopCount - loopCount;
        loopCount := loopCount + 1;
        if loopCount > maxLoopCount {
          ResumeStop(done, b, budget);
          return LoopGuard;
        }
        var stop, why, packet := TakePacket();
        if stop {
          ResumeStop(done, b, budget);
          return why;
        }
        ResumeTook(done, b, budget);
        delivered := delivered + [packet];
        done := done + [packet];
      }
    }

    /** Handles a completion of `ioSize` bytes, which the receive left in the free segments. The result says
        why the loop ended and whether another receive is posted. */
    method HandleRecvComplete(ioSize: nat, pendingDisconnect: bool) returns (outcome: Outcome, reposted: bool)
      requires Valid() && ioSize <= recvBuf.GetFreeSize()
      modifies this, recvBuf
      ensures Valid()
      ensures
        var received := old(recvBuf.Contents() + Cyclic(recvBuf.buf[..], recvBuf.writePos, ioSize));
        var d := Drain(TakeFrame, received, MAX_LOOP_COUNT);
        delivered == old(delivered) + d.packets && recvBuf.Contents() == d.rest && outcome == d.outcome
      ensures reposted <==> outcome == NeedMore && !pendingDisconnect
    {
      recvBuf.MoveRear(ioSize);
      outcome := TakePackets(MAX_LOOP_COUNT);
      reposted := outcome == NeedMore && !pendingDisconnect;
    }

    /** A posted receive that completes with `chunk`, and its handling. */
    method ReceiveChunk(chunk: seq<Byte>) returns (reading: bool)
      requires Valid() && |chunk| <= recvBuf.GetFreeSize()
      modifies this, recvBuf, recvBuf.buf
      ensures Valid()
      ensures Conn(delivered, recvBuf.Contents(), reading) ==
        Receive(TakeFrame, MAX_LOOP_COUNT, Conn(old(delivered), old(recvBuf.Contents()), true), chunk)
    {
      recvBuf.Receive(chunk);
      var outcome;
      outcome, reading := HandleRecvComplete(|chunk|, false);
    }

    /** A whole connection: completions are handled until one posts no further receive. What has been dispatched and
        what is buffered are those of the same completions on byte sequences. */
    method ReceiveChunks(chunks: seq<seq<Byte>>) returns (n: nat, reading: bool)
      requires Valid() && delivered == [] && recvBuf.Contents() == [] && Fit(TakeFrame, MAX_LOOP_COUNT, chunks)
      modifies this, recvBuf, recvBuf.buf
      ensures Valid() && n <= |chunks| && (reading ==> n == |chunks|)
      ensures Conn(delivered, recvBuf.Contents(), reading) == ReceiveAll(TakeFrame, MAX_LOOP_COUNT, chunks[..n])
    {
      n, reading := 0, true;
      while n < |chunks| && reading
        invariant Valid() && n <= |chunks|
        invariant Conn(delivered, recvBuf.Contents(), reading) == ReceiveAll(TakeFrame, MAX_LOOP_COUNT, chunks[..n])
      {
        FitNext(TakeFrame, MAX_LOOP_COUNT, chunks, n);
        reading := ReceiveChunk(chunks[n]);
        n := n + 1;
      }
    }

    /** So packets with 1 to 8183 payload bytes arrive through the ring buffer, however their stream is cut. */
    method ReceivePackets(ghost ps: seq<Packet>, chunks: seq<seq<Byte>>) returns (n: nat, reading: bool)
      requires Valid() && delivered == [] && recvBuf.Contents() == [] && Fit(TakeFrame, MAX_LOOP_COUNT, chunks)
      requires Deliverable(ps) && Flat(chunks) <= Stream(Encode(ps))
      modifies this, recvBuf, recvBuf.buf
      ensures Valid() && n == |chunks| && reading && recvBuf.GetFreeSize() > 0
      ensures delivered == ps[..Complete(Encode(ps), |Flat(chunks)|)]
      ensures Flat(chunks) == Stream(Encode(ps)) ==> delivered == ps && recvBuf.Contents() == []
    {
      n, reading := ReceiveChunks(chunks);
      FlatPrefix(chunks, n);
      FitPrefix(TakeFrame, MAX_LOOP_COUNT, chunks, n);
      PacketsArrive(MAX_LOOP_COUNT, ps, Encode(ps), chunks[..n], ReceiveAll(TakeFrame, MAX_LOOP_COUNT, chunks[..n]));
      assert chunks[..|chunks|] == chunks;
    }
  }

  lemma {:induction false} FitPrefix(take: seq<Byte> -> Turn, guard: nat, chunks: seq<seq<Byte>>, n: nat)
    requires Fit(take, guard, chunks) && n <= |chunks|
    ensures Fit(take, guard, chunks[..n])
    decreases |chunks|
  {
    if n == |chunks| {
      assert chunks[..n] == chunks;
    } else {
      FitPrefix(take, guard, chunks[..|chunks| - 1], n);
      assert chunks[..|chunks| - 1][..n] == chunks[..n];
    }
  }

  lemma FitNext(take: seq<Byte> -> Turn, guard: nat, chunks: seq<seq<Byte>>, n: nat)
    requires Fit(take, guard, chunks) && n < |chunks|
    ensures |ReceiveAll(take, guard, chunks[..n]).buffered| + |chunks[n]| <= RECV_CAPACITY
    ensures ReceiveAll(take, guard, chunks[..n + 1]) ==
      Receive(take, guard, ReceiveAll(take, guard, chunks[..n]), chunks[n])
  {
    FitPrefix(take, guard, chunks, n + 1);
    assert chunks[..n + 1][..n] == chunks[..n];
  }

  lemma {:induction false} FlatPrefix(chunks: seq<seq<Byte>>, n: nat)
    requires n <= |chunks|
    ensures Flat(chunks[..n]) <= Flat(chunks)
    decreases |chunks|
  {
    if n == |chunks| {
      assert chunks[..n] == chunks;
    } else {
      FlatPrefix(chunks[..|chunks| - 1], n);
      assert chunks[..|chunks| - 1][..n] == chunks[..n];
    }
  }
}
